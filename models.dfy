/** The quotation, line item, invoice and receipt records and the one
    computation among them: a quotation's total over its line items.
    Money is held in integer hundredths (cents), the exact value of a decimal
    column with two decimal places. */
module Models {
  import opened Wrappers
  import Text

  /** A calendar date, as a day number. */
  type Date = int

  /** An amount of money in hundredths of the currency unit. */
  type Cents = int

  /** One line of a quotation. */
  datatype Item = Item(description: string, quantity: int, unitPrice: Cents) {

    /** The line total: quantity times unit price, exact, with no rounding. */
    function TotalPrice(): Cents {
      quantity * unitPrice
    }

    /** The item's label, its description followed by the quantity as `(x<n>)`. */
    function ToString(): (s: string)
      ensures |s| > |description| + 3 && s[..|description|] == description
      ensures s[|description|..|description| + 3] == " (x" && s[|s| - 1] == ')'
      ensures s[|description| + 3..|s| - 1] == Text.IntToString(quantity)
    {
      description + " (x" + Text.IntToString(quantity) + ")"
    }
  }

  /** The sum of the line totals of `items`, added left to right from 0. */
  function Sum(items: seq<Item>): Cents {
    if items == [] then 0 else Sum(items[..|items| - 1]) + items[|items| - 1].TotalPrice()
  }

  /** The total of two item lists put together is the sum of their totals. */
  lemma {:induction false} SumConcat(s: seq<Item>, t: seq<Item>)
    ensures Sum(s + t) == Sum(s) + Sum(t)
  {
    if t != [] {
      assert (s + t)[..|s + t| - 1] == s + t[..|t| - 1];
      SumConcat(s, t[..|t| - 1]);
    } else {
      assert s + t == s;
    }
  }

  /** Adding one item, at any position, raises the total by exactly its line total. */
  lemma {:induction false} SumInsert(s: seq<Item>, k: nat, x: Item)
    requires k <= |s|
    ensures Sum(s[..k] + [x] + s[k..]) == Sum(s) + x.TotalPrice()
  {
    var front, back := s[..k], s[k..];
    assert Sum(front + [x]) == Sum(front) + x.TotalPrice() by {
      assert (front + [x])[..|front|] == front;
    }
    assert Sum(front + [x] + back) == Sum(front + [x]) + Sum(back) by {
      SumConcat(front + [x], back);
    }
    assert Sum(s) == Sum(front) + Sum(back) by {
      assert front + back == s;
      SumConcat(front, back);
    }
  }

  /** Taking out the element at `j` leaves the other elements, with their multiplicities. */
  lemma {:induction false} MultisetRemoveAt(t: seq<Item>, j: nat)
    requires j < |t|
    ensures multiset(t[..j] + t[j + 1..]) == multiset(t) - multiset{t[j]}
  {
    assert t == t[..j] + [t[j]] + t[j + 1..];
    assert multiset(t) == multiset(t[..j]) + multiset{t[j]} + multiset(t[j + 1..]);
  }

  /** Taking out the element at `j` lowers the total by its line total. */
  lemma {:induction false} SumRemoveAt(t: seq<Item>, j: nat)
    requires j < |t|
    ensures Sum(t) == Sum(t[..j] + t[j + 1..]) + t[j].TotalPrice()
  {
    var rest := t[..j] + t[j + 1..];
    assert rest[..j] + [t[j]] + rest[j..] == t by {
      assert rest[..j] == t[..j] && rest[j..] == t[j + 1..];
    }
    SumInsert(rest, j, t[j]);
  }

  /** The total does not depend on the order in which the items come. */
  lemma {:induction false} SumPermutation(s: seq<Item>, t: seq<Item>)
    requires multiset(s) == multiset(t)
    ensures Sum(s) == Sum(t)
    decreases |s|
  {
    if s == [] {
      assert |t| == |multiset(t)| == 0;
    } else {
      var n := |s| - 1;
      assert s[n] in multiset(t);
      var j :| 0 <= j < |t| && t[j] == s[n];
      SumRemoveAt(s, n);
      SumRemoveAt(t, j);
      MultisetRemoveAt(s, n);
      MultisetRemoveAt(t, j);
      assert s[..n] + s[n + 1..] == s[..n];
      SumPermutation(s[..n], t[..j] + t[j + 1..]);
    }
  }

  /** `n` copies of one item. */
  function Repeat(x: Item, n: nat): (r: seq<Item>)
    ensures |r| == n
  {
    if n == 0 then [] else Repeat(x, n - 1) + [x]
  }

  /** Splitting a line of quantity `n` into `n` lines of quantity one leaves the
      total unchanged. */
  lemma {:induction false} SplitLineIntoUnits(x: Item, n: nat)
    requires x.quantity == n
    ensures Sum(Repeat(x.(quantity := 1), n)) == x.TotalPrice()
    decreases n
  {
    if n > 0 {
      var unit := x.(quantity := 1);
      var rest := x.(quantity := n - 1);
      assert rest.(quantity := 1) == unit;
      SplitLineIntoUnits(rest, n - 1);
      assert Repeat(unit, n)[..n - 1] == Repeat(unit, n - 1);
      assert Sum(Repeat(unit, n)) == (n - 1) * x.unitPrice + x.unitPrice;
    }
  }

  /** `sum(item.total_price() for item in items)`. */
  method SumLineTotals(items: seq<Item>) returns (total: Cents)
    ensures total == Sum(items)
  {
    total := 0;
    for i := 0 to |items|
      invariant total == Sum(items[..i])
    {
      assert items[..i + 1][..i] == items[..i];
      total := total + items[i].TotalPrice();
    }
    assert items[..|items|] == items;
  }

  /** The text Python writes for a primary key that may not be assigned yet. */
  function IdText(id: Option<nat>): (s: string)
    ensures id.None? ==> s == "None"
    ensures id.Some? ==> Text.AllDigits(s) && Text.DigitsValue(s) == id.value
    ensures |s| >= 1 && ' ' !in s
    ensures id.Some? && s[0] == '0' ==> s == "0"
  {
    match id
    case None => "None"
    case Some(n) =>
      Text.NatToStringRoundTrip(n);
      Text.NatToString(n)
  }

  lemma IdTextInjective(a: Option<nat>, b: Option<nat>)
    ensures IdText(a) == IdText(b) ==> a == b
  {
  }

  /** `Quotation <id> for <client name>`. */
  function QuotationLabel(id: Option<nat>, clientName: string): (s: string)
    ensures |s| >= 16 + |clientName|
    ensures s[..10] == "Quotation " && s[|s| - |clientName|..] == clientName
    ensures s[10..|s| - |clientName|] == IdText(id) + " for "
  {
    "Quotation " + (IdText(id) + (" for " + clientName))
  }

  /** The label identifies the primary key and the client name. */
  lemma {:induction false} QuotationLabelInjective(id1: Option<nat>, name1: string, id2: Option<nat>, name2: string)
    ensures QuotationLabel(id1, name1) == QuotationLabel(id2, name2) ==> id1 == id2 && name1 == name2
  {
    if QuotationLabel(id1, name1) == QuotationLabel(id2, name2) {
      var i1, i2 := IdText(id1), IdText(id2);
      var f1, f2 := " for " + name1, " for " + name2;
      assert QuotationLabel(id1, name1)[10..] == i1 + f1;
      assert QuotationLabel(id2, name2)[10..] == i2 + f2;
      Text.SplitAtFirst(i1, f1, i2, f2, ' ');
      assert name1 == f1[5..] && name2 == f2[5..];
      IdTextInjective(id1, id2);
    }
  }

  /** A quotation: client details, its line items and its stored total.
      `items` is the in-memory view of the related `QuotationItem` rows. */
  class Quotation {
    var id: Option<nat>
    var quoteNumber: Option<nat>
    var clientName: string
    var clientEmail: Option<string>
    var dateCreated: Date
    var totalAmount: Cents
    var items: seq<Item>

    constructor (id: Option<nat>, quoteNumber: Option<nat>, clientName: string,
                 clientEmail: Option<string>, dateCreated: Date, totalAmount: Cents,
                 items: seq<Item>)
      ensures this.id == id && this.quoteNumber == quoteNumber
      ensures this.clientName == clientName && this.clientEmail == clientEmail
      ensures this.dateCreated == dateCreated && this.totalAmount == totalAmount
      ensures this.items == items
    {
      this.id := id;
      this.quoteNumber := quoteNumber;
      this.clientName := clientName;
      this.clientEmail := clientEmail;
      this.dateCreated := dateCreated;
      this.totalAmount := totalAmount;
      this.items := items;
    }

    /** The stored total agrees with the current items. */
    predicate TotalIsCurrent()
      reads this
    {
      totalAmount == Sum(items)
    }

    /** Recomputes the total from the items, stores it and returns it.
        Saving the record is not modelled; nothing but the total changes. */
    method CalculateTotal() returns (total: Cents)
      modifies this`totalAmount
      ensures TotalIsCurrent() && total == totalAmount
      ensures items == [] ==> total == 0
      ensures old(TotalIsCurrent()) ==> totalAmount == old(totalAmount)
      ensures items == old(items) && clientName == old(clientName)
      ensures clientEmail == old(clientEmail) && quoteNumber == old(quoteNumber)
      ensures id == old(id) && dateCreated == old(dateCreated)
    {
      total := SumLineTotals(items);
      totalAmount := total;
    }

    /** The quotation's label, built from its primary key (not its quote number). */
    function ToString(): string
      reads this
    {
      QuotationLabel(id, clientName)
    }
  }

  /** `<d> (x<t>)` determines `d` and `t` when `t` has no `x` in it. */
  lemma {:induction false} ItemLabelSplit(d1: string, t1: string, d2: string, t2: string)
    requires 'x' !in t1 && 'x' !in t2
    requires d1 + " (x" + t1 + ")" == d2 + " (x" + t2 + ")"
    ensures d1 == d2 && t1 == t2
  {
    var la, ra := d1 + " (x", t1 + ")";
    var lb, rb := d2 + " (x", t2 + ")";
    assert d1 + " (x" + t1 + ")" == la + ra;
    assert d2 + " (x" + t2 + ")" == lb + rb;
    Text.SplitAtLast(la, ra, lb, rb, 'x');
    assert d1 == la[..|d1|] && d2 == lb[..|d2|];
    assert t1 == ra[..|t1|] && t2 == rb[..|t2|];
  }

  /** The item label identifies the description and the quantity. */
  lemma {:induction false} ItemToStringInjective(a: Item, b: Item)
    ensures a.ToString() == b.ToString() ==> a.description == b.description && a.quantity == b.quantity
  {
    if a.ToString() == b.ToString() {
      Text.NotInIntToString(a.quantity, 'x');
      Text.NotInIntToString(b.quantity, 'x');
      ItemLabelSplit(a.description, Text.IntToString(a.quantity), b.description, Text.IntToString(b.quantity));
      Text.IntToStringInjective(a.quantity, b.quantity);
    }
  }

  /** An invoice raised for a quotation (the foreign key is the quotation's id). */
  datatype Invoice = Invoice(invoiceNumber: string, quotation: nat, dateCreated: Date, totalAmount: Cents) {

    /** The invoice's label is its invoice number. */
    function ToString(): (s: string)
      ensures s == invoiceNumber
    {
      invoiceNumber
    }
  }

  /** A payment against an invoice (the foreign key is the invoice's id). */
  datatype Receipt = Receipt(receiptNumber: string, invoice: nat, amountPaid: Cents,
                             dateCreated: Date, description: string) {

    /** The receipt's label is its receipt number. */
    function ToString(): (s: string)
      ensures s == receiptNumber
    {
      receiptNumber
    }
  }

  /** Under the unique `invoice_number` column, an invoice's label picks out
      exactly one invoice of the table. */
  lemma InvoiceLabelIdentifies(table: seq<Invoice>, a: nat, b: nat)
    requires a < |table| && b < |table|
    requires forall i, j :: 0 <= i < |table| && 0 <= j < |table| && i != j ==>
               table[i].invoiceNumber != table[j].invoiceNumber
    ensures table[a].ToString() == table[b].ToString() ==> a == b
  {
  }

  /** Under the unique `receipt_number` column, a receipt's label picks out
      exactly one receipt of the table. */
  lemma ReceiptLabelIdentifies(table: seq<Receipt>, a: nat, b: nat)
    requires a < |table| && b < |table|
    requires forall i, j :: 0 <= i < |table| && 0 <= j < |table| && i != j ==>
               table[i].receiptNumber != table[j].receiptNumber
    ensures table[a].ToString() == table[b].ToString() ==> a == b
  {
  }
}
