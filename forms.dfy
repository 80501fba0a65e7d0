/** The validation the quotation form and the quotation item form add on top
    of the field-level checks the form framework performs. Each check takes the
    already-cleaned values and either returns them or raises a field error. */
module Forms {
  import opened Wrappers
  import Models

  /** The form fields a validation error can be attached to. */
  datatype Field = TaxRate | ValidUntil | Quantity | UnitPrice

  datatype ValidationError = ValidationError(field: Field, message: string)

  const TaxRateMessage := "Tax rate must be between 0% and 20%."
  const ValidUntilMessage := "The valid until date must be after the date created."
  const QuantityMessage := "Quantity must be a positive integer."
  const UnitPriceMessage := "Unit price must be a positive number."

  /** A moment in time: its calendar date and the second within that day. */
  datatype DateTime = DateTime(date: Models.Date, secondOfDay: nat)

  /** The quotation form's cleaned data. A key missing from the dictionary, or
      holding `None`, is `None` here. Tax rates are exact decimals, so `real`. */
  datatype QuotationData = QuotationData(
    clientName: Option<string>,
    clientEmail: Option<string>,
    clientAddress: Option<string>,
    clientPhoneNumber: Option<string>,
    taxRate: Option<real>,
    labourCost: Option<real>,
    status: Option<string>,
    dateCreated: Option<DateTime>,
    validUntil: Option<Models.Date>)

  /** A tax rate the form accepts: absent, or a percentage from 0 to 20, both ends included. */
  predicate TaxRateAllowed(rate: Option<real>) {
    match rate
    case None => true
    case Some(t) => 0.0 <= t <= 20.0
  }

  /** A validity date the form accepts: absent, or a day strictly after `created`. */
  predicate ValidUntilAllowed(validUntil: Option<Models.Date>, created: Models.Date) {
    match validUntil
    case None => true
    case Some(d) => created < d
  }

  /** The moment `valid_until` is compared with: the cleaned creation time, or `now` without one. */
  function CreationMoment(data: QuotationData, now: DateTime): (m: DateTime)
    ensures data.dateCreated.Some? ==> m == data.dateCreated.value
    ensures data.dateCreated.None? ==> m == now
  {
    match data.dateCreated
    case Some(created) => created
    case None => now
  }

  /** `QuotationForm.clean`: the tax-rate check, then the validity-date check;
      the first that fails raises, and data that passes both comes back as it was. */
  function CleanQuotation(data: QuotationData, now: DateTime): (r: Result<QuotationData, ValidationError>)
    ensures r.Ok? <==> TaxRateAllowed(data.taxRate) &&
                       ValidUntilAllowed(data.validUntil, CreationMoment(data, now).date)
    ensures r.Ok? ==> r.value == data
    ensures !TaxRateAllowed(data.taxRate) ==> r == Err(ValidationError(TaxRate, TaxRateMessage))
    ensures TaxRateAllowed(data.taxRate) && r.Err? ==> r == Err(ValidationError(ValidUntil, ValidUntilMessage))
    ensures data.dateCreated.None? && data.validUntil.Some? && TaxRateAllowed(data.taxRate) ==>
              (r.Ok? <==> now.date < data.validUntil.value)
    ensures data.dateCreated.Some? && data.validUntil.Some? && TaxRateAllowed(data.taxRate) ==>
              (r.Ok? <==> data.dateCreated.value.date < data.validUntil.value)
  {
    var created := CreationMoment(data, now);
    if data.taxRate.Some? && (data.taxRate.value < 0.0 || data.taxRate.value > 20.0) then
      Err(ValidationError(TaxRate, TaxRateMessage))
    else if data.validUntil.Some? && data.validUntil.value <= created.date then
      Err(ValidationError(ValidUntil, ValidUntilMessage))
    else
      Ok(data)
  }

  /** `QuotationItemForm.clean_quantity`: an absent or positive quantity passes unchanged. */
  function CleanQuantity(quantity: Option<int>): (r: Result<Option<int>, ValidationError>)
    ensures r.Ok? <==> (quantity.None? || quantity.value > 0)
    ensures r.Ok? ==> r.value == quantity
    ensures r.Err? ==> r.error == ValidationError(Quantity, QuantityMessage)
  {
    if quantity.Some? && quantity.value <= 0 then
      Err(ValidationError(Quantity, QuantityMessage))
    else
      Ok(quantity)
  }

  /** `QuotationItemForm.clean_unit_price`: an absent or positive price passes unchanged. */
  function CleanUnitPrice(unitPrice: Option<Models.Cents>): (r: Result<Option<Models.Cents>, ValidationError>)
    ensures r.Ok? <==> (unitPrice.None? || unitPrice.value > 0)
    ensures r.Ok? ==> r.value == unitPrice
    ensures r.Err? ==> r.error == ValidationError(UnitPrice, UnitPriceMessage)
  {
    if unitPrice.Some? && unitPrice.value <= 0 then
      Err(ValidationError(UnitPrice, UnitPriceMessage))
    else
      Ok(unitPrice)
  }

  /** A line whose quantity and unit price both pass the item form. */
  predicate ItemAccepted(x: Models.Item) {
    CleanQuantity(Some(x.quantity)).Ok? && CleanUnitPrice(Some(x.unitPrice)).Ok?
  }

  /** A line the item form accepts has a line total of at least one cent. */
  lemma AcceptedLineIsPositive(x: Models.Item)
    requires ItemAccepted(x)
    ensures x.TotalPrice() >= 1
  {
  }

  /** A quotation made only of accepted lines totals at least one cent per line. */
  lemma {:induction false} AcceptedItemsTotal(items: seq<Models.Item>)
    requires forall i :: 0 <= i < |items| ==> ItemAccepted(items[i])
    ensures Models.Sum(items) >= |items|
  {
    if items != [] {
      AcceptedItemsTotal(items[..|items| - 1]);
      AcceptedLineIsPositive(items[|items| - 1]);
    }
  }

  /** Adding an accepted line anywhere strictly raises the quotation total. */
  lemma AcceptedItemRaisesTotal(items: seq<Models.Item>, k: nat, x: Models.Item)
    requires k <= |items| && ItemAccepted(x)
    ensures Models.Sum(items[..k] + [x] + items[k..]) > Models.Sum(items)
  {
    Models.SumInsert(items, k, x);
    AcceptedLineIsPositive(x);
  }
}
