# Quotation totals and form validation

A Dafny model of the business logic of a small Django application that keeps
quotations, invoices and payment receipts. It covers two things:

- **Quotation totals** (`management/models.py`). Each quotation line has a
  total of quantity times unit price. `Quotation.calculate_total` adds up the
  line totals of the quotation's items, stores the sum in `total_amount` and
  returns it. Each record also has a `__str__` label.
- **Form validation** (`management/forms.py`). The quotation form accepts a
  tax rate only from 0 to 20 percent, both ends included. It also requires
  `valid_until` to fall strictly after the creation date, which defaults to
  the current time. The item form rejects a quantity or unit price that is not
  positive.

Modules:

- `Wrappers` (wrappers.dfy): `Option` for Python's `None`, and `Result` for a
  value or the validation error it raises.
- `Text` (text.dfy): Python's decimal rendering of integers, with the facts
  needed to read a formatted label back apart.
- `Models` (models.py → models.dfy): the records. `Quotation` is a class,
  because `calculate_total` assigns its `total_amount` field. Items,
  invoices and receipts are datatypes, because nothing updates them in place.
  `Sum` is the specification of the total. The lemmas prove how the total
  behaves when items are added, removed or reordered.
- `Forms` (forms.py → forms.dfy): each `clean*` method as a function that
  returns the cleaned value or the error, keyed to its field. Lemmas connect
  the item checks to the quotation total.

Representation:

- Money is integer hundredths (`Cents`). Every money column has two decimal
  places, so that value is exact.
- Tax rates are `real`. A decimal is an exact rational number, and the
  comparisons with 0.00 and 20.00 are exact comparisons.
- Dates are integer day numbers. The current time is a `DateTime` parameter
  (a date plus a second of the day). `.date()` takes its date part.
- Persistence is not modelled. `self.items.all()` is the in-memory sequence
  `items`, and `self.save()` does nothing.

The model follows the code as written:

- The code computes no labour cost, tax, grand total, year-scoped document
  number or payment status. Only the total in `management/models.py` is
  computed, so none of the rest is modelled.
- The label of a quotation uses its primary key `id`, not `quote_number`. The
  test suite (`management/tests.py:135`) expects `quote_number`.
- `quote_number` is a nullable non-negative integer (`PositiveIntegerField` admits 0), not a `QUOTE-...` string as
  `management/tests.py:30-31` expects.
- `QuotationForm.Meta.fields` lists fields (`client_address`, `tax_rate`,
  `labour_cost`, `status`, `valid_until`, ...) that the `Quotation` model in
  `management/models.py` does not define. With the models as written, the
  form framework raises `FieldError` ("Unknown field(s) ... specified for
  Quotation") when `QuotationForm` is defined, so `clean` never runs. The
  form's validation logic is modelled over those fields as if they existed.
- `date_created` is not one of the form's fields, so even once those fields
  existed, `clean` would always fall back to the current time. A `DateField` value in
  `cleaned_data` would be a plain date, which has no `.date()` method. The
  model therefore takes a present creation value to be a full date-time.

## Model

| member | source | states |
|---|---|---|
| `Text.NatToString` | management/models.py:17 | renders a non-negative integer as a non-empty string of decimal digits with no leading zero (`0` is the single digit `0`) |
| `Text.NatToStringRoundTrip` | management/models.py:17 | reading the rendered digits back gives the original number |
| `Text.IntToString` | management/models.py:29 | renders any integer as digits, with a leading minus sign exactly when the integer is negative, and no leading zero after the sign unless the magnitude is the single digit `0` |
| `Text.IntToStringRoundTrip` | management/models.py:29 | after the optional minus sign come exactly the decimal digits of the integer's magnitude, read back to that magnitude |
| `Text.IntToStringInjective` | management/models.py:29 | different integers render as different strings |
| `Models.Item.ToString` | management/models.py:28-29 | an item's label is its description, then ` (x`, then exactly `str(quantity)` (whose digits `Text.IntToStringRoundTrip` ties to the quantity), then `)` |
| `Models.ItemToStringInjective` | management/models.py:28-29 | two items with the same label have the same description and the same quantity |
| `Models.SplitLineIntoUnits` | management/models.py:25-26 | `Models.Item.TotalPrice` (quantity × unit price in cents) is exact: a line of quantity n totals exactly the same as n lines of quantity one at the same unit price, so the line total is quantity × unit price with no rounding |
| `Models.SumConcat` | management/models.py:11 | the total of two item lists put together is the sum of their totals |
| `Models.SumInsert` | management/models.py:11 | adding one item at any position raises the total by exactly that item's line total |
| `Models.SumRemoveAt` | management/models.py:11 | removing the item at any position lowers the total by exactly that item's line total |
| `Models.SumPermutation` | management/models.py:11 | two item lists with the same elements, in any order, have the same total |
| `Models.SumLineTotals` | management/models.py:11 | the loop's running total equals `Sum`, the line totals added left to right from 0 |
| `Models.Quotation.CalculateTotal` | management/models.py:10-14 | afterwards `total_amount` equals `Sum(items)`, and the returned value is the stored one. An empty quotation gets 0. A total that was already current is left as it was, so a second call changes nothing. Items, client name and email, quote number, id and creation date are unchanged, and nothing else may be written |
| `Models.IdText` | management/models.py:17 | an unassigned primary key renders as `None`; an assigned one renders as digits that read back to the key, with no leading zero; either way the text is non-empty and contains no space |
| `Models.IdTextInjective` | management/models.py:17 | different primary keys, assigned or not, render differently |
| `Models.QuotationLabel` | management/models.py:16-17 | a quotation's label is `Quotation `, then exactly `IdText(id)` (`None` or the key's digits), then ` for `, then the client name. `Models.Quotation.ToString` returns this label for the object's own `id` and `client_name` |
| `Models.QuotationLabelInjective` | management/models.py:16-17 | two labels are equal only when both the primary key and the client name are equal |
| `Models.InvoiceLabelIdentifies` | management/models.py:37-38 | an invoice's label is its invoice number, so in a table whose invoice numbers are unique (the `unique=True` column) two invoices with the same label are the same invoice |
| `Models.ReceiptLabelIdentifies` | management/models.py:47-48 | a receipt's label is its receipt number, so in a table whose receipt numbers are unique (the `unique=True` column) two receipts with the same label are the same receipt |
| `Forms.CleanQuotation` | management/forms.py:29-46 | accepts exactly when the tax rate is absent or in [0, 20] inclusive, and `valid_until` is absent or strictly after the creation date. It then returns the cleaned data unchanged. Any out-of-range rate gives the `tax_rate` error, even when `valid_until` is also bad. Otherwise a failure is the `valid_until` error. With a cleaned creation date, `valid_until` is compared with that date; with none, it is compared with today's date |
| `Forms.CleanQuantity` | management/forms.py:60-64 | accepts exactly an absent or positive quantity and returns it unchanged; otherwise it raises the quantity error |
| `Forms.CleanUnitPrice` | management/forms.py:66-70 | accepts exactly an absent or positive unit price and returns it unchanged; otherwise it raises the unit-price error |
| `Forms.AcceptedLineIsPositive` | management/models.py:25-26 | a line whose quantity and unit price both pass the item form has a line total of at least one cent |
| `Forms.AcceptedItemsTotal` | management/models.py:11 | a quotation made only of accepted lines totals at least one cent per line |
| `Forms.AcceptedItemRaisesTotal` | management/models.py:11 | adding an accepted line at any position strictly raises the quotation total |

## Left out

- Persistence: `self.save()`, the database query behind `self.items.all()`, primary-key assignment on first save, `auto_now_add` dates and cascade deletes are not modelled. Items are an in-memory sequence.
- Models.Sum: Python's decimal context rounds to 28 significant digits. The model treats every product and sum as exact, which holds for any realistic number of lines with 10-digit prices.
- Models.Sum: an empty generator sums to the integer `0`, not to `Decimal('0.00')`. The model does not tell these two apart, because they are equal as values.
- Models.Quotation.CalculateTotal: the column limit (`max_digits=10`) that the database would enforce when saving the total is not modelled.
- Models.Item: the 32-bit range of the `quantity` database column is not modelled; quantities are unbounded integers.
- Models.Quotation.CalculateTotal: since Django 4.1 (the migrations here were generated by Django 5.1.2), `self.items` on an instance whose primary key is `None` raises `ValueError` before anything is summed. The model does not have this error path: for an unsaved quotation (`id == None`) it still stores and returns `Sum(items)`.
- Clock: `timezone.now()` is an explicit `now` parameter. Conversion from the server's time zone to a calendar date is not modelled.
- Delegated validation: required-field checks, email format, and the decimal-places and max-digits checks of the form fields are done by the framework before `clean` runs. They are not modelled.
- Error reporting: `ValidationError` is modelled as a field and a message. How the framework collects and renders it is not modelled.
- `management/views.py`, `management/urls.py`, `management/admin.py` and the migrations: request handling, routing, admin configuration and schema. None of them contains computation.
