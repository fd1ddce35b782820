/** The point-of-sale side: turning uniCenta receipts, tickets, ticket lines,
    payments and tax categories into canonical sales, and the validation a
    sale must pass before it is kept. The database tables are given as
    sequences of rows; a timestamp is an abstract integer on which `<` is the
    order of time. */
module Unicenta {
  import opened Common

  // ---------------------------------------------------------------------------
  // Raw rows

  datatype Receipt = Receipt(id: string, date: int)
  datatype Ticket = Ticket(id: string, ticketId: int)
  /** One `<entry key="...">text</entry>` element of a ticket line's attribute document. */
  datatype Entry = Entry(key: string, text: string)
  datatype TicketLine = TicketLine(ticket: string, line: int, price: real, units: real, attributes: seq<Entry>)
  datatype PaymentRow = PaymentRow(receipt: string, payment: string, total: real, transId: string)
  datatype Tax = Tax(category: string, rate: real)

  /** The five tables as downloaded. */
  datatype Store = Store(
    tickets: seq<Ticket>,
    lines: seq<TicketLine>,
    receipts: seq<Receipt>,
    payments: seq<PaymentRow>,
    taxes: seq<Tax>)

  // ---------------------------------------------------------------------------
  // Canonical sale

  /** A product line of a sale; `taxRate` and `description` are only present
      when the line's attributes carry the corresponding entry. */
  datatype Product = Product(number: int, priceExcl: real, quantity: real, taxRate: Option<real>, description: Option<string>)
  datatype Payment = Payment(paymentMethod: string, amount: real, transactionId: string)
  datatype Sale = Sale(date: int, reference: string, products: seq<Product>, payments: seq<Payment>)

  const TaxCategoryKey: string := "product.taxcategoryid"
  const NameKey: string := "product.name"
  const ReferencePrefix: string := "POS verkoop "

  // ---------------------------------------------------------------------------
  // LookupTaxrate

  /** Index of the first tax row of `category`, or |taxes| when there is none:
      the same first-match rule the ledger-side name lookups follow
      (`MoneybirdLookup.FirstNamed`). */
  function FirstTax(taxes: seq<Tax>, category: string): (k: nat)
    ensures k <= |taxes|
    ensures forall j :: 0 <= j < k ==> taxes[j].category != category
    ensures k < |taxes| ==> taxes[k].category == category
  {
    if taxes == [] then 0
    else if taxes[0].category == category then 0
    else 1 + FirstTax(taxes[1..], category)
  }

  function TaxRateOf(taxes: seq<Tax>, category: string): Result<real>
  {
    var k := FirstTax(taxes, category);
    if k < |taxes| then Ok(taxes[k].rate) else Err(NotFound("tax category", category))
  }

  /** The rate of the first tax row whose category is `category`; no such row is fatal. */
  method LookupTaxrate(taxes: seq<Tax>, category: string) returns (r: Result<real>)
    ensures r == TaxRateOf(taxes, category)
    ensures r.Ok? <==> exists i :: 0 <= i < |taxes| && taxes[i].category == category
    ensures r.Ok? ==> exists i :: 0 <= i < |taxes| && taxes[i].category == category && taxes[i].rate == r.value
    ensures r.Err? ==> r.error == NotFound("tax category", category)
  {
    for i := 0 to |taxes|
      invariant forall j :: 0 <= j < i ==> taxes[j].category != category
    {
      if taxes[i].category == category {
        return Ok(taxes[i].rate);
      }
    }
    return Err(NotFound("tax category", category));
  }

  // ---------------------------------------------------------------------------
  // The payment method filter: comma-separated, each item stripped

  /** `s.split(',')`: at least one part, the parts joined by ',' give back `s`. */
  function Split(s: string): (parts: seq<string>)
    ensures |parts| >= 1
    ensures forall k :: 0 <= k < |parts| ==> ',' !in parts[k]
  {
    if |s| == 0 then [""]
    else
      var rest := Split(s[1..]);
      if s[0] == ',' then [""] + rest
      else [[s[0]] + rest[0]] + rest[1..]
  }

  /** `sep.join(parts)` for sep ','. */
  function Join(parts: seq<string>): string
    requires |parts| >= 1
  {
    if |parts| == 1 then parts[0] else parts[0] + "," + Join(parts[1..])
  }

  lemma {:induction false} SplitJoin(s: string)
    ensures Join(Split(s)) == s
  {
    if |s| > 0 {
      SplitJoin(s[1..]);
      var rest := Split(s[1..]);
      if s[0] == ',' {
        assert Split(s)[1..] == rest;
        assert s == [','] + s[1..];
      } else {
        var parts := Split(s);
        assert parts[0] == [s[0]] + rest[0];
        assert parts[1..] == rest[1..];
        if |rest| == 1 {
          assert s == [s[0]] + rest[0];
        } else {
          assert Join(rest) == rest[0] + "," + Join(rest[1..]);
          assert s == [s[0]] + s[1..];
        }
      }
    }
  }

  /** The ASCII characters `str.strip()` removes: space, tab, line feed,
      carriage return, vertical tab, form feed and the separators U+001C to
      U+001F. */
  predicate IsSpace(c: char)
  {
    c == ' ' || c == '\t' || c == '\n' || c == '\r' || c == '\U{000B}' || c == '\U{000C}'
    || ('\U{001C}' <= c <= '\U{001F}')
  }

  function LeadingSpaces(s: string): (n: nat)
    ensures n <= |s|
    ensures forall k :: 0 <= k < n ==> IsSpace(s[k])
    ensures n < |s| ==> !IsSpace(s[n])
  {
    if |s| > 0 && IsSpace(s[0]) then 1 + LeadingSpaces(s[1..]) else 0
  }

  function TrailingSpaces(s: string): (n: nat)
    ensures n <= |s|
    ensures forall k :: |s| - n <= k < |s| ==> IsSpace(s[k])
    ensures n < |s| ==> !IsSpace(s[|s| - 1 - n])
  {
    if |s| > 0 && IsSpace(s[|s| - 1]) then 1 + TrailingSpaces(s[..|s| - 1]) else 0
  }

  /** `s.strip()`: the middle of `s` between its leading and trailing whitespace. */
  function Strip(s: string): (r: string)
    ensures |r| > 0 ==> !IsSpace(r[0]) && !IsSpace(r[|r| - 1])
    ensures exists i, j ::
              && 0 <= i <= j <= |s| && r == s[i..j]
              && (forall k :: 0 <= k < i ==> IsSpace(s[k]))
              && (forall k :: j <= k < |s| ==> IsSpace(s[k]))
  {
    var i := LeadingSpaces(s);
    var t := s[i..];
    var j := |t| - TrailingSpaces(t);
    assert t[..j] == s[i..i + j];
    t[..j]
  }

  /** `payment_method_filter_items`: one stripped item per comma-separated part. */
  method FilterItems(filter: string) returns (items: seq<string>)
    ensures |items| == |Split(filter)|
    ensures forall k :: 0 <= k < |items| ==> items[k] == Strip(Split(filter)[k])
  {
    var parts := Split(filter);
    items := [];
    for i := 0 to |parts|
      invariant |items| == i
      invariant forall k :: 0 <= k < i ==> items[k] == Strip(parts[k])
    {
      items := items + [Strip(parts[i])];
    }
  }

  predicate InFilter(m: string, filter: string)
  {
    exists k :: 0 <= k < |Split(filter)| && Strip(Split(filter)[k]) == m
  }

  /** No filter configured, or every payment's method is a filter item. */
  predicate MethodsAllowed(filter: Option<string>, payments: seq<Payment>)
  {
    filter.None? || forall k :: 0 <= k < |payments| ==> InFilter(payments[k].paymentMethod, filter.value)
  }

  // ---------------------------------------------------------------------------
  // Totals

  predicate AllTaxed(products: seq<Product>)
  {
    forall k :: 0 <= k < |products| ==> products[k].taxRate.Some?
  }

  function LineTotal(p: Product): real
    requires p.taxRate.Some?
  {
    p.priceExcl * (1.0 + p.taxRate.value) * p.quantity
  }

  /** Sum of priceexcl * (1 + taxrate) * quantity over the products. */
  function ProductsTotal(products: seq<Product>): real
    requires AllTaxed(products)
  {
    if products == [] then 0.0
    else ProductsTotal(products[..|products| - 1]) + LineTotal(products[|products| - 1])
  }

  function PaymentsTotal(payments: seq<Payment>): real
  {
    if payments == [] then 0.0
    else PaymentsTotal(payments[..|payments| - 1]) + payments[|payments| - 1].amount
  }

  lemma {:induction false} PaymentsTotalAppend(a: seq<Payment>, b: seq<Payment>)
    ensures PaymentsTotal(a + b) == PaymentsTotal(a) + PaymentsTotal(b)
    decreases |b|
  {
    if b != [] {
      var b' := b[..|b| - 1];
      assert (a + b)[..|a + b| - 1] == a + b';
      PaymentsTotalAppend(a, b');
    } else {
      assert a + b == a;
    }
  }

  // ---------------------------------------------------------------------------
  // validateCustomSale

  /** The outcome of `validateCustomSale`: the method filter runs first and
      rejects without looking at amounts; then a product without a tax rate
      ends the run; otherwise the totals must agree within Epsilon. */
  function Validation(filter: Option<string>, sale: Sale): (r: Result<bool>)
    ensures !MethodsAllowed(filter, sale.payments) ==> r == Ok(false)
    ensures r.Err? <==> MethodsAllowed(filter, sale.payments) && !AllTaxed(sale.products)
    ensures r == Ok(true) <==>
              MethodsAllowed(filter, sale.payments) && AllTaxed(sale.products)
              && NumericEqual(ProductsTotal(sale.products), PaymentsTotal(sale.payments))
  {
    if !MethodsAllowed(filter, sale.payments) then Ok(false)
    else if !AllTaxed(sale.products) then Err(MissingTaxRate(sale.reference))
    else Ok(NumericEqual(ProductsTotal(sale.products), PaymentsTotal(sale.payments)))
  }

  /** The filter half of `validateCustomSale`: every payment's method is a filter item. */
  method PaymentsPassFilter(filter: string, payments: seq<Payment>) returns (ok: bool)
    ensures ok <==> MethodsAllowed(Some(filter), payments)
  {
    var items := FilterItems(filter);
    for i := 0 to |payments|
      invariant forall k :: 0 <= k < i ==> InFilter(payments[k].paymentMethod, filter)
    {
      if payments[i].paymentMethod !in items {
        return false;
      }
    }
    return true;
  }

  /** `total_amount_products`, accumulated line by line; a line without a tax rate ends the run. */
  method SumProducts(products: seq<Product>, reference: string) returns (r: Result<real>)
    ensures r.Ok? <==> AllTaxed(products)
    ensures r.Ok? ==> r.value == ProductsTotal(products)
    ensures r.Err? ==> r.error == MissingTaxRate(reference)
  {
    var total := 0.0;
    for i := 0 to |products|
      invariant AllTaxed(products[..i])
      invariant total == ProductsTotal(products[..i])
    {
      if products[i].taxRate.None? {
        return Err(MissingTaxRate(reference));
      }
      assert products[..i + 1][..i] == products[..i];
      total := total + LineTotal(products[i]);
    }
    assert products[..|products|] == products;
    return Ok(total);
  }

  /** `total_amount_payments`, accumulated payment by payment. */
  method SumPayments(payments: seq<Payment>) returns (total: real)
    ensures total == PaymentsTotal(payments)
  {
    total := 0.0;
    for i := 0 to |payments|
      invariant total == PaymentsTotal(payments[..i])
    {
      assert payments[..i + 1][..i] == payments[..i];
      total := total + payments[i].amount;
    }
    assert payments[..|payments|] == payments;
  }

  method ValidateCustomSale(filter: Option<string>, sale: Sale) returns (r: Result<bool>)
    ensures r == Validation(filter, sale)
  {
    if filter.Some? {
      var ok := PaymentsPassFilter(filter.value, sale.payments);
      if !ok {
        return Ok(false);
      }
    }
    var totalProducts := SumProducts(sale.products, sale.reference);
    if totalProducts.Err? {
      return Err(totalProducts.error);
    }
    var totalPayments := SumPayments(sale.payments);
    r := Ok(NumericEqual(totalProducts.value, totalPayments));
  }

  /** A sale with neither products nor payments balances, whatever the filter. */
  lemma EmptySaleIsValid(filter: Option<string>, date: int, reference: string)
    ensures Validation(filter, Sale(date, reference, [], [])) == Ok(true)
  {
  }

  /** The tolerance at work on one-line sales. */
  lemma ValidationTolerance()
    ensures Validation(None, Sale(0, "r", [Product(1, 10.000000005, 1.0, Some(0.0), None)], [Payment("cash", 10.0, "t")])) == Ok(true)
    ensures Validation(None, Sale(0, "r", [Product(1, 10.1, 1.0, Some(0.0), None)], [Payment("cash", 10.0, "t")])) == Ok(false)
  {
    var p1 := [Product(1, 10.000000005, 1.0, Some(0.0), None)];
    var p2 := [Product(1, 10.1, 1.0, Some(0.0), None)];
    var q := [Payment("cash", 10.0, "t")];
    assert p1[..0] == [] && p2[..0] == [] && q[..0] == [];
    assert ProductsTotal(p1) == 10.000000005;
    assert ProductsTotal(p2) == 10.1;
    assert PaymentsTotal(q) == 10.0;
  }

  /** A payment method outside the configured filter rejects the sale. */
  lemma FilterRejects(filter: string, sale: Sale, k: nat)
    requires k < |sale.payments|
    requires forall j :: 0 <= j < |Split(filter)| ==> Strip(Split(filter)[j]) != sale.payments[k].paymentMethod
    ensures Validation(Some(filter), sale) == Ok(false)
  {
    assert !InFilter(sale.payments[k].paymentMethod, filter);
  }

  // ---------------------------------------------------------------------------
  // The reference: "POS verkoop <ticketid>"

  function DigitChar(d: int): char
    requires 0 <= d < 10
  {
    (48 + d) as char
  }

  /** Decimal digits of `n`, as `"{0}".format(n)` writes them. */
  function NatToString(n: nat): (s: string)
    ensures |s| >= 1
    ensures n < 10 <==> |s| == 1
    ensures forall k :: 0 <= k < |s| ==> '0' <= s[k] <= '9'
  {
    if n < 10 then [DigitChar(n)] else NatToString(n / 10) + [DigitChar(n % 10)]
  }

  /** The number a string of decimal digits denotes, most significant digit first. */
  function DecimalValue(s: string): nat
    requires forall k :: 0 <= k < |s| ==> '0' <= s[k] <= '9'
  {
    if s == [] then 0 else 10 * DecimalValue(s[..|s| - 1]) + (s[|s| - 1] as int - '0' as int)
  }

  /** Reading the digits back gives `n`, and only 0 is written with a leading '0'. */
  lemma {:induction false} NatToStringValue(n: nat)
    ensures DecimalValue(NatToString(n)) == n
    ensures NatToString(n)[0] == '0' <==> n == 0
    decreases n
  {
    var s := NatToString(n);
    if n >= 10 {
      NatToStringValue(n / 10);
      assert s[..|s| - 1] == NatToString(n / 10);
      assert s[0] == NatToString(n / 10)[0];
    }
  }

  function IntToString(i: int): (s: string)
    ensures |s| >= 1 && (s[0] == '-' <==> i < 0)
    ensures forall k :: (if i < 0 then 1 else 0) <= k < |s| ==> '0' <= s[k] <= '9'
  {
    if i < 0 then "-" + NatToString(-i) else NatToString(i)
  }

  /** A non-negative id is written as its digits, a negative one as '-'
      followed by the digits of its magnitude. */
  lemma IntToStringValue(i: int)
    ensures i >= 0 ==> DecimalValue(IntToString(i)) == i
    ensures i < 0 ==> DecimalValue(IntToString(i)[1..]) == -i
  {
    if i < 0 {
      NatToStringValue(-i);
      assert IntToString(i)[1..] == NatToString(-i);
    } else {
      NatToStringValue(i);
    }
  }

  /** `"POS verkoop {0}".format(ticketid)`: the prefix, then the id as
      `IntToString` writes it. */
  function Reference(ticketId: int): (r: string)
    ensures |r| > |ReferencePrefix| && r[..|ReferencePrefix|] == ReferencePrefix
    ensures r[|ReferencePrefix|..] == IntToString(ticketId)
  {
    ReferencePrefix + IntToString(ticketId)
  }

  /** After the prefix comes the id in decimal: its digits for a non-negative
      id, a minus sign and the digits of its magnitude for a negative one. */
  lemma ReferenceValue(ticketId: int)
    ensures var digits := Reference(ticketId)[|ReferencePrefix|..];
            && (ticketId >= 0 ==> DecimalValue(digits) == ticketId)
            && (ticketId < 0 ==> digits[0] == '-' && DecimalValue(digits[1..]) == -ticketId)
  {
    IntToStringValue(ticketId);
  }

  lemma {:induction false} NatToStringInjective(a: nat, b: nat)
    requires NatToString(a) == NatToString(b)
    ensures a == b
    decreases a
  {
    var s := NatToString(a);
    if a >= 10 && b >= 10 {
      assert s[|s| - 1] == DigitChar(a % 10) && s[|s| - 1] == DigitChar(b % 10);
      assert NatToString(a / 10) == s[..|s| - 1] == NatToString(b / 10);
      NatToStringInjective(a / 10, b / 10);
    } else if a < 10 && b < 10 {
      assert s[0] == DigitChar(a) && s[0] == DigitChar(b);
    }
  }

  lemma IntToStringInjective(a: int, b: int)
    requires IntToString(a) == IntToString(b)
    ensures a == b
  {
    var s := IntToString(a);
    if a < 0 && b < 0 {
      assert NatToString(-a) == s[1..] == NatToString(-b);
      NatToStringInjective(-a, -b);
    } else if a >= 0 && b >= 0 {
      NatToStringInjective(a, b);
    }
  }

  /** Distinct ticket numbers give distinct references, so the reference
      identifies the ticket in the ledger. */
  lemma ReferenceInjective(a: int, b: int)
    requires Reference(a) == Reference(b)
    ensures a == b
  {
    assert IntToString(a) == Reference(a)[|ReferencePrefix|..] == IntToString(b);
    IntToStringInjective(a, b);
  }

  // ---------------------------------------------------------------------------
  // Product lines

  /** The attribute entries applied in document order: a tax category entry
      resolves and sets the tax rate (a missing category ends the run), a name
      entry sets the description; a later entry overrides an earlier one. */
  function ApplyEntries(entries: seq<Entry>, taxes: seq<Tax>, p: Product): Result<Product>
    decreases |entries|
  {
    if entries == [] then Ok(p)
    else
      var e := entries[0];
      var withRate :- if e.key == TaxCategoryKey
                      then (var rate :- TaxRateOf(taxes, e.text); Ok(p.(taxRate := Some(rate))))
                      else Ok(p);
      var withName := if e.key == NameKey then withRate.(description := Some(e.text)) else withRate;
      ApplyEntries(entries[1..], taxes, withName)
  }

  function ProductOf(line: TicketLine, taxes: seq<Tax>): Result<Product>
  {
    ApplyEntries(line.attributes, taxes, Product(line.line, line.price, line.units, None, None))
  }

  lemma {:induction false} ApplyEntriesFields(entries: seq<Entry>, taxes: seq<Tax>, p: Product)
    ensures ApplyEntries(entries, taxes, p).Ok? ==>
              var q := ApplyEntries(entries, taxes, p).value;
              q.number == p.number && q.priceExcl == p.priceExcl && q.quantity == p.quantity
              && (q.taxRate.Some? <==> p.taxRate.Some? || exists k :: 0 <= k < |entries| && entries[k].key == TaxCategoryKey)
              && (q.description.Some? <==> p.description.Some? || exists k :: 0 <= k < |entries| && entries[k].key == NameKey)
    ensures ApplyEntries(entries, taxes, p).Err? <==>
              exists k :: 0 <= k < |entries| && entries[k].key == TaxCategoryKey && TaxRateOf(taxes, entries[k].text).Err?
    decreases |entries|
  {
    if entries != [] {
      var e := entries[0];
      var rest := entries[1..];
      assert forall k :: 0 < k < |entries| ==> entries[k] == rest[k - 1];
      if e.key == TaxCategoryKey && TaxRateOf(taxes, e.text).Err? {
      } else {
        var withRate := if e.key == TaxCategoryKey then p.(taxRate := Some(TaxRateOf(taxes, e.text).value)) else p;
        var withName := if e.key == NameKey then withRate.(description := Some(e.text)) else withRate;
        assert ApplyEntries(entries, taxes, p) == ApplyEntries(rest, taxes, withName);
        ApplyEntriesFields(rest, taxes, withName);
        assert forall k :: 0 <= k < |rest| ==> rest[k] == entries[k + 1];
      }
    }
  }

  /** Index of the last entry with `key`, or -1 when there is none. */
  function LastEntry(entries: seq<Entry>, key: string): (k: int)
    ensures -1 <= k < |entries|
    ensures k >= 0 ==> entries[k].key == key
    ensures forall j :: k < j < |entries| ==> entries[j].key != key
    decreases |entries|
  {
    if entries == [] then -1
    else
      var k := LastEntry(entries[1..], key);
      if k >= 0 then k + 1 else if entries[0].key == key then 0 else -1
  }

  /** Later entries overwrite earlier ones: the rate comes from the last
      tax-category entry and the description from the last name entry; with no
      such entry the field keeps its value. */
  lemma {:induction false} ApplyEntriesValues(entries: seq<Entry>, taxes: seq<Tax>, p: Product)
    ensures ApplyEntries(entries, taxes, p).Ok? ==>
              var q := ApplyEntries(entries, taxes, p).value;
              var kt := LastEntry(entries, TaxCategoryKey);
              var kn := LastEntry(entries, NameKey);
              && (kt >= 0 ==> q.taxRate.Some? && TaxRateOf(taxes, entries[kt].text) == Ok(q.taxRate.value))
              && (kt < 0 ==> q.taxRate == p.taxRate)
              && (kn >= 0 ==> q.description == Some(entries[kn].text))
              && (kn < 0 ==> q.description == p.description)
    decreases |entries|
  {
    if entries != [] {
      var e := entries[0];
      var rest := entries[1..];
      if !(e.key == TaxCategoryKey && TaxRateOf(taxes, e.text).Err?) {
        var withRate := if e.key == TaxCategoryKey then p.(taxRate := Some(TaxRateOf(taxes, e.text).value)) else p;
        var withName := if e.key == NameKey then withRate.(description := Some(e.text)) else withRate;
        assert ApplyEntries(entries, taxes, p) == ApplyEntries(rest, taxes, withName);
        ApplyEntriesValues(rest, taxes, withName);
        var kt := LastEntry(rest, TaxCategoryKey);
        var kn := LastEntry(rest, NameKey);
        assert kt >= 0 ==> entries[kt + 1] == rest[kt];
        assert kn >= 0 ==> entries[kn + 1] == rest[kn];
      }
    }
  }

  /** A product carries the line's number, price and units; it has a tax rate
      exactly when some entry names a tax category, and a description exactly
      when some entry names the product. The rate is the one of the last
      tax-category entry's category, the description the text of the last name
      entry. */
  lemma ProductOfFields(line: TicketLine, taxes: seq<Tax>)
    ensures ProductOf(line, taxes).Ok? ==>
              var p := ProductOf(line, taxes).value;
              p.number == line.line && p.priceExcl == line.price && p.quantity == line.units
              && (p.taxRate.Some? <==> exists k :: 0 <= k < |line.attributes| && line.attributes[k].key == TaxCategoryKey)
              && (p.description.Some? <==> exists k :: 0 <= k < |line.attributes| && line.attributes[k].key == NameKey)
    ensures ProductOf(line, taxes).Ok? ==>
              var p := ProductOf(line, taxes).value;
              var kt := LastEntry(line.attributes, TaxCategoryKey);
              var kn := LastEntry(line.attributes, NameKey);
              && (kt >= 0 ==> p.taxRate.Some? && TaxRateOf(taxes, line.attributes[kt].text) == Ok(p.taxRate.value))
              && (kn >= 0 ==> p.description == Some(line.attributes[kn].text))
    ensures ProductOf(line, taxes).Err? <==>
              exists k :: 0 <= k < |line.attributes| && line.attributes[k].key == TaxCategoryKey
                          && TaxRateOf(taxes, line.attributes[k].text).Err?
  {
    ApplyEntriesFields(line.attributes, taxes, Product(line.line, line.price, line.units, None, None));
    ApplyEntriesValues(line.attributes, taxes, Product(line.line, line.price, line.units, None, None));
  }

  method BuildProduct(line: TicketLine, taxes: seq<Tax>) returns (r: Result<Product>)
    ensures r == ProductOf(line, taxes)
  {
    var p := Product(line.line, line.price, line.units, None, None);
    var entries := line.attributes;
    for i := 0 to |entries|
      invariant ApplyEntries(entries[i..], taxes, p) == ProductOf(line, taxes)
    {
      assert entries[i..][1..] == entries[i + 1..];
      var e := entries[i];
      if e.key == TaxCategoryKey {
        var rate := LookupTaxrate(taxes, e.text);
        if rate.Err? {
          return Err(rate.error);
        }
        p := p.(taxRate := Some(rate.value));
      }
      if e.key == NameKey {
        p := p.(description := Some(e.text));
      }
    }
    assert entries[|entries|..] == [];
    r := Ok(p);
  }

  /** The ticket lines of ticket `id`, in table order. */
  function LinesOf(lines: seq<TicketLine>, id: string): seq<TicketLine>
  {
    if lines == [] then []
    else
      var last := lines[|lines| - 1];
      LinesOf(lines[..|lines| - 1], id) + (if last.ticket == id then [last] else [])
  }

  /** The selected lines are lines of ticket `id`, and every line of ticket `id` is selected. */
  lemma {:induction false} LinesOfMembers(lines: seq<TicketLine>, id: string)
    ensures forall l :: l in LinesOf(lines, id) ==> l.ticket == id && l in lines
    ensures forall k :: 0 <= k < |lines| && lines[k].ticket == id ==> lines[k] in LinesOf(lines, id)
  {
    if lines != [] {
      var prefix := lines[..|lines| - 1];
      LinesOfMembers(prefix, id);
      assert forall k :: 0 <= k < |prefix| ==> prefix[k] == lines[k];
    }
  }

  /** Selecting lines commutes with concatenating tables: the selection keeps table order. */
  lemma {:induction false} LinesOfAppend(a: seq<TicketLine>, b: seq<TicketLine>, id: string)
    ensures LinesOf(a + b, id) == LinesOf(a, id) + LinesOf(b, id)
    decreases |b|
  {
    if b == [] {
      assert a + b == a;
    } else {
      var b' := b[..|b| - 1];
      assert (a + b)[..|a + b| - 1] == a + b';
      LinesOfAppend(a, b', id);
    }
  }

  /** The products of the given lines, one per line in order; the first line
      whose attributes cannot be resolved ends the run. */
  function CollectProducts(lines: seq<TicketLine>, taxes: seq<Tax>): Result<seq<Product>>
  {
    if lines == [] then Ok([])
    else
      var ps :- CollectProducts(lines[..|lines| - 1], taxes);
      var p :- ProductOf(lines[|lines| - 1], taxes);
      Ok(ps + [p])
  }

  /** One product per line, in line order; the run ends exactly when some line cannot be resolved. */
  lemma {:induction false} CollectProductsShape(lines: seq<TicketLine>, taxes: seq<Tax>)
    ensures CollectProducts(lines, taxes).Ok? ==>
              var ps := CollectProducts(lines, taxes).value;
              |ps| == |lines| && forall k :: 0 <= k < |lines| ==> ProductOf(lines[k], taxes) == Ok(ps[k])
    ensures CollectProducts(lines, taxes).Err? <==> exists k :: 0 <= k < |lines| && ProductOf(lines[k], taxes).Err?
  {
    if lines != [] {
      var prefix := lines[..|lines| - 1];
      CollectProductsShape(prefix, taxes);
      assert forall k :: 0 <= k < |prefix| ==> prefix[k] == lines[k];
    }
  }

  function ProductsOf(lines: seq<TicketLine>, id: string, taxes: seq<Tax>): Result<seq<Product>>
  {
    CollectProducts(LinesOf(lines, id), taxes)
  }

  lemma {:induction false} CollectProductsErrSticks(a: seq<TicketLine>, b: seq<TicketLine>, taxes: seq<Tax>)
    requires CollectProducts(a, taxes).Err?
    ensures CollectProducts(a + b, taxes) == CollectProducts(a, taxes)
    decreases |b|
  {
    if b == [] {
      assert a + b == a;
    } else {
      var b' := b[..|b| - 1];
      assert (a + b)[..|a + b| - 1] == a + b';
      CollectProductsErrSticks(a, b', taxes);
    }
  }

  /** The selection over one more table row. */
  lemma LinesOfSnoc(lines: seq<TicketLine>, i: nat, id: string)
    requires i < |lines|
    ensures LinesOf(lines[..i + 1], id) == LinesOf(lines[..i], id) + (if lines[i].ticket == id then [lines[i]] else [])
  {
    assert lines[..i + 1][..i] == lines[..i];
  }

  /** The products of one more line. */
  lemma CollectProductsSnoc(done: seq<TicketLine>, line: TicketLine, taxes: seq<Tax>)
    ensures CollectProducts(done + [line], taxes) ==
              (var ps :- CollectProducts(done, taxes);
               var p :- ProductOf(line, taxes);
               Ok(ps + [p]))
  {
    assert (done + [line])[..|done|] == done;
  }

  /** A line of the ticket that cannot be resolved ends the run for the whole table. */
  lemma ProductsOfErrAt(lines: seq<TicketLine>, i: nat, id: string, taxes: seq<Tax>)
    requires i < |lines|
    requires ProductsOf(lines[..i + 1], id, taxes).Err?
    ensures ProductsOf(lines, id, taxes) == ProductsOf(lines[..i + 1], id, taxes)
  {
    CollectProductsErrSticks(LinesOf(lines[..i + 1], id), LinesOf(lines[i + 1..], id), taxes);
    assert lines == lines[..i + 1] + lines[i + 1..];
    LinesOfAppend(lines[..i + 1], lines[i + 1..], id);
  }

  method BuildProducts(lines: seq<TicketLine>, id: string, taxes: seq<Tax>) returns (r: Result<seq<Product>>)
    ensures r == ProductsOf(lines, id, taxes)
  {
    var products: seq<Product> := [];
    for i := 0 to |lines|
      invariant ProductsOf(lines[..i], id, taxes) == Ok(products)
    {
      LinesOfSnoc(lines, i, id);
      if lines[i].ticket == id {
        var p := BuildProduct(lines[i], taxes);
        CollectProductsSnoc(LinesOf(lines[..i], id), lines[i], taxes);
        if p.Err? {
          ProductsOfErrAt(lines, i, id, taxes);
          return Err(p.error);
        }
        products := products + [p.value];
      } else {
        assert LinesOf(lines[..i], id) + [] == LinesOf(lines[..i], id);
      }
    }
    assert lines[..|lines|] == lines;
    r := Ok(products);
  }

  // ---------------------------------------------------------------------------
  // Payments

  function ToPayment(row: PaymentRow): Payment
  {
    Payment(row.payment, row.total, row.transId)
  }

  /** The payments of receipt `id`, one per payment row of that receipt, in table order. */
  function PaymentsOf(rows: seq<PaymentRow>, id: string): seq<Payment>
  {
    if rows == [] then []
    else
      var last := rows[|rows| - 1];
      PaymentsOf(rows[..|rows| - 1], id) + (if last.receipt == id then [ToPayment(last)] else [])
  }

  /** Each payment of the sale comes from a row of the receipt, and each row of
      the receipt gives a payment of the sale. */
  lemma {:induction false} PaymentsOfMembers(rows: seq<PaymentRow>, id: string)
    ensures forall p :: p in PaymentsOf(rows, id) ==>
              exists j :: 0 <= j < |rows| && rows[j].receipt == id && p == ToPayment(rows[j])
    ensures forall j :: 0 <= j < |rows| && rows[j].receipt == id ==> ToPayment(rows[j]) in PaymentsOf(rows, id)
  {
    if rows != [] {
      var prefix := rows[..|rows| - 1];
      var last := rows[|rows| - 1];
      PaymentsOfMembers(prefix, id);
      assert forall j :: 0 <= j < |prefix| ==> prefix[j] == rows[j];
      forall p | p in PaymentsOf(rows, id)
        ensures exists j :: 0 <= j < |rows| && rows[j].receipt == id && p == ToPayment(rows[j])
      {
        if p in PaymentsOf(prefix, id) {
          var j :| 0 <= j < |prefix| && prefix[j].receipt == id && p == ToPayment(prefix[j]);
          assert rows[j] == prefix[j];
        } else {
          assert rows[|rows| - 1] == last;
        }
      }
    }
  }

  lemma {:induction false} PaymentsOfAppend(a: seq<PaymentRow>, b: seq<PaymentRow>, id: string)
    ensures PaymentsOf(a + b, id) == PaymentsOf(a, id) + PaymentsOf(b, id)
    decreases |b|
  {
    if b == [] {
      assert a + b == a;
    } else {
      var b' := b[..|b| - 1];
      assert (a + b)[..|a + b| - 1] == a + b';
      PaymentsOfAppend(a, b', id);
    }
  }

  method BuildPayments(rows: seq<PaymentRow>, id: string) returns (payments: seq<Payment>)
    ensures payments == PaymentsOf(rows, id)
  {
    payments := [];
    for i := 0 to |rows|
      invariant payments == PaymentsOf(rows[..i], id)
    {
      assert rows[..i + 1][..i] == rows[..i];
      if rows[i].receipt == id {
        payments := payments + [ToPayment(rows[i])];
      }
    }
    assert rows[..|rows|] == rows;
  }

  // ---------------------------------------------------------------------------
  // One receipt

  /** Scanning the tickets for the receipt: every ticket with the receipt's id
      rebuilds the sale, so the last one wins; None when no ticket matches. */
  function ScanTickets(tickets: seq<Ticket>, store: Store, receipt: Receipt): Result<Option<Sale>>
  {
    if tickets == [] then Ok(None)
    else
      var t := tickets[|tickets| - 1];
      var previous :- ScanTickets(tickets[..|tickets| - 1], store, receipt);
      if t.id == receipt.id then
        var products :- ProductsOf(store.lines, t.id, store.taxes);
        Ok(Some(Sale(receipt.date, Reference(t.ticketId), products, PaymentsOf(store.payments, receipt.id))))
      else
        Ok(previous)
  }

  /** The ticket `i` is the last one whose id is the receipt's. */
  ghost predicate LastTicketOf(tickets: seq<Ticket>, receipt: Receipt, i: int)
  {
    && 0 <= i < |tickets| && tickets[i].id == receipt.id
    && forall j :: i < j < |tickets| ==> tickets[j].id != receipt.id
  }

  /** There is no sale exactly when no ticket shares the receipt's id. */
  lemma {:induction false} ScanTicketsNone(tickets: seq<Ticket>, store: Store, receipt: Receipt)
    ensures ScanTickets(tickets, store, receipt) == Ok(None) <==>
              forall j :: 0 <= j < |tickets| ==> tickets[j].id != receipt.id
  {
    if tickets != [] {
      var prefix := tickets[..|tickets| - 1];
      ScanTicketsNone(prefix, store, receipt);
      assert forall j :: 0 <= j < |prefix| ==> prefix[j] == tickets[j];
    }
  }

  /** A built sale carries the receipt's date, the products of the lines of
      the receipt's ticket and the payments of the receipt. */
  lemma {:induction false} ScanTicketsContents(tickets: seq<Ticket>, store: Store, receipt: Receipt, sale: Sale)
    requires ScanTickets(tickets, store, receipt) == Ok(Some(sale))
    ensures sale.date == receipt.date
    ensures ProductsOf(store.lines, receipt.id, store.taxes) == Ok(sale.products)
    ensures sale.payments == PaymentsOf(store.payments, receipt.id)
  {
    var prefix := tickets[..|tickets| - 1];
    if tickets[|tickets| - 1].id != receipt.id {
      ScanTicketsContents(prefix, store, receipt, sale);
    }
  }

  /** A built sale's reference is "POS verkoop <ticketid>" of the last ticket
      sharing the receipt's id. */
  lemma {:induction false} ScanTicketsReference(tickets: seq<Ticket>, store: Store, receipt: Receipt, sale: Sale)
    returns (i: nat)
    requires ScanTickets(tickets, store, receipt) == Ok(Some(sale))
    ensures LastTicketOf(tickets, receipt, i)
    ensures sale.reference == Reference(tickets[i].ticketId)
  {
    var prefix := tickets[..|tickets| - 1];
    var t := tickets[|tickets| - 1];
    if t.id == receipt.id {
      var products := ProductsOf(store.lines, t.id, store.taxes).value;
      assert sale == Sale(receipt.date, Reference(t.ticketId), products, PaymentsOf(store.payments, receipt.id));
      i := |tickets| - 1;
    } else {
      assert ScanTickets(prefix, store, receipt) == Ok(Some(sale));
      i := ScanTicketsReference(prefix, store, receipt, sale);
      assert prefix[i] == tickets[i];
    }
  }

  method BuildSale(store: Store, receipt: Receipt) returns (r: Result<Option<Sale>>)
    ensures r == ScanTickets(store.tickets, store, receipt)
  {
    var tickets := store.tickets;
    var sale: Option<Sale> := None;
    for i := 0 to |tickets|
      invariant ScanTickets(tickets[..i], store, receipt) == Ok(sale)
    {
      assert tickets[..i + 1][..i] == tickets[..i];
      var ticket := tickets[i];
      if ticket.id == receipt.id {
        var products := BuildProducts(store.lines, ticket.id, store.taxes);
        if products.Err? {
          assert ScanTickets(tickets[..i + 1], store, receipt) == Err(products.error);
          ScanTicketsErrSticks(tickets[..i + 1], tickets[i + 1..], store, receipt);
          assert tickets[..i + 1] + tickets[i + 1..] == tickets;
          return Err(products.error);
        }
        var payments := BuildPayments(store.payments, receipt.id);
        sale := Some(Sale(receipt.date, Reference(ticket.ticketId), products.value, payments));
      }
    }
    assert tickets[..|tickets|] == tickets;
    r := Ok(sale);
  }

  /** Once the scan has failed, later tickets do not change the failure. */
  lemma {:induction false} ScanTicketsErrSticks(a: seq<Ticket>, b: seq<Ticket>, store: Store, receipt: Receipt)
    requires ScanTickets(a, store, receipt).Err?
    ensures ScanTickets(a + b, store, receipt) == ScanTickets(a, store, receipt)
    decreases |b|
  {
    if b == [] {
      assert a + b == a;
    } else {
      var b' := b[..|b| - 1];
      assert (a + b)[..|a + b| - 1] == a + b';
      ScanTicketsErrSticks(a, b', store, receipt);
    }
  }

  /** What one receipt contributes: nothing when its date is outside the open
      window (start, end) or its sale is rejected, the sale when it validates;
      a receipt without a ticket, a missing tax category or a product without a
      tax rate ends the run. */
  function Step(store: Store, filter: Option<string>, start: int, end: int, receipt: Receipt): Result<seq<Sale>>
  {
    if !(start < receipt.date < end) then Ok([])
    else
      var found :- ScanTickets(store.tickets, store, receipt);
      match found
      case None => Err(MissingTicket(receipt.id))
      case Some(sale) =>
        var valid :- Validation(filter, sale);
        Ok(if valid then [sale] else [])
  }

  /** The result of `TransformSales` over the receipts `receipts`, in order. */
  function Transformed(store: Store, filter: Option<string>, start: int, end: int, receipts: seq<Receipt>): Result<seq<Sale>>
  {
    if receipts == [] then Ok([])
    else
      var sales :- Transformed(store, filter, start, end, receipts[..|receipts| - 1]);
      var more :- Step(store, filter, start, end, receipts[|receipts| - 1]);
      Ok(sales + more)
  }

  /** The body of the receipt loop: the window test, the sale built from the
      receipt's ticket and its validation. */
  method ProcessReceipt(store: Store, filter: Option<string>, start: int, end: int, receipt: Receipt)
    returns (r: Result<seq<Sale>>)
    ensures r == Step(store, filter, start, end, receipt)
  {
    if !(start < receipt.date < end) {
      return Ok([]);
    }
    var found := BuildSale(store, receipt);
    if found.Err? {
      return Err(found.error);
    }
    if found.value.None? {
      return Err(MissingTicket(receipt.id));
    }
    var valid := ValidateCustomSale(filter, found.value.value);
    if valid.Err? {
      return Err(valid.error);
    }
    r := Ok(if valid.value then [found.value.value] else []);
  }

  /** The transformation over one more receipt. */
  lemma TransformedSnoc(store: Store, filter: Option<string>, start: int, end: int, receipts: seq<Receipt>, i: nat)
    requires i < |receipts|
    ensures Transformed(store, filter, start, end, receipts[..i + 1]) ==
              (var sales :- Transformed(store, filter, start, end, receipts[..i]);
               var more :- Step(store, filter, start, end, receipts[i]);
               Ok(sales + more))
  {
    assert receipts[..i + 1][..i] == receipts[..i];
  }

  method TransformSales(store: Store, filter: Option<string>, start: int, end: int) returns (r: Result<seq<Sale>>)
    ensures r == Transformed(store, filter, start, end, store.receipts)
  {
    var receipts := store.receipts;
    var sales: seq<Sale> := [];
    for i := 0 to |receipts|
      invariant Transformed(store, filter, start, end, receipts[..i]) == Ok(sales)
    {
      TransformedSnoc(store, filter, start, end, receipts, i);
      var more := ProcessReceipt(store, filter, start, end, receipts[i]);
      if more.Err? {
        TransformedErrSticks(store, filter, start, end, receipts[..i + 1], receipts[i + 1..]);
        assert receipts[..i + 1] + receipts[i + 1..] == receipts;
        return Err(more.error);
      }
      sales := sales + more.value;
    }
    assert receipts[..|receipts|] == receipts;
    r := Ok(sales);
  }

  // ---------------------------------------------------------------------------
  // Properties of the transformation

  lemma {:induction false} TransformedErrSticks(store: Store, filter: Option<string>, start: int, end: int, a: seq<Receipt>, b: seq<Receipt>)
    requires Transformed(store, filter, start, end, a).Err?
    ensures Transformed(store, filter, start, end, a + b) == Transformed(store, filter, start, end, a)
    decreases |b|
  {
    if b == [] {
      assert a + b == a;
    } else {
      var b' := b[..|b| - 1];
      assert (a + b)[..|a + b| - 1] == a + b';
      TransformedErrSticks(store, filter, start, end, a, b');
    }
  }

  /** Output order follows receipt order: the sales of earlier receipts come
      first, and a failure in earlier receipts is the failure of the whole. */
  lemma {:induction false} TransformedAppend(store: Store, filter: Option<string>, start: int, end: int, a: seq<Receipt>, b: seq<Receipt>)
    ensures Transformed(store, filter, start, end, a + b) ==
              (var x :- Transformed(store, filter, start, end, a);
               var y :- Transformed(store, filter, start, end, b);
               Ok(x + y))
    decreases |b|
  {
    if b == [] {
      assert a + b == a;
      if Transformed(store, filter, start, end, a).Ok? {
        assert Transformed(store, filter, start, end, a).value + [] == Transformed(store, filter, start, end, a).value;
      }
    } else {
      var b' := b[..|b| - 1];
      assert (a + b)[..|a + b| - 1] == a + b';
      assert (a + b)[|a + b| - 1] == b[|b| - 1];
      TransformedAppend(store, filter, start, end, a, b');
      var ta := Transformed(store, filter, start, end, a);
      var tb' := Transformed(store, filter, start, end, b');
      var step := Step(store, filter, start, end, b[|b| - 1]);
      if ta.Ok? && tb'.Ok? && step.Ok? {
        assert ta.value + tb'.value + step.value == ta.value + (tb'.value + step.value);
      }
    }
  }

  /** A receipt dated outside the window is skipped, not an error. */
  lemma OutOfWindowSkipped(store: Store, filter: Option<string>, start: int, end: int, a: seq<Receipt>, receipt: Receipt, b: seq<Receipt>)
    requires !(start < receipt.date < end)
    ensures Transformed(store, filter, start, end, a + [receipt] + b) == Transformed(store, filter, start, end, a + b)
  {
    TransformedAppend(store, filter, start, end, a + [receipt], b);
    TransformedAppend(store, filter, start, end, a, b);
    assert (a + [receipt])[..|a|] == a;
    var ta := Transformed(store, filter, start, end, a);
    if ta.Ok? {
      assert ta.value + [] == ta.value;
    }
  }

  /** `sale` lies strictly inside the window, passes validation, and is the
      sale built for one of `receipts`. */
  ghost predicate KeptSale(store: Store, filter: Option<string>, start: int, end: int, receipts: seq<Receipt>, sale: Sale)
  {
    && start < sale.date < end
    && Validation(filter, sale) == Ok(true)
    && exists j :: 0 <= j < |receipts| && ScanTickets(store.tickets, store, receipts[j]) == Ok(Some(sale))
  }

  /** What one receipt contributes is its own validated sale, or nothing. */
  lemma StepKept(store: Store, filter: Option<string>, start: int, end: int, receipt: Receipt)
    requires Step(store, filter, start, end, receipt).Ok?
    ensures var more := Step(store, filter, start, end, receipt).value;
            |more| <= 1
            && forall sale :: sale in more ==>
                 start < sale.date < end && Validation(filter, sale) == Ok(true)
                 && ScanTickets(store.tickets, store, receipt) == Ok(Some(sale))
  {
    var more := Step(store, filter, start, end, receipt).value;
    if more != [] {
      var sale := more[0];
      assert ScanTickets(store.tickets, store, receipt) == Ok(Some(sale));
      ScanTicketsContents(store.tickets, store, receipt, sale);
    }
  }

  /** Every sale produced lies strictly inside the window, passed validation,
      and is the sale built for one of the receipts. */
  lemma {:induction false} TransformedSalesValid(store: Store, filter: Option<string>, start: int, end: int, receipts: seq<Receipt>)
    requires Transformed(store, filter, start, end, receipts).Ok?
    ensures forall sale :: sale in Transformed(store, filter, start, end, receipts).value ==>
              KeptSale(store, filter, start, end, receipts, sale)
  {
    if receipts != [] {
      var prefix := receipts[..|receipts| - 1];
      var last := receipts[|receipts| - 1];
      TransformedSalesValid(store, filter, start, end, prefix);
      StepKept(store, filter, start, end, last);
      var sales := Transformed(store, filter, start, end, prefix).value;
      var more := Step(store, filter, start, end, last).value;
      assert Transformed(store, filter, start, end, receipts).value == sales + more;
      forall sale | sale in sales + more
        ensures KeptSale(store, filter, start, end, receipts, sale)
      {
        if sale in sales {
          assert KeptSale(store, filter, start, end, prefix, sale);
          var j :| 0 <= j < |prefix| && ScanTickets(store.tickets, store, prefix[j]) == Ok(Some(sale));
          assert prefix[j] == receipts[j];
        } else {
          assert ScanTickets(store.tickets, store, receipts[|receipts| - 1]) == Ok(Some(sale));
        }
      }
    }
  }

  // The walk-through case: one receipt in the window with one line of 10.00
  // at 21% and one cash payment of 12.10.

  const WalkLine: TicketLine := TicketLine("t1", 0, 10.0, 1.0, [Entry(TaxCategoryKey, "001"), Entry(NameKey, "Koffie")])
  const WalkStore: Store := Store([Ticket("t1", 7)], [WalkLine], [Receipt("t1", 5)], [PaymentRow("t1", "cash", 12.10, "x1")], [Tax("001", 0.21)])
  const WalkProduct: Product := Product(0, 10.0, 1.0, Some(0.21), Some("Koffie"))
  const WalkSale: Sale := Sale(5, "POS verkoop 7", [WalkProduct], [Payment("cash", 12.10, "x1")])

  /** The line's entries give the 21% rate of category 001 and the name. */
  lemma WalkProductBuilt()
    ensures ProductOf(WalkLine, WalkStore.taxes) == Ok(WalkProduct)
  {
    var taxes := WalkStore.taxes;
    assert FirstTax(taxes, "001") == 0;
    assert TaxRateOf(taxes, "001") == Ok(0.21);
    var bare := Product(0, 10.0, 1.0, None, None);
    assert NameKey != TaxCategoryKey;
    assert WalkLine.attributes[1..] == [Entry(NameKey, "Koffie")];
    assert [Entry(NameKey, "Koffie")][1..] == [];
    assert ApplyEntries([], taxes, WalkProduct) == Ok(WalkProduct);
    assert ApplyEntries([Entry(NameKey, "Koffie")], taxes, bare.(taxRate := Some(0.21))) == Ok(WalkProduct);
  }

  /** The receipt's ticket gives the sale with reference "POS verkoop 7". */
  lemma WalkSaleBuilt()
    ensures ScanTickets(WalkStore.tickets, WalkStore, Receipt("t1", 5)) == Ok(Some(WalkSale))
  {
    WalkProductBuilt();
    assert WalkStore.lines[..0] == [];
    assert LinesOf(WalkStore.lines, "t1") == [WalkLine];
    assert [WalkLine][..0] == [];
    assert [] + [WalkProduct] == [WalkProduct];
    assert CollectProducts([WalkLine], WalkStore.taxes) == Ok([WalkProduct]);
    assert WalkStore.payments[..0] == [];
    assert PaymentsOf(WalkStore.payments, "t1") == WalkSale.payments;
    assert WalkStore.tickets[..0] == [];
    assert NatToString(7) == "7";
    assert Reference(7) == "POS verkoop 7";
  }

  /** The walk-through yields exactly that one sale: it is in the window, and
      10.00 at 21% matches the 12.10 paid. */
  lemma SingleSaleScenario()
    ensures Transformed(WalkStore, None, 0, 10, WalkStore.receipts) == Ok([WalkSale])
  {
    WalkSaleBuilt();
    assert [WalkProduct][..0] == [] && WalkSale.payments[..0] == [];
    assert ProductsTotal([WalkProduct]) == 12.10;
    assert PaymentsTotal(WalkSale.payments) == 12.10;
    assert Validation(None, WalkSale) == Ok(true);
    assert Step(WalkStore, None, 0, 10, Receipt("t1", 5)) == Ok([WalkSale]);
    assert WalkStore.receipts[..0] == [];
    assert [] + [WalkSale] == [WalkSale];
  }
}
