/** Resolving Moneybird records by their display name. The ledger is matched
    by names, not by ids: the match is exact and case-sensitive, the first
    record in snapshot order wins, and no match ends the run. */
module MoneybirdLookup {
  import opened Common

  /** A record found by its name: a contact (by its company name), a ledger
      account or a financial account (by its name). */
  datatype Named = Named(id: string, name: string)

  /** A tax rate as listed by the ledger; `percentage` is absent (JSON null)
      for some rates. */
  datatype TaxRate = TaxRate(id: string, name: string, taxRateType: string, percentage: Option<real>)

  const NoTaxName: string := "Geen btw"
  const SalesInvoiceType: string := "sales_invoice"
  const PurchaseInvoiceType: string := "purchase_invoice"

  // ---------------------------------------------------------------------------
  // LookupContactId, LookupLedgerAccountId, LookupFinancialAccountId

  /** Index of the first record named `name`, or |records| when there is none. */
  function FirstNamed(records: seq<Named>, name: string): (k: nat)
    ensures k <= |records|
    ensures forall j :: 0 <= j < k ==> records[j].name != name
    ensures k < |records| ==> records[k].name == name
  {
    if records == [] then 0
    else if records[0].name == name then 0
    else 1 + FirstNamed(records[1..], name)
  }

  function IdByName(records: seq<Named>, name: string, kind: string): Result<string>
  {
    var k := FirstNamed(records, name);
    if k < |records| then Ok(records[k].id) else Err(NotFound(kind, name))
  }

  /** The loop shared by the three name lookups. */
  method LookupId(records: seq<Named>, name: string, kind: string) returns (r: Result<string>)
    ensures r == IdByName(records, name, kind)
    ensures r.Ok? <==> exists i :: 0 <= i < |records| && records[i].name == name
    ensures r.Ok? ==> exists i :: 0 <= i < |records| && records[i].name == name && records[i].id == r.value
                                  && forall j :: 0 <= j < i ==> records[j].name != name
    ensures r.Err? ==> r.error == NotFound(kind, name)
  {
    for i := 0 to |records|
      invariant forall j :: 0 <= j < i ==> records[j].name != name
    {
      if records[i].name == name {
        return Ok(records[i].id);
      }
    }
    return Err(NotFound(kind, name));
  }

  method LookupContactId(contacts: seq<Named>, companyName: string) returns (r: Result<string>)
    ensures r == IdByName(contacts, companyName, "contact")
  {
    r := LookupId(contacts, companyName, "contact");
  }

  method LookupLedgerAccountId(ledgerAccounts: seq<Named>, name: string) returns (r: Result<string>)
    ensures r == IdByName(ledgerAccounts, name, "ledger account")
  {
    r := LookupId(ledgerAccounts, name, "ledger account");
  }

  method LookupFinancialAccountId(financialAccounts: seq<Named>, name: string) returns (r: Result<string>)
    ensures r == IdByName(financialAccounts, name, "financial account")
  {
    r := LookupId(financialAccounts, name, "financial account");
  }

  /** The match is on the exact name: a different case does not match, and
      of two records with the same name the earlier one wins. */
  lemma NameLookupIsExact()
    ensures IdByName([Named("1", "Omzet")], "omzet", "ledger account").Err?
    ensures IdByName([Named("1", "Kas"), Named("2", "Omzet"), Named("3", "Omzet")], "Omzet", "ledger account") == Ok("2")
  {
    assert "Omzet"[0] != "omzet"[0];
    assert FirstNamed([Named("1", "Omzet")], "omzet") == 1;
    var rs := [Named("1", "Kas"), Named("2", "Omzet"), Named("3", "Omzet")];
    assert |"Kas"| != |"Omzet"|;
    assert rs[1..] == [Named("2", "Omzet"), Named("3", "Omzet")];
    assert FirstNamed(rs, "Omzet") == 1;
  }

  // ---------------------------------------------------------------------------
  // LookupTaxrateId

  /** When a tax rate answers a request for `percentage` on invoices of
      `taxRateType`: it has that type, and either the request is for 0% and the
      rate is named "Geen btw", or the rate has a percentage within Epsilon of
      the requested one. The second test is not an alternative to the first: a
      0% request also accepts any rate of the type whose percentage is 0. */
  predicate TaxRateMatches(t: TaxRate, taxRateType: string, percentage: real)
  {
    && t.taxRateType == taxRateType
    && ((percentage == 0.0 && t.name == NoTaxName)
        || (t.percentage.Some? && NumericEqual(t.percentage.value, percentage)))
  }

  function FirstTaxRate(rates: seq<TaxRate>, taxRateType: string, percentage: real): (k: nat)
    ensures k <= |rates|
    ensures forall j :: 0 <= j < k ==> !TaxRateMatches(rates[j], taxRateType, percentage)
    ensures k < |rates| ==> TaxRateMatches(rates[k], taxRateType, percentage)
  {
    if rates == [] then 0
    else if TaxRateMatches(rates[0], taxRateType, percentage) then 0
    else 1 + FirstTaxRate(rates[1..], taxRateType, percentage)
  }

  function TaxRateIdOf(rates: seq<TaxRate>, taxRateType: string, percentage: real): Result<string>
  {
    var k := FirstTaxRate(rates, taxRateType, percentage);
    if k < |rates| then Ok(rates[k].id) else Err(NotFound("tax rate", taxRateType))
  }

  method LookupTaxrateId(rates: seq<TaxRate>, taxRateType: string, percentage: real) returns (r: Result<string>)
    ensures r == TaxRateIdOf(rates, taxRateType, percentage)
    ensures r.Ok? <==> exists i :: 0 <= i < |rates| && TaxRateMatches(rates[i], taxRateType, percentage)
  {
    for i := 0 to |rates|
      invariant forall j :: 0 <= j < i ==> !TaxRateMatches(rates[j], taxRateType, percentage)
    {
      var rate := rates[i];
      if rate.taxRateType == taxRateType {
        if percentage == 0.0 {
          if rate.name == NoTaxName {
            return Ok(rate.id);
          }
        }
        if rate.percentage.Some? {
          if NumericEqual(rate.percentage.value, percentage) {
            return Ok(rate.id);
          }
        }
      }
    }
    return Err(NotFound("tax rate", taxRateType));
  }

  method LookupTaxrateIdSales(rates: seq<TaxRate>, percentage: real) returns (r: Result<string>)
    ensures r == TaxRateIdOf(rates, SalesInvoiceType, percentage)
  {
    r := LookupTaxrateId(rates, SalesInvoiceType, percentage);
  }

  method LookupTaxrateIdPurchase(rates: seq<TaxRate>, percentage: real) returns (r: Result<string>)
    ensures r == TaxRateIdOf(rates, PurchaseInvoiceType, percentage)
  {
    r := LookupTaxrateId(rates, PurchaseInvoiceType, percentage);
  }

  /** The rates of one invoice type, in snapshot order. */
  function RatesOfType(rates: seq<TaxRate>, taxRateType: string): seq<TaxRate>
  {
    if rates == [] then []
    else (if rates[0].taxRateType == taxRateType then [rates[0]] else []) + RatesOfType(rates[1..], taxRateType)
  }

  /** The lookup takes the first rate when it matches and otherwise looks
      further down the list. */
  lemma TaxRateIdOfUnfold(rates: seq<TaxRate>, taxRateType: string, percentage: real)
    requires rates != []
    ensures TaxRateIdOf(rates, taxRateType, percentage) ==
              if TaxRateMatches(rates[0], taxRateType, percentage) then Ok(rates[0].id)
              else TaxRateIdOf(rates[1..], taxRateType, percentage)
  {
    if !TaxRateMatches(rates[0], taxRateType, percentage) {
      var k := FirstTaxRate(rates[1..], taxRateType, percentage);
      assert k < |rates[1..]| ==> rates[1 + k] == rates[1..][k];
    }
  }

  /** Only rates of the requested type take part: the lookup over the whole
      snapshot finds the same rate as over the rates of that type alone. */
  lemma {:induction false} TaxRateLookupByType(rates: seq<TaxRate>, taxRateType: string, percentage: real)
    ensures TaxRateIdOf(rates, taxRateType, percentage) == TaxRateIdOf(RatesOfType(rates, taxRateType), taxRateType, percentage)
  {
    if rates != [] {
      var rest := rates[1..];
      TaxRateLookupByType(rest, taxRateType, percentage);
      TaxRateIdOfUnfold(rates, taxRateType, percentage);
      var restOfType := RatesOfType(rest, taxRateType);
      if rates[0].taxRateType == taxRateType {
        var ofType := [rates[0]] + restOfType;
        assert RatesOfType(rates, taxRateType) == ofType;
        assert ofType[0] == rates[0] && ofType[1..] == restOfType;
        TaxRateIdOfUnfold(ofType, taxRateType, percentage);
      } else {
        assert RatesOfType(rates, taxRateType) == restOfType;
      }
    }
  }

  /** The zero rate is found by name, each invoice type has its own, a
      percentage is matched within Epsilon, and an unknown percentage is fatal. */
  lemma TaxRateExamples()
    ensures var rates := [TaxRate("1", "21% btw", SalesInvoiceType, Some(21.0)),
                          TaxRate("2", NoTaxName, SalesInvoiceType, None),
                          TaxRate("3", NoTaxName, PurchaseInvoiceType, None)];
            && TaxRateIdOf(rates, SalesInvoiceType, 0.0) == Ok("2")
            && TaxRateIdOf(rates, PurchaseInvoiceType, 0.0) == Ok("3")
            && TaxRateIdOf(rates, SalesInvoiceType, 21.000000001) == Ok("1")
            && TaxRateIdOf(rates, SalesInvoiceType, 9.0).Err?
  {
    var rates := [TaxRate("1", "21% btw", SalesInvoiceType, Some(21.0)),
                  TaxRate("2", NoTaxName, SalesInvoiceType, None),
                  TaxRate("3", NoTaxName, PurchaseInvoiceType, None)];
    assert rates[1..] == [rates[1], rates[2]] && rates[1..][1..] == [rates[2]] && rates[1..][1..][1..] == [];
    assert SalesInvoiceType != PurchaseInvoiceType by { assert SalesInvoiceType[0] != PurchaseInvoiceType[0]; }
    assert |"21% btw"| != |NoTaxName|;
    assert FirstTaxRate(rates, SalesInvoiceType, 0.0) == 1;
    assert FirstTaxRate(rates, PurchaseInvoiceType, 0.0) == 2;
    assert FirstTaxRate(rates, SalesInvoiceType, 21.000000001) == 0;
    assert FirstTaxRate(rates, SalesInvoiceType, 9.0) == 3;
  }

  /** A 0% request takes the first rate of the type whose percentage is 0, even
      when a rate named "Geen btw" follows it. */
  lemma ZeroRateNotOnlyByName()
    ensures TaxRateIdOf([TaxRate("4", "Verlegd", SalesInvoiceType, Some(0.0)),
                         TaxRate("2", NoTaxName, SalesInvoiceType, None)], SalesInvoiceType, 0.0) == Ok("4")
  {
  }
}
