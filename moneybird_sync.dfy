/** The three bookings the tool posts to the ledger: a financial statement
    with one mutation, a sales invoice and a purchase invoice. Each builds
    its request from records resolved by name. An HTTP POST is modelled as a
    request appended to the returned `sent` list, and the id the server
    answers with is a parameter. */
module MoneybirdSync {
  import opened Common
  import opened MoneybirdLookup
  import opened MoneybirdAmounts

  /** The record names read from the configuration file. */
  datatype Config = Config(
    financialAccountIzettle: string,
    contactPassant: string,
    contactIzettle: string,
    ledgerBankkosten: string)

  /** The ledger records stored by the last download. */
  datatype Snapshot = Snapshot(
    contacts: seq<Named>,
    ledgerAccounts: seq<Named>,
    financialAccounts: seq<Named>,
    taxRates: seq<TaxRate>)

  /** A financial mutation of a statement; `date` is the booking day. */
  datatype Mutation = Mutation(date: int, message: string, amount: real)
  datatype Statement = Statement(reference: string, financialAccountId: string, mutations: seq<Mutation>)

  /** An invoice line as posted. */
  datatype Detail = Detail(description: string, price: real, taxRateId: string, ledgerAccountId: string)
  datatype Invoice = Invoice(reference: string, date: int, contactId: string, details: seq<Detail>, pricesAreInclTax: bool)

  datatype Request =
    | PostStatement(statement: Statement)
    | PostSalesInvoice(salesInvoice: Invoice)
    | PostPurchaseInvoice(purchaseInvoice: Invoice)

  /** A product line of a sales invoice: description, price and tax percentage. */
  datatype InvoiceProduct = InvoiceProduct(description: string, price: real, taxRate: real)

  const RevenueLedger: string := "Omzet"
  const DefaultDescription: string := "Diversen"
  const FeeDescription: string := "Administratiekosten bij pintransactie"

  // ---------------------------------------------------------------------------
  // AddFinancialStatementAndMutation

  /** The financial account lookup runs first and its failure is fatal, in
      no-op mode too. In no-op mode nothing is posted and no id is returned.
      Otherwise one statement is posted holding one mutation whose message is
      the reference and whose amount carries the sign rule of the
      transaction code, and the id of the created mutation is returned. */
  method AddFinancialStatementAndMutation(cfg: Config, snap: Snapshot, noop: bool, reference: string,
                                          transactionCode: string, date: int, amount: real,
                                          createdMutationId: string)
    returns (r: Result<Option<string>>, sent: seq<Request>)
    ensures var account := IdByName(snap.financialAccounts, cfg.financialAccountIzettle, "financial account");
            && (account.Err? ==> r == Err(account.error) && sent == [])
            && (account.Ok? && noop ==> r == Ok(None) && sent == [])
            && (account.Ok? && !noop ==>
                  && r == Ok(Some(createdMutationId))
                  && sent == [PostStatement(Statement(reference, account.value,
                                [Mutation(date, reference, SignedAmount(transactionCode, amount))]))])
    ensures noop ==> sent == [] && (r.Ok? ==> r.value.None?)
    ensures |sent| <= 1
  {
    sent := [];
    var account := LookupFinancialAccountId(snap.financialAccounts, cfg.financialAccountIzettle);
    if account.Err? {
      return Err(account.error), [];
    }
    var amountBooked := amount;
    if transactionCode == Payout {
      amountBooked := 0.0 - amountBooked;
    }
    if transactionCode == CardPaymentFee {
      amountBooked := 0.0 - amountBooked;
    }
    var statement := Statement(reference, account.value, [Mutation(date, reference, amountBooked)]);
    if noop {
      r := Ok(None);
    } else {
      sent := [PostStatement(statement)];
      r := Ok(Some(createdMutationId));
    }
  }

  // ---------------------------------------------------------------------------
  // AddSalesInvoice

  /** The detail line of one product: an empty description becomes
      "Diversen", the tax rate is looked up among the sales rates, and the
      revenue ledger account is looked up by name, in that order. */
  function DetailOf(snap: Snapshot, product: InvoiceProduct): Result<Detail>
  {
    var description := if |product.description| == 0 then DefaultDescription else product.description;
    var taxRateId :- TaxRateIdOf(snap.taxRates, SalesInvoiceType, product.taxRate);
    var ledgerAccountId :- IdByName(snap.ledgerAccounts, RevenueLedger, "ledger account");
    Ok(Detail(description, product.price, taxRateId, ledgerAccountId))
  }

  /** The detail lines of a product list; the first failing lookup ends it. */
  function DetailsOf(snap: Snapshot, products: seq<InvoiceProduct>): Result<seq<Detail>>
  {
    if products == [] then Ok([])
    else
      var init :- DetailsOf(snap, products[..|products| - 1]);
      var last :- DetailOf(snap, products[|products| - 1]);
      Ok(init + [last])
  }

  /** The detail of one product: its price, its description or "Diversen"
      when that is empty, its own sales tax rate and the revenue account; it
      fails exactly when one of the two lookups fails. */
  lemma DetailOfFields(snap: Snapshot, product: InvoiceProduct)
    ensures DetailOf(snap, product).Ok? <==>
              TaxRateIdOf(snap.taxRates, SalesInvoiceType, product.taxRate).Ok?
              && IdByName(snap.ledgerAccounts, RevenueLedger, "ledger account").Ok?
    ensures DetailOf(snap, product).Ok? ==>
              var detail := DetailOf(snap, product).value;
              && detail.description == (if |product.description| == 0 then DefaultDescription else product.description)
              && detail.description != []
              && detail.price == product.price
              && Ok(detail.taxRateId) == TaxRateIdOf(snap.taxRates, SalesInvoiceType, product.taxRate)
              && Ok(detail.ledgerAccountId) == IdByName(snap.ledgerAccounts, RevenueLedger, "ledger account")
  {
  }

  /** The details of one more product. */
  lemma DetailsOfSnoc(snap: Snapshot, products: seq<InvoiceProduct>)
    requires products != []
    ensures DetailsOf(snap, products) ==
              (var init :- DetailsOf(snap, products[..|products| - 1]);
               var last :- DetailOf(snap, products[|products| - 1]);
               Ok(init + [last]))
  {
  }

  /** The list fails exactly when some product's detail fails. */
  lemma {:induction false} DetailsOfOk(snap: Snapshot, products: seq<InvoiceProduct>)
    ensures DetailsOf(snap, products).Ok? <==> forall i :: 0 <= i < |products| ==> DetailOf(snap, products[i]).Ok?
    decreases |products|
  {
    if products != [] {
      var init := products[..|products| - 1];
      DetailsOfOk(snap, init);
      DetailsOfSnoc(snap, products);
      assert forall i :: 0 <= i < |init| ==> init[i] == products[i];
    }
  }

  /** One detail per product, in product order. */
  lemma {:induction false} DetailsOfShape(snap: Snapshot, products: seq<InvoiceProduct>)
    requires DetailsOf(snap, products).Ok?
    ensures |DetailsOf(snap, products).value| == |products|
    ensures forall i :: 0 <= i < |products| ==> DetailOf(snap, products[i]) == Ok(DetailsOf(snap, products).value[i])
    decreases |products|
  {
    if products != [] {
      var init := products[..|products| - 1];
      DetailsOfSnoc(snap, products);
      DetailsOfShape(snap, init);
      var details := DetailsOf(snap, init).value;
      assert DetailsOf(snap, products).value == details + [DetailOf(snap, products[|products| - 1]).value];
      assert forall i :: 0 <= i < |init| ==> init[i] == products[i];
    }
  }

  /** The loop of AddSalesInvoice that appends one detail per product. */
  method BuildDetails(snap: Snapshot, products: seq<InvoiceProduct>) returns (r: Result<seq<Detail>>)
    ensures r == DetailsOf(snap, products)
  {
    var details: seq<Detail> := [];
    for i := 0 to |products|
      invariant DetailsOf(snap, products[..i]) == Ok(details)
    {
      assert products[..i + 1][..i] == products[..i];
      var description := products[i].description;
      if |description| == 0 {
        description := DefaultDescription;
      }
      var taxRateId := LookupTaxrateIdSales(snap.taxRates, products[i].taxRate);
      if taxRateId.Err? {
        DetailsOfErrSticks(snap, products[..i + 1], products[i + 1..]);
        assert products[..i + 1] + products[i + 1..] == products;
        return Err(taxRateId.error);
      }
      var ledgerAccountId := LookupLedgerAccountId(snap.ledgerAccounts, RevenueLedger);
      if ledgerAccountId.Err? {
        DetailsOfErrSticks(snap, products[..i + 1], products[i + 1..]);
        assert products[..i + 1] + products[i + 1..] == products;
        return Err(ledgerAccountId.error);
      }
      details := details + [Detail(description, products[i].price, taxRateId.value, ledgerAccountId.value)];
    }
    assert products[..|products|] == products;
    return Ok(details);
  }

  /** A failure in a prefix of the products is the failure of the whole list. */
  lemma {:induction false} DetailsOfErrSticks(snap: Snapshot, a: seq<InvoiceProduct>, b: seq<InvoiceProduct>)
    requires DetailsOf(snap, a).Err?
    ensures DetailsOf(snap, a + b) == DetailsOf(snap, a)
    decreases |b|
  {
    if b == [] {
      assert a + b == a;
    } else {
      var b' := b[..|b| - 1];
      assert (a + b)[..|a + b| - 1] == a + b';
      DetailsOfErrSticks(snap, a, b');
    }
  }

  /** A sales invoice is always posted once its lookups succeed: this write
      has no no-op guard. The details are built first, then the walk-in
      customer contact is looked up; the invoice states that its prices
      include tax, and the id of the created invoice is returned. */
  method AddSalesInvoice(cfg: Config, snap: Snapshot, reference: string, invoiceDate: int,
                         products: seq<InvoiceProduct>, createdInvoiceId: string)
    returns (r: Result<string>, sent: seq<Request>)
    ensures var details := DetailsOf(snap, products);
            var contact := IdByName(snap.contacts, cfg.contactPassant, "contact");
            && (details.Err? ==> r == Err(details.error) && sent == [])
            && (details.Ok? && contact.Err? ==> r == Err(contact.error) && sent == [])
            && (details.Ok? && contact.Ok? ==>
                  && r == Ok(createdInvoiceId)
                  && sent == [PostSalesInvoice(Invoice(reference, invoiceDate, contact.value, details.value, true))])
    ensures r.Ok? <==> |sent| == 1
    ensures |sent| <= 1
  {
    var details := BuildDetails(snap, products);
    if details.Err? {
      return Err(details.error), [];
    }
    var contact := LookupContactId(snap.contacts, cfg.contactPassant);
    if contact.Err? {
      return Err(contact.error), [];
    }
    sent := [PostSalesInvoice(Invoice(reference, invoiceDate, contact.value, details.value, true))];
    r := Ok(createdInvoiceId);
  }

  // ---------------------------------------------------------------------------
  // AddPurchaseInvoice

  /** The card-fee purchase invoice. The payment provider's contact, the bank
      costs ledger account and the 0% purchase tax rate are looked up first,
      in that order, and the first failure is fatal in no-op mode too. In
      no-op mode nothing is posted; otherwise one invoice is posted with one
      detail line for the fee, prices including tax. No id is returned. */
  method AddPurchaseInvoice(cfg: Config, snap: Snapshot, noop: bool, reference: string, invoiceDate: int, price: real)
    returns (failure: Option<Error>, sent: seq<Request>)
    ensures var contact := IdByName(snap.contacts, cfg.contactIzettle, "contact");
            var ledger := IdByName(snap.ledgerAccounts, cfg.ledgerBankkosten, "ledger account");
            var taxRate := TaxRateIdOf(snap.taxRates, PurchaseInvoiceType, 0.0);
            && (contact.Err? ==> failure == Some(contact.error))
            && (contact.Ok? && ledger.Err? ==> failure == Some(ledger.error))
            && (contact.Ok? && ledger.Ok? && taxRate.Err? ==> failure == Some(taxRate.error))
            && (failure.None? <==> contact.Ok? && ledger.Ok? && taxRate.Ok?)
            && (failure.None? && !noop ==>
                  sent == [PostPurchaseInvoice(Invoice(reference, invoiceDate, contact.value,
                             [Detail(FeeDescription, price, taxRate.value, ledger.value)], true))])
    ensures failure.Some? || noop ==> sent == []
  {
    sent := [];
    var contact := LookupContactId(snap.contacts, cfg.contactIzettle);
    if contact.Err? {
      return Some(contact.error), [];
    }
    var ledger := LookupLedgerAccountId(snap.ledgerAccounts, cfg.ledgerBankkosten);
    if ledger.Err? {
      return Some(ledger.error), [];
    }
    var taxRate := LookupTaxrateIdPurchase(snap.taxRates, 0.0);
    if taxRate.Err? {
      return Some(taxRate.error), [];
    }
    var invoice := Invoice(reference, invoiceDate, contact.value,
                           [Detail(FeeDescription, price, taxRate.value, ledger.value)], true);
    failure := None;
    if !noop {
      sent := [PostPurchaseInvoice(invoice)];
    }
  }
}
