# unicenta2moneybird in Dafny

This project models the two pieces of logic at the core of unicenta2moneybird. The tool moves sales from a uniCenta point-of-sale database into the Moneybird bookkeeping service.

- **Point-of-sale side (`unicenta.dfy`).** `TransformSales` joins receipts, tickets, ticket lines, payments and tax categories into canonical sales. It keeps a receipt only when its date lies strictly inside the window `(startDate, endDate)` and its sale passes `validateCustomSale`. That check has two parts:
  - an optional allowlist of payment methods;
  - agreement, within 1e-8, between the products total and the payments total.
- **Ledger side (`moneybird_*.dfy`).** This covers the rules the tool applies to records it downloaded from Moneybird, and the requests it builds:
  - exact-name lookups of contacts, ledger accounts and financial accounts;
  - the tax-rate lookup, which matches a rate by invoice type and percentage (within 1e-8), and by the name "Geen btw" as well for a 0% request;
  - the sign rule for payouts and card fees;
  - the split of the mutation-id listing into batch requests of at most 100 ids;
  - the paging loop of the listings;
  - the sales, purchase and statement bookings, and the no-op ("read-only") mode of the purchase and statement bookings (the sales invoice has no no-op guard).

Shared pieces are in `common.dfy`:
- the `Result` type, which stands for both `exit(1)` and the crashes on missing keys;
- the epsilon comparison `numericEqual`.

Each source loop is a `method` with a loop whose postcondition ties its result to a specification function. The properties are proved as lemmas about those functions. The database tables, the JSON stores and the configuration are given as values:
- a table is a sequence of rows;
- a ticket line's XML attributes are a sequence of `(key, text)` entries;
- a timestamp is an integer ordered like time;
- amounts are exact reals.

A POST is not performed. It is a `Request` value in the `sent` list a method returns, and the id the server would answer with is a parameter.

Where the code and the description of the system differ, the model follows the code:
- The sale reference is `"POS verkoop <ticketid>"`.
- The date window is open at both ends (`startDate < date < endDate`).
- When several tickets share a receipt's id, the last one determines the sale. The loop overwrites the fields for each match.
- A 0% tax-rate request is not matched only by the name "Geen btw". The percentage test that follows it is not an `else`, so a rate of that type whose percentage is 0 also matches, and whichever comes first wins (`MoneybirdLookup.ZeroRateNotOnlyByName`).
- `AddSalesInvoice` has no no-op guard: it posts the invoice in read-only mode too.
- `AddSalesInvoice` looks up the "Omzet" ledger account once per product, after that product's tax rate. An empty product list therefore needs no "Omzet" account.

## Model

| member | source | states |
|---|---|---|
| Common.Abs | lib/uc.py:178-183 | the absolute value used by `numericEqual`: non-negative, and equal to x or -x |
| Common.NumericEqual | lib/uc.py:178-183 | `numericEqual(x, y)` with the default epsilon 1e-8: true exactly when x lies within 1e-8 of y on either side; lib/mb.py:62-67 is the same function |
| Common.NumericEqualSymmetric | lib/uc.py:178-183 | `numericEqual(x, y)` holds exactly when `numericEqual(y, x)` does |
| Common.NumericEqualReflexive | lib/mb.py:62-67 | every amount is `numericEqual` to itself |
| Common.NumericEqualNotTransitive | lib/mb.py:62-67 | the comparison is a tolerance: 0 ≈ ε and ε ≈ 2ε, but 0 is not ≈ 2ε |
| Common.NumericEqualExamples | lib/uc.py:178-183 | amounts 5e-9 apart are equal; amounts 0.1 apart are not |
| Unicenta.FirstTax | lib/uc.py:130-135 | the index of the first tax whose category is the id; no earlier tax has it |
| Unicenta.LookupTaxrate | lib/uc.py:130-135 | returns the rate of the first tax with the category; fails with NotFound exactly when no tax has it |
| Unicenta.Split | lib/uc.py:146 | `str.split(',')` yields at least one part, and no part contains a comma |
| Unicenta.SplitJoin | lib/uc.py:146 | joining the parts of the split with commas gives back the filter text |
| Unicenta.LeadingSpaces | lib/uc.py:147 | the whitespace prefix that `strip` removes ends at the first non-space character |
| Unicenta.TrailingSpaces | lib/uc.py:147 | the whitespace suffix that `strip` removes starts after the last non-space character |
| Unicenta.Strip | lib/uc.py:147 | the stripped item is a slice of the input, has no whitespace at either end, and only whitespace was cut off |
| Unicenta.FilterItems | lib/uc.py:144-147 | the allowlist has one item per comma-separated part, each part stripped, in order |
| Unicenta.PaymentsPassFilter | lib/uc.py:149-154 | true exactly when every payment's method is one of the allowlist items |
| Unicenta.SumProducts | lib/uc.py:156-159 | the products total Σ priceexcl·(1+taxrate)·quantity; fails exactly when some product has no tax rate |
| Unicenta.SumPayments | lib/uc.py:162-165 | the payments total Σ amount |
| Unicenta.PaymentsTotalAppend | lib/uc.py:162-165 | the payments total is additive over concatenation |
| Unicenta.Validation | lib/uc.py:138-175 | the filter runs first and rejects without looking at amounts; an untaxed product is an error; otherwise valid exactly when the two totals are `numericEqual` |
| Unicenta.ValidateCustomSale | lib/uc.py:138-175 | the accumulate-and-compare loops compute exactly `Validation` |
| Unicenta.EmptySaleIsValid | lib/uc.py:156-175 | a sale without products and payments is valid under any filter |
| Unicenta.ValidationTolerance | lib/uc.py:168-173 | without a filter, a 5e-9 difference is accepted and a 0.1 difference rejects the sale |
| Unicenta.FilterRejects | lib/uc.py:149-154 | a payment whose method matches no stripped filter item makes the sale invalid, whatever its amounts |
| Unicenta.NatToString | lib/uc.py:195 | the decimal rendering of a ticket id is non-empty and all digits, one digit exactly when n < 10 |
| Unicenta.NatToStringValue | lib/uc.py:195 | read back most significant digit first, the digits denote n, and they start with '0' only for 0 |
| Unicenta.IntToStringValue | lib/uc.py:195 | a non-negative ticket id is written as the digits of its value, a negative one as '-' and the digits of its magnitude |
| Unicenta.IntToString | lib/uc.py:195 | a negative ticket id renders with a leading minus sign, a non-negative one without, and everything after the sign is a digit |
| Unicenta.NatToStringInjective | lib/uc.py:195 | different numbers render differently |
| Unicenta.IntToStringInjective | lib/uc.py:195 | different ticket ids render differently |
| Unicenta.Reference | lib/uc.py:195 | the sale reference is "POS verkoop " followed by `IntToString` of the ticket id |
| Unicenta.ReferenceValue | lib/uc.py:195 | after the prefix, a non-negative id's digits read back as the id, and a negative id is '-' followed by the digits of its magnitude |
| Unicenta.ReferenceInjective | lib/uc.py:195 | different ticket ids give different "POS verkoop" references |
| Unicenta.ApplyEntriesFields | lib/uc.py:204-213 | the entries keep number, price and quantity; a tax rate is set exactly when some entry names a tax category, a description exactly when some entry names the product; an unknown tax category is fatal |
| Unicenta.LastEntry | lib/uc.py:206-213 | the index of the entry with the key that no later entry has, or -1 when no entry has it |
| Unicenta.ApplyEntriesValues | lib/uc.py:206-213 | later entries overwrite earlier ones: the rate is the looked-up rate of the last tax-category entry's text, the description the text of the last name entry, and a field no entry sets keeps its value |
| Unicenta.ProductOfFields | lib/uc.py:199-213 | the product of a ticket line carries its line, price and units; it has a rate exactly when an entry names a tax category, and that rate is the one of the last such entry; it has a description exactly when an entry names the product, and that is the text of the last such entry; an unknown tax category is fatal |
| Unicenta.BuildProduct | lib/uc.py:199-214 | the entry loop computes `ProductOf` |
| Unicenta.LinesOfMembers | lib/uc.py:197-198 | the lines of a ticket are exactly the ticket lines whose ticket is its id |
| Unicenta.LinesOfAppend | lib/uc.py:197-198 | the lines are selected in ticket-line order |
| Unicenta.CollectProductsShape | lib/uc.py:196-215 | one product per selected line, in order; the run fails exactly when some line cannot be resolved |
| Unicenta.CollectProductsErrSticks | lib/uc.py:211 | a failed lookup in earlier lines ends the run, whatever lines follow |
| Unicenta.ProductsOfErrAt | lib/uc.py:197-211 | an unknown tax category on a line of the ticket ends the run, whatever lines follow |
| Unicenta.BuildProducts | lib/uc.py:196-215 | the ticket-line loop computes the products of the ticket's lines |
| Unicenta.PaymentsOfMembers | lib/uc.py:217-226 | the payments are exactly the payment rows of the receipt, each with its method, total and transaction id |
| Unicenta.PaymentsOfAppend | lib/uc.py:217-226 | the payments keep payment-row order |
| Unicenta.BuildPayments | lib/uc.py:217-226 | the payment loop computes `PaymentsOf` |
| Unicenta.ScanTicketsNone | lib/uc.py:193-194 | no sale is built exactly when no ticket shares the receipt's id |
| Unicenta.ScanTicketsContents | lib/uc.py:191-226 | a built sale has the receipt's date, the products of the ticket's lines and the receipt's payments |
| Unicenta.ScanTicketsReference | lib/uc.py:193-195 | a built sale's reference is "POS verkoop " followed by the ticket id of the last ticket sharing the receipt's id |
| Unicenta.ScanTicketsErrSticks | lib/uc.py:193-215 | a failure on an earlier ticket ends the run |
| Unicenta.BuildSale | lib/uc.py:193-226 | the ticket loop computes `ScanTickets` |
| Unicenta.ProcessReceipt | lib/uc.py:190-231 | one receipt outside the window gives nothing; inside it, the receipt's sale if it validates, nothing if it is rejected, and a missing ticket or tax rate is fatal |
| Unicenta.TransformSales | lib/uc.py:186-231 | the receipt loop computes `Transformed` over the receipts |
| Unicenta.TransformedErrSticks | lib/uc.py:186-231 | a fatal error on an earlier receipt ends the run |
| Unicenta.TransformedAppend | lib/uc.py:186-229 | output order follows receipt order: the sales of a + b are the sales of a followed by those of b |
| Unicenta.OutOfWindowSkipped | lib/uc.py:192-231 | a receipt dated outside the open window is skipped, not an error |
| Unicenta.StepKept | lib/uc.py:192-229 | a receipt contributes at most one sale, and only one inside the window that passes validation |
| Unicenta.TransformedSalesValid | lib/uc.py:186-231 | every output sale lies strictly inside the window, passed validation, and is the sale built for one of the receipts |
| Unicenta.WalkSaleBuilt | lib/uc.py:193-226 | a receipt with one coffee line at category 001 and one cash payment gets the sale "POS verkoop 7" with that product at 21% and that payment |
| Unicenta.SingleSaleScenario | lib/uc.py:186-231 | one receipt with one taxed coffee line and a matching cash payment yields exactly the expected sale |
| MoneybirdLookup.FirstNamed | lib/mb.py:32-59 | the index of the first record with exactly that name; no earlier record has it |
| MoneybirdLookup.LookupId | lib/mb.py:32-59 | returns the id of the first record whose name equals the argument; fails with NotFound exactly when none does |
| MoneybirdLookup.LookupContactId | lib/mb.py:32-39 | the lookup by company name over the contacts |
| MoneybirdLookup.LookupLedgerAccountId | lib/mb.py:42-49 | the lookup by name over the ledger accounts |
| MoneybirdLookup.LookupFinancialAccountId | lib/mb.py:52-59 | the lookup by name over the financial accounts |
| MoneybirdLookup.NameLookupIsExact | lib/mb.py:32-59 | the match is case-sensitive, and of two records with the same name the earlier wins |
| MoneybirdLookup.FirstTaxRate | lib/mb.py:70-92 | the index of the first rate that matches the type and percentage; no earlier rate matches |
| MoneybirdLookup.LookupTaxrateId | lib/mb.py:70-92 | the nested tests of the loop compute `TaxRateIdOf`; it succeeds exactly when some rate matches |
| MoneybirdLookup.LookupTaxrateIdSales | lib/mb.py:116-117 | the lookup among "sales_invoice" rates |
| MoneybirdLookup.LookupTaxrateIdPurchase | lib/mb.py:95-96 | the lookup among "purchase_invoice" rates |
| MoneybirdLookup.TaxRateIdOfUnfold | lib/mb.py:77-89 | the loop takes the first rate when it matches and otherwise continues with the rest of the list |
| MoneybirdLookup.TaxRateLookupByType | lib/mb.py:78-79 | rates of other types never take part: the lookup gives the same answer over the rates of the type alone |
| MoneybirdLookup.TaxRateExamples | lib/mb.py:70-92 | 0% is found by the name "Geen btw" per invoice type, 21% matches within epsilon, and an unknown 9% is fatal |
| MoneybirdLookup.ZeroRateNotOnlyByName | lib/mb.py:80-86 | a 0% request also takes an earlier rate of the type whose percentage is 0 |
| MoneybirdAmounts.SignedAmount | lib/mb.py:282-285 | a payout or card fee is negated exactly once; every other code is left unchanged |
| MoneybirdAmounts.SignConventionExamples | lib/mb.py:282-285 | PAYOUT 500 books -500, CARD_PAYMENT_FEE 12.5 books -12.5, CARD_PAYMENT 100 books 100 |
| MoneybirdAmounts.MakeNegative | lib/mb.py:338-341 | the result is ≤ 0, has the same absolute value, and equals a non-positive input |
| MoneybirdAmounts.MakePositive | lib/mb.py:344-347 | the result is ≥ 0, has the same absolute value, and equals a non-negative input |
| MoneybirdAmounts.MakeNegativeIdempotent | lib/mb.py:338-341 | applying `MakeNegative` twice is applying it once |
| MoneybirdAmounts.MakePositiveIdempotent | lib/mb.py:344-347 | applying `MakePositive` twice is applying it once |
| MoneybirdAmounts.SignHelpersAgree | lib/mb.py:338-347 | `MakePositive` gives the absolute value and `MakeNegative` its negation, whichever of them ran first |
| MoneybirdDownload.ConcatAppend | lib/mb.py:203-211 | appending answers batch by batch is concatenation over a split of the batches |
| MoneybirdDownload.Splits | lib/mb.py:199 | `ceil(n / 100)`: zero exactly for n = 0, and the least k with n ≤ 100·k |
| MoneybirdDownload.Pieces | lib/mb.py:201 | `count` consecutive pieces that concatenate to the input, the first `extra` one longer |
| MoneybirdDownload.ArraySplit | lib/mb.py:201 | k pieces that concatenate to the input, each of size n/k, plus one for the first n mod k |
| MoneybirdDownload.ChunkBounds | lib/mb.py:199-201 | with k = ceil(n/100) near-equal pieces of n > 0 items, every piece has between 1 and 100 items |
| MoneybirdDownload.ChunkSizes | lib/mb.py:199-201 | every chunk of the split holds between 1 and 100 entries |
| MoneybirdDownload.IdsOf | lib/mb.py:204-206 | a chunk's id list has one id per entry, in entry order |
| MoneybirdDownload.IdsOfAppend | lib/mb.py:204-206 | the id list of a concatenation is the concatenation of the id lists |
| MoneybirdDownload.ChunkIdsShape | lib/mb.py:203-206 | one id list per chunk, in chunk order |
| MoneybirdDownload.ConcatChunkIds | lib/mb.py:203-206 | the id lists of the chunks concatenate to the ids of the concatenated chunks |
| MoneybirdDownload.BatchesCoverIds | lib/mb.py:197-211 | no batch for an empty listing; otherwise ceil(n/100) batches of 1 to 100 ids whose concatenation is the listed ids, in order |
| MoneybirdDownload.CollectIds | lib/mb.py:204-206 | the per-chunk append loop builds the chunk's ids |
| MoneybirdDownload.FetchChunks | lib/mb.py:203-211 | one batch per chunk, in order, and the mutations are the batch answers appended in order |
| MoneybirdDownload.DownloadFinancialMutations | lib/mb.py:195-211 | the batches requested are `Batches(items)`, and the mutations are the batch answers appended in batch order |
| MoneybirdDownload.FirstShortPageUnique | lib/mb.py:145-146 | a listing has one stopping page, so the loop's end is determined by the pages served |
| MoneybirdDownload.FullPagesSize | lib/mb.py:141-143 | n full pages hold at least 100·n records |
| MoneybirdDownload.PagesThroughSize | lib/mb.py:141-146 | a download stopping at page `last` holds at least 100·(last-1) records |
| MoneybirdDownload.PageNumbers | lib/mb.py:137-146 | pages 1, 2, …, n in order |
| MoneybirdDownload.DownloadPaged | lib/mb.py:134-147 | pages 1, 2, … are requested up to and including the first short page, and the result is those pages concatenated in order (the same loop as lib/mb.py:218-233 and 258-273) |
| MoneybirdSync.AddFinancialStatementAndMutation | lib/mb.py:280-310 | the account lookup failure is fatal even in no-op mode; in no-op mode nothing is sent and no id is returned; otherwise one statement is sent whose mutation's message is the reference and amount `SignedAmount`, and the created mutation id is returned |
| MoneybirdSync.DetailOfFields | lib/mb.py:365-376 | a product's detail has its price, its description or "Diversen" when that is empty, its own sales tax-rate id and the "Omzet" account; it fails exactly when one of the two lookups fails |
| MoneybirdSync.DetailsOfOk | lib/mb.py:364-377 | the details are built exactly when every product's detail can be built |
| MoneybirdSync.DetailsOfShape | lib/mb.py:363-377 | exactly one detail per product, in product order, each the detail of its own product |
| MoneybirdSync.DetailsOfErrSticks | lib/mb.py:363-376 | a failed lookup for an earlier product ends the build |
| MoneybirdSync.BuildDetails | lib/mb.py:363-376 | the product loop computes `DetailsOf` |
| MoneybirdSync.AddSalesInvoice | lib/mb.py:362-390 | details first, then the contact lookup; once both succeed one invoice is sent with those details and prices including tax, and its id is returned; any failure sends nothing |
| MoneybirdSync.AddPurchaseInvoice | lib/mb.py:402-427 | the contact, ledger and 0% purchase-rate lookups run first, and the first failure is fatal; in no-op mode nothing is sent; otherwise one invoice is sent with the single fee detail and prices including tax |

## Left out

- HTTP (`MakeGetRequest`, `MakePostRequest`, `MakePatchRequest`), the JSON stores and the configuration file are not modelled. Their contents are parameters.
- The paged fetch and the batch fetch are functions given to the download methods. The sync listing request, file writes and logging are not modelled.
- `DownloadFinancialAccounts`, `DownloadLedgerAccounts`, `DownloadTaxRates`, `Get*` and the database and file plumbing of the point-of-sale side (`GetDBConnection`, `Download*`, `json_serial`, writing `custom_sales.json`) are I/O without logic of their own.
- `LinkPayout`, `LinkSalesInvoice`, `LinkPurchaseInvoice` and `SendInvoice` are not modelled. Each builds a PATCH body from its arguments and sends it: `LinkPayout` after a fatal-on-failure name lookup of the configured kruisposten ledger account, `SendInvoice` with the fixed delivery method "Manual". Their only call sites in `unicenta2moneybird.py` are commented out.
- The invoice, mutation and link pipeline of `unicenta2moneybird.py` is commented out, so it is not live behaviour. The rest of that file is argument parsing, date parsing and download calls.
- `lib/log.py` only configures logging.
- Date formatting (`strftime`, `isoformat`), `strptime` of receipt dates and the `"{0:f}"` rendering of amounts are not modelled. Dates are integers and amounts are reals in the requests.
- Floating point: amounts are exact reals. Only the epsilon rule of `numericEqual` is kept, not IEEE rounding.
- The `float()` conversions and their `try/except` paths in `LookupTaxrateId` are not modelled. Percentages are reals already, so those conversions cannot fail.
- XML parsing of ticket-line attributes is not modelled. A line carries its `entry` elements as `(key, text)` pairs.
- `Strip` treats only the ASCII whitespace of `str.isspace` as whitespace: space, tab, line feed, carriage return, vertical tab, form feed and U+001C to U+001F. Python's `str.strip` also removes non-ASCII whitespace such as U+0085, U+00A0 and U+2028.
- `MoneybirdDownload.DownloadPaged` requires that the listing has a first short page, given as a ghost argument. The source loops forever on a server that never returns one, and that run is not modelled.
- The HTTP response bodies are not modelled. The ids that `AddFinancialStatementAndMutation` and `AddSalesInvoice` return are taken as parameters.
