# AppComta derivation engine in Dafny

AppComta keeps a small business's general ledger and derives three statements from it: the
income statement (compte de résultat), the cashflow statement and the balance sheet (bilan).
This project models the derivation engine and the helpers that turn user input into ledger
entries, and proves what the code promises about them:

- `Compta` (compta.dfy): the closed set of 21 categories, their labels and their
  balance-sheet placement (group and section), and per-category totals.
- `Text` (text.dfy): `toLowerCase` and `includes`, the two string operations every
  keyword test relies on.
- `Cashflow` (cashflow.dfy): the amount-keyed multiset (`addCount`, `tryConsume`) as a class
  over a `map`, the pre-scan, the first-match classification pass, the
  investment-financing neutralisation, and `computeCashflow` as a method with the two loops
  of the source, proved equal to a functional specification of the code as written; beside
  it, a corrected cashflow (see Findings).
- `Store` (store.dfy): the ledger as a class whose `entries` field the insert and remove
  methods update; the newest-first listing (a stable insertion sort); the income-statement
  loop; the balance-sheet sections with the synthetic treasury line, which carries the net
  flow of `computeCashflow` as written, and the closing test; beside it, a corrected balance
  sheet whose treasury line carries the corrected net flow.
- `Classifier` (classifier.dfy): the ordered keyword rules of `autoClassifier`,
  `suggestCategoryFromLabel` and the grouped options table.
- `AutoEntries` (auto_entries.dfy): `buildAutoEntries`, the payloads one structured
  operation posts.
- `Accounting` (accounting.dfy): the chart-of-accounts dictionary and `trouverEcriture`.
- `Service` (service.dfy): year-end closing (`cloturerExercice`), the free-text posting
  (`ajouterEcritureAuto`, with the credit-account prefix mapping), the structured posting
  (`enregistrerEcritureAuto`) and the cashflow report (`generateCashflow`).
- `EcoBois` (ecobois.dfy): the ÉcoBois first-year exercise, posted into a fresh ledger and
  proved to give a balanced balance sheet (73840 on both sides), a net result of 7640 and
  the cashflow summary.
- `Wrappers` (wrappers.dfy): `Option` and `Result`.

Amounts are integers in the source's own unit (the ÉcoBois postings are whole euros, 40000
for the 40 000 € contribution); fractional amounts are left out, so the source's `keyAmt`
rounding to two decimals is the identity. Identifiers come from a counter held by the ledger, and the clock is a `now`
parameter of every operation that posts entries.

Points where the code does something a reader might not expect, and which the model keeps:
- The balance sheet is built from fixed category lists
  (src/main/repository/ComptaStore.ts:93-105 and 119). It does not group entries by the
  taxonomy sections of src/shared/types/compta.ts:123-154.
- The free-text posting throws when neither the dictionary nor the classifier knows the
  description (src/main/repository/ComptaService.ts:20). The model returns a `Failure` result.
- The cashflow report (`generateCashflow`) runs `computeCashflow` over the newest-first
  listing, while the balance sheet's treasury line runs it over the store in insertion order
  (src/main/repository/ComptaStore.ts:130). The first-match pass depends on order, so the
  two can split the same outflow differently between operating and investing flows
  (`Service.ReportSplitDiffers`).
- The neutralisation of a machine purchase also offsets a purchase the pass already matched
  against its payable (see Findings). The members that model the program follow the code
  here: `Cashflow.CashflowAsWritten`, `Cashflow.ComputeCashflow`, `Store.BalanceSheetOf`
  (whose treasury line is that net flow), `Store.Ledger.ComputeBalanceSheet` and
  `EcoBois.TestEcoBois`. The correction is kept apart, in `Cashflow.CashflowOf`,
  `Cashflow.ComputeCashflowCorrected` and `Store.CorrectedBalanceSheetOf`; the lemmas name
  which of the two they are about.

## Model

| member | source | states |
|---|---|---|
| Compta.CategoriesAreClosed | src/shared/types/compta.ts:29-52 | there are exactly 21 categories, pairwise distinct, and every category value is among them |
| Compta.Label | src/shared/types/compta.ts:90-121 | every category has a non-empty label |
| Compta.LabelsAreDistinct | src/shared/types/compta.ts:90-121 | two categories with the same label are the same category |
| Compta.PlacementOf | src/shared/types/compta.ts:123-154 | a category is on the asset side exactly when it is a sale, a service revenue, an investment, stock, a receivable or a client collection; every section is one of the eight named sections |
| Compta.MovementsSection | src/shared/types/compta.ts:150-153 | the "Mouvements" section holds exactly client collection, supplier payment and loan repayment |
| Compta.AmountOfPrefix | src/main/repository/ComptaStore.ts:135-140 | appending an entry leaves the category sum over the earlier entries unchanged |
| Compta.AmountOfAppend | src/main/repository/ComptaStore.ts:135-140 | a category total grows by the new entry's amount exactly when the entry is of that category |
| Text.Lower | src/main/repository/CashflowService.ts:143 | lowering keeps the length and lowers each character in place |
| Text.LowerIdempotent | src/shared/autoClassifier.ts:85-88 | lowering twice is lowering once |
| Text.LowerSlice | src/shared/autoClassifier.ts:85-88 | lowering commutes with taking a slice |
| Text.AbsentAfterLower | src/main/repository/CashflowService.ts:143-146 | a letter absent from a text in both cases is absent from the lowered text |
| Text.ContainsAt | src/main/repository/CashflowService.ts:144 | a keyword found at a position is contained |
| Text.ContainsWitness | src/main/repository/CashflowService.ts:144 | a contained keyword occurs at some position |
| Text.ContainsLowered | src/shared/autoClassifier.ts:85-91 | a lower-case keyword occurring in a text still occurs after lowering the text |
| Text.CharOfContained | src/main/repository/CashflowService.ts:144 | every character of a contained keyword occurs in the text |
| Text.ContainsTransitive | src/main/services/accountingService.ts:112 | containment is transitive |
| Cashflow.Added | src/main/repository/CashflowService.ts:102-105 | addCount raises the count of the amount by one, leaves every other key and count as it was, and keeps the map free of zero counts |
| Cashflow.Consumed | src/main/repository/CashflowService.ts:106-114 | tryConsume succeeds exactly when the amount's count is positive; on success the count drops by one and the key is deleted at zero; on failure the map is unchanged; no other key changes |
| Cashflow.AmountCounter.constructor | src/main/repository/CashflowService.ts:131-132 | a new multiset is empty |
| Cashflow.AmountCounter.AddCount | src/main/repository/CashflowService.ts:102-105 | the counts become the Added map and stay free of zero counts |
| Cashflow.AmountCounter.TryConsume | src/main/repository/CashflowService.ts:106-114 | the result and the new counts are those of Consumed |
| Cashflow.Neutralise | src/main/repository/CashflowService.ts:226-255 | the reported net is exploitation plus investment plus financing |
| Cashflow.ScanOutstanding | src/main/repository/CashflowService.ts:139-157 | the pre-scan loop fills both multisets and returns the three totals of the functional pre-scan |
| Cashflow.ClassifyEntry | src/main/repository/CashflowService.ts:159-224 | one pass iteration changes the two multisets and the running totals exactly as the first-match step function |
| Cashflow.RunPasses | src/main/repository/CashflowService.ts:131-224 | the two loops give the functional pre-scan of the entries and the flows of the functional pass |
| Cashflow.NeutraliseFlows | src/main/repository/CashflowService.ts:226-256 | the neutralisation statements give the summary of the functional neutralisation, whose net is the sum of the three flows |
| Cashflow.ComputeCashflow | src/main/repository/CashflowService.ts:116-256 | the method returns the cashflow of the entries as the code writes it, every positive machine purchase being neutralised |
| Cashflow.ComputeCashflowCorrected | src/main/repository/CashflowService.ts:116-256 | the method returns the corrected cashflow, neutralising only the machine purchases the pass booked as an outflow |
| Cashflow.PositiveAmountOf | src/main/repository/CashflowService.ts:151-156 | the sum of a category's positive amounts is non-negative and at least the category's total |
| Cashflow.AbsAmountOf | src/main/repository/CashflowService.ts:168-192 | the sum of a category's absolute amounts is non-negative and bounds the total in both directions |
| Cashflow.StepPreScan | src/main/repository/CashflowService.ts:139-157 | one pre-scan step adds one to the count of a positive payable or receivable amount and nothing else, and adds a positive machine purchase or loan to its total; the linked-payable total moves only on a positive payable |
| Cashflow.PreScanCounts | src/main/repository/CashflowService.ts:139-150 | after the pre-scan each payable (receivable) count is the number of positive payable (receivable) entries of that amount, with no zero counts |
| Cashflow.PreScanTotals | src/main/repository/CashflowService.ts:139-157 | the machine and loan totals are the sums of the positive machine purchases and loans; the linked-payable total lies between 0 and the sum of positive payables |
| Cashflow.StepTotals | src/main/repository/CashflowService.ts:168-221 | each pass step adds to each reported sub-total exactly the amount its branch names, and nothing for other categories |
| Cashflow.StepOperatingBalance | src/main/repository/CashflowService.ts:163-212 | a pass step keeps exploitation equal to collections minus supplier payments minus charges paid plus interest |
| Cashflow.StepFinancingBalance | src/main/repository/CashflowService.ts:175-186 | a pass step keeps financing equal to contributions plus loans received plus repayments |
| Cashflow.PassBalances | src/main/repository/CashflowService.ts:159-224 | after any number of entries both balances hold |
| Cashflow.PassPayments | src/main/repository/CashflowService.ts:168-193 | supplier payments are the sum of the absolute payment amounts (so never negative) and interest is minus the sum of absolute interest amounts (so never positive) |
| Cashflow.PassFinancing | src/main/repository/CashflowService.ts:175-186 | contributions, loans received and repayments are the totals of their categories |
| Cashflow.PassInvestmentsRecorded | src/main/repository/CashflowService.ts:215-221 | investments recorded are the total of all investment entries, matched or not |
| Cashflow.StepInvestment | src/main/repository/CashflowService.ts:215-221 | an investment step lowers the investing flow by its amount or, when matched, not at all; other steps leave it; a machine purchase either flows out or is counted as bought on credit |
| Cashflow.PassMachineOnCredit | src/main/repository/CashflowService.ts:215-221 | the machine purchases matched against a payable sum to at most the positive machine purchases |
| Cashflow.PassIgnores | src/main/repository/CashflowService.ts:159-224 | payables, receivables, stock, raw-material purchases and retained earnings leave the pass state unchanged |
| Cashflow.InterestNeverConsumes | src/main/repository/CashflowService.ts:189-193 | interest never consumes a payable or receivable; it lowers exploitation and interest by its absolute amount and never counts as a charge paid |
| Cashflow.StepMatches | src/main/repository/CashflowService.ts:196-221 | a step consumes one receivable count exactly for a revenue of that amount with a positive count, and one payable count exactly for a non-interest charge or investment of that amount with a positive count |
| Cashflow.StepOperating | src/main/repository/CashflowService.ts:162-211 | one step: a collection adds its absolute amount to exploitation and collections; a revenue (charge) adds nothing when a receivable (payable) of its amount is still outstanding, and otherwise adds its amount to exploitation and collections (subtracts it from exploitation and adds it to charges paid); supplier payments and interest lower exploitation by their absolute amounts; nothing else touches the three |
| Cashflow.StepKeepsNothingOutstanding | src/main/repository/CashflowService.ts:196-221 | the pass only consumes payables and receivables: from none outstanding a step leaves none |
| Cashflow.MatchedConsumes | src/main/repository/CashflowService.ts:196-221 | the counts left plus the entries excluded from cash equal the counts the pass started with |
| Cashflow.ExclusionBound | src/main/repository/CashflowService.ts:139-221 | per amount, entries excluded from cash are at most the positive receivable (payable) entries of that amount |
| Cashflow.PassInvestment | src/main/repository/CashflowService.ts:215-221 | with non-negative investment amounts, the investing flow lies between minus the investments recorded and minus the machine purchases paid in cash |
| Cashflow.PassReports | src/main/repository/CashflowService.ts:159-224 | after the pass the operating and financing balances hold and payments, interest, contributions, loans received, repayments and investments recorded are the category sums |
| Cashflow.NeutralisedReports | src/main/repository/CashflowService.ts:226-255 | whatever non-negative machine amount is neutralised, the summary satisfies the balances and sums of CashflowReport |
| Cashflow.CashflowReport | src/main/repository/CashflowService.ts:241-255 | for the cashflow as written and for the corrected one: net is the sum of the three flows; exploitation and financing decompose into their sub-totals; payments, interest, contributions, repayments and investments recorded are the category sums; loans received lie between the loan totals less the positive bank loans and the loan totals |
| Cashflow.NothingOutstanding | src/main/repository/CashflowService.ts:139-150 | without supplier payables and client receivables the pre-scan records no outstanding amount |
| Cashflow.PassOperating | src/main/repository/CashflowService.ts:159-224 | a pass from nothing outstanding keeps nothing outstanding and adds, entry by entry, the operating cash (collections, revenues and charges at their amounts, supplier payments and interest at minus their absolute amounts), the receipts and the cash charges |
| Cashflow.Conservation | src/main/repository/CashflowService.ts:116-256 | with no supplier payables and no client receivables, the operating flow of the cashflow as written and corrected is revenues plus collections less cash charges, supplier payments and interest, entry by entry; collections and charges paid are likewise the plain sums |
| Cashflow.InvestingFlowBounds | src/main/repository/CashflowService.ts:215-239 | with non-negative investment amounts the investing flow is never positive and never below minus the investments recorded |
| Cashflow.PassInvestmentBound | src/main/repository/CashflowService.ts:139-221 | the investment bounds of the pass, stated with the pre-scan's machine total |
| Cashflow.NeutralisedInvesting | src/main/repository/CashflowService.ts:226-239 | neutralising a cash outflow cannot make the investing flow positive |
| Cashflow.NeutraliseBounds | src/main/repository/CashflowService.ts:226-239 | both offsets are non-negative, together at most the machine amount, the loan offset at most the loans; investment rises by both offsets, financing and loans received fall by the loan offset, exploitation is unchanged |
| Cashflow.NeutralisationBounds | src/main/repository/CashflowService.ts:226-239 | the same bounds for the computation as written, over the machine total |
| Cashflow.CorrectionNeutralisesLess | src/main/repository/CashflowService.ts:226-239 | the corrected cashflow neutralises between zero and all machine purchases and never reports a larger investing flow than the code as written |
| Cashflow.MachineOnCreditBound | src/main/repository/CashflowService.ts:139-221 | the machine purchases matched on credit lie between zero and the machine total; the linked-payable and loan totals are non-negative |
| Cashflow.NeutraliseNetMonotone | src/main/repository/CashflowService.ts:226-255 | neutralising fewer purchases gives a smaller or equal net flow |
| Cashflow.CorrectionLowersNet | src/main/repository/CashflowService.ts:226-255 | the corrected net flow never exceeds the net flow as written |
| Cashflow.NeutraliseMonotone | src/main/repository/CashflowService.ts:226-239 | neutralising fewer purchases gives a smaller or equal investing flow |
| Cashflow.CorrectionOnlyForMachineOnCredit | src/main/repository/CashflowService.ts:226-239 | when no machine purchase was matched on credit the corrected and as-written cashflows coincide; exploitation and investments recorded always coincide |
| Cashflow.MachineOnCreditCountedTwice | src/main/repository/CashflowService.ts:215-239 | a machine of amount a plus a machine-linked payable of a: as written the investing flow and the net are +a; corrected they are 0 |
| Cashflow.MachineFinancedWithoutCash | src/main/repository/CashflowService.ts:226-241 | a machine of a, a machine-linked payable d and a loan l with d + l = a leave every flow at zero and investments recorded at a, both as written and corrected |
| Cashflow.MachineFinancingPreScan | src/main/repository/CashflowService.ts:139-157 | the pre-scan of those three entries holds one payable of d and the totals a, d, l |
| Cashflow.MachineFinancingPass | src/main/repository/CashflowService.ts:159-224 | the pass over them books an outflow of a, investments recorded a and a loan inflow of l |
| Cashflow.ChargeSoftwarePreScan | src/main/repository/CashflowService.ts:139-157 | the pre-scan of a bill, a software purchase and a payable of a, payable first or last, holds one payable of a and no machine or loan total |
| Cashflow.ChargeFirstPass | src/main/repository/CashflowService.ts:159-224 | with the bill first, the bill consumes the payable and the software flows out: operating 0, investing -a |
| Cashflow.SoftwareFirstPass | src/main/repository/CashflowService.ts:159-224 | with the payable first, the software consumes the payable and the bill flows out: operating -a, investing 0 |
| Cashflow.OrderChangesSplit | src/main/repository/CashflowService.ts:159-224 | reversing those three entries moves the outflow of a from investing to operating and keeps the net flow |
| Cashflow.LinkedByMachineAt | src/main/repository/CashflowService.ts:143-146 | a label holding "machine" is investment-linked |
| Cashflow.MachinePayableIsInvestLinked | src/main/repository/CashflowService.ts:143-146 | any label ending in "machine" is investment-linked |
| Cashflow.PreScanOfPrefix | src/main/repository/CashflowService.ts:139-157 | appending an entry does not change the pre-scan of the earlier entries |
| Cashflow.ClassifyPrefix | src/main/repository/CashflowService.ts:159-224 | appending an entry does not change the pass over the earlier entries |
| Cashflow.StepNoCash | src/main/repository/CashflowService.ts:139-224 | stock, raw-material purchases, retained earnings and non-positive payables or receivables change neither loop |
| Cashflow.AppendNoCash | src/main/repository/CashflowService.ts:116-256 | appending such an entry leaves the cashflow unchanged, corrected and as written |
| Store.KindAmountIsCategorySum | src/main/repository/ComptaStore.ts:17-29 | the charge total is the sum of the six charge categories' totals and the product total the sum of sale and service revenue |
| Store.SumIncomeAppend | src/main/repository/ComptaStore.ts:40-43 | the items' sum grows by the appended item's amount |
| Store.ItemsOfEntries | src/main/repository/ComptaStore.ts:39-42 | one item per entry, carrying the category label and the amount |
| Store.IncomeFoldContents | src/main/repository/ComptaStore.ts:37-45 | after the loop the charges (products) list is the items of the charge (product) entries in ledger order and its running total is their sum |
| Store.IncomeStepContents | src/main/repository/ComptaStore.ts:38-44 | one loop step appends the entry's item and amount to the list it belongs to and leaves the other |
| Store.IncomeStepKeeps | src/main/repository/ComptaStore.ts:38-44 | an entry of the kind is appended with its amount |
| Store.IncomeStepSkips | src/main/repository/ComptaStore.ts:38-44 | an entry of another kind changes neither list nor total |
| Store.IncomeFoldPrefix | src/main/repository/ComptaStore.ts:37-45 | appending an entry does not change the loop over the earlier entries |
| Store.IncomeStatementAppend | src/main/repository/ComptaStore.ts:31-52 | an entry that is neither charge nor product leaves the income statement unchanged |
| Store.ChargesAndProduitsDisjoint | src/main/repository/ComptaStore.ts:17-29 | no category is both a charge and a product |
| Store.IncomeStatementTotals | src/main/repository/ComptaStore.ts:31-52 | the net result is the products' sum minus the charges' sum; each list holds, in ledger order, exactly the items of its kind's entries and sums to that kind's category totals |
| Store.CategoryLines | src/main/repository/ComptaStore.ts:109-156 | one line per listed category, in list order, carrying its total |
| Store.AnyClosingPrefix | src/main/repository/ComptaStore.ts:141-144 | appending an entry does not change the closing test over the earlier entries |
| Store.HasClosingEntryAppend | src/main/repository/ComptaStore.ts:141-144 | the store holds a closing entry after an append exactly when it did before or the new entry is one |
| Store.FixedAssetsSection | src/main/repository/ComptaStore.ts:109-170 | the fixed-asset section total is the sum of its lines and of the three investment totals |
| Store.CurrentAssetsSection | src/main/repository/ComptaStore.ts:119-180 | the current-asset section total is the sum of its lines and of stock plus receivables |
| Store.DebtSection | src/main/repository/ComptaStore.ts:150-157 | the debt section total is the sum of its lines and of loans, cash credit and payables |
| Store.EquitySectionTotal | src/main/repository/ComptaStore.ts:135-219 | the equity total is the sum of its three lines; the result line is 0 once a closing entry exists and the net result otherwise |
| Store.BalanceSheetTotals | src/main/repository/ComptaStore.ts:160-233 | three asset sections and two liability sections in that order, the third asset section being the treasury line; each side's total is the sum of its section totals |
| Store.SheetStructure | src/main/repository/ComptaStore.ts:91-241 | total assets are the investment, stock and receivable totals plus the treasury amount; total liabilities are contributions, retained earnings, the result unless closed, loans, cash credit and payables |
| Store.BalanceSheetStructure | src/main/repository/ComptaStore.ts:91-241 | the treasury section of computeBalanceSheet is the single line of computeCashflow's net as written; total assets are the investment, stock and receivable totals plus that net; total liabilities are contributions, retained earnings, the result unless closed, loans, cash credit and payables |
| Store.CorrectedSheetDiffersInTreasury | src/main/repository/ComptaStore.ts:130-131 | the corrected sheet has the same liabilities and total liabilities, and total assets lower by exactly what the correction withdraws from the net flow, so never higher |
| Store.CreditMachineUnbalancesSheet | src/main/repository/ComptaStore.ts:130-131 | a machine of a bought on credit with a machine-linked payable of a: computeBalanceSheet shows assets of 2a against liabilities of a; the corrected sheet shows a on both sides |
| Store.TaxonomyAgreesWithDerivers | src/shared/types/compta.ts:125-139 | the "Charges" section is the charge list, the "Produits" section the product list, the "Investissements" section both investment lists |
| Store.InsertNewestFirst | src/main/repository/ComptaStore.ts:64-68 | one insertion step adds exactly the entry |
| Store.SortNewestFirst | src/main/repository/ComptaStore.ts:64-68 | the sort keeps the same entries |
| Store.InsertBound | src/main/repository/ComptaStore.ts:64-68 | inserting keeps every timestamp under a bound that held before |
| Store.InsertSorted | src/main/repository/ComptaStore.ts:64-68 | inserting into a newest-first list keeps it newest first |
| Store.InsertTies | src/main/repository/ComptaStore.ts:64-68 | the inserted entry goes before every entry with its timestamp, which keep their order |
| Store.InsertTiesStep | src/main/repository/ComptaStore.ts:64-68 | passing over a newer entry keeps the tie order |
| Store.CreatedAtCons | src/main/repository/ComptaStore.ts:64-68 | the entries of one instant in a list are its head's, when it has that instant, followed by the tail's |
| Store.SortNewestFirstSpec | src/main/repository/ComptaStore.ts:64-68 | the listing is a permutation, newest first, and entries with equal timestamps keep their insertion order |
| Store.CreatedAtAll | src/main/repository/ComptaStore.ts:64-68 | a list whose entries share one instant is its own tie group |
| Store.SameInstantKeepsOrder | src/main/repository/ComptaStore.ts:64-68 | entries all created at one instant are listed in insertion order |
| Store.IncreasingListedReversed | src/main/repository/ComptaStore.ts:64-68 | three entries created at increasing instants are listed in reverse order |
| Store.IndexOf | src/main/repository/ComptaStore.ts:83 | the index of the first entry with the id, or -1 exactly when no entry has it |
| Store.Ledger.constructor | src/main/repository/ComptaStore.ts:62 | the store starts empty |
| Store.Ledger.Insert | src/main/repository/ComptaStore.ts:70-80 | exactly one entry is appended, carrying the payload, the clock and an id no earlier entry has; earlier entries are unchanged |
| Store.Ledger.FindIndex | src/main/repository/ComptaStore.ts:83 | the loop finds the first index with the id, or -1 |
| Store.Ledger.Remove | src/main/repository/ComptaStore.ts:82-89 | true exactly when some entry has the id; then only the first such entry is removed and the rest keep their order; otherwise the store is unchanged |
| Store.Ledger.List | src/main/repository/ComptaStore.ts:64-68 | a permutation of the store, newest first, ties in insertion order; the store is not changed |
| Store.Ledger.ComputeIncomeStatement | src/main/repository/ComptaStore.ts:31-52 | the loop computes the income statement of the store |
| Store.Ledger.CategoryTotal | src/main/repository/ComptaStore.ts:112-115 | the filter-and-sum computes the category total |
| Store.Ledger.CategorySectionOf | src/main/repository/ComptaStore.ts:109-127 | the push loop and the reduce compute the section of the listed categories |
| Store.Ledger.HasCloture | src/main/repository/ComptaStore.ts:141-144 | true exactly when some retained-earnings entry's lowered label contains "clôture" or "cloture" |
| Store.Ledger.ComputeBalanceSheet | src/main/repository/ComptaStore.ts:91-241 | the method computes the balance sheet of the store, its treasury line being the net of computeCashflow as written |
| Classifier.FirstGroupLaidOut | src/shared/autoClassifier.ts:20-28 | the first option group lists its three keys in order |
| Classifier.SecondGroupLaidOut | src/shared/autoClassifier.ts:29-36 | the second option group lists its three keys in order |
| Classifier.ThirdGroupLaidOut | src/shared/autoClassifier.ts:37-46 | the third option group lists its five keys in order |
| Classifier.OptionsLayout | src/shared/autoClassifier.ts:20-47 | the groups list 11 options in key order, each asking for a payment mode exactly when its key does |
| Classifier.KeyIndex | src/shared/autoClassifier.ts:1-12 | every key has a position in the key list |
| Classifier.OptionsTable | src/shared/autoClassifier.ts:1-47 | the options table lists 11 pairwise distinct keys covering every key |
| Classifier.AnyContained | src/shared/autoClassifier.ts:89 | true exactly when some keyword of the list occurs in the text |
| Classifier.FirstRule | src/shared/autoClassifier.ts:91-204 | the first rule from a position whose keywords occur, with no earlier one matching |
| Classifier.ClassifierIsFirstMatch | src/shared/autoClassifier.ts:84-207 | the result is that of the first rule whose keywords occur in the lowered label, and null exactly when no rule matches |
| Classifier.SaleWinsOverEverything | src/shared/autoClassifier.ts:91-98 | any label containing "vente" classifies as a sale product, whatever else it contains |
| Classifier.ClassifierIgnoresCase | src/shared/autoClassifier.ts:85-88 | a label and its lowered form classify alike |
| Classifier.RuleResultAgrees | src/shared/autoClassifier.ts:91-204 | each rule's result has non-empty distinct destinations and a suggested category whose placement agrees with the result's kind; only the loan rule is a loan |
| Classifier.ResultsAgreeWithTaxonomy | src/shared/autoClassifier.ts:84-207 | every non-null result has non-empty distinct destinations and a category placed as its kind says |
| Classifier.LoanRuleCategory | src/shared/autoClassifier.ts:151-158 | the loan rule suggests cash credit exactly when "credit caisse" or "crédit caisse" occurs, and a bank loan otherwise |
| Classifier.SuggestCategoryFromLabel | src/shared/autoClassifier.ts:209-212 | null exactly when the classifier returns null, and otherwise its suggested category |
| AutoEntries.BuildAutoEntries | src/main/services/autoClassifier.ts:4-93 | at most three payloads, and at least one except for a loan repayment |
| AutoEntries.CreditAddsCounterpart | src/main/services/autoClassifier.ts:26-63 | machine, raw material, electricity and furniture sale post one payload, plus an equal-amount payable (receivable for the sale) exactly on credit |
| AutoEntries.SettlementEntries | src/main/services/autoClassifier.ts:50-73 | a supplier payment posts two payloads of minus the absolute amount; a collection posts plus the absolute amount and a receivable of minus it |
| AutoEntries.PayloadTotalAppend | src/main/services/autoClassifier.ts:8-10 | payload totals add up over concatenation |
| AutoEntries.RepaymentSplit | src/main/services/autoClassifier.ts:74-86 | a repayment posts the principal twice (repayment and loan reduction, both negative) only when positive and the interest once only when positive |
| AutoEntries.SinglePayloadOperations | src/main/services/autoClassifier.ts:13-67 | capital, loan, registration fee and cash credit post exactly one payload, whatever the payment mode |
| AutoEntries.PaymentModeMatters | src/main/services/autoClassifier.ts:26-63 | the payment mode changes the payloads exactly for the four keys with a credit counterpart, which are the keys asking for a payment mode except the registration fee |
| AutoEntries.MachinePayableIsInvestmentLinked | src/main/services/autoClassifier.ts:30 | the payable of a machine bought on credit is investment-linked for the cashflow |
| AutoEntries.CreditMachineCountedTwice | src/main/services/autoClassifier.ts:26-33 | posting a machine bought on credit and nothing else gives a net cashflow of the price as written and 0 corrected |
| Accounting.FirstKey | src/main/services/accountingService.ts:112 | the first dictionary key from a position that occurs in the text, with no earlier one occurring |
| Accounting.LookupIsFirstKey | src/main/services/accountingService.ts:111-125 | null exactly when no key occurs in the lowered input; otherwise the first key that occurs gives the description and two lines, its debit account debited and its credit account credited with the amount |
| Accounting.EntryBalances | src/main/services/accountingService.ts:117-124 | the entry's total debit equals its total credit equals the amount |
| Accounting.LookupIgnoresClock | src/main/services/accountingService.ts:111-124 | apart from the date the result depends only on the input and the amount |
| Accounting.CreditCaisseInRepayment | src/main/services/accountingService.ts:81-95 | the repayment key contains the cash-credit key |
| Accounting.RepaymentTextHoldsCreditKey | src/main/services/accountingService.ts:81-95 | any text containing the repayment key contains the cash-credit key |
| Accounting.RepaymentKeyIsShadowed | src/main/services/accountingService.ts:81-112 | the cash-credit repayment description is never produced |
| Service.ClosingPayload | src/main/repository/ComptaService.ts:103-113 | nothing to post exactly when the net result is 0; otherwise a retained-earnings payload of the net result with the closing label |
| Service.CloturerExercice | src/main/repository/ComptaService.ts:103-114 | with a zero result nothing is inserted; otherwise exactly that payload is appended and returned |
| Service.ClosingWordIsLowerCase | src/main/repository/ComptaService.ts:110 | the lowered closing word is "clôture" |
| Service.ClosingEntryIsRecognised | src/main/repository/ComptaService.ts:109-113 | the entry closing posts passes the balance sheet's closing test |
| Service.ClosingKeepsStatements | src/main/repository/ComptaService.ts:103-114 | a closing entry leaves the income statement, the cashflow as written and corrected, and the next closing payload unchanged |
| Service.ClosingKeepsTotals | src/main/repository/ComptaService.ts:109-113 | a closing entry changes only the retained-earnings total |
| Service.ClosingKeepsAssets | src/main/repository/ComptaService.ts:103-114 | closing leaves the total assets of computeBalanceSheet unchanged, the treasury line included |
| Service.ClosingKeepsDebts | src/main/repository/ComptaService.ts:103-114 | closing leaves the debt section unchanged |
| Service.FirstClosingKeepsBalanceSheet | src/main/repository/ComptaService.ts:103-114 | the first closing marks the store closed and leaves the equity total and both totals of computeBalanceSheet unchanged |
| Service.RepeatedClosingUnbalances | src/main/repository/ComptaService.ts:103-114 | closing again leaves the assets of computeBalanceSheet unchanged and raises its liabilities by the net result |
| Service.GenerateCashflow | src/main/repository/ComptaService.ts:2-5 | the report is the cashflow as written of the newest-first listing, and its net is the sum of its three flows |
| Service.ReportAtOneInstant | src/main/repository/ComptaService.ts:2-5 | for entries posted at one instant the report equals the cashflow of the store in ledger order, whose net is the balance sheet's treasury line |
| Service.ReportSplitDiffers | src/main/repository/ComptaService.ts:2-5 | for a bill, a software purchase and a payable of a posted at increasing instants, the treasury-line cashflow books the outflow as investing and the report as operating |
| Service.FirstCredit | src/main/repository/ComptaService.ts:31 | the first line with a non-zero credit, and none exactly when every credit is zero or absent |
| Service.AutoPayloadCases | src/main/repository/ComptaService.ts:15-57 | nothing is posted exactly when neither the dictionary nor the classifier knows the description; a dictionary hit posts the amount under the first key's description and its credit account's category, a sale when the amount is 0; otherwise the description and the suggested category |
| Service.DictionaryPostingsFirstKeys | src/main/repository/ComptaService.ts:29-50 | the first six dictionary keys post capital, sale, loan, sale, sale and raw materials |
| Service.DictionaryPostingsLastKeys | src/main/repository/ComptaService.ts:29-50 | every later dictionary key posts a sale, since no prefix matches its credit account |
| Service.CapitalAccount | src/main/repository/ComptaService.ts:43 | account 101 maps to a capital contribution |
| Service.LoanAccount | src/main/repository/ComptaService.ts:44 | account 164 maps to a bank loan |
| Service.TreasuryAccounts | src/main/repository/ComptaService.ts:30-50 | the bank account 512 and the cash credit account 519 both fall through to the default sale, since no prefix matches 51 |
| Service.SalesAccount | src/main/repository/ComptaService.ts:34 | account 706 maps to a sale |
| Service.MaterialsAccount | src/main/repository/ComptaService.ts:41 | account 601 maps to raw materials |
| Service.SupplierAccount | src/main/repository/ComptaService.ts:30-50 | account 401 falls through to the default sale |
| Service.CustomerAccount | src/main/repository/ComptaService.ts:30-50 | account 411 falls through to the default sale |
| Service.AjouterEcritureAuto | src/main/repository/ComptaService.ts:15-58 | fails and inserts nothing when nothing is known; otherwise appends exactly the posting of AutoPayload and returns the dictionary entry or none |
| Service.InsertAll | src/main/repository/ComptaService.ts:62-66 | the payloads are inserted in order, with consecutive fresh ids, and returned in that order |
| Service.EnregistrerEcritureAuto | src/main/repository/ComptaService.ts:60-68 | the builder's payloads are appended in order and the same number of entries is returned in the same order |
| EcoBois.PreScanOfEcoBois | src/main/repository/testEcoBois.ts:22-153 | the pre-scan of the exercise: payables 10000 (twice) and 1200, receivable 18000, machine 25000, linked payable 10000, loan 15000 |
| EcoBois.PassOfEcoBois | src/main/repository/testEcoBois.ts:22-153 | the pass leaves two payables of 10000 unconsumed and books the final running totals |
| EcoBois.CashflowOfEcoBois | src/main/repository/testEcoBois.ts:209-217 | exploitation 4840, investment 0, financing 40000, net 44840, with the sub-totals; as written and corrected agree |
| EcoBois.MachineEntriesAlone | src/main/repository/testEcoBois.ts:38-55 | the machine, its payable and its loan alone give investment 0, financing 0, loans 0 and investments recorded 25000 |
| EcoBois.TotalOf | src/main/repository/testEcoBois.ts:22-153 | every category total of the exercise is the amount posted to it |
| EcoBois.KindTotalsOfEcoBois | src/main/repository/testEcoBois.ts:191-205 | charges total 10360 and products 18000 |
| EcoBois.IncomeOfEcoBois | src/main/repository/testEcoBois.ts:191-207 | the net result is 7640 |
| EcoBois.NotClosed | src/main/repository/testEcoBois.ts:219 | the exercise holds no closing entry |
| EcoBois.BalanceSheetOfEcoBois | src/main/repository/testEcoBois.ts:162-188 | total assets and total liabilities are both 73840 |
| EcoBois.PayableLabels | src/main/repository/testEcoBois.ts:46-50 | only the machine payable's label is investment-linked |
| EcoBois.RecordedIsShaped | src/main/repository/testEcoBois.ts:22-153 | the recorded entries carry the exercise's categories, amounts and labels |
| EcoBois.InsertPostings | src/main/repository/testEcoBois.ts:22-153 | posting the twenty payloads into a fresh store gives the exercise, all at one instant |
| EcoBois.TestEcoBois | src/main/repository/testEcoBois.ts:15-231 | the balance sheet balances at 73840, the net result is 7640 and the cashflow summary is the one above |

## Left out

- Floating point: amounts are integers in the source's own unit (ÉcoBois in whole euros); fractional amounts are left out, so `keyAmt` rounding to two decimals is the identity and is not a separate function.
- Identifiers are a counter held by the store instead of `randomUUID()`; freshness is what the model keeps.
- Timestamps and dates are an integer `now` parameter; one call posts all its entries at the same instant.
- `async`/`await`, the IPC channel, the Vue renderer, console output and `toLocaleString`/`padEnd` formatting are not modelled.
- `toLowerCase` is modelled for ASCII and Latin-1 letters only.
- The thin wrappers `generateIncomeStatement`, `getComptaEntries`, `registerComptaEntry`, `deleteComptaEntry` and `generateBalanceSheet` only forward to the Ledger members that model them. `generateCashflow` is not a plain forward: it is `Service.GenerateCashflow`, `computeCashflow` over the newest-first listing.
- Compiled files under `out/` are an older design and are not part of this model.
- No general statement of how the cashflow changes under reordering is made: which equal-amount entry consumes a payable depends on order, and `Cashflow.OrderChangesSplit` shows one case where the split changes.
- AutoEntries.BuildAutoEntries: a function returning the payload list instead of the source's local array filled by a closure; no state outlives the call. Its own contract only bounds the count; the lemmas below it state the payloads.
- AutoEntries.BuildAutoEntries: the unreachable `default` branch of the switch has no counterpart, since the key type is closed.
- Compta.Label: its own contract only promises a non-empty label; the exact texts are in the definition and LabelsAreDistinct states they are distinct.
- Cashflow.CashflowReport: loans received are bounded, not given exactly, because the loan offset depends on the machine purchases. Collections and charges paid are not given as category sums there, because a revenue or charge counts only when no receivable or payable of its amount is outstanding at its turn; Cashflow.StepOperating states that per entry and Cashflow.Conservation gives the sums when nothing is outstanding.
- Store.Ledger.List: a function over the store instead of a copy followed by `sort`; the sort is modelled as a stable insertion sort proved to give the stable order.
- EcoBois.TestEcoBois: posts the twenty entries with one `now`; printing is left out.

## Findings

| source | as written | input that shows it | evidently intended | confidence | as-written member | corrected member |
|---|---|---|---|---|---|---|
| src/main/repository/CashflowService.ts:215-239 | a machine purchase matched against an equal machine-linked payable is kept out of the investing flow by the pass, and the neutralisation then adds the same amount back, so investing shows an inflow | the structured posting of a machine of 25000 bought on credit (src/main/services/autoClassifier.ts:26-33): investing flow +25000, net +25000, although no cash moved; the balance sheet then shows assets of 50000 against liabilities of 25000 (Store.CreditMachineUnbalancesSheet) | the neutralisation covers only the machine purchases the pass booked as a cash outflow, so that with non-negative investments the investing flow is never positive (0 on this input) | not executed | Cashflow.MachineOnCreditCountedTwice | Cashflow.InvestingFlowBounds |
