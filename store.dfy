/** The in-memory ledger and the two statements derived from it: the income statement and the
    balance sheet, whose treasury line is the net cashflow. */
module Store {
  import opened Compta
  import opened Text
  import Cashflow

  // ---------------------------------------------------------------------------------------
  // Income statement
  // ---------------------------------------------------------------------------------------

  /** `CHARGE_CATEGORIES` */
  predicate ChargeCategory(c: Category) {
    c == FraisImmatriculation || c == Loyer || c == Electricite || c == Interets || c == Salaires || c == AchatMatieres
  }

  /** `PRODUIT_CATEGORIES` */
  predicate ProduitCategory(c: Category) {
    c == Vente || c == RevenuService
  }

  /** The item an entry contributes to the income statement. */
  function IncomeItemOf(e: Entry): IncomeItem {
    IncomeItem(Label(e.category), e.amount)
  }

  /** The state of the income-statement loop. */
  datatype IncomeFold = IncomeFold(charges: seq<IncomeItem>, produits: seq<IncomeItem>, totalCharges: int, totalProduits: int)

  function IncomeStep(f: IncomeFold, e: Entry): IncomeFold {
    if ChargeCategory(e.category) then
      f.(charges := f.charges + [IncomeItemOf(e)], totalCharges := f.totalCharges + e.amount)
    else if ProduitCategory(e.category) then
      f.(produits := f.produits + [IncomeItemOf(e)], totalProduits := f.totalProduits + e.amount)
    else f
  }

  /** The income-statement loop over the first `n` entries. */
  function IncomeFoldOf(es: seq<Entry>, n: nat): IncomeFold
    requires n <= |es|
  {
    if n == 0 then IncomeFold([], [], 0, 0)
    else IncomeStep(IncomeFoldOf(es, n - 1), es[n - 1])
  }

  /** `computeIncomeStatement()` over the entries `es`. */
  function IncomeStatementOf(es: seq<Entry>): IncomeStatement {
    var f := IncomeFoldOf(es, |es|);
    IncomeStatement(f.charges, f.produits, f.totalProduits - f.totalCharges)
  }

  /** The sum of the amounts of a list of income-statement items. */
  function SumIncome(items: seq<IncomeItem>): int {
    if items == [] then 0 else SumIncome(items[..|items| - 1]) + items[|items| - 1].amount
  }

  /** Whether `e` is a charge (`charge`) or a product (`!charge`). */
  predicate Keeps(e: Entry, charge: bool) {
    if charge then ChargeCategory(e.category) else ProduitCategory(e.category)
  }

  /** The entries of the first `n` whose category satisfies the charge (`charge`) or the
      product (`!charge`) test, in ledger order. */
  function Kept(es: seq<Entry>, charge: bool, n: nat): seq<Entry>
    requires n <= |es|
  {
    if n == 0 then []
    else Kept(es, charge, n - 1) + (if Keeps(es[n - 1], charge) then [es[n - 1]] else [])
  }

  /** The sum of the amounts of the charge (`charge`) or product (`!charge`) entries among
      the first `n`. */
  function KindAmountOf(es: seq<Entry>, charge: bool, n: nat): int
    requires n <= |es|
  {
    if n == 0 then 0
    else KindAmountOf(es, charge, n - 1) + (if Keeps(es[n - 1], charge) then es[n - 1].amount else 0)
  }

  /** Those sums are the sums of the category totals of `CHARGE_CATEGORIES` and
      `PRODUIT_CATEGORIES`. */
  lemma {:induction false} KindAmountIsCategorySum(es: seq<Entry>, n: nat)
    requires n <= |es|
    ensures KindAmountOf(es, true, n)
         == AmountOf(es, FraisImmatriculation, n) + AmountOf(es, Loyer, n) + AmountOf(es, Electricite, n)
            + AmountOf(es, Interets, n) + AmountOf(es, Salaires, n) + AmountOf(es, AchatMatieres, n)
    ensures KindAmountOf(es, false, n) == AmountOf(es, Vente, n) + AmountOf(es, RevenuService, n)
  {
    if n > 0 {
      KindAmountIsCategorySum(es, n - 1);
    }
  }

  lemma SumIncomeAppend(items: seq<IncomeItem>, it: IncomeItem)
    ensures SumIncome(items + [it]) == SumIncome(items) + it.amount
  {
    assert (items + [it])[..|items|] == items;
  }

  /** The list and the total of one kind after the first `n` entries. */
  function KindItems(f: IncomeFold, charge: bool): seq<IncomeItem> {
    if charge then f.charges else f.produits
  }

  function KindSum(f: IncomeFold, charge: bool): int {
    if charge then f.totalCharges else f.totalProduits
  }

  /** The income-statement items of a list of entries, one per entry, in order. */
  function ItemsOf(es: seq<Entry>): seq<IncomeItem> {
    if es == [] then [] else ItemsOf(es[..|es| - 1]) + [IncomeItemOf(es[|es| - 1])]
  }

  /** Item `i` is the item of entry `i`. */
  lemma {:induction false} ItemsOfEntries(es: seq<Entry>)
    ensures |ItemsOf(es)| == |es|
    ensures forall i :: 0 <= i < |es| ==> ItemsOf(es)[i] == IncomeItemOf(es[i])
  {
    if es != [] {
      var init := es[..|es| - 1];
      ItemsOfEntries(init);
      assert forall i :: 0 <= i < |init| ==> es[i] == init[i];
    }
  }

  /** The charges list holds one item per charge entry (the products list one per product
      entry), in ledger order, each labelled with its category's label and carrying its
      amount; the running total is the sum of the list and of the kind's amounts. */
  lemma {:induction false} IncomeFoldContents(es: seq<Entry>, charge: bool, n: nat)
    requires n <= |es|
    ensures var f := IncomeFoldOf(es, n);
      && KindItems(f, charge) == ItemsOf(Kept(es, charge, n))
      && KindSum(f, charge) == SumIncome(KindItems(f, charge)) == KindAmountOf(es, charge, n)
  {
    if n > 0 {
      IncomeFoldContents(es, charge, n - 1);
      IncomeStepContents(IncomeFoldOf(es, n - 1), Kept(es, charge, n - 1), KindAmountOf(es, charge, n - 1), es[n - 1], charge);
    }
  }

  /** One step of the loop keeps the list of a kind the items of its kept entries, and its
      total their sum. */
  lemma IncomeStepContents(f: IncomeFold, kept: seq<Entry>, amount: int, e: Entry, charge: bool)
    requires KindItems(f, charge) == ItemsOf(kept)
    requires KindSum(f, charge) == SumIncome(KindItems(f, charge)) == amount
    ensures var g := IncomeStep(f, e);
      var kept' := kept + (if Keeps(e, charge) then [e] else []);
      && KindItems(g, charge) == ItemsOf(kept')
      && KindSum(g, charge) == SumIncome(KindItems(g, charge)) == amount + (if Keeps(e, charge) then e.amount else 0)
  {
    if Keeps(e, charge) {
      SumIncomeAppend(KindItems(f, charge), IncomeItemOf(e));
      IncomeStepKeeps(f, e, charge);
      assert (kept + [e])[..|kept|] == kept;
    } else {
      IncomeStepSkips(f, e, charge);
      assert kept + [] == kept;
    }
  }

  lemma IncomeStepKeeps(f: IncomeFold, e: Entry, charge: bool)
    requires Keeps(e, charge)
    ensures KindItems(IncomeStep(f, e), charge) == KindItems(f, charge) + [IncomeItemOf(e)]
    ensures KindSum(IncomeStep(f, e), charge) == KindSum(f, charge) + e.amount
  {
    ChargesAndProduitsDisjoint(e.category);
  }

  lemma IncomeStepSkips(f: IncomeFold, e: Entry, charge: bool)
    requires !Keeps(e, charge)
    ensures KindItems(IncomeStep(f, e), charge) == KindItems(f, charge)
    ensures KindSum(IncomeStep(f, e), charge) == KindSum(f, charge)
  {
  }

  lemma {:induction false} IncomeFoldPrefix(es: seq<Entry>, e: Entry, n: nat)
    requires n <= |es|
    ensures IncomeFoldOf(es + [e], n) == IncomeFoldOf(es, n)
  {
    if n > 0 {
      IncomeFoldPrefix(es, e, n - 1);
      assert (es + [e])[n - 1] == es[n - 1];
    }
  }

  /** Appending an entry that is neither a charge nor a product leaves the income statement
      unchanged. */
  lemma IncomeStatementAppend(es: seq<Entry>, e: Entry)
    requires !ChargeCategory(e.category) && !ProduitCategory(e.category)
    ensures IncomeStatementOf(es + [e]) == IncomeStatementOf(es)
  {
    var es' := es + [e];
    IncomeFoldPrefix(es, e, |es|);
    assert es'[|es|] == e;
    assert IncomeFoldOf(es', |es'|) == IncomeStep(IncomeFoldOf(es', |es|), e);
    assert IncomeStep(IncomeFoldOf(es, |es|), e) == IncomeFoldOf(es, |es|);
  }

  /** No category is both a charge and a product, so no entry reaches both lists. */
  lemma ChargesAndProduitsDisjoint(c: Category)
    ensures !(ChargeCategory(c) && ProduitCategory(c))
  {
  }

  /** The income statement: the net result is the products less the charges, each list sums to
      its categories' totals and lists exactly its entries in ledger order. */
  lemma IncomeStatementTotals(es: seq<Entry>)
    ensures var r := IncomeStatementOf(es);
      && r.resultatNet == SumIncome(r.produits) - SumIncome(r.charges)
      && SumIncome(r.charges) == KindAmountOf(es, true, |es|)
      && SumIncome(r.produits) == KindAmountOf(es, false, |es|)
      && |r.charges| == |Kept(es, true, |es|)| && |r.produits| == |Kept(es, false, |es|)|
      && (forall i :: 0 <= i < |r.charges| ==> r.charges[i] == IncomeItemOf(Kept(es, true, |es|)[i]))
      && (forall i :: 0 <= i < |r.produits| ==> r.produits[i] == IncomeItemOf(Kept(es, false, |es|)[i]))
  {
    IncomeFoldContents(es, true, |es|);
    IncomeFoldContents(es, false, |es|);
    ItemsOfEntries(Kept(es, true, |es|));
    ItemsOfEntries(Kept(es, false, |es|));
  }

  // ---------------------------------------------------------------------------------------
  // Balance sheet
  // ---------------------------------------------------------------------------------------

  /** The balance sheet's hard-coded category lists. */
  const InvestissementBilan: seq<Category> := [AchatMachine, AchatLogiciel, AchatCamion]
  const ActifCirculant: seq<Category> := [Stock, CreancesClients]
  const DetteCategories: seq<Category> := [EmpruntBancaire, CreditCaisse, DettesFournisseurs]

  /** What a balance-sheet line stands for: a category, or one of the two synthetic lines. */
  datatype LineKey = Cat(category: Category) | Tresorerie | ResultatExercice

  datatype SheetItem = SheetItem(key: LineKey, text: string, amount: int)

  datatype Section = Section(group: Group, title: string, total: int, items: seq<SheetItem>)

  /** `BalanceSheetSummary` */
  datatype BalanceSheet = BalanceSheet(assets: seq<Section>, liabilities: seq<Section>, totalAssets: int, totalLiabilities: int)

  /** The line of category `c`: its label and its total over the ledger. */
  function CategoryLine(es: seq<Entry>, c: Category): SheetItem {
    SheetItem(Cat(c), Label(c), Total(es, c))
  }

  /** One line per category of `cats`, in list order. */
  function CategoryLines(es: seq<Entry>, cats: seq<Category>): (r: seq<SheetItem>)
    ensures |r| == |cats|
    ensures forall i :: 0 <= i < |cats| ==> r[i] == CategoryLine(es, cats[i])
  {
    seq(|cats|, i requires 0 <= i < |cats| => CategoryLine(es, cats[i]))
  }

  /** The sum of the first `n` items. */
  function SumItems(items: seq<SheetItem>, n: nat): int
    requires n <= |items|
  {
    if n == 0 then 0 else SumItems(items, n - 1) + items[n - 1].amount
  }

  function SumSections(sections: seq<Section>, n: nat): int
    requires n <= |sections|
  {
    if n == 0 then 0 else SumSections(sections, n - 1) + sections[n - 1].total
  }

  /** A retained-earnings entry whose label marks it as the closing entry. */
  predicate ClosingEntry(e: Entry) {
    var l := Lower(e.text);
    e.category == BeneficeReporte && (Contains(l, "clôture") || Contains(l, "cloture"))
  }

  /** `hasCloture` over the first `n` entries. */
  predicate AnyClosing(es: seq<Entry>, n: nat)
    requires n <= |es|
  {
    n > 0 && (AnyClosing(es, n - 1) || ClosingEntry(es[n - 1]))
  }

  predicate HasClosingEntry(es: seq<Entry>) {
    AnyClosing(es, |es|)
  }

  lemma {:induction false} AnyClosingPrefix(es: seq<Entry>, e: Entry, n: nat)
    requires n <= |es|
    ensures AnyClosing(es + [e], n) == AnyClosing(es, n)
  {
    if n > 0 {
      AnyClosingPrefix(es, e, n - 1);
      assert (es + [e])[n - 1] == es[n - 1];
    }
  }

  /** After an appended entry, a closing entry exists exactly when one existed before or the
      new entry is one. */
  lemma HasClosingEntryAppend(es: seq<Entry>, e: Entry)
    ensures HasClosingEntry(es + [e]) <==> HasClosingEntry(es) || ClosingEntry(e)
  {
    AnyClosingPrefix(es, e, |es|);
    assert (es + [e])[|es|] == e;
  }

  /** A section of category lines, its total being the sum of its lines. */
  function CategorySection(es: seq<Entry>, group: Group, title: string, cats: seq<Category>): Section {
    var items := CategoryLines(es, cats);
    Section(group, title, SumItems(items, |items|), items)
  }

  /** The equity section: contributions, retained earnings and the current result, which is
      left out once the year has been closed. */
  function EquitySection(es: seq<Entry>): Section {
    var apports := Total(es, ApportCapital);
    var beneficeReporte := Total(es, BeneficeReporte);
    var resultat := if HasClosingEntry(es) then 0 else IncomeStatementOf(es).resultatNet;
    Section(Passif, "Capitaux propres", apports + beneficeReporte + resultat,
            [SheetItem(Cat(ApportCapital), Label(ApportCapital), apports),
             SheetItem(Cat(BeneficeReporte), Label(BeneficeReporte), beneficeReporte),
             SheetItem(ResultatExercice, "Résultat de l'exercice", resultat)])
  }

  /** The treasury section: one synthetic line, the net cashflow `tresorerie`. */
  function TreasurySection(tresorerie: int): Section {
    Section(Actif, "Disponibilités", tresorerie, [SheetItem(Tresorerie, "Trésorerie", tresorerie)])
  }

  /** The balance sheet over the entries `es` whose treasury line shows `tresorerie`. */
  function SheetWithTreasury(es: seq<Entry>, tresorerie: int): BalanceSheet {
    var assets := [CategorySection(es, Actif, "Actif immobilisé", InvestissementBilan),
                   CategorySection(es, Actif, "Actif circulant", ActifCirculant),
                   TreasurySection(tresorerie)];
    var liabilities := [EquitySection(es), CategorySection(es, Passif, "Dettes", DetteCategories)];
    BalanceSheet(assets, liabilities, SumSections(assets, |assets|), SumSections(liabilities, |liabilities|))
  }

  /** `computeBalanceSheet()` over the entries `es`: the treasury line is the net flow of
      `computeCashflow` as written. */
  function BalanceSheetOf(es: seq<Entry>): BalanceSheet {
    SheetWithTreasury(es, Cashflow.CashflowAsWritten(es).net)
  }

  /** The balance sheet with the corrected net flow on the treasury line. */
  function CorrectedBalanceSheetOf(es: seq<Entry>): BalanceSheet {
    SheetWithTreasury(es, Cashflow.CashflowOf(es).net)
  }

  /** The fixed-asset section: one line per investment category, totalling their totals. */
  lemma FixedAssetsSection(es: seq<Entry>)
    ensures var s := CategorySection(es, Actif, "Actif immobilisé", InvestissementBilan);
      && s.total == SumItems(s.items, |s.items|)
      && s.total == Total(es, AchatMachine) + Total(es, AchatLogiciel) + Total(es, AchatCamion)
  {
    var items := CategoryLines(es, InvestissementBilan);
    assert items[0].amount == Total(es, AchatMachine);
    assert items[1].amount == Total(es, AchatLogiciel);
    assert items[2].amount == Total(es, AchatCamion);
    assert SumItems(items, 1) == Total(es, AchatMachine);
    assert SumItems(items, 2) == Total(es, AchatMachine) + Total(es, AchatLogiciel);
  }

  /** The current-asset section: stock and client receivables. */
  lemma CurrentAssetsSection(es: seq<Entry>)
    ensures var s := CategorySection(es, Actif, "Actif circulant", ActifCirculant);
      && s.total == SumItems(s.items, |s.items|)
      && s.total == Total(es, Stock) + Total(es, CreancesClients)
  {
    var items := CategoryLines(es, ActifCirculant);
    assert items[0].amount == Total(es, Stock);
    assert items[1].amount == Total(es, CreancesClients);
    assert SumItems(items, 1) == Total(es, Stock);
  }

  /** The debt section: bank loans, the cash credit line and supplier payables. */
  lemma DebtSection(es: seq<Entry>)
    ensures var s := CategorySection(es, Passif, "Dettes", DetteCategories);
      && s.total == SumItems(s.items, |s.items|)
      && s.total == Total(es, EmpruntBancaire) + Total(es, CreditCaisse) + Total(es, DettesFournisseurs)
  {
    var items := CategoryLines(es, DetteCategories);
    assert items[0].amount == Total(es, EmpruntBancaire);
    assert items[1].amount == Total(es, CreditCaisse);
    assert items[2].amount == Total(es, DettesFournisseurs);
    assert SumItems(items, 1) == Total(es, EmpruntBancaire);
    assert SumItems(items, 2) == Total(es, EmpruntBancaire) + Total(es, CreditCaisse);
  }

  /** The equity section totals its three lines; the current result appears exactly when no
      closing entry exists. */
  lemma EquitySectionTotal(es: seq<Entry>)
    ensures var s := EquitySection(es);
      && s.total == SumItems(s.items, |s.items|)
      && s.items[2] == SheetItem(ResultatExercice, "Résultat de l'exercice",
                                 if HasClosingEntry(es) then 0 else IncomeStatementOf(es).resultatNet)
      && s.total == Total(es, ApportCapital) + Total(es, BeneficeReporte) + s.items[2].amount
  {
    var s := EquitySection(es);
    assert SumItems(s.items, 1) == s.items[0].amount;
    assert SumItems(s.items, 2) == s.items[0].amount + s.items[1].amount;
  }

  /** The treasury section holds one line, the net cashflow, and totals it. */
  lemma TreasurySectionTotal(tresorerie: int)
    ensures var s := TreasurySection(tresorerie);
      && s.total == SumItems(s.items, |s.items|)
      && s.items == [SheetItem(Tresorerie, "Trésorerie", tresorerie)]
      && s.total == tresorerie
  {
  }

  /** Total assets are fixed assets plus current assets plus treasury; total liabilities are
      equity plus debts. */
  lemma BalanceSheetTotals(es: seq<Entry>, tresorerie: int)
    ensures var b := SheetWithTreasury(es, tresorerie);
      && |b.assets| == 3 && |b.liabilities| == 2
      && b.assets == [CategorySection(es, Actif, "Actif immobilisé", InvestissementBilan),
                      CategorySection(es, Actif, "Actif circulant", ActifCirculant),
                      TreasurySection(tresorerie)]
      && b.liabilities == [EquitySection(es), CategorySection(es, Passif, "Dettes", DetteCategories)]
      && b.totalAssets == b.assets[0].total + b.assets[1].total + b.assets[2].total
      && b.totalLiabilities == b.liabilities[0].total + b.liabilities[1].total
  {
    var b := SheetWithTreasury(es, tresorerie);
    assert SumSections(b.assets, 1) == b.assets[0].total;
    assert SumSections(b.assets, 2) == b.assets[0].total + b.assets[1].total;
    assert SumSections(b.liabilities, 1) == b.liabilities[0].total;
  }

  /** A balance sheet in terms of category totals, the treasury line and the net result. */
  lemma SheetStructure(es: seq<Entry>, tresorerie: int)
    ensures var b := SheetWithTreasury(es, tresorerie);
      && b.totalAssets == Total(es, AchatMachine) + Total(es, AchatLogiciel) + Total(es, AchatCamion)
                          + Total(es, Stock) + Total(es, CreancesClients) + tresorerie
      && b.totalLiabilities == Total(es, ApportCapital) + Total(es, BeneficeReporte)
                               + (if HasClosingEntry(es) then 0 else IncomeStatementOf(es).resultatNet)
                               + Total(es, EmpruntBancaire) + Total(es, CreditCaisse) + Total(es, DettesFournisseurs)
  {
    BalanceSheetTotals(es, tresorerie);
    FixedAssetsSection(es);
    CurrentAssetsSection(es);
    TreasurySectionTotal(tresorerie);
    EquitySectionTotal(es);
    DebtSection(es);
  }

  /** `computeBalanceSheet()` in terms of category totals, the net flow of `computeCashflow`
      as written and the net result. */
  lemma BalanceSheetStructure(es: seq<Entry>)
    ensures var b := BalanceSheetOf(es);
      && b.assets[2] == TreasurySection(Cashflow.CashflowAsWritten(es).net)
      && b.totalAssets == Total(es, AchatMachine) + Total(es, AchatLogiciel) + Total(es, AchatCamion)
                          + Total(es, Stock) + Total(es, CreancesClients) + Cashflow.CashflowAsWritten(es).net
      && b.totalLiabilities == Total(es, ApportCapital) + Total(es, BeneficeReporte)
                               + (if HasClosingEntry(es) then 0 else IncomeStatementOf(es).resultatNet)
                               + Total(es, EmpruntBancaire) + Total(es, CreditCaisse) + Total(es, DettesFournisseurs)
  {
    SheetStructure(es, Cashflow.CashflowAsWritten(es).net);
  }

  /** The corrected balance sheet has the same liabilities and at most the same assets: it
      differs only on the treasury line, by what the correction withdraws from the net flow. */
  lemma CorrectedSheetDiffersInTreasury(es: seq<Entry>)
    ensures CorrectedBalanceSheetOf(es).liabilities == BalanceSheetOf(es).liabilities
    ensures CorrectedBalanceSheetOf(es).totalLiabilities == BalanceSheetOf(es).totalLiabilities
    ensures CorrectedBalanceSheetOf(es).totalAssets
            == BalanceSheetOf(es).totalAssets - (Cashflow.CashflowAsWritten(es).net - Cashflow.CashflowOf(es).net)
    ensures CorrectedBalanceSheetOf(es).totalAssets <= BalanceSheetOf(es).totalAssets
  {
    SheetStructure(es, Cashflow.CashflowAsWritten(es).net);
    SheetStructure(es, Cashflow.CashflowOf(es).net);
    Cashflow.CorrectionLowersNet(es);
  }

  /** A machine of `a` bought on credit, with a payable of the same amount tied to the
      machine: `computeBalanceSheet()` shows assets of twice the purchase against liabilities
      of the purchase, because the treasury line carries the inflow the code as written
      invents; the corrected sheet balances. */
  lemma CreditMachineUnbalancesSheet(es: seq<Entry>, a: int)
    requires a > 0 && |es| == 2
    requires es[0].category == AchatMachine && es[0].amount == a
    requires es[1].category == DettesFournisseurs && es[1].amount == a && Cashflow.InvestLinkedLabel(es[1].text)
    ensures BalanceSheetOf(es).totalAssets == 2 * a
    ensures BalanceSheetOf(es).totalLiabilities == a
    ensures CorrectedBalanceSheetOf(es).totalAssets == a == CorrectedBalanceSheetOf(es).totalLiabilities
  {
    Cashflow.MachineOnCreditCountedTwice(es, a);
    PairSheet(es, Cashflow.CashflowAsWritten(es).net);
    PairSheet(es, Cashflow.CashflowOf(es).net);
  }

  /** The balance sheet of a machine purchase and a supplier payable, both of `es[0].amount`. */
  lemma PairSheet(es: seq<Entry>, tresorerie: int)
    requires |es| == 2 && es[0].category == AchatMachine && es[1].category == DettesFournisseurs
    ensures SheetWithTreasury(es, tresorerie).totalAssets == es[0].amount + tresorerie
    ensures SheetWithTreasury(es, tresorerie).totalLiabilities == es[1].amount
  {
    SheetStructure(es, tresorerie);
    PairNoResult(es);
    PairTotal(es, AchatMachine);
    PairTotal(es, AchatLogiciel);
    PairTotal(es, AchatCamion);
    PairTotal(es, Stock);
    PairTotal(es, CreancesClients);
    PairTotal(es, ApportCapital);
    PairTotal(es, BeneficeReporte);
    PairTotal(es, EmpruntBancaire);
    PairTotal(es, CreditCaisse);
    PairTotal(es, DettesFournisseurs);
  }

  /** Neither a machine purchase nor a supplier payable touches the income statement. */
  lemma PairNoResult(es: seq<Entry>)
    requires |es| == 2 && es[0].category == AchatMachine && es[1].category == DettesFournisseurs
    ensures IncomeStatementOf(es).resultatNet == 0
  {
    assert IncomeFoldOf(es, 1) == IncomeFold([], [], 0, 0);
  }

  /** A category total over two entries. */
  lemma PairTotal(es: seq<Entry>, c: Category)
    requires |es| == 2
    ensures Total(es, c) == (if es[0].category == c then es[0].amount else 0)
                            + (if es[1].category == c then es[1].amount else 0)
  {
    assert AmountOf(es, c, 1) == (if es[0].category == c then es[0].amount else 0);
  }

  /** The equity section built from its three amounts, as `computeBalanceSheet` lays it out. */
  lemma EquityAssembled(es: seq<Entry>, apports: int, beneficeReporte: int, resultat: int)
    requires apports == Total(es, ApportCapital) && beneficeReporte == Total(es, BeneficeReporte)
    requires resultat == if HasClosingEntry(es) then 0 else IncomeStatementOf(es).resultatNet
    ensures EquitySection(es)
         == Section(Passif, "Capitaux propres", apports + beneficeReporte + resultat,
                    [SheetItem(Cat(ApportCapital), Label(ApportCapital), apports),
                     SheetItem(Cat(BeneficeReporte), Label(BeneficeReporte), beneficeReporte),
                     SheetItem(ResultatExercice, "Résultat de l'exercice", resultat)])
  {
  }

  /** The taxonomy's sections agree with the lists the derivers hard-code: "Charges" is the
      income statement's charge list, "Produits" its product list, and "Investissements" both
      the cashflow's and the balance sheet's investment list. */
  lemma TaxonomyAgreesWithDerivers(c: Category)
    ensures PlacementOf(c).section == "Charges" <==> ChargeCategory(c)
    ensures PlacementOf(c).section == "Produits" <==> ProduitCategory(c)
    ensures PlacementOf(c).section == "Investissements" <==> Cashflow.Investissement(c)
    ensures PlacementOf(c).section == "Investissements" <==> c in InvestissementBilan
  {
  }

  // ---------------------------------------------------------------------------------------
  // Listing order
  // ---------------------------------------------------------------------------------------

  /** Inserts `e` into a list sorted newest first, before every entry no newer than it. */
  function InsertNewestFirst(e: Entry, s: seq<Entry>): (r: seq<Entry>)
    ensures multiset(r) == multiset(s) + multiset{e}
    ensures |r| == |s| + 1
  {
    if s == [] || s[0].createdAt <= e.createdAt then [e] + s
    else
      assert s == [s[0]] + s[1..];
      [s[0]] + InsertNewestFirst(e, s[1..])
  }

  /** The stable sort of `listComptaEntries` (newest first, ties in ledger order). */
  function SortNewestFirst(es: seq<Entry>): (r: seq<Entry>)
    ensures multiset(r) == multiset(es)
    ensures |r| == |es|
  {
    if es == [] then []
    else
      assert es == [es[0]] + es[1..];
      InsertNewestFirst(es[0], SortNewestFirst(es[1..]))
  }

  predicate NewestFirst(s: seq<Entry>) {
    forall i, j :: 0 <= i < j < |s| ==> s[i].createdAt >= s[j].createdAt
  }

  /** The entries of `s` created at `t`, in their order in `s`. */
  function CreatedAt(s: seq<Entry>, t: int): seq<Entry> {
    if s == [] then []
    else (if s[0].createdAt == t then [s[0]] else []) + CreatedAt(s[1..], t)
  }

  /** Inserting an entry no newer than `t` into entries no newer than `t` gives entries no
      newer than `t`. */
  lemma {:induction false} InsertBound(e: Entry, s: seq<Entry>, t: int)
    requires e.createdAt <= t && forall i :: 0 <= i < |s| ==> s[i].createdAt <= t
    ensures forall i :: 0 <= i < |InsertNewestFirst(e, s)| ==> InsertNewestFirst(e, s)[i].createdAt <= t
  {
    if s != [] && s[0].createdAt > e.createdAt {
      InsertBound(e, s[1..], t);
    }
  }

  lemma {:induction false} InsertSorted(e: Entry, s: seq<Entry>)
    requires NewestFirst(s)
    ensures NewestFirst(InsertNewestFirst(e, s))
  {
    if s != [] && s[0].createdAt > e.createdAt {
      InsertSorted(e, s[1..]);
      InsertBound(e, s[1..], s[0].createdAt);
    }
  }

  /** Inserting keeps, for every creation time, the order of the entries created then, the
      inserted entry coming first. */
  lemma {:induction false} InsertTies(e: Entry, s: seq<Entry>, t: int)
    ensures CreatedAt(InsertNewestFirst(e, s), t) == (if e.createdAt == t then [e] else []) + CreatedAt(s, t)
  {
    if s == [] || s[0].createdAt <= e.createdAt {
      CreatedAtCons(e, s, t);
    } else {
      InsertTies(e, s[1..], t);
      InsertTiesStep(e, s[0], InsertNewestFirst(e, s[1..]), s[1..], t);
      assert [s[0]] + s[1..] == s;
    }
  }

  /** Putting an entry newer than `e` in front of both sides keeps the ties of `e` in place. */
  lemma InsertTiesStep(e: Entry, x: Entry, rest: seq<Entry>, tail: seq<Entry>, t: int)
    requires x.createdAt > e.createdAt
    requires CreatedAt(rest, t) == (if e.createdAt == t then [e] else []) + CreatedAt(tail, t)
    ensures CreatedAt([x] + rest, t) == (if e.createdAt == t then [e] else []) + CreatedAt([x] + tail, t)
  {
    CreatedAtCons(x, rest, t);
    CreatedAtCons(x, tail, t);
    if e.createdAt == t {
      assert x.createdAt != t;
    }
  }

  lemma CreatedAtCons(x: Entry, r: seq<Entry>, t: int)
    ensures CreatedAt([x] + r, t) == (if x.createdAt == t then [x] else []) + CreatedAt(r, t)
  {
    assert ([x] + r)[1..] == r;
  }

  /** The listing is a permutation of the ledger, newest first, and entries created at the same
      time keep their ledger order. */
  lemma {:induction false} SortNewestFirstSpec(es: seq<Entry>)
    ensures multiset(SortNewestFirst(es)) == multiset(es)
    ensures NewestFirst(SortNewestFirst(es))
    ensures forall t :: CreatedAt(SortNewestFirst(es), t) == CreatedAt(es, t)
  {
    if es != [] {
      SortNewestFirstSpec(es[1..]);
      InsertSorted(es[0], SortNewestFirst(es[1..]));
      forall t ensures CreatedAt(SortNewestFirst(es), t) == CreatedAt(es, t) {
        InsertTies(es[0], SortNewestFirst(es[1..]), t);
      }
    }
  }
  /** Every entry of `s` was created at the instant `t`. */
  predicate AllCreatedAt(s: seq<Entry>, t: int) {
    forall i :: 0 <= i < |s| ==> s[i].createdAt == t
  }

  lemma {:induction false} CreatedAtAll(s: seq<Entry>, t: int)
    requires AllCreatedAt(s, t)
    ensures CreatedAt(s, t) == s
  {
    if s != [] {
      CreatedAtAll(s[1..], t);
    }
  }

  /** Three entries created at increasing instants are listed in reverse order. */
  lemma IncreasingListedReversed(es: seq<Entry>)
    requires |es| == 3 && es[0].createdAt < es[1].createdAt < es[2].createdAt
    ensures SortNewestFirst(es) == [es[2], es[1], es[0]]
  {
    assert es[1..][1..] == [es[2]];
    assert SortNewestFirst([es[2]]) == [es[2]];
    assert SortNewestFirst(es[1..]) == InsertNewestFirst(es[1], [es[2]]) == [es[2], es[1]];
    assert InsertNewestFirst(es[0], [es[1]]) == [es[1], es[0]];
  }

  /** The listing sort is stable: entries created at the same instant are listed in the order
      they were inserted. */
  lemma SameInstantKeepsOrder(es: seq<Entry>, t: int)
    requires AllCreatedAt(es, t)
    ensures SortNewestFirst(es) == es
  {
    var r := SortNewestFirst(es);
    SortNewestFirstSpec(es);
    forall i | 0 <= i < |r|
      ensures r[i].createdAt == t
    {
      assert r[i] in multiset(es);
    }
    CreatedAtAll(es, t);
    CreatedAtAll(r, t);
  }


  // ---------------------------------------------------------------------------------------
  // The store
  // ---------------------------------------------------------------------------------------

  /** The index of the first entry with id `id`, or -1. */
  function IndexOf(es: seq<Entry>, id: nat): (r: int)
    ensures -1 <= r < |es|
    ensures r == -1 <==> forall i :: 0 <= i < |es| ==> es[i].id != id
    ensures r >= 0 ==> es[r].id == id && forall i :: 0 <= i < r ==> es[i].id != id
  {
    if es == [] then -1
    else if es[0].id == id then 0
    else
      var k := IndexOf(es[1..], id);
      if k == -1 then -1 else k + 1
  }

  /** `comptaStore`, with `randomUUID()` replaced by a counter of the ids handed out. */
  class Ledger {
    var entries: seq<Entry>
    var nextId: nat

    /** Every id was handed out by the counter, and no two entries share one. */
    ghost predicate Valid()
      reads this
    {
      && (forall i :: 0 <= i < |entries| ==> entries[i].id < nextId)
      && (forall i, j :: 0 <= i < j < |entries| ==> entries[i].id != entries[j].id)
    }

    constructor ()
      ensures Valid() && entries == [] && nextId == 0
    {
      entries := [];
      nextId := 0;
    }

    /** `insertComptaEntry`: appends one entry built from the payload, with a fresh id and the
        creation time `now`. */
    method Insert(p: Payload, now: int) returns (e: Entry)
      requires Valid()
      modifies this
      ensures Valid()
      ensures e == Entry(old(nextId), p.text, p.amount, now, p.category)
      ensures entries == old(entries) + [e]
      ensures forall i :: 0 <= i < |old(entries)| ==> old(entries)[i].id != e.id
      ensures nextId == old(nextId) + 1
    {
      e := Entry(nextId, p.text, p.amount, now, p.category);
      entries := entries + [e];
      nextId := nextId + 1;
    }

    /** The position of the entry with the given id, if any. */
    method FindIndex(id: nat) returns (index: int)
      ensures index == IndexOf(entries, id)
    {
      index := -1;
      var i := 0;
      while i < |entries|
        invariant 0 <= i <= |entries|
        invariant forall k :: 0 <= k < i ==> entries[k].id != id
      {
        if entries[i].id == id {
          index := i;
          return;
        }
        i := i + 1;
      }
    }

    /** `removeComptaEntry`: removes the first entry with id `id`, if any. */
    method Remove(id: nat) returns (removed: bool)
      requires Valid()
      modifies this
      ensures Valid()
      ensures var k := IndexOf(old(entries), id);
        && (removed <==> k >= 0)
        && entries == (if k >= 0 then old(entries)[..k] + old(entries)[k + 1..] else old(entries))
      ensures nextId == old(nextId)
    {
      var index := FindIndex(id);
      if index == -1 {
        return false;
      }
      entries := entries[..index] + entries[index + 1..];
      assert forall i :: 0 <= i < |entries| ==> entries[i] == old(entries)[if i < index then i else i + 1];
      return true;
    }

    /** `listComptaEntries`: a copy of the ledger sorted newest first. */
    function List(): (r: seq<Entry>)
      reads this
      ensures multiset(r) == multiset(entries) && NewestFirst(r)
      ensures forall t :: CreatedAt(r, t) == CreatedAt(entries, t)
    {
      SortNewestFirstSpec(entries);
      SortNewestFirst(entries)
    }

    /** `computeIncomeStatement` */
    method ComputeIncomeStatement() returns (r: IncomeStatement)
      ensures r == IncomeStatementOf(entries)
    {
      var charges: seq<IncomeItem> := [];
      var produits: seq<IncomeItem> := [];
      var totalCharges, totalProduits := 0, 0;
      for i := 0 to |entries|
        invariant IncomeFold(charges, produits, totalCharges, totalProduits) == IncomeFoldOf(entries, i)
      {
        var entry := entries[i];
        if ChargeCategory(entry.category) {
          charges := charges + [IncomeItem(Label(entry.category), entry.amount)];
          totalCharges := totalCharges + entry.amount;
        } else if ProduitCategory(entry.category) {
          produits := produits + [IncomeItem(Label(entry.category), entry.amount)];
          totalProduits := totalProduits + entry.amount;
        }
      }
      r := IncomeStatement(charges, produits, totalProduits - totalCharges);
    }

    /** The total of one category over the ledger (`filter` then `reduce`). */
    method CategoryTotal(c: Category) returns (total: int)
      ensures total == Total(entries, c)
    {
      total := 0;
      for i := 0 to |entries|
        invariant total == AmountOf(entries, c, i)
      {
        if entries[i].category == c {
          total := total + entries[i].amount;
        }
      }
    }

    /** One section of category lines, built by the push loops of `computeBalanceSheet`. */
    method CategorySectionOf(group: Group, title: string, cats: seq<Category>) returns (s: Section)
      ensures s == CategorySection(entries, group, title, cats)
    {
      var items: seq<SheetItem> := [];
      for i := 0 to |cats|
        invariant |items| == i
        invariant forall k :: 0 <= k < i ==> items[k] == CategoryLine(entries, cats[k])
      {
        var total := CategoryTotal(cats[i]);
        items := items + [SheetItem(Cat(cats[i]), Label(cats[i]), total)];
      }
      assert items == CategoryLines(entries, cats);
      var sum := 0;
      for i := 0 to |items|
        invariant sum == SumItems(items, i)
      {
        sum := sum + items[i].amount;
      }
      s := Section(group, title, sum, items);
    }

    /** `hasCloture` */
    method HasCloture() returns (b: bool)
      ensures b == HasClosingEntry(entries)
    {
      b := false;
      for i := 0 to |entries|
        invariant b == AnyClosing(entries, i)
      {
        var e := entries[i];
        if e.category == BeneficeReporte {
          var lbl := Lower(e.text);
          if Contains(lbl, "clôture") || Contains(lbl, "cloture") {
            b := true;
          }
        }
      }
    }

    /** `computeBalanceSheet` */
    method ComputeBalanceSheet() returns (r: BalanceSheet)
      ensures r == BalanceSheetOf(entries)
    {
      var immobilise := CategorySectionOf(Actif, "Actif immobilisé", InvestissementBilan);
      var circulant := CategorySectionOf(Actif, "Actif circulant", ActifCirculant);
      var cashflow := Cashflow.ComputeCashflow(entries);
      var tresorerie := cashflow.net;

      var apports := CategoryTotal(ApportCapital);
      var beneficeReporte := CategoryTotal(BeneficeReporte);
      var hasCloture := HasCloture();
      var incomeStatement := ComputeIncomeStatement();
      var resultatNetEquity := if hasCloture then 0 else incomeStatement.resultatNet;
      var dettes := CategorySectionOf(Passif, "Dettes", DetteCategories);

      var assets := [immobilise, circulant,
                     Section(Actif, "Disponibilités", tresorerie, [SheetItem(Tresorerie, "Trésorerie", tresorerie)])];
      var liabilities := [Section(Passif, "Capitaux propres", apports + beneficeReporte + resultatNetEquity,
                                  [SheetItem(Cat(ApportCapital), Label(ApportCapital), apports),
                                   SheetItem(Cat(BeneficeReporte), Label(BeneficeReporte), beneficeReporte),
                                   SheetItem(ResultatExercice, "Résultat de l'exercice", resultatNetEquity)]),
                          dettes];
      EquityAssembled(entries, apports, beneficeReporte, resultatNetEquity);
      assert assets == SheetWithTreasury(entries, tresorerie).assets;
      assert liabilities == SheetWithTreasury(entries, tresorerie).liabilities;
      BalanceSheetTotals(entries, tresorerie);
      r := BalanceSheet(assets, liabilities,
                        assets[0].total + assets[1].total + assets[2].total,
                        liabilities[0].total + liabilities[1].total);
    }
  }
}
