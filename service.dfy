/** The service operations that post to the ledger: the year-end closing, the dictionary
    posting with its fallback on the label classifier, and the structured posting. */
module Service {
  import opened Wrappers
  import opened Text
  import opened Compta
  import Store
  import Cashflow
  import Classifier
  import AutoEntries
  import Accounting

  // ---------------------------------------------------------------------------------------
  // Year-end closing
  // ---------------------------------------------------------------------------------------

  /** The label of the closing entry. */
  const ClosingText: string := "Bénéfice reporté - Clôture"

  /** What the closing posts on the ledger `es`: the net result as retained earnings, or
      nothing when the result is nil. */
  function ClosingPayload(es: seq<Entry>): (r: Option<Payload>)
    ensures r.None? <==> Store.IncomeStatementOf(es).resultatNet == 0
    ensures r.Some? ==> r.value.category == BeneficeReporte && r.value.text == ClosingText
                        && r.value.amount == Store.IncomeStatementOf(es).resultatNet
  {
    var resultat := Store.IncomeStatementOf(es).resultatNet;
    if resultat == 0 then None else Some(Payload(ClosingText, resultat, BeneficeReporte))
  }

  /** `cloturerExercice()` */
  method CloturerExercice(ledger: Store.Ledger, now: int) returns (inserted: bool, entry: Option<Entry>)
    requires ledger.Valid()
    modifies ledger
    ensures ledger.Valid()
    ensures var p := ClosingPayload(old(ledger.entries));
      && inserted == p.Some?
      && (p.None? ==> entry == None && ledger.entries == old(ledger.entries) && ledger.nextId == old(ledger.nextId))
      && (p.Some? ==> entry == Some(Entry(old(ledger.nextId), p.value.text, p.value.amount, now, p.value.category))
                      && ledger.entries == old(ledger.entries) + [entry.value]
                      && ledger.nextId == old(ledger.nextId) + 1)
  {
    var income := ledger.ComputeIncomeStatement();
    var resultat := income.resultatNet;
    if resultat == 0 {
      return false, None;
    }
    var e := ledger.Insert(Payload(ClosingText, resultat, BeneficeReporte), now);
    return true, Some(e);
  }

  lemma ClosingWordIsLowerCase()
    ensures Lower("Clôture") == "clôture"
  {
  }

  /** The entry the closing posts is recognised as a closing entry by the balance sheet. */
  lemma ClosingEntryIsRecognised(e: Entry)
    requires e.category == BeneficeReporte && e.text == ClosingText
    ensures Store.ClosingEntry(e)
  {
    assert e.text[19..26] == "Clôture";
    LowerSlice(e.text, 19, 26);
    ClosingWordIsLowerCase();
    ContainsAt(Lower(e.text), "clôture", 19);
  }

  /** The statements the closing leaves alone: the income statement and the cashflow summary,
      as written and corrected, are those of the ledger before, and so the closing can be repeated, posting the same
      amount again. Only the category of the entry matters, not its label. */
  lemma ClosingKeepsStatements(es: seq<Entry>, e: Entry)
    requires e.category == BeneficeReporte && e.amount == Store.IncomeStatementOf(es).resultatNet
    ensures Store.IncomeStatementOf(es + [e]) == Store.IncomeStatementOf(es)
    ensures Cashflow.CashflowAsWritten(es + [e]) == Cashflow.CashflowAsWritten(es)
    ensures Cashflow.CashflowOf(es + [e]) == Cashflow.CashflowOf(es)
    ensures ClosingPayload(es + [e]) == ClosingPayload(es)
  {
    Store.IncomeStatementAppend(es, e);
    Cashflow.AppendNoCash(es, e);
  }

  /** Closing changes no category total but that of retained earnings, which grows by the
      amount posted. */
  lemma ClosingKeepsTotals(es: seq<Entry>, e: Entry, c: Category)
    requires e.category == BeneficeReporte
    ensures Total(es + [e], c) == Total(es, c) + (if c == BeneficeReporte then e.amount else 0)
  {
    AmountOfAppend(es, e, c);
  }

  /** Closing leaves total assets alone: the category totals it reads are unchanged, and so is
      the net cashflow. */
  lemma ClosingKeepsAssets(es: seq<Entry>, e: Entry)
    requires e.category == BeneficeReporte && e.amount == Store.IncomeStatementOf(es).resultatNet
    ensures Store.BalanceSheetOf(es + [e]).totalAssets == Store.BalanceSheetOf(es).totalAssets
  {
    ClosingKeepsStatements(es, e);
    Store.BalanceSheetStructure(es);
    Store.BalanceSheetStructure(es + [e]);
    ClosingKeepsTotals(es, e, AchatMachine);
    ClosingKeepsTotals(es, e, AchatLogiciel);
    ClosingKeepsTotals(es, e, AchatCamion);
    ClosingKeepsTotals(es, e, Stock);
    ClosingKeepsTotals(es, e, CreancesClients);
  }

  /** The debt section is unchanged by the closing. */
  lemma ClosingKeepsDebts(es: seq<Entry>, e: Entry)
    requires e.category == BeneficeReporte
    ensures Store.CategorySection(es + [e], Passif, "Dettes", Store.DetteCategories).total
         == Store.CategorySection(es, Passif, "Dettes", Store.DetteCategories).total
  {
    Store.DebtSection(es);
    Store.DebtSection(es + [e]);
    ClosingKeepsTotals(es, e, EmpruntBancaire);
    ClosingKeepsTotals(es, e, CreditCaisse);
    ClosingKeepsTotals(es, e, DettesFournisseurs);
  }

  /** On a ledger not yet closed, closing moves the result into retained earnings: once the
      closing entry is recognised (as `ClosingEntryIsRecognised` shows the posted one is), the
      equity total, total assets and total liabilities stay what they were. */
  lemma FirstClosingKeepsBalanceSheet(es: seq<Entry>, e: Entry)
    requires e.category == BeneficeReporte && e.amount == Store.IncomeStatementOf(es).resultatNet
    requires Store.ClosingEntry(e) && !Store.HasClosingEntry(es)
    ensures Store.HasClosingEntry(es + [e])
    ensures Store.EquitySection(es + [e]).total == Store.EquitySection(es).total
    ensures Store.BalanceSheetOf(es + [e]).totalAssets == Store.BalanceSheetOf(es).totalAssets
    ensures Store.BalanceSheetOf(es + [e]).totalLiabilities == Store.BalanceSheetOf(es).totalLiabilities
  {
    Store.HasClosingEntryAppend(es, e);
    ClosingKeepsTotals(es, e, ApportCapital);
    ClosingKeepsTotals(es, e, BeneficeReporte);
    assert Store.EquitySection(es + [e]).total == Store.EquitySection(es).total;
    ClosingKeepsAssets(es, e);
    ClosingKeepsDebts(es, e);
    Store.BalanceSheetTotals(es, Cashflow.CashflowAsWritten(es).net);
    Store.BalanceSheetTotals(es + [e], Cashflow.CashflowAsWritten(es + [e]).net);
  }

  /** Closing is not guarded: on a ledger already closed, closing again adds the result to
      retained earnings a second time, so total liabilities grow by the result while total
      assets stay put. */
  lemma RepeatedClosingUnbalances(es: seq<Entry>, e: Entry)
    requires e.category == BeneficeReporte && e.amount == Store.IncomeStatementOf(es).resultatNet
    requires Store.HasClosingEntry(es)
    ensures Store.BalanceSheetOf(es + [e]).totalAssets == Store.BalanceSheetOf(es).totalAssets
    ensures Store.BalanceSheetOf(es + [e]).totalLiabilities
         == Store.BalanceSheetOf(es).totalLiabilities + Store.IncomeStatementOf(es).resultatNet
  {
    Store.HasClosingEntryAppend(es, e);
    ClosingKeepsTotals(es, e, ApportCapital);
    ClosingKeepsTotals(es, e, BeneficeReporte);
    assert Store.EquitySection(es + [e]).total == Store.EquitySection(es).total + e.amount;
    ClosingKeepsAssets(es, e);
    ClosingKeepsDebts(es, e);
    Store.BalanceSheetTotals(es, Cashflow.CashflowAsWritten(es).net);
    Store.BalanceSheetTotals(es + [e], Cashflow.CashflowAsWritten(es + [e]).net);
  }

  // ---------------------------------------------------------------------------------------
  // Cashflow report
  // ---------------------------------------------------------------------------------------

  /** `generateCashflow`: `computeCashflow` over the newest-first listing of the store, where
      the balance sheet's treasury line runs it over the store in insertion order. */
  method GenerateCashflow(ledger: Store.Ledger) returns (r: Cashflow.CashflowSummary)
    ensures r == Cashflow.CashflowAsWritten(ledger.List())
    ensures r.net == r.exploitation + r.investissement + r.financement
  {
    var entries := ledger.List();
    r := Cashflow.ComputeCashflow(entries);
  }

  /** Entries posted at one instant are listed in ledger order, so the report and the
      treasury line of the balance sheet see the same cashflow. */
  lemma ReportAtOneInstant(es: seq<Entry>, t: int)
    requires Store.AllCreatedAt(es, t)
    ensures Cashflow.CashflowAsWritten(Store.SortNewestFirst(es)) == Cashflow.CashflowAsWritten(es)
    ensures Store.BalanceSheetOf(es).assets[2].total == Cashflow.CashflowAsWritten(Store.SortNewestFirst(es)).net
  {
    Store.SameInstantKeepsOrder(es, t);
    Store.BalanceSheetStructure(es);
  }

  /** Entries posted at increasing instants are listed in reverse, and the split between
      operating and investing flows of the report can then differ from the split behind the
      treasury line: an electricity bill, a software purchase and a supplier payable of `a`
      show an investing outflow in ledger order and an operating outflow in the report. */
  lemma ReportSplitDiffers(es: seq<Entry>, a: int)
    requires a > 0 && |es| == 3 && es[0].createdAt < es[1].createdAt < es[2].createdAt
    requires es[0].category == Electricite && es[0].amount == a
    requires es[1].category == AchatLogiciel && es[1].amount == a
    requires es[2].category == DettesFournisseurs && es[2].amount == a
    ensures Cashflow.CashflowAsWritten(es).exploitation == 0
    ensures Cashflow.CashflowAsWritten(es).investissement == -a
    ensures Cashflow.CashflowAsWritten(Store.SortNewestFirst(es)).exploitation == -a
    ensures Cashflow.CashflowAsWritten(Store.SortNewestFirst(es)).investissement == 0
  {
    Store.IncreasingListedReversed(es);
    Cashflow.OrderChangesSplit(es, a);
  }

  // ---------------------------------------------------------------------------------------
  // Dictionary posting
  // ---------------------------------------------------------------------------------------

  /** The category posted for a credit account: the first matching prefix among the product,
      charge, capital and fixed-asset account classes, and a sale otherwise. */
  function CreditCategory(compte: string): Category {
    if StartsWith(compte, "70") then Vente
    else if StartsWith(compte, "74") then RevenuService
    else if StartsWith(compte, "61") then Loyer
    else if StartsWith(compte, "62") then Electricite
    else if StartsWith(compte, "64") then Salaires
    else if StartsWith(compte, "66") then Interets
    else if StartsWith(compte, "60") then AchatMatieres
    else if StartsWith(compte, "101") then ApportCapital
    else if StartsWith(compte, "164") then EmpruntBancaire
    else if StartsWith(compte, "52") then CreditCaisse
    else if StartsWith(compte, "215") then AchatMachine
    else if StartsWith(compte, "205") then AchatLogiciel
    else if StartsWith(compte, "218") then AchatCamion
    else Vente
  }

  /** The first line with a non-zero credit. */
  function FirstCredit(lignes: seq<Accounting.Line>): (r: Option<Accounting.Line>)
    ensures r.None? <==> forall i :: 0 <= i < |lignes| ==> lignes[i].credit.GetOr(0) == 0
    ensures r.Some? ==> r.value in lignes && r.value.credit.GetOr(0) != 0
  {
    if lignes == [] then None
    else if lignes[0].credit.GetOr(0) != 0 then Some(lignes[0])
    else
      assert forall i :: 1 <= i < |lignes| ==> lignes[i] == lignes[1..][i - 1];
      FirstCredit(lignes[1..])
  }

  /** The category `ajouterEcritureAuto` posts a dictionary entry under. */
  function EntryCategory(ecriture: Accounting.Ecriture): Category {
    match FirstCredit(ecriture.lignes)
    case None => Vente
    case Some(l) => CreditCategory(l.compte)
  }

  /** What `ajouterEcritureAuto(description, montant)` posts: the dictionary entry's
      description under the category of its credit account, or, when the dictionary has no
      key for the description, the description itself under the classifier's suggestion. */
  function AutoPayload(description: string, montant: int, now: int): Option<Payload> {
    match Accounting.TrouverEcriture(description, montant, now)
    case Some(e) => Some(Payload(e.libelle, montant, EntryCategory(e)))
    case None =>
      match Classifier.SuggestCategoryFromLabel(description)
      case Some(c) => Some(Payload(description, montant, c))
      case None => None
  }

  /** Nothing is posted exactly when neither the dictionary nor the classifier knows the
      description. A dictionary hit posts the amount under the description of the first key
      found and the category of its credit account, a sale when the amount is nil; otherwise
      the label and the classifier's category are posted. */
  lemma AutoPayloadCases(description: string, montant: int, now: int)
    ensures AutoPayload(description, montant, now).None?
        <==> Accounting.TrouverEcriture(description, montant, now).None?
             && Classifier.AutoClassifier(description).None?
    ensures AutoPayload(description, montant, now).Some? ==> AutoPayload(description, montant, now).value.amount == montant
    ensures Accounting.TrouverEcriture(description, montant, now).Some? ==>
      var j := Accounting.FirstKey(Lower(description), 0);
      && j < |Accounting.Dictionnaire|
      && AutoPayload(description, montant, now).value.text == Accounting.Dictionnaire[j].description
      && AutoPayload(description, montant, now).value.category
         == (if montant == 0 then Vente else CreditCategory(Accounting.Dictionnaire[j].credit.compte))
    ensures Accounting.TrouverEcriture(description, montant, now).None? && Classifier.AutoClassifier(description).Some? ==>
      AutoPayload(description, montant, now).value
        == Payload(description, montant, Classifier.AutoClassifier(description).value.suggestedCategory)
  {
    var r := Accounting.TrouverEcriture(description, montant, now);
    if r.Some? {
      var lignes := r.value.lignes;
      assert lignes[0].credit.GetOr(0) == 0;
      if montant != 0 {
        assert FirstCredit(lignes) == Some(lignes[1]);
      } else {
        assert lignes[1].credit.GetOr(0) == 0;
      }
    }
  }

  /** The categories the first six keys post under. */
  const FirstKeysCategories: seq<Category> := [ApportCapital, Vente, EmpruntBancaire, Vente, Vente, AchatMatieres]

  /** Only three keys post under a category other than a sale: the capital contribution, the
      machine purchase (posted as a bank loan, after its credit account) and the consumption of
      raw materials. The bank-paid fees, interest and supplier payments, whose credit account is
      the bank, and the cash credit line, whose account 519 is outside the 52 prefix, all post
      as sales. These are the first six keys. */
  lemma DictionaryPostingsFirstKeys()
    ensures forall j :: 0 <= j < 6 ==> CreditCategory(Accounting.Dictionnaire[j].credit.compte) == FirstKeysCategories[j]
  {
    forall j | 0 <= j < 6
      ensures CreditCategory(Accounting.Dictionnaire[j].credit.compte) == FirstKeysCategories[j]
    {
      var compte := Accounting.Dictionnaire[j].credit.compte;
      if j == 0 {
        assert compte == "101";
        CapitalAccount();
      } else if j == 1 {
        assert compte == "512";
        TreasuryAccounts();
      } else if j == 2 {
        assert compte == "164";
        LoanAccount();
      } else if j == 3 {
        assert compte == "401";
        SupplierAccount();
      } else if j == 4 {
        assert compte == "706";
        SalesAccount();
      } else {
        assert compte == "601";
        MaterialsAccount();
      }
    }
  }

  /** The last six keys all post as sales. */
  lemma DictionaryPostingsLastKeys()
    ensures forall j :: 6 <= j < |Accounting.Dictionnaire| ==> CreditCategory(Accounting.Dictionnaire[j].credit.compte) == Vente
  {
    forall j | 6 <= j < |Accounting.Dictionnaire|
      ensures CreditCategory(Accounting.Dictionnaire[j].credit.compte) == Vente
    {
      var compte := Accounting.Dictionnaire[j].credit.compte;
      if j == 7 {
        assert compte == "401";
        SupplierAccount();
      } else if j == 8 {
        assert compte == "519";
        TreasuryAccounts();
      } else if j == 9 {
        assert compte == "411";
        CustomerAccount();
      } else {
        assert compte == "512";
        TreasuryAccounts();
      }
    }
  }

  lemma CapitalAccount()
    ensures CreditCategory("101") == ApportCapital
  {
    assert "101"[..2] == "10" && "101"[..3] == "101";
  }

  lemma LoanAccount()
    ensures CreditCategory("164") == EmpruntBancaire
  {
    assert "164"[..2] == "16" && "164"[..3] == "164";
  }

  /** The bank account 512 and the cash credit account 519 both start with 51, which no
      prefix matches (the cash credit category is keyed on 52), so both post as sales. */
  lemma TreasuryAccounts()
    ensures CreditCategory("512") == Vente
    ensures CreditCategory("519") == Vente
  {
    assert "512"[..2] == "51" && "512"[..3] == "512";
    assert "519"[..2] == "51" && "519"[..3] == "519";
  }

  lemma SalesAccount()
    ensures CreditCategory("706") == Vente
  {
    assert "706"[..2] == "70";
  }

  lemma MaterialsAccount()
    ensures CreditCategory("601") == AchatMatieres
  {
    assert "601"[..2] == "60";
  }

  lemma SupplierAccount()
    ensures CreditCategory("401") == Vente
  {
    assert "401"[..2] == "40" && "401"[..3] == "401";
  }

  lemma CustomerAccount()
    ensures CreditCategory("411") == Vente
  {
    assert "411"[..2] == "41" && "411"[..3] == "411";
  }

  /** `ajouterEcritureAuto(description, montant)` */
  method AjouterEcritureAuto(ledger: Store.Ledger, description: string, montant: int, now: int)
    returns (r: Result<Option<Accounting.Ecriture>, string>)
    requires ledger.Valid()
    modifies ledger
    ensures ledger.Valid()
    ensures var p := AutoPayload(description, montant, now);
      && (p.None? ==> r.Failure? && ledger.entries == old(ledger.entries) && ledger.nextId == old(ledger.nextId))
      && (p.Some? ==> r == Success(Accounting.TrouverEcriture(description, montant, now))
                      && ledger.entries == old(ledger.entries) + [Entry(old(ledger.nextId), p.value.text, montant, now, p.value.category)]
                      && ledger.nextId == old(ledger.nextId) + 1)
  {
    var ecriture := Accounting.TrouverEcriture(description, montant, now);
    if ecriture.None? {
      var suggested := Classifier.SuggestCategoryFromLabel(description);
      if suggested.None? {
        return Failure("Opération inconnue ou non supportée");
      }
      var _ := ledger.Insert(Payload(description, montant, suggested.value), now);
      return Success(None);
    }
    var category := Vente;
    var credit := FirstCredit(ecriture.value.lignes);
    if credit.Some? {
      category := CreditCategory(credit.value.compte);
    }
    var _ := ledger.Insert(Payload(ecriture.value.libelle, montant, category), now);
    return Success(ecriture);
  }

  // ---------------------------------------------------------------------------------------
  // Structured posting
  // ---------------------------------------------------------------------------------------

  /** The payloads `payloads` inserted one after the other, as the loop of
      `enregistrerEcritureAuto` does. */
  method InsertAll(ledger: Store.Ledger, payloads: seq<Payload>, now: int)
    returns (inserted: seq<Entry>)
    requires ledger.Valid()
    modifies ledger
    ensures ledger.Valid()
    ensures |inserted| == |payloads|
    ensures forall i :: 0 <= i < |payloads| ==>
      inserted[i] == Entry(old(ledger.nextId) + i, payloads[i].text, payloads[i].amount, now, payloads[i].category)
    ensures ledger.entries == old(ledger.entries) + inserted
    ensures ledger.nextId == old(ledger.nextId) + |payloads|
  {
    ghost var entries0, next0 := ledger.entries, ledger.nextId;
    inserted := [];
    var i := 0;
    while i < |payloads|
      invariant 0 <= i <= |payloads|
      invariant ledger.Valid()
      invariant |inserted| == i
      invariant forall k :: 0 <= k < i ==>
        inserted[k] == Entry(next0 + k, payloads[k].text, payloads[k].amount, now, payloads[k].category)
      invariant ledger.entries == entries0 + inserted
      invariant ledger.nextId == next0 + i
    {
      var e := ledger.Insert(payloads[i], now);
      inserted := inserted + [e];
      i := i + 1;
    }
  }

  /** `enregistrerEcritureAuto(input)`: the builder's payloads inserted one after the other. */
  method EnregistrerEcritureAuto(ledger: Store.Ledger, input: Classifier.AutoInput, now: int)
    returns (inserted: seq<Entry>)
    requires ledger.Valid()
    modifies ledger
    ensures ledger.Valid()
    ensures var ps := AutoEntries.BuildAutoEntries(input);
      && |inserted| == |ps|
      && (forall i :: 0 <= i < |ps| ==>
            inserted[i] == Entry(old(ledger.nextId) + i, ps[i].text, ps[i].amount, now, ps[i].category))
      && ledger.entries == old(ledger.entries) + inserted
      && ledger.nextId == old(ledger.nextId) + |ps|
  {
    var payloads := AutoEntries.BuildAutoEntries(input);
    inserted := InsertAll(ledger, payloads, now);
  }
}
