/** The ÉcoBois first-year exercise: twenty postings (a capital contribution, a registration
    fee, a machine bought partly on a supplier payable and partly on a bank loan, raw materials
    and electricity on credit, a sale on credit later collected, a supplier payment, a cash
    credit line drawn and repaid with interest) and the statements derived from them. */
module EcoBois {
  import opened Compta
  import opened Text
  import Cashflow
  import Store
  import AutoEntries

  /** The labels of the three supplier payables, written in parts so that what the pre-scan
      reads in them is shown part by part. */
  const MachinePayableText := "Dette fournisseur - " + "machine" + " (après emprunt 15 000)"
  const MaterialsPayableText := "Dette" + " fournisseur - " + "matières"
  const ElectricityPayableText := "Dette" + " fournisseur - " + "électricité"

  /** The twenty postings of the exercise. */
  const Payloads: seq<Payload> := [
    Payload("Apport en capital", 40000, ApportCapital),
    Payload("Frais d'immatriculation", 3000, FraisImmatriculation),
    Payload("Achat de machine", 25000, AchatMachine),
    Payload(MachinePayableText, 10000, DettesFournisseurs),
    Payload("Emprunt bancaire", 15000, EmpruntBancaire),
    Payload("Stock matières premières", 10000, Stock),
    Payload(MaterialsPayableText, 10000, DettesFournisseurs),
    Payload("Vente de meubles", 18000, Vente),
    Payload("Créance client", 18000, CreancesClients),
    Payload("Consommation matières premières", 6000, AchatMatieres),
    Payload("Réduction stock", -6000, Stock),
    Payload("Paiement fournisseurs", -10000, PaiementFournisseurs),
    Payload("Réduction dette fournisseur", -10000, DettesFournisseurs),
    Payload("Facture électricité", 1200, Electricite),
    Payload(ElectricityPayableText, 1200, DettesFournisseurs),
    Payload("Crédit de caisse", 2000, CreditCaisse),
    Payload("Encaissement client", 18000, EncaissementClient),
    Payload("Réduction créance client", -18000, CreancesClients),
    Payload("Remboursement crédit caisse", -2000, CreditCaisse),
    Payload("Intérêts crédit caisse", 160, Interets)
  ]

  /** Entries 0 to 4: the capital, the registration fee, the machine, its payable and the loan. */
  predicate Block0(es: seq<Entry>) {
    && |es| == 20
    && es[0].category == ApportCapital && es[0].amount == 40000
    && es[1].category == FraisImmatriculation && es[1].amount == 3000
    && es[2].category == AchatMachine && es[2].amount == 25000
    && es[3].category == DettesFournisseurs && es[3].amount == 10000
    && es[4].category == EmpruntBancaire && es[4].amount == 15000
  }

  /** Entries 5 to 9: the raw materials and their payable, the sale and its receivable, the consumption. */
  predicate Block1(es: seq<Entry>) {
    && |es| == 20
    && es[5].category == Stock && es[5].amount == 10000
    && es[6].category == DettesFournisseurs && es[6].amount == 10000
    && es[7].category == Vente && es[7].amount == 18000
    && es[8].category == CreancesClients && es[8].amount == 18000
    && es[9].category == AchatMatieres && es[9].amount == 6000
  }

  /** Entries 10 to 14: the stock reduction, the supplier payment and its payable reduction, the electricity bill and its payable. */
  predicate Block2(es: seq<Entry>) {
    && |es| == 20
    && es[10].category == Stock && es[10].amount == -6000
    && es[11].category == PaiementFournisseurs && es[11].amount == -10000
    && es[12].category == DettesFournisseurs && es[12].amount == -10000
    && es[13].category == Electricite && es[13].amount == 1200
    && es[14].category == DettesFournisseurs && es[14].amount == 1200
  }

  /** Entries 15 to 19: the cash credit, the collection and its receivable reduction, the repayment, the interest. */
  predicate Block3(es: seq<Entry>) {
    && |es| == 20
    && es[15].category == CreditCaisse && es[15].amount == 2000
    && es[16].category == EncaissementClient && es[16].amount == 18000
    && es[17].category == CreancesClients && es[17].amount == -18000
    && es[18].category == CreditCaisse && es[18].amount == -2000
    && es[19].category == Interets && es[19].amount == 160
  }

  /** The labels of the three supplier payables: only the machine's ties it to an investment. */
  predicate Labelled(es: seq<Entry>) {
    && |es| == 20
    && Cashflow.InvestLinkedLabel(es[3].text)
    && !Cashflow.InvestLinkedLabel(es[6].text)
    && !Cashflow.InvestLinkedLabel(es[14].text)
  }

  /** A ledger holding the exercise, the entries in the order of the postings above. */
  predicate Shaped(es: seq<Entry>) {
    Block0(es) && Block1(es) && Block2(es) && Block3(es) && Labelled(es)
  }

  // ---------------------------------------------------------------------------------------
  // The pre-scan
  // ---------------------------------------------------------------------------------------

  /** One step of the pre-scan, stated for a variable position. */
  lemma ScanStep(es: seq<Entry>, n: nat, p: Cashflow.PreScan)
    requires n < |es| && Cashflow.PreScanOf(es, n) == p
    ensures Cashflow.PreScanOf(es, n + 1) == Cashflow.PreScanStep(p, es[n])
  {
  }

  /** An entry that is neither a positive payable, receivable, machine purchase nor loan leaves
      the pre-scan as it is. */
  lemma ScanIgnores(p: Cashflow.PreScan, e: Entry)
    requires e.amount <= 0 || e.category !in {DettesFournisseurs, CreancesClients, AchatMachine, EmpruntBancaire}
    ensures Cashflow.PreScanStep(p, e) == p
  {
  }

  /** A positive payable is counted among the payables, and among the investment-linked ones
      when its label says so. */
  lemma ScanPayable(p: Cashflow.PreScan, e: Entry)
    requires e.category == DettesFournisseurs && e.amount > 0
    ensures Cashflow.PreScanStep(p, e)
            == p.(payables := Cashflow.Added(p.payables, e.amount),
                  totalDettesInvest := p.totalDettesInvest + (if Cashflow.InvestLinkedLabel(e.text) then e.amount else 0))
  {
  }

  /** A positive receivable is counted among the receivables. */
  lemma ScanReceivable(p: Cashflow.PreScan, e: Entry)
    requires e.category == CreancesClients && e.amount > 0
    ensures Cashflow.PreScanStep(p, e) == p.(receivables := Cashflow.Added(p.receivables, e.amount))
  {
  }

  /** A positive machine purchase and a positive loan are added to their totals. */
  lemma ScanMachineOrLoan(p: Cashflow.PreScan, e: Entry)
    requires e.category in {AchatMachine, EmpruntBancaire} && e.amount > 0
    ensures Cashflow.PreScanStep(p, e)
            == if e.category == AchatMachine then p.(totalAchatMachine := p.totalAchatMachine + e.amount)
               else p.(totalEmpruntPositif := p.totalEmpruntPositif + e.amount)
  {
  }

  const Scan5 := Cashflow.PreScan(map[10000 := 1], map[], 25000, 10000, 15000)
  const Scan10 := Cashflow.PreScan(map[10000 := 2], map[18000 := 1], 25000, 10000, 15000)

  /** What the pre-scan gathers over the whole exercise. */
  const Scan := Cashflow.PreScan(map[10000 := 2, 1200 := 1], map[18000 := 1], 25000, 10000, 15000)

  lemma PreScanBlock0(es: seq<Entry>)
    requires Block0(es) && Labelled(es)
    ensures Cashflow.PreScanOf(es, 5) == Scan5
  {
    var p0 := Cashflow.PreScan(map[], map[], 0, 0, 0);
    var p3 := p0.(totalAchatMachine := 25000);
    var p4 := p3.(payables := map[10000 := 1], totalDettesInvest := 10000);
    ScanIgnores(p0, es[0]);
    ScanStep(es, 0, p0);
    ScanIgnores(p0, es[1]);
    ScanStep(es, 1, p0);
    ScanMachineOrLoan(p0, es[2]);
    ScanStep(es, 2, p0);
    ScanPayable(p3, es[3]);
    assert Cashflow.Added(map[], 10000) == map[10000 := 1];
    ScanStep(es, 3, p3);
    ScanMachineOrLoan(p4, es[4]);
    ScanStep(es, 4, p4);
  }

  lemma PreScanBlock1(es: seq<Entry>)
    requires Block1(es) && Labelled(es) && Cashflow.PreScanOf(es, 5) == Scan5
    ensures Cashflow.PreScanOf(es, 10) == Scan10
  {
    var p7 := Scan5.(payables := map[10000 := 2]);
    ScanIgnores(Scan5, es[5]);
    ScanStep(es, 5, Scan5);
    ScanPayable(Scan5, es[6]);
    assert Cashflow.Added(map[10000 := 1], 10000) == map[10000 := 2];
    ScanStep(es, 6, Scan5);
    ScanIgnores(p7, es[7]);
    ScanStep(es, 7, p7);
    ScanReceivable(p7, es[8]);
    assert Cashflow.Added(map[], 18000) == map[18000 := 1];
    ScanStep(es, 8, p7);
    ScanIgnores(Scan10, es[9]);
    ScanStep(es, 9, Scan10);
  }

  lemma PreScanBlock2(es: seq<Entry>)
    requires Block2(es) && Labelled(es) && Cashflow.PreScanOf(es, 10) == Scan10
    ensures Cashflow.PreScanOf(es, 15) == Scan
  {
    ScanIgnores(Scan10, es[10]);
    ScanStep(es, 10, Scan10);
    ScanIgnores(Scan10, es[11]);
    ScanStep(es, 11, Scan10);
    ScanIgnores(Scan10, es[12]);
    ScanStep(es, 12, Scan10);
    ScanIgnores(Scan10, es[13]);
    ScanStep(es, 13, Scan10);
    ScanPayable(Scan10, es[14]);
    assert Cashflow.Added(map[10000 := 2], 1200) == map[10000 := 2, 1200 := 1];
    ScanStep(es, 14, Scan10);
  }

  lemma PreScanBlock3(es: seq<Entry>)
    requires Block3(es) && Cashflow.PreScanOf(es, 15) == Scan
    ensures Cashflow.PreScanOf(es, 20) == Scan
  {
    ScanIgnores(Scan, es[15]);
    ScanStep(es, 15, Scan);
    ScanIgnores(Scan, es[16]);
    ScanStep(es, 16, Scan);
    ScanIgnores(Scan, es[17]);
    ScanStep(es, 17, Scan);
    ScanIgnores(Scan, es[18]);
    ScanStep(es, 18, Scan);
    ScanIgnores(Scan, es[19]);
    ScanStep(es, 19, Scan);
  }

  /** The pre-scan over the whole exercise: payables of 10 000 (twice) and 1 200, a receivable
      of 18 000, a machine of 25 000, of which 10 000 on a machine payable, and a loan of 15 000. */
  lemma PreScanOfEcoBois(es: seq<Entry>)
    requires Shaped(es)
    ensures Cashflow.PreScanOf(es, |es|) == Scan
  {
    PreScanBlock0(es);
    PreScanBlock1(es);
    PreScanBlock2(es);
    PreScanBlock3(es);
  }

  // ---------------------------------------------------------------------------------------
  // The classification pass
  // ---------------------------------------------------------------------------------------

  /** One step of the classification pass, stated for a variable position. */
  lemma PassStep(init: Cashflow.Pass, es: seq<Entry>, n: nat, st: Cashflow.Pass)
    requires n < |es| && Cashflow.Classify(init, es, n) == st
    ensures Cashflow.Classify(init, es, n + 1) == Cashflow.ClassifyStep(st, es[n])
  {
  }

  /** A capital contribution, a loan and a cash credit are financing inflows of their signed
      amount; the loan and the cash credit are loans received. */
  lemma PassFinancingInflow(st: Cashflow.Pass, e: Entry)
    requires e.category in {ApportCapital, EmpruntBancaire, CreditCaisse}
    ensures Cashflow.ClassifyStep(st, e)
            == st.(flows := st.flows.(financement := st.flows.financement + e.amount,
                                      apportsCapital := st.flows.apportsCapital
                                                        + (if e.category == ApportCapital then e.amount else 0),
                                      empruntsRecus := st.flows.empruntsRecus
                                                       + (if e.category == ApportCapital then 0 else e.amount)))
  {
  }

  /** A supplier payment is a cash outflow of its absolute amount. */
  lemma PassSupplierPayment(st: Cashflow.Pass, e: Entry)
    requires e.category == PaiementFournisseurs
    ensures Cashflow.ClassifyStep(st, e)
            == st.(flows := st.flows.(exploitation := st.flows.exploitation - Abs(e.amount),
                                      paiementsFournisseurs := st.flows.paiementsFournisseurs + Abs(e.amount)))
  {
  }

  /** A client collection is a cash inflow of its absolute amount. */
  lemma PassCollection(st: Cashflow.Pass, e: Entry)
    requires e.category == EncaissementClient
    ensures Cashflow.ClassifyStep(st, e)
            == st.(flows := st.flows.(exploitation := st.flows.exploitation + Abs(e.amount),
                                      encaissementsClients := st.flows.encaissementsClients + Abs(e.amount)))
  {
  }

  /** Interest is a cash outflow of its absolute amount. */
  lemma PassInterest(st: Cashflow.Pass, e: Entry)
    requires e.category == Interets
    ensures Cashflow.ClassifyStep(st, e)
            == st.(flows := st.flows.(exploitation := st.flows.exploitation - Abs(e.amount),
                                      interets := st.flows.interets - Abs(e.amount)))
  {
  }

  /** A charge with no payable of its amount outstanding is a cash outflow. */
  lemma PassUnmatchedCharge(st: Cashflow.Pass, e: Entry)
    requires e.category in {FraisImmatriculation, Electricite} && Cashflow.Count(st.payables, e.amount) == 0
    ensures Cashflow.ClassifyStep(st, e)
            == st.(flows := st.flows.(exploitation := st.flows.exploitation - e.amount,
                                      paiementsCharges := st.flows.paiementsCharges + e.amount))
  {
  }

  /** A charge matched against the one payable of its amount consumes it and moves no cash. */
  lemma PassMatchedCharge(st: Cashflow.Pass, e: Entry)
    requires e.category in {FraisImmatriculation, Electricite} && Cashflow.Count(st.payables, e.amount) == 1
    ensures Cashflow.ClassifyStep(st, e) == st.(payables := st.payables - {e.amount})
  {
  }

  /** A sale matched against the one receivable of its amount consumes it and moves no cash. */
  lemma PassMatchedSale(st: Cashflow.Pass, e: Entry)
    requires e.category == Vente && Cashflow.Count(st.receivables, e.amount) == 1
    ensures Cashflow.ClassifyStep(st, e) == st.(receivables := st.receivables - {e.amount})
  {
  }

  /** A machine purchase with no payable of its amount outstanding is an investing outflow. */
  lemma PassUnmatchedMachine(st: Cashflow.Pass, e: Entry)
    requires e.category == AchatMachine && Cashflow.Count(st.payables, e.amount) == 0
    ensures Cashflow.ClassifyStep(st, e)
            == st.(flows := st.flows.(investissement := st.flows.investissement - e.amount,
                                      investissementsPayes := st.flows.investissementsPayes + e.amount))
  {
  }

  /** The flows after the first five entries: the capital, the registration fee, the machine
      paid as a cash outflow (no payable of 25 000 is outstanding) and the loan. */
  const Flows5 := Cashflow.NoFlows.(exploitation := -3000, investissement := -25000, financement := 55000,
                                    paiementsCharges := 3000, investissementsPayes := 25000,
                                    apportsCapital := 40000, empruntsRecus := 15000)

  /** The flows after fifteen entries: the supplier payment is a cash outflow. */
  const Flows15 := Flows5.(exploitation := -13000, paiementsFournisseurs := 10000)

  /** The flows of the whole exercise. */
  const FinalFlows := Flows15.(exploitation := 4840, encaissementsClients := 18000, interets := -160)

  /** The payables and receivables the pass starts from and what it leaves of them. */
  lemma OutstandingAmounts()
    ensures Cashflow.Count(Scan.payables, 3000) == 0 && Cashflow.Count(Scan.payables, 25000) == 0
    ensures Cashflow.Count(Scan.receivables, 18000) == 1 && Scan.receivables - {18000} == map[]
    ensures Cashflow.Count(Scan.payables, 1200) == 1 && Scan.payables - {1200} == map[10000 := 2]
  {
  }

  lemma PassBlock0(es: seq<Entry>)
    requires Block0(es)
    ensures Cashflow.Classify(Cashflow.StartPass(Scan), es, 5) == Cashflow.Pass(Scan.payables, Scan.receivables, Flows5)
  {
    var init := Cashflow.StartPass(Scan);
    var s1 := init.(flows := Cashflow.NoFlows.(financement := 40000, apportsCapital := 40000));
    var s2 := s1.(flows := s1.flows.(exploitation := -3000, paiementsCharges := 3000));
    var s3 := s2.(flows := s2.flows.(investissement := -25000, investissementsPayes := 25000));
    OutstandingAmounts();
    PassFinancingInflow(init, es[0]);
    PassStep(init, es, 0, init);
    PassUnmatchedCharge(s1, es[1]);
    PassStep(init, es, 1, s1);
    PassUnmatchedMachine(s2, es[2]);
    PassStep(init, es, 2, s2);
    Cashflow.PassIgnores(s3, es[3]);
    PassStep(init, es, 3, s3);
    PassFinancingInflow(s3, es[4]);
    PassStep(init, es, 4, s3);
  }

  lemma PassBlock1(es: seq<Entry>)
    requires Block1(es)
    requires Cashflow.Classify(Cashflow.StartPass(Scan), es, 5) == Cashflow.Pass(Scan.payables, Scan.receivables, Flows5)
    ensures Cashflow.Classify(Cashflow.StartPass(Scan), es, 10) == Cashflow.Pass(Scan.payables, map[], Flows5)
  {
    var init := Cashflow.StartPass(Scan);
    var s5 := Cashflow.Pass(Scan.payables, Scan.receivables, Flows5);
    var s8 := s5.(receivables := map[]);
    OutstandingAmounts();
    Cashflow.PassIgnores(s5, es[5]);
    PassStep(init, es, 5, s5);
    Cashflow.PassIgnores(s5, es[6]);
    PassStep(init, es, 6, s5);
    PassMatchedSale(s5, es[7]);
    PassStep(init, es, 7, s5);
    Cashflow.PassIgnores(s8, es[8]);
    PassStep(init, es, 8, s8);
    Cashflow.PassIgnores(s8, es[9]);
    PassStep(init, es, 9, s8);
  }

  lemma PassBlock2(es: seq<Entry>)
    requires Block2(es)
    requires Cashflow.Classify(Cashflow.StartPass(Scan), es, 10) == Cashflow.Pass(Scan.payables, map[], Flows5)
    ensures Cashflow.Classify(Cashflow.StartPass(Scan), es, 15) == Cashflow.Pass(map[10000 := 2], map[], Flows15)
  {
    var init := Cashflow.StartPass(Scan);
    var s10 := Cashflow.Pass(Scan.payables, map[], Flows5);
    var s12 := s10.(flows := Flows15);
    var s14 := s12.(payables := map[10000 := 2]);
    OutstandingAmounts();
    Cashflow.PassIgnores(s10, es[10]);
    PassStep(init, es, 10, s10);
    PassSupplierPayment(s10, es[11]);
    PassStep(init, es, 11, s10);
    Cashflow.PassIgnores(s12, es[12]);
    PassStep(init, es, 12, s12);
    PassMatchedCharge(s12, es[13]);
    PassStep(init, es, 13, s12);
    Cashflow.PassIgnores(s14, es[14]);
    PassStep(init, es, 14, s14);
  }

  lemma PassBlock3(es: seq<Entry>)
    requires Block3(es)
    requires Cashflow.Classify(Cashflow.StartPass(Scan), es, 15) == Cashflow.Pass(map[10000 := 2], map[], Flows15)
    ensures Cashflow.Classify(Cashflow.StartPass(Scan), es, 20) == Cashflow.Pass(map[10000 := 2], map[], FinalFlows)
  {
    var init := Cashflow.StartPass(Scan);
    var s15 := Cashflow.Pass(map[10000 := 2], map[], Flows15);
    var s16 := s15.(flows := Flows15.(financement := 57000, empruntsRecus := 17000));
    var s17 := s16.(flows := s16.flows.(exploitation := 5000, encaissementsClients := 18000));
    var s19 := s17.(flows := s17.flows.(financement := 55000, empruntsRecus := 15000));
    PassFinancingInflow(s15, es[15]);
    PassStep(init, es, 15, s15);
    PassCollection(s16, es[16]);
    PassStep(init, es, 16, s16);
    Cashflow.PassIgnores(s17, es[17]);
    PassStep(init, es, 17, s17);
    PassFinancingInflow(s17, es[18]);
    PassStep(init, es, 18, s17);
    PassInterest(s19, es[19]);
    PassStep(init, es, 19, s19);
  }

  /** The classification pass over the whole exercise: the machine is paid in cash as far as
      the pass can tell (no payable of 25 000), the sale and the electricity bill are matched
      against their receivable and payable, and the two payables of 10 000 stay outstanding. */
  lemma PassOfEcoBois(es: seq<Entry>)
    requires Shaped(es)
    ensures Cashflow.PassOf(es) == Cashflow.Pass(map[10000 := 2], map[], FinalFlows)
  {
    PreScanOfEcoBois(es);
    PassBlock0(es);
    PassBlock1(es);
    PassBlock2(es);
    PassBlock3(es);
  }

  // ---------------------------------------------------------------------------------------
  // Category totals
  // ---------------------------------------------------------------------------------------

  /** One step of a category total, stated for a variable position holding an entry of
      category `cat` and amount `amt`. */
  lemma AmountStepAt(es: seq<Entry>, c: Category, n: nat, cat: Category, amt: int)
    requires n < |es| && es[n].category == cat && es[n].amount == amt
    ensures AmountOf(es, c, n + 1) == AmountOf(es, c, n) + (if cat == c then amt else 0)
  {
  }

  /** What entries 0 to 4 post to the category `c`. */
  function PostedInBlock0(c: Category): int {
    match c
    case ApportCapital => 40000
    case FraisImmatriculation => 3000
    case AchatMachine => 25000
    case DettesFournisseurs => 10000
    case EmpruntBancaire => 15000
    case _ => 0
  }

  /** What entries 5 to 9 post to the category `c`. */
  function PostedInBlock1(c: Category): int {
    match c
    case Stock => 10000
    case DettesFournisseurs => 10000
    case Vente => 18000
    case CreancesClients => 18000
    case AchatMatieres => 6000
    case _ => 0
  }

  /** What entries 10 to 14 post to the category `c` (two of them to the supplier payables). */
  function PostedInBlock2(c: Category): int {
    match c
    case Stock => -6000
    case PaiementFournisseurs => -10000
    case DettesFournisseurs => -10000 + 1200
    case Electricite => 1200
    case _ => 0
  }

  /** What entries 15 to 19 post to the category `c` (two of them to the cash credit line). */
  function PostedInBlock3(c: Category): int {
    match c
    case CreditCaisse => 2000 - 2000
    case EncaissementClient => 18000
    case CreancesClients => -18000
    case Interets => 160
    case _ => 0
  }

  lemma AmountBlock0(es: seq<Entry>, c: Category)
    requires Block0(es)
    ensures AmountOf(es, c, 5) == AmountOf(es, c, 0) + PostedInBlock0(c)
  {
    AmountStepAt(es, c, 0, ApportCapital, 40000);
    AmountStepAt(es, c, 1, FraisImmatriculation, 3000);
    AmountStepAt(es, c, 2, AchatMachine, 25000);
    AmountStepAt(es, c, 3, DettesFournisseurs, 10000);
    AmountStepAt(es, c, 4, EmpruntBancaire, 15000);
    if c == ApportCapital || c == FraisImmatriculation || c == AchatMachine || c == DettesFournisseurs || c == EmpruntBancaire {
    } else {
      assert PostedInBlock0(c) == 0;
    }
  }

  lemma AmountBlock1(es: seq<Entry>, c: Category)
    requires Block1(es)
    ensures AmountOf(es, c, 10) == AmountOf(es, c, 5) + PostedInBlock1(c)
  {
    AmountStepAt(es, c, 5, Stock, 10000);
    AmountStepAt(es, c, 6, DettesFournisseurs, 10000);
    AmountStepAt(es, c, 7, Vente, 18000);
    AmountStepAt(es, c, 8, CreancesClients, 18000);
    AmountStepAt(es, c, 9, AchatMatieres, 6000);
    if c == Stock || c == DettesFournisseurs || c == Vente || c == CreancesClients || c == AchatMatieres {
    } else {
      assert PostedInBlock1(c) == 0;
    }
  }

  lemma AmountBlock2(es: seq<Entry>, c: Category)
    requires Block2(es)
    ensures AmountOf(es, c, 15) == AmountOf(es, c, 10) + PostedInBlock2(c)
  {
    AmountStepAt(es, c, 10, Stock, -6000);
    AmountStepAt(es, c, 11, PaiementFournisseurs, -10000);
    AmountStepAt(es, c, 12, DettesFournisseurs, -10000);
    AmountStepAt(es, c, 13, Electricite, 1200);
    AmountStepAt(es, c, 14, DettesFournisseurs, 1200);
    if c == Stock || c == PaiementFournisseurs || c == DettesFournisseurs || c == Electricite {
    } else {
      assert PostedInBlock2(c) == 0;
    }
  }

  lemma AmountBlock3(es: seq<Entry>, c: Category)
    requires Block3(es)
    ensures AmountOf(es, c, 20) == AmountOf(es, c, 15) + PostedInBlock3(c)
  {
    AmountStepAt(es, c, 15, CreditCaisse, 2000);
    AmountStepAt(es, c, 16, EncaissementClient, 18000);
    AmountStepAt(es, c, 17, CreancesClients, -18000);
    AmountStepAt(es, c, 18, CreditCaisse, -2000);
    AmountStepAt(es, c, 19, Interets, 160);
    if c == CreditCaisse || c == EncaissementClient || c == CreancesClients || c == Interets {
    } else {
      assert PostedInBlock3(c) == 0;
    }
  }

  /** What the exercise posts to the category `c`. */
  function Posted(c: Category): int {
    PostedInBlock0(c) + PostedInBlock1(c) + PostedInBlock2(c) + PostedInBlock3(c)
  }

  /** Every category total of the exercise is what it posts to the category. */
  lemma TotalOf(es: seq<Entry>, c: Category)
    requires Shaped(es)
    ensures Total(es, c) == Posted(c)
  {
    AmountBlock0(es, c);
    AmountBlock1(es, c);
    AmountBlock2(es, c);
    AmountBlock3(es, c);
  }

  // ---------------------------------------------------------------------------------------
  // The statements of the exercise
  // ---------------------------------------------------------------------------------------

  /** The cashflow of the exercise: 4 840 from operations (18 000 collected, 10 000 paid to
      suppliers, 3 000 of registration fee, 160 of interest), the machine fully neutralised (10 000
      on its payable, 15 000 on the loan paid to the vendor), 40 000 of financing (the capital;
      the cash credit drawn and repaid cancels out), a net treasury of 44 840. No machine
      purchase is matched against a payable, so the code as written gives the same figures. */
  lemma CashflowOfEcoBois(es: seq<Entry>)
    requires Shaped(es)
    ensures Cashflow.CashflowOf(es)
            == Cashflow.CashflowSummary(4840, 0, 40000, 44840, 18000, 10000, 3000, -160, 40000, 0, 0, 25000)
    ensures Cashflow.CashflowAsWritten(es) == Cashflow.CashflowOf(es)
  {
    PreScanOfEcoBois(es);
    PassOfEcoBois(es);
    assert Cashflow.OffsetDettes(25000, Scan) == 10000;
    assert Cashflow.OffsetEmprunt(25000, Scan) == 15000;
  }

  /** What the exercise posts to the charge and product categories. */
  lemma PostedToIncome()
    ensures Posted(FraisImmatriculation) == 3000 && Posted(Loyer) == 0 && Posted(Electricite) == 1200
    ensures Posted(Interets) == 160 && Posted(Salaires) == 0 && Posted(AchatMatieres) == 6000
    ensures Posted(Vente) == 18000 && Posted(RevenuService) == 0
  {
  }

  /** What the exercise posts to the asset categories of the balance sheet. */
  lemma PostedToAssets()
    ensures Posted(AchatMachine) == 25000 && Posted(AchatLogiciel) == 0 && Posted(AchatCamion) == 0
    ensures Posted(Stock) == 4000 && Posted(CreancesClients) == 0
  {
  }

  /** What the exercise posts to the liability categories of the balance sheet. */
  lemma PostedToLiabilities()
    ensures Posted(ApportCapital) == 40000 && Posted(BeneficeReporte) == 0
    ensures Posted(EmpruntBancaire) == 15000 && Posted(CreditCaisse) == 0 && Posted(DettesFournisseurs) == 11200
  {
  }

  /** All category totals of the exercise at once. */
  lemma Totals(es: seq<Entry>)
    requires Shaped(es)
    ensures forall c :: Total(es, c) == Posted(c)
  {
    forall c ensures Total(es, c) == Posted(c) {
      TotalOf(es, c);
    }
  }

  /** The charges and products of the exercise. */
  lemma KindTotalsOfEcoBois(es: seq<Entry>)
    requires Shaped(es)
    ensures Store.KindAmountOf(es, true, |es|) == 10360 && Store.KindAmountOf(es, false, |es|) == 18000
  {
    Totals(es);
    PostedToIncome();
    Store.KindAmountIsCategorySum(es, |es|);
  }

  /** The income statement of the exercise: 10 360 of charges (the registration fee, the raw
      materials consumed, the electricity, the interest) against 18 000 of sales, a net result
      of 7 640. */
  lemma IncomeOfEcoBois(es: seq<Entry>)
    requires Shaped(es)
    ensures Store.IncomeStatementOf(es).resultatNet == 7640
  {
    KindTotalsOfEcoBois(es);
    Store.IncomeStatementTotals(es);
  }

  /** One step of the closing-entry search, stated for a variable position. */
  lemma ClosingStep(es: seq<Entry>, n: nat)
    requires n < |es|
    ensures Store.AnyClosing(es, n + 1) == (Store.AnyClosing(es, n) || Store.ClosingEntry(es[n]))
  {
  }

  lemma NotClosedBlock0(es: seq<Entry>)
    requires Block0(es) && !Store.AnyClosing(es, 0)
    ensures !Store.AnyClosing(es, 5)
  {
    ClosingStep(es, 0);
    ClosingStep(es, 1);
    ClosingStep(es, 2);
    ClosingStep(es, 3);
    ClosingStep(es, 4);
  }

  lemma NotClosedBlock1(es: seq<Entry>)
    requires Block1(es) && !Store.AnyClosing(es, 5)
    ensures !Store.AnyClosing(es, 10)
  {
    ClosingStep(es, 5);
    ClosingStep(es, 6);
    ClosingStep(es, 7);
    ClosingStep(es, 8);
    ClosingStep(es, 9);
  }

  lemma NotClosedBlock2(es: seq<Entry>)
    requires Block2(es) && !Store.AnyClosing(es, 10)
    ensures !Store.AnyClosing(es, 15)
  {
    ClosingStep(es, 10);
    ClosingStep(es, 11);
    ClosingStep(es, 12);
    ClosingStep(es, 13);
    ClosingStep(es, 14);
  }

  lemma NotClosedBlock3(es: seq<Entry>)
    requires Block3(es) && !Store.AnyClosing(es, 15)
    ensures !Store.AnyClosing(es, 20)
  {
    ClosingStep(es, 15);
    ClosingStep(es, 16);
    ClosingStep(es, 17);
    ClosingStep(es, 18);
    ClosingStep(es, 19);
  }

  /** The exercise has no retained-earnings entry, hence no closing entry. */
  lemma NotClosed(es: seq<Entry>)
    requires Shaped(es)
    ensures !Store.HasClosingEntry(es)
  {
    NotClosedBlock0(es);
    NotClosedBlock1(es);
    NotClosedBlock2(es);
    NotClosedBlock3(es);
  }

  /** The assets of the exercise: the machine 25 000, the remaining stock 4 000, no receivable
      left and a treasury of 44 840. */
  lemma AssetsOfEcoBois(es: seq<Entry>)
    requires Shaped(es)
    ensures Store.BalanceSheetOf(es).totalAssets == 73840
  {
    AssetTotals(es);
    CashflowOfEcoBois(es);
    AssetsFrom(es, Cashflow.CashflowAsWritten(es).net);
  }

  lemma AssetTotals(es: seq<Entry>)
    requires Shaped(es)
    ensures Total(es, AchatMachine) == 25000 && Total(es, AchatLogiciel) == 0 && Total(es, AchatCamion) == 0
    ensures Total(es, Stock) == 4000 && Total(es, CreancesClients) == 0
  {
    Totals(es);
    PostedToAssets();
  }

  lemma AssetsFrom(es: seq<Entry>, net: int)
    requires Cashflow.CashflowAsWritten(es).net == net
    requires Total(es, AchatMachine) == 25000 && Total(es, AchatLogiciel) == 0 && Total(es, AchatCamion) == 0
    requires Total(es, Stock) == 4000 && Total(es, CreancesClients) == 0
    ensures Store.BalanceSheetOf(es).totalAssets == 29000 + net
  {
    Store.BalanceSheetStructure(es);
  }

  /** The liabilities of the exercise: the capital 40 000, the result 7 640 (no closing entry
      yet), the loan 15 000 and the supplier payables 11 200. */
  lemma LiabilitiesOfEcoBois(es: seq<Entry>)
    requires Shaped(es)
    ensures Store.BalanceSheetOf(es).totalLiabilities == 73840
  {
    LiabilityTotals(es);
    NotClosed(es);
    IncomeOfEcoBois(es);
    LiabilitiesFrom(es, Store.IncomeStatementOf(es).resultatNet);
  }

  lemma LiabilityTotals(es: seq<Entry>)
    requires Shaped(es)
    ensures Total(es, ApportCapital) == 40000 && Total(es, BeneficeReporte) == 0
    ensures Total(es, EmpruntBancaire) == 15000 && Total(es, CreditCaisse) == 0 && Total(es, DettesFournisseurs) == 11200
  {
    Totals(es);
    PostedToLiabilities();
  }

  lemma LiabilitiesFrom(es: seq<Entry>, result: int)
    requires Store.IncomeStatementOf(es).resultatNet == result && !Store.HasClosingEntry(es)
    requires Total(es, ApportCapital) == 40000 && Total(es, BeneficeReporte) == 0
    requires Total(es, EmpruntBancaire) == 15000 && Total(es, CreditCaisse) == 0 && Total(es, DettesFournisseurs) == 11200
    ensures Store.BalanceSheetOf(es).totalLiabilities == 66200 + result
  {
    Store.BalanceSheetStructure(es);
  }

  /** The balance sheet of the exercise balances at 73 840. */
  lemma BalanceSheetOfEcoBois(es: seq<Entry>)
    requires Shaped(es)
    ensures Store.BalanceSheetOf(es).totalAssets == 73840
    ensures Store.BalanceSheetOf(es).totalLiabilities == 73840
  {
    AssetsOfEcoBois(es);
    LiabilitiesOfEcoBois(es);
  }

  // ---------------------------------------------------------------------------------------
  // The exercise run against the store
  // ---------------------------------------------------------------------------------------

  /** A label without 'h' or 'b' in either case names neither a machine nor a fixed asset. */
  lemma NotLinkedWithoutHB(text: string)
    requires 'h' !in text && 'H' !in text && 'b' !in text && 'B' !in text
    ensures !Cashflow.InvestLinkedLabel(text)
  {
    var l := Lower(text);
    AbsentAfterLower(text, 'h');
    AbsentAfterLower(text, 'b');
    if Contains(l, "machine") {
      CharOfContained(l, "machine", 'h');
    }
    if Contains(l, "immobil") {
      CharOfContained(l, "immobil", 'b');
    }
  }

  /** A label without 'h' or 'b' in either case. */
  predicate NoHB(s: string) {
    'h' !in s && 'H' !in s && 'b' !in s && 'B' !in s
  }

  lemma NoHBInDette() ensures NoHB("Dette") {}
  lemma NoHBInFournisseur() ensures NoHB(" fournisseur - ") {}
  lemma NoHBInMatieres() ensures NoHB("matières") {}
  lemma NoHBInElectricite() ensures NoHB("électricité") {}

  /** The machine payable's label is investment-linked; the two other payable labels are not. */
  lemma PayableLabels()
    ensures Cashflow.InvestLinkedLabel(MachinePayableText)
    ensures !Cashflow.InvestLinkedLabel(MaterialsPayableText)
    ensures !Cashflow.InvestLinkedLabel(ElectricityPayableText)
  {
    var a, b, c := "Dette fournisseur - ", "machine", " (après emprunt 15 000)";
    assert (a + b + c)[|a|..|a| + |b|] == b;
    Cashflow.LinkedByMachineAt(MachinePayableText, 20);
    NoHBInDette();
    NoHBInFournisseur();
    NoHBInMatieres();
    NoHBInElectricite();
    NotLinkedWithoutHB(MaterialsPayableText);
    NotLinkedWithoutHB(ElectricityPayableText);
  }

  lemma RecordedBlock0(es: seq<Entry>)
    requires |es| == 20 && forall k :: 0 <= k < 5 ==> AutoEntries.Records(es[k], Payloads[k])
    ensures Block0(es)
  {
    assert AutoEntries.Records(es[0], Payloads[0]);
    assert AutoEntries.Records(es[1], Payloads[1]);
    assert AutoEntries.Records(es[2], Payloads[2]);
    assert AutoEntries.Records(es[3], Payloads[3]);
    assert AutoEntries.Records(es[4], Payloads[4]);
  }

  lemma RecordedBlock1(es: seq<Entry>)
    requires |es| == 20 && forall k :: 5 <= k < 10 ==> AutoEntries.Records(es[k], Payloads[k])
    ensures Block1(es)
  {
    assert AutoEntries.Records(es[5], Payloads[5]);
    assert AutoEntries.Records(es[6], Payloads[6]);
    assert AutoEntries.Records(es[7], Payloads[7]);
    assert AutoEntries.Records(es[8], Payloads[8]);
    assert AutoEntries.Records(es[9], Payloads[9]);
  }

  lemma RecordedBlock2(es: seq<Entry>)
    requires |es| == 20 && forall k :: 10 <= k < 15 ==> AutoEntries.Records(es[k], Payloads[k])
    ensures Block2(es)
  {
    assert AutoEntries.Records(es[10], Payloads[10]);
    assert AutoEntries.Records(es[11], Payloads[11]);
    assert AutoEntries.Records(es[12], Payloads[12]);
    assert AutoEntries.Records(es[13], Payloads[13]);
    assert AutoEntries.Records(es[14], Payloads[14]);
  }

  lemma RecordedBlock3(es: seq<Entry>)
    requires |es| == 20 && forall k :: 15 <= k < 20 ==> AutoEntries.Records(es[k], Payloads[k])
    ensures Block3(es)
  {
    assert AutoEntries.Records(es[15], Payloads[15]);
    assert AutoEntries.Records(es[16], Payloads[16]);
    assert AutoEntries.Records(es[17], Payloads[17]);
    assert AutoEntries.Records(es[18], Payloads[18]);
    assert AutoEntries.Records(es[19], Payloads[19]);
  }

  /** The exercise's machine postings on their own (the purchase, its machine payable and the
      bank loan): the investing flow and the loan's net financing are both zero, while the
      investments recorded stay at 25 000. */
  lemma MachineEntriesAlone(es: seq<Entry>)
    requires |es| == 3
    requires forall i :: 0 <= i < 3 ==> AutoEntries.Records(es[i], Payloads[2 + i])
    ensures var r := Cashflow.CashflowOf(es);
      r.investissement == 0 && r.financement == 0 && r.emprunts == 0 && r.investissementsPayes == 25000
  {
    assert AutoEntries.Records(es[0], Payloads[2]);
    assert AutoEntries.Records(es[1], Payloads[3]);
    assert AutoEntries.Records(es[2], Payloads[4]);
    PayableLabels();
    Cashflow.MachineFinancedWithoutCash(es, 25000, 10000, 15000);
  }

  lemma RecordedLabels(es: seq<Entry>)
    requires |es| == 20
    requires AutoEntries.Records(es[3], Payloads[3])
    requires AutoEntries.Records(es[6], Payloads[6])
    requires AutoEntries.Records(es[14], Payloads[14])
    ensures Labelled(es)
  {
    PayableLabels();
  }

  /** Entries recording the twenty postings, in order, hold the exercise. */
  lemma RecordedIsShaped(es: seq<Entry>)
    requires |es| == |Payloads| && forall k :: 0 <= k < |es| ==> AutoEntries.Records(es[k], Payloads[k])
    ensures Shaped(es)
  {
    RecordedBlock0(es);
    RecordedBlock1(es);
    RecordedBlock2(es);
    RecordedBlock3(es);
    RecordedLabels(es);
  }

  /** The twenty postings of the exercise inserted one by one, in order, at the instant `now`
      into an empty ledger. */
  method InsertPostings(ledger: Store.Ledger, now: int)
    requires ledger.Valid() && ledger.entries == []
    modifies ledger
    ensures ledger.Valid() && Shaped(ledger.entries) && Store.AllCreatedAt(ledger.entries, now)
  {
    var i := 0;
    while i < |Payloads|
      invariant 0 <= i <= |Payloads|
      invariant ledger.Valid() && |ledger.entries| == i && Store.AllCreatedAt(ledger.entries, now)
      invariant forall k :: 0 <= k < i ==> AutoEntries.Records(ledger.entries[k], Payloads[k])
    {
      var e := ledger.Insert(Payloads[i], now);
      i := i + 1;
    }
    RecordedIsShaped(ledger.entries);
  }

  /** `testEcoBois()`: the twenty postings inserted one by one into an empty store at the
      instant `now`, then the balance sheet, the income statement and the cashflow of the
      listed entries. The balance sheet balances at 73 840. */
  method TestEcoBois(now: int)
    returns (bilan: Store.BalanceSheet, compteResultat: IncomeStatement, cashflow: Cashflow.CashflowSummary,
             equilibre: bool)
    ensures equilibre && bilan.totalAssets == 73840 && bilan.totalLiabilities == 73840
    ensures compteResultat.resultatNet == 7640
    ensures cashflow == Cashflow.CashflowSummary(4840, 0, 40000, 44840, 18000, 10000, 3000, -160, 40000, 0, 0, 25000)
  {
    var ledger := new Store.Ledger();
    InsertPostings(ledger, now);
    ghost var es := ledger.entries;
    BalanceSheetOfEcoBois(es);
    IncomeOfEcoBois(es);
    CashflowOfEcoBois(es);
    bilan := ledger.ComputeBalanceSheet();
    compteResultat := ledger.ComputeIncomeStatement();
    var entries := ledger.List();
    Store.SameInstantKeepsOrder(ledger.entries, now);
    cashflow := Cashflow.ComputeCashflow(entries);
    equilibre := bilan.totalAssets == bilan.totalLiabilities;
  }
}
