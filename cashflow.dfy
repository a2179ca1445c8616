/** The cashflow deriver: an amount-keyed pre-scan of outstanding payables and receivables,
    a first-match classification pass into operating, investing and financing flows, and a
    neutralisation of the part of a machine purchase financed without cash. */
module Cashflow {
  import opened Compta
  import opened Text

  /** `REVENUS_EXPLOITATION`: cash only when no receivable of the same amount is outstanding. */
  predicate RevenuExploitation(c: Category) {
    c == Vente || c == RevenuService
  }

  /** `CHARGES_EXPLOITATION`: cash only when no payable of the same amount is outstanding. The
      raw material purchase is deliberately absent; `Interets` is listed but caught earlier. */
  predicate ChargeExploitation(c: Category) {
    c == FraisImmatriculation || c == Loyer || c == Electricite || c == Interets || c == Salaires
  }

  /** `INVESTISSEMENT_CATEGORIES` */
  predicate Investissement(c: Category) {
    c == AchatMachine || c == AchatLogiciel || c == AchatCamion
  }

  /** `FINANCEMENT_ENTREES` */
  predicate FinancementEntree(c: Category) {
    c == ApportCapital || c == EmpruntBancaire || c == CreditCaisse
  }

  // ---------------------------------------------------------------------------------------
  // The amount-keyed multiset (`Map<number, number>` with `addCount` and `tryConsume`)
  // ---------------------------------------------------------------------------------------

  type Counts = map<int, nat>

  /** The count recorded for `k`, zero when there is none. */
  function Count(m: Counts, k: int): nat {
    if k in m then m[k] else 0
  }

  /** The map keeps no key whose count has dropped to zero. */
  ghost predicate NoZeroCounts(m: Counts) {
    forall k :: k in m ==> m[k] > 0
  }

  /** The multiset after `addCount(m, amt)`. */
  function Added(m: Counts, amt: int): (r: Counts)
    ensures Count(r, amt) == Count(m, amt) + 1
    ensures forall k :: k != amt ==> (k in r <==> k in m) && Count(r, k) == Count(m, k)
    ensures NoZeroCounts(m) ==> NoZeroCounts(r)
  {
    m[amt := Count(m, amt) + 1]
  }

  /** What `tryConsume(m, amt)` returns and the multiset it leaves. */
  datatype Consumption = Consumption(consumed: bool, rest: Counts)

  function Consumed(m: Counts, amt: int): (r: Consumption)
    ensures r.consumed <==> Count(m, amt) > 0
    ensures r.consumed ==> Count(r.rest, amt) == Count(m, amt) - 1
    ensures r.consumed && Count(m, amt) == 1 ==> amt !in r.rest
    ensures !r.consumed ==> r.rest == m
    ensures forall k :: k != amt ==> (k in r.rest <==> k in m) && Count(r.rest, k) == Count(m, k)
    ensures NoZeroCounts(m) ==> NoZeroCounts(r.rest)
  {
    var cur := Count(m, amt);
    if cur > 0 then
      Consumption(true, if cur == 1 then m - {amt} else m[amt := cur - 1])
    else
      Consumption(false, m)
  }

  /** One of the two `Map<number, number>` objects `computeCashflow` mutates. */
  class AmountCounter {
    var counts: Counts

    ghost predicate Valid()
      reads this
    {
      NoZeroCounts(counts)
    }

    constructor ()
      ensures Valid() && counts == map[]
    {
      counts := map[];
    }

    /** `addCount`: one more occurrence of `amt`. */
    method AddCount(amt: int)
      requires Valid()
      modifies this
      ensures Valid()
      ensures counts == Added(old(counts), amt)
    {
      var cur := if amt in counts then counts[amt] else 0;
      counts := counts[amt := cur + 1];
    }

    /** `tryConsume`: removes one occurrence of `amt` when there is one. */
    method TryConsume(amt: int) returns (consumed: bool)
      requires Valid()
      modifies this
      ensures Valid()
      ensures Consumption(consumed, counts) == Consumed(old(counts), amt)
    {
      var cur := if amt in counts then counts[amt] else 0;
      if cur > 0 {
        if cur == 1 {
          counts := counts - {amt};
        } else {
          counts := counts[amt := cur - 1];
        }
        return true;
      }
      return false;
    }
  }

  // ---------------------------------------------------------------------------------------
  // Specification of the two passes
  // ---------------------------------------------------------------------------------------

  /** What the pre-scan gathers. */
  datatype PreScan = PreScan(
    payables: Counts,
    receivables: Counts,
    totalAchatMachine: int,
    totalDettesInvest: int,
    totalEmpruntPositif: int)

  /** A payable label that ties it to the machine or another fixed asset. */
  predicate InvestLinkedLabel(text: string) {
    var l := Lower(text);
    Contains(l, "machine") || Contains(l, "immobil")
  }

  function PreScanStep(p: PreScan, e: Entry): PreScan {
    var p1 :=
      if e.category == DettesFournisseurs && e.amount > 0 then
        p.(payables := Added(p.payables, e.amount),
           totalDettesInvest := if InvestLinkedLabel(e.text) then p.totalDettesInvest + e.amount else p.totalDettesInvest)
      else p;
    var p2 :=
      if e.category == CreancesClients && e.amount > 0 then
        p1.(receivables := Added(p1.receivables, e.amount))
      else p1;
    var p3 :=
      if e.category == AchatMachine && e.amount > 0 then
        p2.(totalAchatMachine := p2.totalAchatMachine + e.amount)
      else p2;
    if e.category == EmpruntBancaire && e.amount > 0 then
      p3.(totalEmpruntPositif := p3.totalEmpruntPositif + e.amount)
    else p3
  }

  /** The pre-scan over the first `n` entries. */
  function PreScanOf(es: seq<Entry>, n: nat): PreScan
    requires n <= |es|
  {
    if n == 0 then PreScan(map[], map[], 0, 0, 0)
    else PreScanStep(PreScanOf(es, n - 1), es[n - 1])
  }

  /** The running totals of the classification pass. `machineOnCredit` sums the positive
      machine purchases matched against a payable; only the corrected neutralisation reads it
      (see `CashflowOf`). */
  datatype Flows = Flows(
    exploitation: int,
    investissement: int,
    financement: int,
    encaissementsClients: int,
    paiementsFournisseurs: int,
    paiementsCharges: int,
    interets: int,
    investissementsPayes: int,
    apportsCapital: int,
    empruntsRecus: int,
    remboursements: int,
    machineOnCredit: int)

  const NoFlows := Flows(0, 0, 0, 0, 0, 0, 0, 0, 0, 0, 0, 0)

  /** The state of the classification pass: the two multisets it consumes and its totals. */
  datatype Pass = Pass(payables: Counts, receivables: Counts, flows: Flows)

  function StartPass(p: PreScan): Pass {
    Pass(p.payables, p.receivables, NoFlows)
  }

  /** One entry of the classification pass; the first matching branch wins. */
  function ClassifyStep(st: Pass, e: Entry): Pass {
    var c := e.category;
    var amount := e.amount;
    var f := st.flows;
    if c == EncaissementClient then
      st.(flows := f.(exploitation := f.exploitation + Abs(amount),
                      encaissementsClients := f.encaissementsClients + Abs(amount)))
    else if c == PaiementFournisseurs then
      st.(flows := f.(exploitation := f.exploitation - Abs(amount),
                      paiementsFournisseurs := f.paiementsFournisseurs + Abs(amount)))
    else if FinancementEntree(c) then
      st.(flows := f.(financement := f.financement + amount,
                      apportsCapital := if c == ApportCapital then f.apportsCapital + amount else f.apportsCapital,
                      empruntsRecus :=
                        if c == EmpruntBancaire || c == CreditCaisse then f.empruntsRecus + amount
                        else f.empruntsRecus))
    else if c == RemboursementEmprunt then
      st.(flows := f.(financement := f.financement + amount,
                      remboursements := f.remboursements + amount))
    else if c == Interets then
      st.(flows := f.(exploitation := f.exploitation - Abs(amount),
                      interets := f.interets - Abs(amount)))
    else if RevenuExploitation(c) then
      var r := Consumed(st.receivables, amount);
      if r.consumed then st.(receivables := r.rest)
      else st.(flows := f.(exploitation := f.exploitation + amount,
                           encaissementsClients := f.encaissementsClients + amount))
    else if ChargeExploitation(c) then
      var r := Consumed(st.payables, amount);
      if r.consumed then st.(payables := r.rest)
      else st.(flows := f.(exploitation := f.exploitation - amount,
                           paiementsCharges := f.paiementsCharges + amount))
    else if Investissement(c) then
      var r := Consumed(st.payables, amount);
      Pass(r.rest, st.receivables,
           f.(investissement := if r.consumed then f.investissement else f.investissement - amount,
              investissementsPayes := f.investissementsPayes + amount,
              machineOnCredit :=
                if r.consumed && c == AchatMachine && amount > 0 then f.machineOnCredit + amount
                else f.machineOnCredit))
    else
      st
  }

  /** The classification pass over the first `n` entries. */
  function Classify(init: Pass, es: seq<Entry>, n: nat): Pass
    requires n <= |es|
  {
    if n == 0 then init
    else ClassifyStep(Classify(init, es, n - 1), es[n - 1])
  }

  /** The source's `CashflowSummary`. */
  datatype CashflowSummary = CashflowSummary(
    exploitation: int,
    investissement: int,
    financement: int,
    net: int,
    encaissementsClients: int,
    paiementsFournisseurs: int,
    paiementsCharges: int,
    interets: int,
    apports: int,
    emprunts: int,
    remboursements: int,
    investissementsPayes: int)

  /** The part of the machine purchases `machine` covered by machine-linked payables. */
  function OffsetDettes(machine: int, p: PreScan): int {
    Min(machine, p.totalDettesInvest)
  }

  /** The part of what remains covered by bank loans paid straight to the vendor. */
  function OffsetEmprunt(machine: int, p: PreScan): int {
    Min(Max(0, machine - OffsetDettes(machine, p)), p.totalEmpruntPositif)
  }

  /** The neutralisation step applied to the machine purchases `machine`, and the summary. */
  function Neutralise(p: PreScan, f: Flows, machine: int): (r: CashflowSummary)
    ensures r.net == r.exploitation + r.investissement + r.financement
  {
    var offsetDettes := OffsetDettes(machine, p);
    var inv1 := if offsetDettes > 0 then f.investissement + offsetDettes else f.investissement;
    var offsetEmprunt := OffsetEmprunt(machine, p);
    var inv2 := if offsetEmprunt > 0 then inv1 + offsetEmprunt else inv1;
    var fin := if offsetEmprunt > 0 then f.financement - offsetEmprunt else f.financement;
    var emp := if offsetEmprunt > 0 then f.empruntsRecus - offsetEmprunt else f.empruntsRecus;
    CashflowSummary(f.exploitation, inv2, fin, f.exploitation + inv2 + fin,
                    f.encaissementsClients, f.paiementsFournisseurs, f.paiementsCharges, f.interets,
                    f.apportsCapital, emp, f.remboursements, f.investissementsPayes)
  }

  /** The pass over the whole list. */
  function PassOf(es: seq<Entry>): Pass {
    Classify(StartPass(PreScanOf(es, |es|)), es, |es|)
  }

  /** `computeCashflow(entries)` as written: the neutralisation offsets every positive machine
      purchase, including one the pass already matched against a payable. */
  function CashflowAsWritten(es: seq<Entry>): CashflowSummary {
    var p := PreScanOf(es, |es|);
    Neutralise(p, PassOf(es).flows, p.totalAchatMachine)
  }

  /** `computeCashflow(entries)` with the neutralisation restricted to the machine purchases the
      pass booked as a cash outflow. */
  function CashflowOf(es: seq<Entry>): CashflowSummary {
    var p := PreScanOf(es, |es|);
    var f := PassOf(es).flows;
    Neutralise(p, f, p.totalAchatMachine - f.machineOnCredit)
  }

  // ---------------------------------------------------------------------------------------
  // computeCashflow
  // ---------------------------------------------------------------------------------------

  /** The pre-scan loop of `computeCashflow`: fills the supplier-payable and client-receivable
      multisets and returns the three totals the neutralisation needs. */
  method ScanOutstanding(entries: seq<Entry>, dettesFournisseurs: AmountCounter, creancesClients: AmountCounter)
    returns (totalAchatMachine: int, totalDettesInvestPositives: int, totalEmpruntPositif: int)
    requires dettesFournisseurs != creancesClients
    requires dettesFournisseurs.Valid() && creancesClients.Valid()
    requires dettesFournisseurs.counts == map[] && creancesClients.counts == map[]
    modifies dettesFournisseurs, creancesClients
    ensures dettesFournisseurs.Valid() && creancesClients.Valid()
    ensures PreScan(dettesFournisseurs.counts, creancesClients.counts, totalAchatMachine,
                    totalDettesInvestPositives, totalEmpruntPositif) == PreScanOf(entries, |entries|)
  {
    totalAchatMachine, totalDettesInvestPositives, totalEmpruntPositif := 0, 0, 0;

    for i := 0 to |entries|
      invariant dettesFournisseurs.Valid() && creancesClients.Valid()
      invariant PreScan(dettesFournisseurs.counts, creancesClients.counts, totalAchatMachine,
                        totalDettesInvestPositives, totalEmpruntPositif) == PreScanOf(entries, i)
    {
      var e := entries[i];
      if e.category == DettesFournisseurs && e.amount > 0 {
        dettesFournisseurs.AddCount(e.amount);
        var lbl := Lower(e.text);
        if Contains(lbl, "machine") || Contains(lbl, "immobil") {
          totalDettesInvestPositives := totalDettesInvestPositives + e.amount;
        }
      }
      if e.category == CreancesClients && e.amount > 0 {
        creancesClients.AddCount(e.amount);
      }
      if e.category == AchatMachine && e.amount > 0 {
        totalAchatMachine := totalAchatMachine + e.amount;
      }
      if e.category == EmpruntBancaire && e.amount > 0 {
        totalEmpruntPositif := totalEmpruntPositif + e.amount;
      }
    }
  }

  /** The body of the classification loop for one entry: the first matching branch updates the
      running totals, consuming a payable or a receivable of the same amount when one is
      outstanding. */
  method ClassifyEntry(entry: Entry, dettesFournisseurs: AmountCounter, creancesClients: AmountCounter, f: Flows)
    returns (g: Flows)
    requires dettesFournisseurs != creancesClients
    requires dettesFournisseurs.Valid() && creancesClients.Valid()
    modifies dettesFournisseurs, creancesClients
    ensures dettesFournisseurs.Valid() && creancesClients.Valid()
    ensures Pass(dettesFournisseurs.counts, creancesClients.counts, g)
         == ClassifyStep(Pass(old(dettesFournisseurs.counts), old(creancesClients.counts), f), entry)
  {
    var category, amount := entry.category, entry.amount;
    g := f;

    if category == EncaissementClient {
      g := g.(exploitation := g.exploitation + Abs(amount));
      g := g.(encaissementsClients := g.encaissementsClients + Abs(amount));
      return;
    }
    if category == PaiementFournisseurs {
      g := g.(exploitation := g.exploitation - Abs(amount));
      g := g.(paiementsFournisseurs := g.paiementsFournisseurs + Abs(amount));
      return;
    }

    if FinancementEntree(category) {
      g := g.(financement := g.financement + amount);
      if category == ApportCapital { g := g.(apportsCapital := g.apportsCapital + amount); }
      if category == EmpruntBancaire { g := g.(empruntsRecus := g.empruntsRecus + amount); }
      if category == CreditCaisse { g := g.(empruntsRecus := g.empruntsRecus + amount); }
      return;
    }
    if category == RemboursementEmprunt {
      g := g.(financement := g.financement + amount);
      g := g.(remboursements := g.remboursements + amount);
      return;
    }

    if category == Interets {
      g := g.(exploitation := g.exploitation - Abs(amount));
      g := g.(interets := g.interets - Abs(amount));
      return;
    }

    if RevenuExploitation(category) {
      var consumed := creancesClients.TryConsume(amount);
      if !consumed {
        g := g.(exploitation := g.exploitation + amount);
        g := g.(encaissementsClients := g.encaissementsClients + amount);
      }
      return;
    }

    if ChargeExploitation(category) {
      var consumed := dettesFournisseurs.TryConsume(amount);
      if !consumed {
        g := g.(exploitation := g.exploitation - amount);
        g := g.(paiementsCharges := g.paiementsCharges + amount);
      }
      return;
    }

    if Investissement(category) {
      var consumed := dettesFournisseurs.TryConsume(amount);
      if !consumed {
        g := g.(investissement := g.investissement - amount);
      } else if category == AchatMachine && amount > 0 {
        g := g.(machineOnCredit := g.machineOnCredit + amount);
      }
      g := g.(investissementsPayes := g.investissementsPayes + amount);
      return;
    }

    // Other categories do not move cash.
  }

  /** The two loops of `computeCashflow`: the pre-scan, then the classifying pass. */
  method RunPasses(entries: seq<Entry>) returns (pre: PreScan, f: Flows)
    ensures pre == PreScanOf(entries, |entries|)
    ensures f == PassOf(entries).flows
  {
    var dettesFournisseurs := new AmountCounter();
    var creancesClients := new AmountCounter();

    var totalAchatMachine, totalDettesInvestPositives, totalEmpruntPositif :=
      ScanOutstanding(entries, dettesFournisseurs, creancesClients);
    pre := PreScan(dettesFournisseurs.counts, creancesClients.counts, totalAchatMachine,
                   totalDettesInvestPositives, totalEmpruntPositif);

    f := NoFlows;
    for i := 0 to |entries|
      invariant dettesFournisseurs.Valid() && creancesClients.Valid()
      invariant Pass(dettesFournisseurs.counts, creancesClients.counts, f) == Classify(StartPass(pre), entries, i)
    {
      f := ClassifyEntry(entries[i], dettesFournisseurs, creancesClients, f);
    }
  }

  /** The neutralisation step of `computeCashflow`, offsetting the machine purchases `machine`. */
  method NeutraliseFlows(pre: PreScan, f: Flows, machine: int) returns (r: CashflowSummary)
    ensures r == Neutralise(pre, f, machine)
  {
    var investissement, financement, empruntsRecus := f.investissement, f.financement, f.empruntsRecus;
    var offsetDettes := Min(machine, pre.totalDettesInvest);
    if offsetDettes > 0 {
      investissement := investissement + offsetDettes;
    }
    var restantApresDettes := Max(0, machine - offsetDettes);
    var offsetEmprunt := Min(restantApresDettes, pre.totalEmpruntPositif);
    if offsetEmprunt > 0 {
      investissement := investissement + offsetEmprunt;
      financement := financement - offsetEmprunt;
      empruntsRecus := empruntsRecus - offsetEmprunt;
    }

    var net := f.exploitation + investissement + financement;
    r := CashflowSummary(f.exploitation, investissement, financement, net,
                         f.encaissementsClients, f.paiementsFournisseurs, f.paiementsCharges, f.interets,
                         f.apportsCapital, empruntsRecus, f.remboursements, f.investissementsPayes);
  }

  /** `computeCashflow(entries)` as written: every positive machine purchase is neutralised. */
  method ComputeCashflow(entries: seq<Entry>) returns (r: CashflowSummary)
    ensures r == CashflowAsWritten(entries)
  {
    var pre, f := RunPasses(entries);
    r := NeutraliseFlows(pre, f, pre.totalAchatMachine);
  }

  /** `computeCashflow(entries)` corrected: only the machine purchases the pass booked as an
      outflow are neutralised. */
  method ComputeCashflowCorrected(entries: seq<Entry>) returns (r: CashflowSummary)
    ensures r == CashflowOf(entries)
  {
    var pre, f := RunPasses(entries);
    r := NeutraliseFlows(pre, f, pre.totalAchatMachine - f.machineOnCredit);
  }

  // ---------------------------------------------------------------------------------------
  // What the two passes compute
  // ---------------------------------------------------------------------------------------

  /** The sum of the positive amounts of category `c` among the first `n` entries. */
  function PositiveAmountOf(es: seq<Entry>, c: Category, n: nat): (r: int)
    requires n <= |es|
    ensures r >= 0
    ensures r >= AmountOf(es, c, n)
  {
    if n == 0 then 0
    else PositiveAmountOf(es, c, n - 1) + (if es[n - 1].category == c && es[n - 1].amount > 0 then es[n - 1].amount else 0)
  }

  /** The sum of the absolute amounts of category `c` among the first `n` entries. */
  function AbsAmountOf(es: seq<Entry>, c: Category, n: nat): (r: int)
    requires n <= |es|
    ensures r >= 0
    ensures r >= AmountOf(es, c, n) && r >= -AmountOf(es, c, n)
  {
    if n == 0 then 0
    else AbsAmountOf(es, c, n - 1) + (if es[n - 1].category == c then Abs(es[n - 1].amount) else 0)
  }

  /** How many of the first `n` entries have category `c` and the positive amount `a`. */
  function Occurrences(es: seq<Entry>, c: Category, a: int, n: nat): nat
    requires n <= |es|
  {
    if n == 0 then 0
    else Occurrences(es, c, a, n - 1) + (if es[n - 1].category == c && es[n - 1].amount == a && a > 0 then 1 else 0)
  }

  /** How one entry moves the pre-scan. */
  lemma StepPreScan(p: PreScan, e: Entry)
    ensures var q, c, a := PreScanStep(p, e), e.category, e.amount;
      && (NoZeroCounts(p.payables) ==> NoZeroCounts(q.payables))
      && (NoZeroCounts(p.receivables) ==> NoZeroCounts(q.receivables))
      && (forall k :: Count(q.payables, k) == Count(p.payables, k) + (if c == DettesFournisseurs && a == k && k > 0 then 1 else 0))
      && (forall k :: Count(q.receivables, k) == Count(p.receivables, k) + (if c == CreancesClients && a == k && k > 0 then 1 else 0))
      && q.totalAchatMachine == p.totalAchatMachine + (if c == AchatMachine && a > 0 then a else 0)
      && q.totalEmpruntPositif == p.totalEmpruntPositif + (if c == EmpruntBancaire && a > 0 then a else 0)
      && (q.totalDettesInvest == p.totalDettesInvest ||
          (c == DettesFournisseurs && a > 0 && q.totalDettesInvest == p.totalDettesInvest + a))
  {
  }

  /** The pre-scan records every positive supplier payable and client receivable, once per
      occurrence and keyed by amount, and keeps no key whose count is zero. */
  lemma {:induction false} PreScanCounts(es: seq<Entry>, n: nat)
    requires n <= |es|
    ensures var p := PreScanOf(es, n);
      && NoZeroCounts(p.payables) && NoZeroCounts(p.receivables)
      && (forall a :: Count(p.payables, a) == Occurrences(es, DettesFournisseurs, a, n))
      && (forall a :: Count(p.receivables, a) == Occurrences(es, CreancesClients, a, n))
  {
    if n > 0 {
      PreScanCounts(es, n - 1);
      var prev := PreScanOf(es, n - 1);
      assert PreScanOf(es, n) == PreScanStep(prev, es[n - 1]);
      StepPreScan(prev, es[n - 1]);
    }
  }

  /** The pre-scan sums the positive machine purchases and bank loans; the machine-linked
      payables it sums are a part of all positive payables. */
  lemma {:induction false} PreScanTotals(es: seq<Entry>, n: nat)
    requires n <= |es|
    ensures var p := PreScanOf(es, n);
      && p.totalAchatMachine == PositiveAmountOf(es, AchatMachine, n)
      && p.totalEmpruntPositif == PositiveAmountOf(es, EmpruntBancaire, n)
      && 0 <= p.totalDettesInvest <= PositiveAmountOf(es, DettesFournisseurs, n)
  {
    if n > 0 {
      PreScanTotals(es, n - 1);
      var prev := PreScanOf(es, n - 1);
      assert PreScanOf(es, n) == PreScanStep(prev, es[n - 1]);
      StepPreScan(prev, es[n - 1]);
    }
  }

  /** How one entry moves the running totals that are plain sums of their categories. */
  lemma StepTotals(st: Pass, e: Entry)
    ensures var f, g, c, a := st.flows, ClassifyStep(st, e).flows, e.category, e.amount;
      && g.paiementsFournisseurs == f.paiementsFournisseurs + (if c == PaiementFournisseurs then Abs(a) else 0)
      && g.interets == f.interets - (if c == Interets then Abs(a) else 0)
      && g.apportsCapital == f.apportsCapital + (if c == ApportCapital then a else 0)
      && g.empruntsRecus == f.empruntsRecus + (if c == EmpruntBancaire || c == CreditCaisse then a else 0)
      && g.remboursements == f.remboursements + (if c == RemboursementEmprunt then a else 0)
      && g.investissementsPayes == f.investissementsPayes + (if Investissement(c) then a else 0)
  {
  }

  /** One entry keeps operating flow equal to receipts less supplier payments, cash charges
      and interest. */
  lemma StepOperatingBalance(st: Pass, e: Entry)
    requires var f := st.flows;
      f.exploitation == f.encaissementsClients - f.paiementsFournisseurs - f.paiementsCharges + f.interets
    ensures var g := ClassifyStep(st, e).flows;
      g.exploitation == g.encaissementsClients - g.paiementsFournisseurs - g.paiementsCharges + g.interets
  {
  }

  /** One entry keeps financing flow equal to contributions, loans and repayments. */
  lemma StepFinancingBalance(st: Pass, e: Entry)
    requires var f := st.flows; f.financement == f.apportsCapital + f.empruntsRecus + f.remboursements
    ensures var g := ClassifyStep(st, e).flows; g.financement == g.apportsCapital + g.empruntsRecus + g.remboursements
  {
  }

  /** The running totals of the pass balance: operating flow is receipts less supplier
      payments, cash charges and interest; financing flow is contributions, loans and
      repayments. */
  lemma {:induction false} PassBalances(p: PreScan, es: seq<Entry>, n: nat)
    requires n <= |es|
    ensures var f := Classify(StartPass(p), es, n).flows;
      && f.exploitation == f.encaissementsClients - f.paiementsFournisseurs - f.paiementsCharges + f.interets
      && f.financement == f.apportsCapital + f.empruntsRecus + f.remboursements
  {
    if n > 0 {
      PassBalances(p, es, n - 1);
      var prev := Classify(StartPass(p), es, n - 1);
      assert Classify(StartPass(p), es, n) == ClassifyStep(prev, es[n - 1]);
      StepOperatingBalance(prev, es[n - 1]);
      StepFinancingBalance(prev, es[n - 1]);
    }
  }

  /** Supplier payments and interest are the absolute totals of their categories: neither is
      ever matched against a payable, not even interest, which the charge list names. */
  lemma {:induction false} PassPayments(p: PreScan, es: seq<Entry>, n: nat)
    requires n <= |es|
    ensures var f := Classify(StartPass(p), es, n).flows;
      && f.paiementsFournisseurs == AbsAmountOf(es, PaiementFournisseurs, n)
      && f.interets == -AbsAmountOf(es, Interets, n)
  {
    if n > 0 {
      PassPayments(p, es, n - 1);
      var prev := Classify(StartPass(p), es, n - 1);
      assert Classify(StartPass(p), es, n) == ClassifyStep(prev, es[n - 1]);
      StepTotals(prev, es[n - 1]);
    }
  }

  /** Contributions, loans and repayments are the plain totals of their categories. */
  lemma {:induction false} PassFinancing(p: PreScan, es: seq<Entry>, n: nat)
    requires n <= |es|
    ensures var f := Classify(StartPass(p), es, n).flows;
      && f.apportsCapital == AmountOf(es, ApportCapital, n)
      && f.empruntsRecus == AmountOf(es, EmpruntBancaire, n) + AmountOf(es, CreditCaisse, n)
      && f.remboursements == AmountOf(es, RemboursementEmprunt, n)
  {
    if n > 0 {
      PassFinancing(p, es, n - 1);
      var prev := Classify(StartPass(p), es, n - 1);
      assert Classify(StartPass(p), es, n) == ClassifyStep(prev, es[n - 1]);
      StepTotals(prev, es[n - 1]);
    }
  }

  /** Every investment is recorded, whether paid in cash or matched against a payable. */
  lemma {:induction false} PassInvestmentsRecorded(p: PreScan, es: seq<Entry>, n: nat)
    requires n <= |es|
    ensures Classify(StartPass(p), es, n).flows.investissementsPayes
         == AmountOf(es, AchatMachine, n) + AmountOf(es, AchatLogiciel, n) + AmountOf(es, AchatCamion, n)
  {
    if n > 0 {
      PassInvestmentsRecorded(p, es, n - 1);
      var prev := Classify(StartPass(p), es, n - 1);
      assert Classify(StartPass(p), es, n) == ClassifyStep(prev, es[n - 1]);
      StepTotals(prev, es[n - 1]);
    }
  }

  /** How one entry moves the investing flow and the machine purchases matched on credit. */
  lemma StepInvestment(st: Pass, e: Entry)
    ensures var f, g, c, a := st.flows, ClassifyStep(st, e).flows, e.category, e.amount;
      && (Investissement(c) ==> g.investissement == f.investissement || g.investissement == f.investissement - a)
      && (!Investissement(c) ==> g.investissement == f.investissement)
      && (c == AchatMachine && a > 0 ==>
            g.investissement + (a - (g.machineOnCredit - f.machineOnCredit)) == f.investissement)
      && (g.machineOnCredit == f.machineOnCredit ||
          (c == AchatMachine && a > 0 && g.machineOnCredit == f.machineOnCredit + a))
  {
  }

  /** The machine purchases matched on credit are a part of all positive machine purchases. */
  lemma {:induction false} PassMachineOnCredit(p: PreScan, es: seq<Entry>, n: nat)
    requires n <= |es|
    ensures 0 <= Classify(StartPass(p), es, n).flows.machineOnCredit <= PositiveAmountOf(es, AchatMachine, n)
  {
    if n > 0 {
      PassMachineOnCredit(p, es, n - 1);
      var prev := Classify(StartPass(p), es, n - 1);
      assert Classify(StartPass(p), es, n) == ClassifyStep(prev, es[n - 1]);
      StepInvestment(prev, es[n - 1]);
    }
  }

  /** First match wins: stock, receivables, payables, raw material purchases and retained
      earnings reach no branch of the pass and leave it unchanged. */
  lemma PassIgnores(st: Pass, e: Entry)
    requires e.category in {DettesFournisseurs, CreancesClients, Stock, AchatMatieres, BeneficeReporte}
    ensures ClassifyStep(st, e) == st
  {
  }

  /** Interest, although listed among the operating charges, is caught by its own branch
      first: it never consumes a payable and is always an outflow of its absolute amount. */
  lemma InterestNeverConsumes(st: Pass, e: Entry)
    requires e.category == Interets
    ensures ClassifyStep(st, e).payables == st.payables && ClassifyStep(st, e).receivables == st.receivables
    ensures ClassifyStep(st, e).flows.interets == st.flows.interets - Abs(e.amount)
    ensures ClassifyStep(st, e).flows.exploitation == st.flows.exploitation - Abs(e.amount)
    ensures ClassifyStep(st, e).flows.paiementsCharges == st.flows.paiementsCharges
  {
  }

  /** The categories the pass matches against an outstanding receivable. */
  predicate MatchesReceivable(c: Category) {
    RevenuExploitation(c)
  }

  /** The categories the pass matches against an outstanding payable: interest never
      reaches that branch. */
  predicate MatchesPayable(c: Category) {
    (ChargeExploitation(c) && c != Interets) || Investissement(c)
  }

  /** How many of the first `n` entries of amount `a` the pass excluded from cash by consuming
      a receivable (`receivable`) or a payable (`!receivable`). */
  function Matched(init: Pass, es: seq<Entry>, a: int, receivable: bool, n: nat): nat
    requires n <= |es|
  {
    if n == 0 then 0
    else
      var st, e := Classify(init, es, n - 1), es[n - 1];
      var hit :=
        if receivable then MatchesReceivable(e.category) && e.amount == a && Count(st.receivables, a) > 0
        else MatchesPayable(e.category) && e.amount == a && Count(st.payables, a) > 0;
      Matched(init, es, a, receivable, n - 1) + (if hit then 1 else 0)
  }

  /** How one entry moves the outstanding counts of amount `a`. */
  lemma StepMatches(st: Pass, e: Entry, a: int)
    ensures var q := ClassifyStep(st, e);
      && Count(q.receivables, a) == Count(st.receivables, a)
           - (if MatchesReceivable(e.category) && e.amount == a && Count(st.receivables, a) > 0 then 1 else 0)
      && Count(q.payables, a) == Count(st.payables, a)
           - (if MatchesPayable(e.category) && e.amount == a && Count(st.payables, a) > 0 then 1 else 0)
  {
  }

  /** How one entry moves the operating flow, the client receipts and the cash charges. A
      collection adds its absolute amount to the flow and the receipts. A revenue or charge
      adds nothing when its amount still has an outstanding receivable or payable at its turn,
      and otherwise its amount. Supplier payments and interest lower the flow by their absolute
      amounts. No other entry touches the three. */
  lemma StepOperating(st: Pass, e: Entry)
    ensures var f, g, c, a := st.flows, ClassifyStep(st, e).flows, e.category, e.amount;
      var collected := if c == EncaissementClient then Abs(a) else 0;
      var revenue := if RevenuExploitation(c) && Count(st.receivables, a) == 0 then a else 0;
      var charge := if ChargeExploitation(c) && c != Interets && Count(st.payables, a) == 0 then a else 0;
      && g.encaissementsClients == f.encaissementsClients + collected + revenue
      && g.paiementsCharges == f.paiementsCharges + charge
      && g.exploitation == f.exploitation + collected + revenue - charge
           - (if c == PaiementFournisseurs || c == Interets then Abs(a) else 0)
  {
  }

  /** Every exclusion consumes one outstanding receivable or payable of its amount. */
  lemma {:induction false} MatchedConsumes(init: Pass, es: seq<Entry>, a: int, n: nat)
    requires n <= |es|
    ensures Count(Classify(init, es, n).receivables, a) + Matched(init, es, a, true, n) == Count(init.receivables, a)
    ensures Count(Classify(init, es, n).payables, a) + Matched(init, es, a, false, n) == Count(init.payables, a)
  {
    if n > 0 {
      MatchedConsumes(init, es, a, n - 1);
      var prev := Classify(init, es, n - 1);
      assert Classify(init, es, n) == ClassifyStep(prev, es[n - 1]);
      StepMatches(prev, es[n - 1], a);
    }
  }

  /** Per amount, revenues are excluded from cash at most as many times as there are positive
      client receivables of that amount, and charges and investments at most as many times as
      there are positive supplier payables of that amount. */
  lemma ExclusionBound(es: seq<Entry>, a: int)
    ensures var init := StartPass(PreScanOf(es, |es|));
      && Matched(init, es, a, true, |es|) <= Occurrences(es, CreancesClients, a, |es|)
      && Matched(init, es, a, false, |es|) <= Occurrences(es, DettesFournisseurs, a, |es|)
  {
    PreScanCounts(es, |es|);
    MatchedConsumes(StartPass(PreScanOf(es, |es|)), es, a, |es|);
  }

  /** When no investment is recorded with a negative amount, the investing flow of the pass
      lies between minus the recorded investments and minus the machine purchases booked as
      an outflow. */
  lemma {:induction false} PassInvestment(p: PreScan, es: seq<Entry>, n: nat)
    requires n <= |es|
    requires forall i :: 0 <= i < n && Investissement(es[i].category) ==> es[i].amount >= 0
    ensures var f := Classify(StartPass(p), es, n).flows;
      && -f.investissementsPayes <= f.investissement
      && f.investissement + (PositiveAmountOf(es, AchatMachine, n) - f.machineOnCredit) <= 0
  {
    if n > 0 {
      PassInvestment(p, es, n - 1);
      var prev := Classify(StartPass(p), es, n - 1);
      assert Classify(StartPass(p), es, n) == ClassifyStep(prev, es[n - 1]);
      StepTotals(prev, es[n - 1]);
      StepInvestment(prev, es[n - 1]);
    }
  }

  // ---------------------------------------------------------------------------------------
  // The summary
  // ---------------------------------------------------------------------------------------

  /** The summary `r` of the entries `es` balances: operating flow is receipts less supplier
      payments, cash charges and interest, financing flow is contributions, loans and
      repayments, and the net flow is the sum of the three flows. Supplier payments, interest,
      contributions, repayments and recorded investments are the totals of their categories;
      the loans received are those of the ledger less at most the positive bank loans
      neutralised against a machine purchase. */
  ghost predicate Reports(es: seq<Entry>, r: CashflowSummary) {
    && r.net == r.exploitation + r.investissement + r.financement
    && r.exploitation == r.encaissementsClients - r.paiementsFournisseurs - r.paiementsCharges + r.interets
    && r.financement == r.apports + r.emprunts + r.remboursements
    && r.paiementsFournisseurs == AbsAmountOf(es, PaiementFournisseurs, |es|)
    && r.interets == -AbsAmountOf(es, Interets, |es|)
    && r.apports == Total(es, ApportCapital)
    && r.remboursements == Total(es, RemboursementEmprunt)
    && r.investissementsPayes == Total(es, AchatMachine) + Total(es, AchatLogiciel) + Total(es, AchatCamion)
    && Total(es, EmpruntBancaire) + Total(es, CreditCaisse) - PositiveAmountOf(es, EmpruntBancaire, |es|)
       <= r.emprunts <= Total(es, EmpruntBancaire) + Total(es, CreditCaisse)
  }

  /** The totals of the pass over the whole list, before any neutralisation. */
  lemma PassReports(es: seq<Entry>)
    ensures var f := PassOf(es).flows;
      && f.exploitation == f.encaissementsClients - f.paiementsFournisseurs - f.paiementsCharges + f.interets
      && f.financement == f.apportsCapital + f.empruntsRecus + f.remboursements
      && f.paiementsFournisseurs == AbsAmountOf(es, PaiementFournisseurs, |es|)
      && f.interets == -AbsAmountOf(es, Interets, |es|)
      && f.apportsCapital == Total(es, ApportCapital)
      && f.empruntsRecus == Total(es, EmpruntBancaire) + Total(es, CreditCaisse)
      && f.remboursements == Total(es, RemboursementEmprunt)
      && f.investissementsPayes == Total(es, AchatMachine) + Total(es, AchatLogiciel) + Total(es, AchatCamion)
  {
    var p := PreScanOf(es, |es|);
    PassBalances(p, es, |es|);
    PassPayments(p, es, |es|);
    PassFinancing(p, es, |es|);
    PassInvestmentsRecorded(p, es, |es|);
  }

  /** Whatever non-negative amount of machine purchases is neutralised, the summary balances. */
  lemma NeutralisedReports(es: seq<Entry>, machine: int)
    requires machine >= 0
    ensures Reports(es, Neutralise(PreScanOf(es, |es|), PassOf(es).flows, machine))
  {
    var p := PreScanOf(es, |es|);
    PreScanTotals(es, |es|);
    MachineOnCreditBound(es);
    NeutraliseBounds(p, PassOf(es).flows, machine);
    PassReports(es);
  }

  /** The cashflow summary balances, as written and corrected. */
  lemma CashflowReport(es: seq<Entry>)
    ensures Reports(es, CashflowAsWritten(es))
    ensures Reports(es, CashflowOf(es))
  {
    var p := PreScanOf(es, |es|);
    MachineOnCreditBound(es);
    NeutralisedReports(es, p.totalAchatMachine);
    NeutralisedReports(es, p.totalAchatMachine - PassOf(es).flows.machineOnCredit);
  }

  /** A pass step never records a payable or a receivable: it only consumes them. */
  lemma StepKeepsNothingOutstanding(st: Pass, e: Entry)
    requires st.payables == map[] && st.receivables == map[]
    ensures ClassifyStep(st, e).payables == map[] && ClassifyStep(st, e).receivables == map[]
  {
  }

  /** What an entry adds to the operating flow when no payable or receivable is outstanding:
      a collection, a revenue or a cash charge its amount, a supplier payment or interest
      minus its absolute amount, any other category nothing. */
  function OperatingCash(e: Entry): int {
    var c, a := e.category, e.amount;
    if c == EncaissementClient then Abs(a)
    else if c == PaiementFournisseurs || c == Interets then -Abs(a)
    else if RevenuExploitation(c) then a
    else if ChargeExploitation(c) then -a
    else 0
  }

  /** The client receipts an entry brings when no receivable is outstanding. */
  function CashReceipt(e: Entry): int {
    if e.category == EncaissementClient then Abs(e.amount)
    else if RevenuExploitation(e.category) then e.amount
    else 0
  }

  /** The cash charge an entry brings when no payable is outstanding; interest is apart. */
  function CashCharge(e: Entry): int {
    if ChargeExploitation(e.category) && e.category != Interets then e.amount else 0
  }

  /** The operating flow, receipts and cash charges of the first `n` entries, entry by entry. */
  function OperatingCashOf(es: seq<Entry>, n: nat): int
    requires n <= |es|
  {
    if n == 0 then 0 else OperatingCashOf(es, n - 1) + OperatingCash(es[n - 1])
  }

  function CashReceiptsOf(es: seq<Entry>, n: nat): int
    requires n <= |es|
  {
    if n == 0 then 0 else CashReceiptsOf(es, n - 1) + CashReceipt(es[n - 1])
  }

  function CashChargesOf(es: seq<Entry>, n: nat): int
    requires n <= |es|
  {
    if n == 0 then 0 else CashChargesOf(es, n - 1) + CashCharge(es[n - 1])
  }

  /** Without supplier payables and client receivables the pre-scan records nothing
      outstanding. */
  lemma {:induction false} NothingOutstanding(es: seq<Entry>, n: nat)
    requires n <= |es|
    requires forall e | e in es :: e.category != DettesFournisseurs && e.category != CreancesClients
    ensures PreScanOf(es, n).payables == map[] && PreScanOf(es, n).receivables == map[]
  {
    if n > 0 {
      NothingOutstanding(es, n - 1);
      assert es[n - 1] in es;
    }
  }

  /** A pass that starts with nothing outstanding keeps nothing outstanding and adds every
      entry's operating cash, receipts and cash charges. */
  lemma {:induction false} PassOperating(init: Pass, es: seq<Entry>, n: nat)
    requires n <= |es|
    requires init.payables == map[] && init.receivables == map[]
    ensures var q := Classify(init, es, n);
      && q.payables == map[] && q.receivables == map[]
      && q.flows.exploitation == init.flows.exploitation + OperatingCashOf(es, n)
      && q.flows.encaissementsClients == init.flows.encaissementsClients + CashReceiptsOf(es, n)
      && q.flows.paiementsCharges == init.flows.paiementsCharges + CashChargesOf(es, n)
  {
    if n > 0 {
      PassOperating(init, es, n - 1);
      var prev := Classify(init, es, n - 1);
      assert Classify(init, es, n) == ClassifyStep(prev, es[n - 1]);
      StepOperating(prev, es[n - 1]);
      StepKeepsNothingOutstanding(prev, es[n - 1]);
    }
  }

  /** With no supplier payables and no client receivables, nothing is accrued: the operating
      flow, as written and corrected, is the entry-by-entry sum of revenues, collections less
      cash charges, supplier payments and interest, and so are the receipts and the cash
      charges. */
  lemma Conservation(es: seq<Entry>)
    requires forall e | e in es :: e.category != DettesFournisseurs && e.category != CreancesClients
    ensures CashflowAsWritten(es).exploitation == OperatingCashOf(es, |es|)
    ensures CashflowOf(es).exploitation == OperatingCashOf(es, |es|)
    ensures CashflowAsWritten(es).encaissementsClients == CashReceiptsOf(es, |es|)
    ensures CashflowOf(es).encaissementsClients == CashReceiptsOf(es, |es|)
    ensures CashflowAsWritten(es).paiementsCharges == CashChargesOf(es, |es|)
    ensures CashflowOf(es).paiementsCharges == CashChargesOf(es, |es|)
  {
    NothingOutstanding(es, |es|);
    PassOperating(StartPass(PreScanOf(es, |es|)), es, |es|);
  }

  /** When no investment is recorded with a negative amount, the investing flow is never an
      inflow and never an outflow larger than the investments recorded. */
  lemma InvestingFlowBounds(es: seq<Entry>)
    requires forall e | e in es :: Investissement(e.category) ==> e.amount >= 0
    ensures -CashflowOf(es).investissementsPayes <= CashflowOf(es).investissement <= 0
  {
    var p := PreScanOf(es, |es|);
    var f := PassOf(es).flows;
    MachineOnCreditBound(es);
    PassInvestmentBound(es);
    NeutralisedInvesting(p, f, p.totalAchatMachine - f.machineOnCredit);
  }

  /** Before the neutralisation, the investing flow lies between minus the investments
      recorded and minus the machine purchases the pass left as outflow. */
  lemma PassInvestmentBound(es: seq<Entry>)
    requires forall e | e in es :: Investissement(e.category) ==> e.amount >= 0
    ensures var p, f := PreScanOf(es, |es|), PassOf(es).flows;
      && -f.investissementsPayes <= f.investissement
      && f.investissement + (p.totalAchatMachine - f.machineOnCredit) <= 0
  {
    PreScanTotals(es, |es|);
    assert forall i :: 0 <= i < |es| && Investissement(es[i].category) ==> es[i].amount >= 0 by {
      forall i | 0 <= i < |es| && Investissement(es[i].category)
        ensures es[i].amount >= 0
      {
        assert es[i] in es;
      }
    }
    PassInvestment(PreScanOf(es, |es|), es, |es|);
  }

  /** The bound on investing flow survives a neutralisation of at most the purchases the pass
      left as outflow. */
  lemma NeutralisedInvesting(p: PreScan, f: Flows, machine: int)
    requires machine >= 0 && p.totalDettesInvest >= 0 && p.totalEmpruntPositif >= 0
    requires -f.investissementsPayes <= f.investissement && f.investissement + machine <= 0
    ensures -Neutralise(p, f, machine).investissementsPayes <= Neutralise(p, f, machine).investissement <= 0
  {
    NeutraliseBounds(p, f, machine);
  }

  /** The neutralisation of the machine purchases `machine`: both offsets are non-negative,
      together they never exceed the purchases, the loan offset never exceeds the positive
      loans, investing flow rises by both offsets, and financing flow and loans received fall
      by the loan offset. */
  lemma NeutraliseBounds(p: PreScan, f: Flows, machine: int)
    requires machine >= 0 && p.totalDettesInvest >= 0 && p.totalEmpruntPositif >= 0
    ensures var offD, offE, r := OffsetDettes(machine, p), OffsetEmprunt(machine, p), Neutralise(p, f, machine);
      && 0 <= offD && 0 <= offE <= p.totalEmpruntPositif && offD + offE <= machine
      && r.investissement == f.investissement + offD + offE
      && r.financement == f.financement - offE
      && r.emprunts == f.empruntsRecus - offE
      && r.exploitation == f.exploitation
  {
  }

  /** The neutralisation bounds for the cashflow as written: both offsets together never
      exceed the machine purchases, the loan offset never exceeds the positive loans, and the
      investing, financing and loan flows move by exactly the offsets. */
  lemma NeutralisationBounds(es: seq<Entry>)
    ensures var p, f := PreScanOf(es, |es|), PassOf(es).flows;
      && OffsetDettes(p.totalAchatMachine, p) + OffsetEmprunt(p.totalAchatMachine, p) <= p.totalAchatMachine
      && OffsetEmprunt(p.totalAchatMachine, p) <= p.totalEmpruntPositif
      && CashflowAsWritten(es).investissement
         == f.investissement + OffsetDettes(p.totalAchatMachine, p) + OffsetEmprunt(p.totalAchatMachine, p)
      && CashflowAsWritten(es).financement == f.financement - OffsetEmprunt(p.totalAchatMachine, p)
      && CashflowAsWritten(es).emprunts == f.empruntsRecus - OffsetEmprunt(p.totalAchatMachine, p)
  {
    var p := PreScanOf(es, |es|);
    PreScanTotals(es, |es|);
    NeutraliseBounds(p, PassOf(es).flows, p.totalAchatMachine);
  }

  /** The corrected cashflow neutralises only purchases the pass left as outflow, so it
      neutralises at most what the code as written neutralises. */
  lemma CorrectionNeutralisesLess(es: seq<Entry>)
    ensures var p, f := PreScanOf(es, |es|), PassOf(es).flows;
      0 <= p.totalAchatMachine - f.machineOnCredit <= p.totalAchatMachine
    ensures CashflowOf(es).investissement <= CashflowAsWritten(es).investissement
  {
    var p := PreScanOf(es, |es|);
    var f := PassOf(es).flows;
    MachineOnCreditBound(es);
    NeutraliseMonotone(p, f, p.totalAchatMachine, p.totalAchatMachine - f.machineOnCredit);
  }

  /** The purchases matched against a payable are among the positive machine purchases. */
  lemma MachineOnCreditBound(es: seq<Entry>)
    ensures 0 <= PassOf(es).flows.machineOnCredit <= PreScanOf(es, |es|).totalAchatMachine
    ensures PreScanOf(es, |es|).totalDettesInvest >= 0 && PreScanOf(es, |es|).totalEmpruntPositif >= 0
  {
    PreScanTotals(es, |es|);
    PassMachineOnCredit(PreScanOf(es, |es|), es, |es|);
  }

  /** Neutralising fewer purchases raises investing flow by no more. */
  lemma NeutraliseMonotone(p: PreScan, f: Flows, more: int, fewer: int)
    requires 0 <= fewer <= more && p.totalDettesInvest >= 0 && p.totalEmpruntPositif >= 0
    ensures Neutralise(p, f, fewer).investissement <= Neutralise(p, f, more).investissement
  {
    NeutraliseBounds(p, f, more);
    NeutraliseBounds(p, f, fewer);
  }

  /** Neutralising fewer purchases lowers the net flow by the payable offset only, so never
      raises it. */
  lemma NeutraliseNetMonotone(p: PreScan, f: Flows, more: int, fewer: int)
    requires 0 <= fewer <= more && p.totalDettesInvest >= 0
    ensures Neutralise(p, f, fewer).net <= Neutralise(p, f, more).net
  {
    assert OffsetDettes(fewer, p) <= OffsetDettes(more, p);
  }

  /** The corrected net flow never exceeds the net flow of the code as written: the
      correction only withdraws the payable offset of machines bought on credit. */
  lemma CorrectionLowersNet(es: seq<Entry>)
    ensures CashflowOf(es).net <= CashflowAsWritten(es).net
  {
    var p := PreScanOf(es, |es|);
    var f := PassOf(es).flows;
    MachineOnCreditBound(es);
    NeutraliseNetMonotone(p, f, p.totalAchatMachine, p.totalAchatMachine - f.machineOnCredit);
  }

  /** Without machine purchases matched against a payable the correction changes nothing. */
  lemma CorrectionOnlyForMachineOnCredit(es: seq<Entry>)
    ensures PassOf(es).flows.machineOnCredit == 0 ==> CashflowOf(es) == CashflowAsWritten(es)
    ensures CashflowOf(es).exploitation == CashflowAsWritten(es).exploitation
    ensures CashflowOf(es).investissementsPayes == CashflowAsWritten(es).investissementsPayes
  {
  }

  /** A machine bought on credit, with a payable of the same amount whose label ties it to
      the machine (as the automatic entries label it, see `MachinePayableIsInvestLinked`):
      the code as written matches the purchase against the payable and then neutralises it a
      second time, so the investing flow and the net flow show an inflow of the purchase
      amount; the corrected cashflow moves no cash. */
  lemma MachineOnCreditCountedTwice(es: seq<Entry>, a: int)
    requires a > 0 && |es| == 2
    requires es[0].category == AchatMachine && es[0].amount == a
    requires es[1].category == DettesFournisseurs && es[1].amount == a && InvestLinkedLabel(es[1].text)
    ensures CashflowAsWritten(es).investissement == a && CashflowAsWritten(es).net == a
    ensures CashflowOf(es).investissement == 0 && CashflowOf(es).net == 0
  {
    var p1 := PreScanStep(PreScan(map[], map[], 0, 0, 0), es[0]);
    assert p1 == PreScan(map[], map[], a, 0, 0);
    var p := PreScanStep(p1, es[1]);
    assert p == PreScan(map[a := 1], map[], a, a, 0);
    assert PreScanOf(es, 1) == p1;
    assert PreScanOf(es, 2) == p;
    var consumed := Consumed(p.payables, a);
    assert consumed.rest == map[];
    var st := ClassifyStep(StartPass(p), es[0]);
    assert st == Pass(map[], map[], NoFlows.(investissementsPayes := a, machineOnCredit := a));
    assert Classify(StartPass(p), es, 1) == st;
    assert ClassifyStep(st, es[1]) == st;
    assert Classify(StartPass(p), es, 2) == st;
  }

  /** A machine of `a` financed by a payable of `d` whose label ties it to the machine and a
      bank loan of `l` paid to the vendor, with `d + l == a`: no cash moves, the investing and
      financing flows are both zero and so is the loan received net of its neutralisation,
      while the investments recorded stay at `a`. The correction does not touch this case. */
  lemma MachineFinancedWithoutCash(es: seq<Entry>, a: int, d: int, l: int)
    requires d > 0 && l > 0 && d + l == a && |es| == 3
    requires es[0].category == AchatMachine && es[0].amount == a
    requires es[1].category == DettesFournisseurs && es[1].amount == d && InvestLinkedLabel(es[1].text)
    requires es[2].category == EmpruntBancaire && es[2].amount == l
    ensures CashflowOf(es) == CashflowSummary(0, 0, 0, 0, 0, 0, 0, 0, 0, 0, 0, a)
    ensures CashflowAsWritten(es) == CashflowOf(es)
  {
    var p := PreScan(map[d := 1], map[], a, d, l);
    MachineFinancingPreScan(es, a, d, l);
    MachineFinancingPass(es, p, a, d, l);
  }

  lemma MachineFinancingPreScan(es: seq<Entry>, a: int, d: int, l: int)
    requires d > 0 && l > 0 && d + l == a && |es| == 3
    requires es[0].category == AchatMachine && es[0].amount == a
    requires es[1].category == DettesFournisseurs && es[1].amount == d && InvestLinkedLabel(es[1].text)
    requires es[2].category == EmpruntBancaire && es[2].amount == l
    ensures PreScanOf(es, 3) == PreScan(map[d := 1], map[], a, d, l)
  {
    var p1 := PreScanStep(PreScan(map[], map[], 0, 0, 0), es[0]);
    assert p1 == PreScan(map[], map[], a, 0, 0);
    var p2 := PreScanStep(p1, es[1]);
    assert p2 == PreScan(map[d := 1], map[], a, d, 0);
    assert PreScanOf(es, 1) == p1;
    assert PreScanOf(es, 2) == p2;
  }

  lemma MachineFinancingPass(es: seq<Entry>, p: PreScan, a: int, d: int, l: int)
    requires d > 0 && l > 0 && d + l == a && |es| == 3
    requires es[0].category == AchatMachine && es[0].amount == a
    requires es[1].category == DettesFournisseurs && es[1].amount == d
    requires es[2].category == EmpruntBancaire && es[2].amount == l
    requires p.payables == map[d := 1] && p.receivables == map[]
    ensures Classify(StartPass(p), es, 3).flows
         == NoFlows.(investissement := -a, investissementsPayes := a, financement := l, empruntsRecus := l)
  {
    assert Count(p.payables, a) == 0;
    var st1 := ClassifyStep(StartPass(p), es[0]);
    assert st1 == Pass(p.payables, map[], NoFlows.(investissement := -a, investissementsPayes := a));
    assert ClassifyStep(st1, es[1]) == st1;
    assert Classify(StartPass(p), es, 1) == st1;
    assert Classify(StartPass(p), es, 2) == st1;
  }

  /** The pre-scan of an electricity bill, a software purchase and a supplier payable, all of
      `a`, in either order: one payable of `a` and no machine purchase or loan. */
  lemma ChargeSoftwarePreScan(es: seq<Entry>, a: int, k: nat)
    requires a > 0 && |es| == 3 && (k == 0 || k == 2)
    requires es[k].category == DettesFournisseurs && es[k].amount == a
    requires es[1].category == AchatLogiciel
    requires es[2 - k].category == Electricite
    ensures var p := PreScanOf(es, 3);
      p.payables == map[a := 1] && p.receivables == map[] && p.totalAchatMachine == 0
      && p.totalEmpruntPositif == 0 && p.totalDettesInvest >= 0
  {
    PreScanTotals(es, 3);
    var p0 := PreScan(map[], map[], 0, 0, 0);
    assert PreScanOf(es, 1) == PreScanStep(p0, es[0]);
    if k == 0 {
      assert PreScanOf(es, 1).payables == map[a := 1];
      assert PreScanOf(es, 2) == PreScanOf(es, 1);
      assert PreScanOf(es, 3) == PreScanOf(es, 1);
    } else {
      assert PreScanOf(es, 1) == p0;
      assert PreScanOf(es, 2) == p0;
      assert PreScanOf(es, 3).payables == map[a := 1];
    }
  }

  /** The bill first: the pass matches the bill against the payable and books the software
      as an outflow. */
  lemma ChargeFirstPass(es: seq<Entry>, p: PreScan, a: int)
    requires a > 0 && |es| == 3
    requires es[0].category == Electricite && es[0].amount == a
    requires es[1].category == AchatLogiciel && es[1].amount == a
    requires es[2].category == DettesFournisseurs
    requires p.payables == map[a := 1] && p.receivables == map[]
    ensures var f := Classify(StartPass(p), es, 3).flows;
      f.exploitation == 0 && f.investissement == -a && f.financement == 0
  {
    var st1 := ClassifyStep(StartPass(p), es[0]);
    assert st1.payables == map[] && st1.flows.exploitation == 0 && st1.flows.investissement == 0;
    var st2 := ClassifyStep(st1, es[1]);
    assert st2.flows.exploitation == 0 && st2.flows.investissement == -a && st2.flows.financement == 0;
    assert ClassifyStep(st2, es[2]) == st2;
    assert Classify(StartPass(p), es, 1) == st1;
    assert Classify(StartPass(p), es, 2) == st2;
  }

  /** The payable first: the pass matches the software against the payable and books the
      bill as an outflow. */
  lemma SoftwareFirstPass(es: seq<Entry>, p: PreScan, a: int)
    requires a > 0 && |es| == 3
    requires es[0].category == DettesFournisseurs
    requires es[1].category == AchatLogiciel && es[1].amount == a
    requires es[2].category == Electricite && es[2].amount == a
    requires p.payables == map[a := 1] && p.receivables == map[]
    ensures var f := Classify(StartPass(p), es, 3).flows;
      f.exploitation == -a && f.investissement == 0 && f.financement == 0
  {
    var st1 := ClassifyStep(StartPass(p), es[0]);
    assert st1 == StartPass(p);
    var st2 := ClassifyStep(st1, es[1]);
    assert st2.payables == map[] && st2.flows.exploitation == 0 && st2.flows.investissement == 0
           && st2.flows.financement == 0;
    var st3 := ClassifyStep(st2, es[2]);
    assert st3.flows.exploitation == -a && st3.flows.investissement == 0 && st3.flows.financement == 0;
    assert Classify(StartPass(p), es, 1) == st1;
    assert Classify(StartPass(p), es, 2) == st2;
  }

  /** The first match depends on the order of the entries: an electricity bill, a software
      purchase and a supplier payable, all of `a`, report the outflow as investing in ledger
      order and as operating in the reverse order, with the same net flow. */
  lemma OrderChangesSplit(es: seq<Entry>, a: int)
    requires a > 0 && |es| == 3
    requires es[0].category == Electricite && es[0].amount == a
    requires es[1].category == AchatLogiciel && es[1].amount == a
    requires es[2].category == DettesFournisseurs && es[2].amount == a
    ensures CashflowAsWritten(es).exploitation == 0 && CashflowAsWritten(es).investissement == -a
    ensures var rs := [es[2], es[1], es[0]];
      && CashflowAsWritten(rs).exploitation == -a && CashflowAsWritten(rs).investissement == 0
      && CashflowAsWritten(rs).net == CashflowAsWritten(es).net
  {
    var rs := [es[2], es[1], es[0]];
    ChargeSoftwarePreScan(es, a, 2);
    ChargeSoftwarePreScan(rs, a, 0);
    ChargeFirstPass(es, PreScanOf(es, 3), a);
    SoftwareFirstPass(rs, PreScanOf(rs, 3), a);
  }

  lemma MachineIsLowerCase()
    ensures Lower("machine") == "machine"
  {
  }

  /** A label holding "machine" at position `i` is investment-linked. */
  lemma LinkedByMachineAt(text: string, i: nat)
    requires i + 7 <= |text| && text[i..i + 7] == "machine"
    ensures InvestLinkedLabel(text)
  {
    MachineIsLowerCase();
    ContainsLowered(text, "machine", i);
  }

  /** A payable label ending in "machine", as the automatic entries label the payable of a
      machine bought on credit, ties it to the machine. */
  lemma MachinePayableIsInvestLinked(prefix: string)
    ensures InvestLinkedLabel(prefix + "machine")
  {
    var text := prefix + "machine";
    assert text[|prefix|..|prefix| + 7] == "machine";
    LinkedByMachineAt(text, |prefix|);
  }

  /** The entries the cashflow does not see: stock, raw material purchases, the closing
      entry, and payables or receivables that are not positive. */
  predicate MovesNoCash(e: Entry) {
    || e.category == Stock || e.category == AchatMatieres || e.category == BeneficeReporte
    || ((e.category == DettesFournisseurs || e.category == CreancesClients) && e.amount <= 0)
  }

  lemma {:induction false} PreScanOfPrefix(es: seq<Entry>, e: Entry, n: nat)
    requires n <= |es|
    ensures PreScanOf(es + [e], n) == PreScanOf(es, n)
  {
    if n > 0 {
      PreScanOfPrefix(es, e, n - 1);
      assert (es + [e])[n - 1] == es[n - 1];
    }
  }

  lemma {:induction false} ClassifyPrefix(init: Pass, es: seq<Entry>, e: Entry, n: nat)
    requires n <= |es|
    ensures Classify(init, es + [e], n) == Classify(init, es, n)
  {
    if n > 0 {
      ClassifyPrefix(init, es, e, n - 1);
      assert (es + [e])[n - 1] == es[n - 1];
    }
  }

  /** An entry that moves no cash leaves both passes where they were. */
  lemma StepNoCash(p: PreScan, st: Pass, e: Entry)
    requires MovesNoCash(e)
    ensures PreScanStep(p, e) == p
    ensures ClassifyStep(st, e) == st
  {
  }

  /** Appending an entry that moves no cash leaves the whole cashflow summary unchanged. */
  lemma AppendNoCash(es: seq<Entry>, e: Entry)
    requires MovesNoCash(e)
    ensures CashflowOf(es + [e]) == CashflowOf(es)
    ensures CashflowAsWritten(es + [e]) == CashflowAsWritten(es)
  {
    var es' := es + [e];
    assert es'[|es|] == e;
    var p := PreScanOf(es, |es|);
    var st := PassOf(es);
    StepNoCash(p, st, e);
    PreScanOfPrefix(es, e, |es|);
    assert PreScanOf(es', |es'|) == p;
    ClassifyPrefix(StartPass(p), es, e, |es|);
    assert PassOf(es') == st;
  }
}
