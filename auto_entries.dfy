/** The structured entry builder: one operation chosen from the options table, with its
    amount and, where asked, its payment mode, becomes one to three ledger payloads. */
module AutoEntries {
  import opened Wrappers
  import opened Compta
  import Classifier
  import Cashflow

  /** The label of the payable of a machine bought on credit. */
  const MachinePayableLabel: string := "Dette fournisseur - " + "machine"

  /** `buildAutoEntries(input)`. The source pushes the payloads one by one onto a local list
      that does not outlive the call; the list is built here as a sequence value. */
  function BuildAutoEntries(input: Classifier.AutoInput): (r: seq<Payload>)
    ensures 0 < |r| <= 3 || (input.key == Classifier.RemboursementEmpruntInterets && |r| <= 3)
  {
    var amount := input.amount;
    var credit := input.paymentMode == Some(Classifier.Credit);
    match input.key
    case CapitalInitial => [Payload("Apport en capital", amount, ApportCapital)]
    case EmpruntBancaire => [Payload("Emprunt bancaire", amount, EmpruntBancaire)]
    case FraisImmatriculation => [Payload("Frais d'immatriculation", amount, FraisImmatriculation)]
    case AchatMachine =>
      [Payload("Achat de machine", amount, AchatMachine)]
      + (if credit then [Payload(MachinePayableLabel, amount, DettesFournisseurs)] else [])
    case AchatMatieres =>
      [Payload("Stock matières premières", amount, Stock)]
      + (if credit then [Payload("Dette fournisseur - matières", amount, DettesFournisseurs)] else [])
    case VenteMeubles =>
      [Payload("Vente de meubles", amount, Vente)]
      + (if credit then [Payload("Créance client", amount, CreancesClients)] else [])
    case PaiementFournisseurs =>
      [Payload("Paiement fournisseurs", -Abs(amount), PaiementFournisseurs),
       Payload("Réduction dette fournisseur", -Abs(amount), DettesFournisseurs)]
    case FactureElectricite =>
      [Payload("Facture électricité", amount, Electricite)]
      + (if credit then [Payload("Dette fournisseur - électricité", amount, DettesFournisseurs)] else [])
    case CreditCaisse => [Payload("Crédit de caisse", amount, CreditCaisse)]
    case EncaissementClient =>
      [Payload("Encaissement client", Abs(amount), EncaissementClient),
       Payload("Réduction créance client", -Abs(amount), CreancesClients)]
    case RemboursementEmpruntInterets =>
      var interets := Max(0, input.interestsPart.GetOr(0));
      var principal := Max(0, amount - interets);
      (if principal > 0 then
         [Payload("Remboursement emprunt (principal)", -principal, RemboursementEmprunt),
          Payload("Réduction emprunt bancaire", -principal, EmpruntBancaire)]
       else [])
      + (if interets > 0 then [Payload("Intérêts emprunt", interets, Interets)] else [])
  }

  /** The four operations that can be bought or sold on credit. */
  predicate HasCreditCounterpart(k: Classifier.AutoKey) {
    k in {Classifier.AchatMachine, Classifier.AchatMatieres, Classifier.FactureElectricite, Classifier.VenteMeubles}
  }

  /** On credit, a purchase or sale gets a second payload of the same amount: a supplier payable
      for the machine, the raw materials (whose first payload is stock) and the electricity bill,
      a client receivable for the sale; paid in cash, the operation is one payload. */
  lemma CreditAddsCounterpart(input: Classifier.AutoInput)
    requires HasCreditCounterpart(input.key)
    ensures var r := BuildAutoEntries(input);
      && |r| == (if input.paymentMode == Some(Classifier.Credit) then 2 else 1)
      && r[0].amount == input.amount
      && r[0].category == (match input.key
                           case AchatMachine => AchatMachine
                           case AchatMatieres => Stock
                           case FactureElectricite => Electricite
                           case _ => Vente)
      && (|r| == 2 ==> r[1].amount == input.amount
                       && r[1].category == (if input.key == Classifier.VenteMeubles then CreancesClients
                                            else DettesFournisseurs))
  {
  }

  /** Settling a supplier records two outflows of the absolute amount; collecting from a
      client records an inflow of the absolute amount and an equal reduction of receivables. */
  lemma SettlementEntries(input: Classifier.AutoInput)
    requires input.key in {Classifier.PaiementFournisseurs, Classifier.EncaissementClient}
    ensures var r := BuildAutoEntries(input);
      && |r| == 2
      && (input.key == Classifier.PaiementFournisseurs ==>
            && r[0].category == PaiementFournisseurs && r[1].category == DettesFournisseurs
            && r[0].amount == r[1].amount == -Abs(input.amount))
      && (input.key == Classifier.EncaissementClient ==>
            && r[0].category == EncaissementClient && r[1].category == CreancesClients
            && r[0].amount == -r[1].amount == Abs(input.amount))
  {
  }

  /** The amounts of the category `c` among the payloads. */
  function PayloadTotal(r: seq<Payload>, c: Category): int {
    if r == [] then 0
    else (if r[0].category == c then r[0].amount else 0) + PayloadTotal(r[1..], c)
  }

  /** Totals over payloads add up over concatenation. */
  lemma {:induction false} PayloadTotalAppend(a: seq<Payload>, b: seq<Payload>, c: Category)
    ensures PayloadTotal(a + b, c) == PayloadTotal(a, c) + PayloadTotal(b, c)
  {
    if a == [] {
      assert a + b == b;
    } else {
      assert (a + b)[0] == a[0] && (a + b)[1..] == a[1..] + b;
      PayloadTotalAppend(a[1..], b, c);
    }
  }

  /** A repayment splits into a principal, recorded twice (repayment and loan reduction), only
      when positive, and an interest charge, only when positive; when the interest part lies
      between 0 and the amount, principal and interest add up to the amount paid. */
  lemma RepaymentSplit(input: Classifier.AutoInput)
    requires input.key == Classifier.RemboursementEmpruntInterets
    ensures var r := BuildAutoEntries(input);
      var interets := Max(0, input.interestsPart.GetOr(0));
      var principal := Max(0, input.amount - interets);
      && |r| == (if principal > 0 then 2 else 0) + (if interets > 0 then 1 else 0)
      && PayloadTotal(r, RemboursementEmprunt) == -principal
      && PayloadTotal(r, EmpruntBancaire) == -principal
      && PayloadTotal(r, Interets) == interets
      && (forall i :: 0 <= i < |r| ==> r[i].category in {RemboursementEmprunt, EmpruntBancaire, Interets})
      && (0 <= input.interestsPart.GetOr(0) <= input.amount ==>
            -PayloadTotal(r, RemboursementEmprunt) + PayloadTotal(r, Interets) == input.amount)
  {
    var r := BuildAutoEntries(input);
    var interets := Max(0, input.interestsPart.GetOr(0));
    var principal := Max(0, input.amount - interets);
    var p := [Payload("Remboursement emprunt (principal)", -principal, RemboursementEmprunt),
              Payload("Réduction emprunt bancaire", -principal, EmpruntBancaire)];
    var i := [Payload("Intérêts emprunt", interets, Interets)];
    if principal > 0 && interets > 0 {
      assert r == p + i && p[1..][1..] == [] && i[1..] == [];
      PayloadTotalAppend(p, i, RemboursementEmprunt);
      PayloadTotalAppend(p, i, EmpruntBancaire);
      PayloadTotalAppend(p, i, Interets);
    } else if principal > 0 {
      assert r == p && p[1..] == [p[1]] && p[1..][1..] == [];
      assert PayloadTotal(p[1..], RemboursementEmprunt) == 0;
      assert PayloadTotal(p[1..], EmpruntBancaire) == -principal;
      assert PayloadTotal(p[1..], Interets) == 0;
    } else if interets > 0 {
      assert r == i && i[1..] == [];
    }
  }

  /** The financing operations and the registration fee are one payload each, of the amount
      given, whatever the payment mode. */
  lemma SinglePayloadOperations(input: Classifier.AutoInput, m: Option<Classifier.PaymentMode>)
    requires input.key in {Classifier.CapitalInitial, Classifier.EmpruntBancaire, Classifier.FraisImmatriculation,
                           Classifier.CreditCaisse}
    ensures var r := BuildAutoEntries(input);
      && |r| == 1 && r[0].amount == input.amount
      && r[0].category == (match input.key
                           case CapitalInitial => ApportCapital
                           case EmpruntBancaire => EmpruntBancaire
                           case FraisImmatriculation => FraisImmatriculation
                           case _ => CreditCaisse)
      && BuildAutoEntries(input.(paymentMode := m)) == r
  {
  }

  /** The payment mode changes the payloads exactly for the four operations that have a credit
      counterpart; the options table asks for it for those four and, in addition, for the
      registration fee, where the answer has no effect. */
  lemma PaymentModeMatters(input: Classifier.AutoInput)
    ensures BuildAutoEntries(input.(paymentMode := Some(Classifier.Credit)))
            != BuildAutoEntries(input.(paymentMode := None))
        <==> HasCreditCounterpart(input.key)
    ensures HasCreditCounterpart(input.key)
        <==> Classifier.AsksPaymentMode(input.key) && input.key != Classifier.FraisImmatriculation
  {
    if HasCreditCounterpart(input.key) {
      assert |BuildAutoEntries(input.(paymentMode := Some(Classifier.Credit)))| == 2;
      assert |BuildAutoEntries(input.(paymentMode := None))| == 1;
    }
  }

  /** The payable recorded for a machine bought on credit is linked to an investment by its
      label, as the cashflow's pre-scan reads labels. */
  lemma MachinePayableIsInvestmentLinked(input: Classifier.AutoInput)
    requires input.key == Classifier.AchatMachine && input.paymentMode == Some(Classifier.Credit)
    ensures var r := BuildAutoEntries(input);
      |r| == 2 && r[1].category == DettesFournisseurs && Cashflow.InvestLinkedLabel(r[1].text)
  {
    Cashflow.MachinePayableIsInvestLinked("Dette fournisseur - ");
  }

  /** `e` is the ledger entry recorded for the payload `p`. */
  predicate Records(e: Entry, p: Payload) {
    e.text == p.text && e.amount == p.amount && e.category == p.category
  }

  /** A machine bought on credit, recorded through the builder and nothing else, meets the
      double neutralisation of the cashflow as written: it reports a cash inflow equal to the
      price, where the corrected cashflow reports no cash movement. */
  lemma CreditMachineCountedTwice(input: Classifier.AutoInput, es: seq<Entry>)
    requires input.key == Classifier.AchatMachine && input.paymentMode == Some(Classifier.Credit)
    requires input.amount > 0
    requires |es| == 2 && Records(es[0], BuildAutoEntries(input)[0]) && Records(es[1], BuildAutoEntries(input)[1])
    ensures Cashflow.CashflowAsWritten(es).net == input.amount
    ensures Cashflow.CashflowOf(es).net == 0
  {
    MachinePayableIsInvestmentLinked(input);
    Cashflow.MachineOnCreditCountedTwice(es, input.amount);
  }
}
