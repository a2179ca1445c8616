/** The free-text label classifier: an ordered list of keyword rules over the lower-cased
    label, the first matching rule giving a high-level classification and a suggested ledger
    category; and the table of structured operations offered to the user. */
module Classifier {
  import opened Wrappers
  import opened Text
  import Compta

  // ---------------------------------------------------------------------------------------
  // Structured operations
  // ---------------------------------------------------------------------------------------

  /** `AutoKey`: the structured operations. */
  datatype AutoKey =
    | CapitalInitial | FraisImmatriculation | AchatMachine | AchatMatieres | VenteMeubles
    | PaiementFournisseurs | FactureElectricite | CreditCaisse | EmpruntBancaire
    | EncaissementClient | RemboursementEmpruntInterets

  /** `AutoOption` */
  datatype AutoOption = AutoOption(key: AutoKey, text: string, requiresPaymentMode: bool)

  datatype OptionGroup = OptionGroup(group: string, options: seq<AutoOption>)

  /** `AUTO_OPTIONS_GROUPED` */
  const AutoOptionsGrouped: seq<OptionGroup> := [
    OptionGroup("Bilan / Financement", [
      AutoOption(CapitalInitial, "Capital initial", false),
      AutoOption(CreditCaisse, "Crédit de caisse", false),
      AutoOption(EmpruntBancaire, "Emprunt bancaire", false)]),
    OptionGroup("Immobilisations / Stocks / Créances", [
      AutoOption(AchatMachine, "Achat de machine", true),
      AutoOption(AchatMatieres, "Achat de matières premières", true),
      AutoOption(VenteMeubles, "Vente de meubles", true)]),
    OptionGroup("Exploitation / Charges / Produits", [
      AutoOption(FraisImmatriculation, "Frais d'immatriculation", true),
      AutoOption(FactureElectricite, "Facture électricité", true),
      AutoOption(PaiementFournisseurs, "Paiement fournisseurs", false),
      AutoOption(EncaissementClient, "Encaissement client", false),
      AutoOption(RemboursementEmpruntInterets, "Remboursement emprunt + intérêts", false)])
  ]

  /** The options of the first `n` groups, in order. */
  function OptionsOf(groups: seq<OptionGroup>, n: nat): seq<AutoOption>
    requires n <= |groups|
  {
    if n == 0 then [] else OptionsOf(groups, n - 1) + groups[n - 1].options
  }

  /** The five operations for which the user is asked how the operation was paid. */
  predicate AsksPaymentMode(k: AutoKey) {
    k in {AchatMachine, AchatMatieres, VenteMeubles, FraisImmatriculation, FactureElectricite}
  }

  /** The keys of the options table, in order. */
  const OptionKeys: seq<AutoKey> := [
    CapitalInitial, CreditCaisse, EmpruntBancaire, AchatMachine, AchatMatieres, VenteMeubles,
    FraisImmatriculation, FactureElectricite, PaiementFournisseurs, EncaissementClient,
    RemboursementEmpruntInterets
  ]

  /** The keys of group `gi` are the keys of the table from position `from` on, and its options
      ask for a payment mode exactly for the five purchase and sale operations. */
  predicate GroupLaidOut(gi: nat, from: nat)
    requires gi < |AutoOptionsGrouped|
  {
    var opts := AutoOptionsGrouped[gi].options;
    && from + |opts| <= |OptionKeys|
    && (forall i :: 0 <= i < |opts| ==> opts[i].key == OptionKeys[from + i])
    && (forall i :: 0 <= i < |opts| ==> (opts[i].requiresPaymentMode <==> AsksPaymentMode(opts[i].key)))
  }

  lemma FirstGroupLaidOut()
    ensures |AutoOptionsGrouped[0].options| == 3 && GroupLaidOut(0, 0)
  {
  }

  lemma SecondGroupLaidOut()
    ensures |AutoOptionsGrouped[1].options| == 3 && GroupLaidOut(1, 3)
  {
  }

  lemma ThirdGroupLaidOut()
    ensures |AutoOptionsGrouped[2].options| == 5 && GroupLaidOut(2, 6)
  {
  }

  /** The options table read group by group: eleven options, whose keys are those above and
      which ask for a payment mode exactly for the five purchase and sale operations. */
  lemma OptionsLayout()
    ensures var opts := OptionsOf(AutoOptionsGrouped, |AutoOptionsGrouped|);
      && |opts| == 11
      && (forall i :: 0 <= i < 11 ==> opts[i].key == OptionKeys[i])
      && (forall i :: 0 <= i < 11 ==> (opts[i].requiresPaymentMode <==> AsksPaymentMode(opts[i].key)))
  {
    var g := AutoOptionsGrouped;
    var a, b, c := g[0].options, g[1].options, g[2].options;
    FirstGroupLaidOut();
    SecondGroupLaidOut();
    ThirdGroupLaidOut();
    assert OptionsOf(g, 1) == a;
    assert OptionsOf(g, 2) == a + b;
    var opts := OptionsOf(g, 3);
    assert opts == a + b + c;
    forall i | 0 <= i < 11
      ensures opts[i].key == OptionKeys[i]
      ensures opts[i].requiresPaymentMode <==> AsksPaymentMode(opts[i].key)
    {
      if i < 3 {
        assert opts[i] == a[i];
      } else if i < 6 {
        assert opts[i] == b[i - 3];
      } else {
        assert opts[i] == c[i - 6];
      }
    }
  }

  /** Where `k` sits in the options table. */
  function KeyIndex(k: AutoKey): (i: nat)
    ensures i < |OptionKeys| && OptionKeys[i] == k
  {
    match k
    case CapitalInitial => 0
    case CreditCaisse => 1
    case EmpruntBancaire => 2
    case AchatMachine => 3
    case AchatMatieres => 4
    case VenteMeubles => 5
    case FraisImmatriculation => 6
    case FactureElectricite => 7
    case PaiementFournisseurs => 8
    case EncaissementClient => 9
    case RemboursementEmpruntInterets => 10
  }

  /** Every operation is offered exactly once. */
  lemma OptionsTable(k: AutoKey)
    ensures var opts := OptionsOf(AutoOptionsGrouped, |AutoOptionsGrouped|);
      && |opts| == 11
      && (exists i :: 0 <= i < |opts| && opts[i].key == k)
      && (forall i, j :: 0 <= i < j < |opts| ==> opts[i].key != opts[j].key)
  {
    OptionsLayout();
    var opts := OptionsOf(AutoOptionsGrouped, |AutoOptionsGrouped|);
    assert opts[KeyIndex(k)].key == k;
    assert forall i :: 0 <= i < 11 ==> KeyIndex(opts[i].key) == i;
  }

  /** `PaymentMode` */
  datatype PaymentMode = Comptant | Credit

  /** `AutoClassifyInput`: `costOfGoodsSoldAmount` is carried but never read. */
  datatype AutoInput = AutoInput(key: AutoKey, amount: int, paymentMode: Option<PaymentMode>,
                                 interestsPart: Option<int>, costOfGoodsSoldAmount: Option<int>)

  // ---------------------------------------------------------------------------------------
  // Free-text classification
  // ---------------------------------------------------------------------------------------

  datatype EntryType = Actif | Passif | Charge | Produit

  datatype Subtype =
    | Immobilisation | StockSubtype | CreanceClient | Tresorerie | CapitauxPropres | DettesFournisseurs
    | Emprunt | Vente | Electricite | FraisEtablissement | Interets | Achats

  datatype Destination = Bilan | Resultat | CashflowStatement

  /** `ClassificationResult`; every result the classifier builds carries a category. */
  datatype Classification = Classification(kind: EntryType, subtype: Subtype, destinations: seq<Destination>,
                                           suggestedCategory: Compta.Category)

  /** `is(kws)`: some keyword occurs in the lower-cased label `l`. */
  function AnyContained(l: string, kws: seq<string>): (r: bool)
    ensures r <==> exists i :: 0 <= i < |kws| && Contains(l, kws[i])
  {
    if kws == [] then false
    else
      assert forall i :: 0 < i < |kws| ==> kws[i] == kws[1..][i - 1];
      Contains(l, kws[0]) || AnyContained(l, kws[1..])
  }

  const VenteKeywords: seq<string> := ["vente", "facture client", "chiffre d’affaires", "chiffre d'affaires"]
  const FraisKeywords: seq<string> :=
    ["frais immatriculation", "frais d'immatriculation", "frais etablissement", "frais d’etablissement"]
  const ElectriciteKeywords: seq<string> := ["electricite", "électricité", "edf"]
  const InteretKeywords: seq<string> := ["interet", "intérêt", "interets", "intérêts"]
  const MatieresKeywords: seq<string> :=
    ["achat matiere", "achat matières", "achat mp", "matiere premiere", "matières premières"]
  const ImmobilisationKeywords: seq<string> := ["achat machine", "machine", "immobilisation", "camion", "logiciel"]
  const EmpruntKeywords: seq<string> := ["emprunt", "credit caisse", "crédit caisse", "prêt bancaire"]
  const CreditCaisseKeywords: seq<string> := ["credit caisse", "crédit caisse"]
  const PaiementFournisseurKeywords: seq<string> := ["paiement fournisseur", "paiement fournisseurs"]
  const DetteFournisseurKeywords: seq<string> := ["dette fournisseur", "dettes fournisseurs"]
  const EncaissementKeywords: seq<string> := ["encaissement client", "paiement client"]
  const CreanceKeywords: seq<string> := ["creance client", "créance client"]
  const ApportKeywords: seq<string> := ["apport capital", "capital initial"]

  /** The rules' keyword lists, in the order the classifier tries them. */
  const Rules: seq<seq<string>> := [
    VenteKeywords, FraisKeywords, ElectriciteKeywords, InteretKeywords, MatieresKeywords,
    ImmobilisationKeywords, EmpruntKeywords, PaiementFournisseurKeywords, DetteFournisseurKeywords,
    EncaissementKeywords, CreanceKeywords, ApportKeywords
  ]

  /** What rule `i` returns for the lower-cased label `l`. */
  function RuleResult(i: nat, l: string): Classification
    requires i < |Rules|
  {
    if i == 0 then Classification(Produit, Vente, [Resultat, CashflowStatement], Compta.Vente)
    else if i == 1 then Classification(Charge, FraisEtablissement, [Resultat, CashflowStatement], Compta.FraisImmatriculation)
    else if i == 2 then Classification(Charge, Electricite, [Resultat, CashflowStatement], Compta.Electricite)
    else if i == 3 then Classification(Charge, Interets, [Resultat, CashflowStatement], Compta.Interets)
    else if i == 4 then Classification(Charge, Achats, [Resultat, Bilan], Compta.AchatMatieres)
    else if i == 5 then Classification(Actif, Immobilisation, [Bilan, CashflowStatement], Compta.AchatMachine)
    else if i == 6 then
      Classification(Passif, Emprunt, [Bilan, CashflowStatement],
                     if AnyContained(l, CreditCaisseKeywords) then Compta.CreditCaisse else Compta.EmpruntBancaire)
    else if i == 7 then Classification(Passif, DettesFournisseurs, [Bilan, CashflowStatement], Compta.PaiementFournisseurs)
    else if i == 8 then Classification(Passif, DettesFournisseurs, [Bilan], Compta.DettesFournisseurs)
    else if i == 9 then Classification(Actif, Tresorerie, [CashflowStatement, Bilan], Compta.EncaissementClient)
    else if i == 10 then Classification(Actif, CreanceClient, [Bilan], Compta.CreancesClients)
    else Classification(Passif, CapitauxPropres, [Bilan, CashflowStatement], Compta.ApportCapital)
  }

  /** `autoClassifier(label)`: the rules tried in order on the lower-cased label. */
  function AutoClassifier(text: string): Option<Classification> {
    var l := Lower(text);
    if AnyContained(l, VenteKeywords) then Some(RuleResult(0, l))
    else if AnyContained(l, FraisKeywords) then Some(RuleResult(1, l))
    else if AnyContained(l, ElectriciteKeywords) then Some(RuleResult(2, l))
    else if AnyContained(l, InteretKeywords) then Some(RuleResult(3, l))
    else if AnyContained(l, MatieresKeywords) then Some(RuleResult(4, l))
    else if AnyContained(l, ImmobilisationKeywords) then Some(RuleResult(5, l))
    else if AnyContained(l, EmpruntKeywords) then Some(RuleResult(6, l))
    else if AnyContained(l, PaiementFournisseurKeywords) then Some(RuleResult(7, l))
    else if AnyContained(l, DetteFournisseurKeywords) then Some(RuleResult(8, l))
    else if AnyContained(l, EncaissementKeywords) then Some(RuleResult(9, l))
    else if AnyContained(l, CreanceKeywords) then Some(RuleResult(10, l))
    else if AnyContained(l, ApportKeywords) then Some(RuleResult(11, l))
    else None
  }

  /** The first rule from `i` on whose keywords occur in `l`, or the number of rules. */
  function FirstRule(l: string, i: nat): (j: nat)
    requires i <= |Rules|
    ensures i <= j <= |Rules|
    ensures j < |Rules| ==> AnyContained(l, Rules[j])
    ensures forall k :: i <= k < j ==> !AnyContained(l, Rules[k])
    decreases |Rules| - i
  {
    if i == |Rules| then i
    else if AnyContained(l, Rules[i]) then i
    else FirstRule(l, i + 1)
  }

  /** The classifier is the first matching rule of the table: it returns nothing exactly when
      no keyword of any rule occurs in the lower-cased text, and otherwise the result of the
      first rule one of whose keywords occurs. */
  lemma ClassifierIsFirstMatch(text: string)
    ensures var l := Lower(text); var j := FirstRule(l, 0);
      AutoClassifier(text) == if j == |Rules| then None else Some(RuleResult(j, l))
    ensures AutoClassifier(text) == None <==> forall k :: 0 <= k < |Rules| ==> !AnyContained(Lower(text), Rules[k])
  {
    var l := Lower(text);
    var j := FirstRule(l, 0);
    if j < |Rules| {
      assert AnyContained(l, Rules[j]);
    }
  }

  /** First match wins: a label mentioning a sale is a sale, whatever else it mentions. */
  lemma SaleWinsOverEverything(text: string)
    requires Contains(Lower(text), "vente")
    ensures AutoClassifier(text) == Some(Classification(Produit, Vente, [Resultat, CashflowStatement], Compta.Vente))
  {
    assert Contains(Lower(text), VenteKeywords[0]);
  }

  /** Classification ignores case: a label and its lower-cased form are classified alike. */
  lemma ClassifierIgnoresCase(text: string)
    ensures AutoClassifier(Lower(text)) == AutoClassifier(text)
  {
    LowerIdempotent(text);
  }

  /** What every rule returns: at least one statement, never the same one twice, a type that
      agrees with the taxonomy's placement of the suggested category (assets and liabilities
      in their group, charges in the "Charges" section, products in the "Produits" section),
      and the loan subtype from the loan rule only. */
  lemma RuleResultAgrees(i: nat, l: string)
    requires i < |Rules|
    ensures var r := RuleResult(i, l);
      && |r.destinations| > 0
      && (forall a, b :: 0 <= a < b < |r.destinations| ==> r.destinations[a] != r.destinations[b])
      && (r.kind == Actif ==> Compta.PlacementOf(r.suggestedCategory).group == Compta.Actif)
      && (r.kind == Passif ==> Compta.PlacementOf(r.suggestedCategory).group == Compta.Passif)
      && (r.kind == Charge ==> Compta.PlacementOf(r.suggestedCategory).section == "Charges")
      && (r.kind == Produit ==> Compta.PlacementOf(r.suggestedCategory).section == "Produits")
      && (r.subtype == Emprunt <==> i == 6)
  {
  }

  /** The same of every result of the classifier. */
  lemma ResultsAgreeWithTaxonomy(text: string)
    requires AutoClassifier(text).Some?
    ensures var r := AutoClassifier(text).value;
      && |r.destinations| > 0
      && (forall i, j :: 0 <= i < j < |r.destinations| ==> r.destinations[i] != r.destinations[j])
      && (r.kind == Actif ==> Compta.PlacementOf(r.suggestedCategory).group == Compta.Actif)
      && (r.kind == Passif ==> Compta.PlacementOf(r.suggestedCategory).group == Compta.Passif)
      && (r.kind == Charge ==> Compta.PlacementOf(r.suggestedCategory).section == "Charges")
      && (r.kind == Produit ==> Compta.PlacementOf(r.suggestedCategory).section == "Produits")
  {
    ClassifierIsFirstMatch(text);
    RuleResultAgrees(FirstRule(Lower(text), 0), Lower(text));
  }

  /** The loan rule suggests the cash credit line exactly when "credit caisse" or "crédit
      caisse" occurs, and a bank loan otherwise. */
  lemma LoanRuleCategory(text: string)
    requires AutoClassifier(text).Some? && AutoClassifier(text).value.subtype == Emprunt
    ensures var c := AutoClassifier(text).value.suggestedCategory;
      && (c == Compta.CreditCaisse <==> Contains(Lower(text), "credit caisse") || Contains(Lower(text), "crédit caisse"))
      && (c != Compta.CreditCaisse ==> c == Compta.EmpruntBancaire)
  {
    var l := Lower(text);
    ClassifierIsFirstMatch(text);
    RuleResultAgrees(FirstRule(l, 0), l);
    assert CreditCaisseKeywords[0] == "credit caisse" && CreditCaisseKeywords[1] == "crédit caisse";
  }

  /** `suggestCategoryFromLabel(label)`: the suggested category, or nothing. */
  function SuggestCategoryFromLabel(text: string): (r: Option<Compta.Category>)
    ensures r.None? <==> AutoClassifier(text).None?
    ensures r.Some? ==> r.value == AutoClassifier(text).value.suggestedCategory
  {
    var res := AutoClassifier(text);
    if res.Some? then Some(res.value.suggestedCategory) else None
  }
}
