/** The ledger's data model: the closed category taxonomy, its labels and balance-sheet
    placement, and the records the derivers read and produce. Amounts are integers in the
    source's own unit (whole euros in the ÉcoBois exercise); fractional amounts are left out. */
module Compta {

  /** `ComptaCategory`: the closed set of entry categories. */
  datatype Category =
    | Vente | RevenuService
    | FraisImmatriculation | Loyer | Electricite | Interets | Salaires | AchatMatieres
    | AchatMachine | AchatLogiciel | AchatCamion
    | ApportCapital | EmpruntBancaire | CreditCaisse | BeneficeReporte
    | Stock | CreancesClients | DettesFournisseurs
    | EncaissementClient | PaiementFournisseurs | RemboursementEmprunt

  /** Every category, in declaration order. */
  const AllCategories: seq<Category> := [
    Vente, RevenuService,
    FraisImmatriculation, Loyer, Electricite, Interets, Salaires, AchatMatieres,
    AchatMachine, AchatLogiciel, AchatCamion,
    ApportCapital, EmpruntBancaire, CreditCaisse, BeneficeReporte,
    Stock, CreancesClients, DettesFournisseurs,
    EncaissementClient, PaiementFournisseurs, RemboursementEmprunt
  ]

  /** The taxonomy is closed and has 21 values: the list above holds each exactly once. */
  lemma CategoriesAreClosed(c: Category)
    ensures |AllCategories| == 21
    ensures c in AllCategories
    ensures forall i, j :: 0 <= i < j < |AllCategories| ==> AllCategories[i] != AllCategories[j]
  {
  }

  /** `COMPTA_CATEGORY_LABELS` */
  function Label(c: Category): (r: string)
    ensures |r| > 0
  {
    match c
    case Vente => "Vente de marchandises"
    case RevenuService => "Revenu de services"
    case FraisImmatriculation => "Frais d'immatriculation"
    case Loyer => "Loyer"
    case Electricite => "Électricité"
    case Interets => "Intérêts bancaires"
    case Salaires => "Salaires"
    case AchatMatieres => "Achat de matières premières"
    case AchatMachine => "Achat de machine"
    case AchatLogiciel => "Achat de logiciel"
    case AchatCamion => "Achat de camion"
    case ApportCapital => "Apport en capital"
    case EmpruntBancaire => "Emprunt bancaire"
    case CreditCaisse => "Crédit caisse"
    case BeneficeReporte => "Bénéfice reporté"
    case Stock => "Stocks"
    case CreancesClients => "Créances clients"
    case DettesFournisseurs => "Dettes fournisseurs"
    case EncaissementClient => "Encaissement client"
    case PaiementFournisseurs => "Paiement fournisseurs"
    case RemboursementEmprunt => "Remboursement emprunt"
  }

  /** No two categories share a label. */
  lemma LabelsAreDistinct(a: Category, b: Category)
    ensures Label(a) == Label(b) ==> a == b
  {
  }

  /** `ComptaGroup` */
  datatype Group = Actif | Passif

  datatype Placement = Placement(group: Group, section: string)

  /** `COMPTA_CATEGORY_GROUP` */
  function PlacementOf(c: Category): (r: Placement)
    ensures r.group == Actif <==> c in {Vente, RevenuService, AchatMachine, AchatLogiciel, AchatCamion,
                                        Stock, CreancesClients, EncaissementClient}
    ensures r.section in {"Produits", "Charges", "Investissements", "Financement", "Capitaux propres",
                          "Actif circulant", "Dettes fournisseurs", "Mouvements"}
  {
    match c
    case Vente => Placement(Actif, "Produits")
    case RevenuService => Placement(Actif, "Produits")
    case FraisImmatriculation => Placement(Passif, "Charges")
    case Loyer => Placement(Passif, "Charges")
    case Electricite => Placement(Passif, "Charges")
    case Interets => Placement(Passif, "Charges")
    case Salaires => Placement(Passif, "Charges")
    case AchatMatieres => Placement(Passif, "Charges")
    case AchatMachine => Placement(Actif, "Investissements")
    case AchatLogiciel => Placement(Actif, "Investissements")
    case AchatCamion => Placement(Actif, "Investissements")
    case ApportCapital => Placement(Passif, "Financement")
    case EmpruntBancaire => Placement(Passif, "Financement")
    case CreditCaisse => Placement(Passif, "Financement")
    case BeneficeReporte => Placement(Passif, "Capitaux propres")
    case Stock => Placement(Actif, "Actif circulant")
    case CreancesClients => Placement(Actif, "Actif circulant")
    case DettesFournisseurs => Placement(Passif, "Dettes fournisseurs")
    case EncaissementClient => Placement(Actif, "Mouvements")
    case PaiementFournisseurs => Placement(Passif, "Mouvements")
    case RemboursementEmprunt => Placement(Passif, "Mouvements")
  }

  /** The three settlement movements are the only categories of the "Mouvements" section. */
  lemma MovementsSection(c: Category)
    ensures PlacementOf(c).section == "Mouvements" <==> c in {EncaissementClient, PaiementFournisseurs, RemboursementEmprunt}
  {
  }

  /** `ComptaEntry`: an id, a free-text label (`text`, since `label` is a Dafny keyword), a
      signed integer amount in the source's own unit, a creation timestamp and a category. */
  datatype Entry = Entry(id: nat, text: string, amount: int, createdAt: int, category: Category)

  /** `RegisterComptaPayload` */
  datatype Payload = Payload(text: string, amount: int, category: Category)

  /** `IncomeStatementItem` and `IncomeStatementSummary` */
  datatype IncomeItem = IncomeItem(text: string, amount: int)
  datatype IncomeStatement = IncomeStatement(charges: seq<IncomeItem>, produits: seq<IncomeItem>, resultatNet: int)

  /** `Math.abs` */
  function Abs(x: int): int { if x < 0 then -x else x }

  function Min(a: int, b: int): int { if a <= b then a else b }

  function Max(a: int, b: int): int { if a >= b then a else b }

  /** The sum of the amounts of the entries of category `c` among the first `n` entries. */
  function AmountOf(es: seq<Entry>, c: Category, n: nat): int
    requires n <= |es|
  {
    if n == 0 then 0
    else AmountOf(es, c, n - 1) + (if es[n - 1].category == c then es[n - 1].amount else 0)
  }

  /** The same total over the whole list. */
  function Total(es: seq<Entry>, c: Category): int {
    AmountOf(es, c, |es|)
  }

  /** Appending an entry does not change a total over the entries already there. */
  lemma {:induction false} AmountOfPrefix(es: seq<Entry>, e: Entry, c: Category, n: nat)
    requires n <= |es|
    ensures AmountOf(es + [e], c, n) == AmountOf(es, c, n)
  {
    if n > 0 {
      AmountOfPrefix(es, e, c, n - 1);
      assert (es + [e])[n - 1] == es[n - 1];
    }
  }

  /** Appending an entry adds its amount to its own category's total and to no other. */
  lemma AmountOfAppend(es: seq<Entry>, e: Entry, c: Category)
    ensures Total(es + [e], c) == Total(es, c) + (if e.category == c then e.amount else 0)
  {
    AmountOfPrefix(es, e, c, |es|);
  }
}
