/** The chart-of-accounts dictionary: twelve keywords, each naming a description and the
    account debited and the account credited, and the lookup that turns a free-text
    description and an amount into a two-line double entry. */
module Accounting {
  import opened Wrappers
  import opened Text

  /** An account of the chart: its number and its name. */
  datatype Account = Account(compte: string, libelle: string)

  /** One dictionary entry: the keyword, the description, and the accounts debited and credited. */
  datatype DictEntry = DictEntry(key: string, description: string, debit: Account, credit: Account)

  /** `dictionnaireComptable`, in the order of its keys. */
  const Dictionnaire: seq<DictEntry> := [
    DictEntry("apport capital", "Apport en capital par le fondateur",
              Account("512", "Banque"), Account("101", "Capital social")),
    DictEntry("frais immatriculation", "Frais d'établissement",
              Account("201", "Frais d’établissement"), Account("512", "Banque")),
    DictEntry("achat machine", "Achat d'une machine financée partiellement par emprunt",
              Account("215", "Immobilisation corporelle"), Account("164", "Emprunt bancaire")),
    DictEntry("achat matières", "Achat de matières premières à crédit",
              Account("601", "Achats matières premières"), Account("401", "Fournisseurs")),
    DictEntry("vente meubles", "Vente de production à crédit",
              Account("411", "Clients"), Account("706", "Ventes de produits finis")),
    DictEntry("consommation matières", "Consommation de matières premières pour production",
              Account("603", "Variation des stocks"), Account("601", "Achats matières premières")),
    DictEntry("paiement fournisseurs", "Paiement des fournisseurs",
              Account("401", "Fournisseurs"), Account("512", "Banque")),
    DictEntry("facture electricite", "Facture d’électricité à régler",
              Account("6061", "Électricité"), Account("401", "Fournisseurs")),
    DictEntry("credit caisse", "Crédit de caisse pour financer une charge",
              Account("512", "Banque"), Account("519", "Crédit de caisse")),
    DictEntry("encaissement client", "Paiement reçu du client",
              Account("512", "Banque"), Account("411", "Clients")),
    DictEntry("remboursement credit caisse", "Remboursement du crédit de caisse",
              Account("519", "Crédit de caisse"), Account("512", "Banque")),
    DictEntry("interets credit", "Paiement des intérêts du crédit",
              Account("661", "Intérêts bancaires"), Account("512", "Banque"))
  ]

  /** A line of an entry: an account, and the amount debited or the amount credited. */
  datatype Line = Line(compte: string, libelle: string, debit: Option<int>, credit: Option<int>)

  /** `EcritureComptable`; the date is the timestamp given to the lookup. */
  datatype Ecriture = Ecriture(libelle: string, date: int, lignes: seq<Line>)

  /** The position of the first dictionary key from `i` on occurring in `l`, or the number of
      keys. */
  function FirstKey(l: string, i: nat): (j: nat)
    requires i <= |Dictionnaire|
    ensures i <= j <= |Dictionnaire|
    ensures j < |Dictionnaire| ==> Contains(l, Dictionnaire[j].key)
    ensures forall k :: i <= k < j ==> !Contains(l, Dictionnaire[k].key)
    decreases |Dictionnaire| - i
  {
    if i == |Dictionnaire| then i
    else if Contains(l, Dictionnaire[i].key) then i
    else FirstKey(l, i + 1)
  }

  /** `trouverEcriture(input, montant)`; `now` stands for the clock read for the date. */
  function TrouverEcriture(input: string, montant: int, now: int): Option<Ecriture> {
    var j := FirstKey(Lower(input), 0);
    if j == |Dictionnaire| then None
    else
      var base := Dictionnaire[j];
      Some(Ecriture(base.description, now,
                    [Line(base.debit.compte, base.debit.libelle, Some(montant), None),
                     Line(base.credit.compte, base.credit.libelle, None, Some(montant))]))
  }

  /** The total debited by the lines. */
  function TotalDebit(lignes: seq<Line>): int {
    if lignes == [] then 0 else lignes[0].debit.GetOr(0) + TotalDebit(lignes[1..])
  }

  /** The total credited by the lines. */
  function TotalCredit(lignes: seq<Line>): int {
    if lignes == [] then 0 else lignes[0].credit.GetOr(0) + TotalCredit(lignes[1..])
  }

  /** The lookup finds nothing exactly when no key occurs in the lower-cased input; otherwise
      it takes the first key that occurs and builds a balanced two-line entry from it: the
      key's description, the amount debited on its debit account, the same amount credited
      on its credit account. */
  lemma LookupIsFirstKey(input: string, montant: int, now: int)
    ensures TrouverEcriture(input, montant, now).None?
        <==> forall k :: 0 <= k < |Dictionnaire| ==> !Contains(Lower(input), Dictionnaire[k].key)
    ensures TrouverEcriture(input, montant, now).Some? ==>
      var e := TrouverEcriture(input, montant, now).value;
      exists j :: 0 <= j < |Dictionnaire|
        && Contains(Lower(input), Dictionnaire[j].key)
        && (forall k :: 0 <= k < j ==> !Contains(Lower(input), Dictionnaire[k].key))
        && e.libelle == Dictionnaire[j].description
        && |e.lignes| == 2
        && e.lignes[0] == Line(Dictionnaire[j].debit.compte, Dictionnaire[j].debit.libelle, Some(montant), None)
        && e.lignes[1] == Line(Dictionnaire[j].credit.compte, Dictionnaire[j].credit.libelle, None, Some(montant))
  {
    var j := FirstKey(Lower(input), 0);
    if j < |Dictionnaire| {
      assert Contains(Lower(input), Dictionnaire[j].key);
    }
  }

  /** Every entry the lookup builds balances: its lines debit and credit the amount. */
  lemma EntryBalances(input: string, montant: int, now: int)
    requires TrouverEcriture(input, montant, now).Some?
    ensures var lignes := TrouverEcriture(input, montant, now).value.lignes;
      TotalDebit(lignes) == TotalCredit(lignes) == montant
  {
    var lignes := TrouverEcriture(input, montant, now).value.lignes;
    assert lignes[1..][1..] == [];
    assert TotalDebit(lignes[1..]) == 0 && TotalCredit(lignes[1..]) == montant;
  }

  /** Apart from its date, the entry depends only on the input and the amount. */
  lemma LookupIgnoresClock(input: string, montant: int, now: int, later: int)
    ensures TrouverEcriture(input, montant, now).None? == TrouverEcriture(input, montant, later).None?
    ensures TrouverEcriture(input, montant, now).Some? ==>
      TrouverEcriture(input, montant, later).value == TrouverEcriture(input, montant, now).value.(date := later)
  {
  }

  /** The repayment key contains the cash credit key. */
  lemma CreditCaisseInRepayment()
    ensures Contains("remboursement credit caisse", "credit caisse")
  {
    var k := "remboursement credit caisse";
    assert k[14..27] == "credit caisse";
    ContainsAt(k, "credit caisse", 14);
  }

  /** Any text holding the repayment key holds the cash credit key. */
  lemma RepaymentTextHoldsCreditKey(l: string)
    requires Contains(l, Dictionnaire[10].key)
    ensures Contains(l, Dictionnaire[8].key)
  {
    assert Dictionnaire[10].key == "remboursement credit caisse" && Dictionnaire[8].key == "credit caisse";
    CreditCaisseInRepayment();
    ContainsTransitive(l, "remboursement credit caisse", "credit caisse");
  }

  /** The key "remboursement credit caisse" is shadowed by the earlier key "credit caisse",
      which it contains: no input resolves to the repayment of the cash credit. */
  lemma RepaymentKeyIsShadowed(input: string, montant: int, now: int)
    ensures TrouverEcriture(input, montant, now).Some? ==>
      TrouverEcriture(input, montant, now).value.libelle != Dictionnaire[10].description
  {
    var l := Lower(input);
    var j := FirstKey(l, 0);
    if j == 10 {
      RepaymentTextHoldsCreditKey(l);
      assert false;
    }
  }
}
