/** Over every sequential run: one contract per award, carrying the tender's kunstwerk and a best bid. */
module Gunningsruns {
  import opened Gedeeld
  import opened Contractwaarden
  import opened Aanbesteding
  import opened Onderhoudscontract
  import opened Gunning
  import Grootboek = Contractgrootboek
  import Emviwetten

  datatype Stap =
    | Publiceer(id: string, kunstwerkId: string, sluitingsdatum: int, prijsgewicht: real, kwaliteitsgewicht: real)
    | Inschrijf(id: string, b: Bod)
    | Gun(c: GunCommand)
    | Voer(id: string, o: Opdracht)
    | Herorden(id: string, inschrijvingen: seq<Inschrijving>)
    | HerordenContract(id: string, rij: ContractRij)

  /** Generated ids are fresh and not blank. The two reorderings are the database handing back child rows in another
      order. */
  ghost predicate Mogelijk(db: Db, stap: Stap) {
    match stap
    case Publiceer(id, _, _, _, _) => id !in db.tenders && !Blanco(id)
    case Gun(c) => c.contractId !in db.contracten && !Blanco(c.contractId)
    case Voer(_, o) => OpdrachtMogelijk(o)
    case Herorden(id, s) => id in db.tenders && multiset(s) == multiset(db.tenders[id].inschrijvingen)
    case HerordenContract(id, rij) => id in db.contracten && ZelfdeRij(db.contracten[id], rij)
    case Inschrijf(_, _) => true
  }

  ghost predicate OpdrachtMogelijk(o: Opdracht) {
    match o
    case Wijzig(w) => w.mutatie.centen >= 0
    case Verklaar(p) => p.periode.start < p.periode.eind && p.bedrag.centen >= 0
    case RondAf(_) => true
  }

  ghost predicate ZelfdeRij(a: ContractRij, b: ContractRij) {
    && b == a.(wijzigingen := b.wijzigingen, prestaties := b.prestaties)
    && multiset(b.wijzigingen) == multiset(a.wijzigingen) && multiset(b.prestaties) == multiset(a.prestaties)
  }

  function NaStap(db: Db, stap: Stap): (r: Db)
    requires stap.Herorden? ==> stap.id in db.tenders
  {
    match stap
    case Publiceer(id, k, datum, p, q) => NaPublicatie(db, id, k, datum, p, q).0
    case Inschrijf(id, b) => NaBod(db, id, b).0
    case Gun(c) => NaGunning(db, c).0
    case Voer(id, o) => NaContractopdracht(db, id, o).0
    case Herorden(id, s) => db.(tenders := db.tenders[id := db.tenders[id].(inschrijvingen := s)])
    case HerordenContract(id, rij) => db.(contracten := db.contracten[id := rij])
  }

  ghost predicate IsRun(dbs: seq<Db>, stappen: seq<Stap>) {
    && |dbs| == |stappen| + 1
    && dbs[0] == Db(map[], map[], [])
    && forall n :: 0 <= n < |stappen| ==> Mogelijk(dbs[n], stappen[n]) && dbs[n + 1] == NaStap(dbs[n], stappen[n])
  }

  // ---------- the best bid ----------

  /** A bid that no other bid outscores; with a zero price among the bids any bid can win. */
  ghost predicate BesteBod(c: Criteria, s: seq<Inschrijving>, b: Inschrijving) {
    && b in s
    && (Geprijsd(s) ==> b.prijs.centen > 0 && forall i :: 0 <= i < |s| ==> Score(c, s, i) <= Emvi(c, Laagste(s), b))
  }

  lemma BesteBodVolgorde(c: Criteria, s: seq<Inschrijving>, t: seq<Inschrijving>, b: Inschrijving)
    requires multiset(s) == multiset(t) && BesteBod(c, s, b)
    ensures BesteBod(c, t, b)
  {
    Emviwetten.ZelfdeElementen(s, t);
    if Geprijsd(t) {
      forall i | 0 <= i < |s| ensures s[i].prijs.centen > 0 {
        assert s[i] in t;
      }
      Emviwetten.LaagsteIsMinimum(s, t);
      Emviwetten.LaagsteIsMinimum(t, s);
      forall i | 0 <= i < |t| ensures Score(c, t, i) <= Emvi(c, Laagste(t), b) {
        assert t[i] in s;
        var j :| 0 <= j < |s| && s[j] == t[i];
        assert Score(c, s, j) <= Emvi(c, Laagste(s), b);
      }
    }
  }

  lemma HoofdIsBesteBod(c: Criteria, s: seq<Inschrijving>, elders: nat)
    requires s != []
    ensures BesteBod(c, s, s[HoofdVan(c, s, elders)])
  {
  }

  // ---------- what holds of one tender and of one contract ----------

  ghost predicate TenderGoed(id: string, t: TenderWaarde) {
    && t.id == id && !Blanco(id) && !Blanco(t.kunstwerkId) && Geldig(t.criteria)
    && forall i :: i in t.inschrijvingen ==> !Blanco(i.aannemer) && i.prijs.centen >= 0 && i.prijs.valuta == "EUR"
  }

  /** The contract carries the tender's kunstwerk and a best bid: its contractor, and its price up to the changes
      since. */
  ghost predicate VoertUit(t: TenderWaarde, c: ContractWaarde) {
    && t.status == Gegund && c.aanbestedingId == Some(t.id) && c.kunstwerkId == t.kunstwerkId
    && exists b :: BesteBod(t.criteria, t.inschrijvingen, b) && VoorBod(c, b)
  }

  predicate VoorBod(c: ContractWaarde, b: Inschrijving) {
    c.opdrachtnemer == b.aannemer && c.waarde.centen - Som(c.wijzigingen) == b.prijs.centen
  }

  ghost predicate ContractLeest(db: Db, k: string)
    requires k in db.contracten
  {
    var r := VanRij(db.contracten[k]);
    r.Ok? && r.value.id == k && r.value.aanbestedingId == db.contracten[k].aanbestedingId
  }

  ghost predicate ContractGoed(db: Db, k: string)
    requires k in db.contracten
  {
    && ContractLeest(db, k)
    && var c := VanRij(db.contracten[k]).value;
       c.aanbestedingId.Some? && c.aanbestedingId.value in db.tenders && VoertUit(db.tenders[c.aanbestedingId.value], c)
  }

  ghost predicate TendersGoed(db: Db) {
    forall t :: t in db.tenders ==> TenderGoed(t, db.tenders[t])
  }

  ghost predicate ContractenGoed(db: Db) {
    forall k :: k in db.contracten ==> ContractGoed(db, k)
  }

  ghost predicate EenPerTender(db: Db) {
    forall k, l ::
      k in db.contracten && l in db.contracten && db.contracten[k].aanbestedingId == db.contracten[l].aanbestedingId ==>
        k == l
  }

  ghost predicate Inv(db: Db) {
    TendersGoed(db) && ContractenGoed(db) && EenPerTender(db)
  }

  // ---------- what steps do ----------

  /** Tenders stay, and an awarded tender keeps its status and its bids up to their order. */
  ghost predicate TenderBlijft(a: TenderWaarde, b: TenderWaarde) {
    && b.id == a.id && b.kunstwerkId == a.kunstwerkId && b.criteria == a.criteria
    && (a.status == Gegund ==> b.status == Gegund && multiset(b.inschrijvingen) == multiset(a.inschrijvingen))
  }

  ghost predicate TendersBlijven(db: Db, db': Db) {
    forall t :: t in db.tenders ==> t in db'.tenders && TenderBlijft(db.tenders[t], db'.tenders[t])
  }

  lemma VoertUitBlijft(t: TenderWaarde, t': TenderWaarde, c: ContractWaarde)
    requires VoertUit(t, c) && TenderBlijft(t, t')
    ensures VoertUit(t', c)
  {
    var b :| BesteBod(t.criteria, t.inschrijvingen, b) && VoorBod(c, b);
    BesteBodVolgorde(t.criteria, t.inschrijvingen, t'.inschrijvingen, b);
  }

  lemma ContractenBlijvenGoed(db: Db, db': Db)
    requires ContractenGoed(db) && TendersBlijven(db, db') && db'.contracten == db.contracten
    ensures ContractenGoed(db')
  {
    forall k | k in db'.contracten ensures ContractGoed(db', k) {
      assert ContractGoed(db, k);
      var c := VanRij(db.contracten[k]).value;
      VoertUitBlijft(db.tenders[c.aanbestedingId.value], db'.tenders[c.aanbestedingId.value], c);
    }
  }

  lemma GunTenders(db: Db, c: GunCommand)
    requires TendersGoed(db)
    ensures TendersBlijven(db, NaGunning(db, c).0)
  {
  }

  lemma BodTenders(db: Db, id: string, b: Bod)
    requires TendersGoed(db)
    ensures TendersBlijven(db, NaBod(db, id, b).0)
  {
  }

  lemma StapTenders(db: Db, stap: Stap)
    requires TendersGoed(db) && Mogelijk(db, stap)
    ensures TendersBlijven(db, NaStap(db, stap))
  {
    match stap {
      case Gun(c) => GunTenders(db, c);
      case Inschrijf(id, b) => BodTenders(db, id, b);
      case Publiceer(_, _, _, _, _) =>
      case Voer(k, o) => VoerTenders(db, k, o);
      case Herorden(_, _) =>
      case HerordenContract(_, _) =>
    }
  }

  lemma VoerTenders(db: Db, k: string, o: Opdracht)
    ensures NaContractopdracht(db, k, o).0.tenders == db.tenders
  {
  }

  lemma PublicatieGoed(db: Db, stap: Stap)
    requires TendersGoed(db) && Mogelijk(db, stap) && stap.Publiceer?
    ensures TendersGoed(NaStap(db, stap))
  {
  }

  lemma BodGoed(db: Db, stap: Stap)
    requires TendersGoed(db) && Mogelijk(db, stap) && stap.Inschrijf?
    ensures TendersGoed(NaStap(db, stap))
  {
  }

  lemma HerordenGoed(db: Db, stap: Stap)
    requires TendersGoed(db) && Mogelijk(db, stap) && stap.Herorden?
    ensures TendersGoed(NaStap(db, stap))
  {
    Emviwetten.ZelfdeElementen(stap.inschrijvingen, db.tenders[stap.id].inschrijvingen);
    assert TenderGoed(stap.id, db.tenders[stap.id]);
  }

  lemma StapTendersGoed(db: Db, stap: Stap)
    requires TendersGoed(db) && Mogelijk(db, stap)
    ensures TendersGoed(NaStap(db, stap))
  {
    match stap
    case Publiceer(_, _, _, _, _) => PublicatieGoed(db, stap);
    case Inschrijf(_, _) => BodGoed(db, stap);
    case Herorden(_, _) => HerordenGoed(db, stap);
    case Gun(_) =>
    case Voer(_, _) =>
    case HerordenContract(_, _) =>
  }

  /** The award succeeded: the tender was open and there is a contract from now on. */
  ghost predicate Geslaagd(db: Db, c: GunCommand) {
    c.id in db.tenders && !Blanco(c.id) && c.toegestaan && db.tenders[c.id].status == Gepubliceerd
      && db.tenders[c.id].inschrijvingen != []
  }

  lemma NieuwContractVoertUit(db: Db, c: GunCommand)
    requires TendersGoed(db) && Geslaagd(db, c) && c.start < c.eind && !Blanco(c.contractId)
    ensures var db' := NaGunning(db, c).0;
      c.contractId in db'.contracten && ContractGoed(db', c.contractId)
  {
    var t := db.tenders[c.id];
    var (t', u) := NaGun(t, c.elders);
    var w := HoofdVan(t.criteria, t.inschrijvingen, c.elders);
    var b := t.inschrijvingen[w];
    HoofdIsBesteBod(t.criteria, t.inschrijvingen, c.elders);
    assert b in t.inschrijvingen;
    var nieuw := NieuwContract(t', u.value, c);
    assert TenderGoed(c.id, t);
    assert Welgevormd(nieuw);
    ContractRondreis(nieuw);
    assert WijzigingenInEuro(nieuw.wijzigingen) == [];
    assert BesteBod(t'.criteria, t'.inschrijvingen, b);
    assert VoertUit(t', ZonderValuta(nieuw));
  }

  /** What the award writes to the contract table. */
  lemma GunRij(db: Db, c: GunCommand)
    requires TendersGoed(db) && Mogelijk(db, Gun(c))
    ensures var db' := NaGunning(db, c).0;
      if Geslaagd(db, c) && c.start < c.eind
        then c.contractId in db'.contracten
        && db'.contracten == db.contracten[c.contractId := db'.contracten[c.contractId]]
        && db'.contracten[c.contractId].aanbestedingId == Some(c.id)
      else db'.contracten == db.contracten
  {
    if Geslaagd(db, c) {
      assert TenderGoed(c.id, db.tenders[c.id]);
    }
  }

  lemma ErbijGoed(db: Db, db': Db, k: string)
    requires ContractenGoed(db) && EenPerTender(db) && TendersBlijven(db, db')
    requires k !in db.contracten && k in db'.contracten && db'.contracten == db.contracten[k := db'.contracten[k]]
    requires ContractGoed(db', k)
    requires forall l :: l in db.contracten ==> db.contracten[l].aanbestedingId != db'.contracten[k].aanbestedingId
    ensures ContractenGoed(db') && EenPerTender(db')
  {
    ContractenBlijvenGoed(db, db'.(contracten := db.contracten));
    forall l | l in db'.contracten ensures ContractGoed(db', l) {
      if l != k {
        assert ContractGoed(db'.(contracten := db.contracten), l);
      }
    }
  }

  lemma GunGoed(db: Db, c: GunCommand)
    requires Inv(db) && Mogelijk(db, Gun(c))
    ensures ContractenGoed(NaGunning(db, c).0) && EenPerTender(NaGunning(db, c).0)
  {
    StapTenders(db, Gun(c));
    GunRij(db, c);
    if Geslaagd(db, c) && c.start < c.eind {
      NieuwContractVoertUit(db, c);
      NogGeenContract(db, c.id);
      ErbijGoed(db, NaGunning(db, c).0, c.contractId);
    } else {
      ContractenBlijvenGoed(db, NaGunning(db, c).0);
    }
  }

  /** An open tender has no contract. */
  lemma NogGeenContract(db: Db, t: string)
    requires ContractenGoed(db) && t in db.tenders && db.tenders[t].status == Gepubliceerd
    ensures forall k :: k in db.contracten ==> db.contracten[k].aanbestedingId != Some(t)
  {
    forall k | k in db.contracten ensures db.contracten[k].aanbestedingId != Some(t) {
      assert ContractGoed(db, k);
    }
  }

  // ---------- contract commands and reloads keep the link ----------

  /** Same id, kunstwerk, contractor and tender, and the same value before changes. */
  ghost predicate ZelfdeKern(a: ContractWaarde, b: ContractWaarde) {
    && b.id == a.id && b.kunstwerkId == a.kunstwerkId && b.opdrachtnemer == a.opdrachtnemer
      && b.aanbestedingId == a.aanbestedingId
    && b.waarde.centen - Som(b.wijzigingen) == a.waarde.centen - Som(a.wijzigingen)
  }

  lemma OpdrachtBehoudt(c: ContractWaarde, o: Opdracht)
    requires Welgevormd(c) && OpdrachtMogelijk(o) && Na(c, o).Ok?
    ensures Welgevormd(Na(c, o).value) && ZelfdeKern(c, Na(c, o).value)
  {
    if o.Wijzig? {
      assert (c.wijzigingen + [o.w])[..|c.wijzigingen|] == c.wijzigingen;
    }
  }

  lemma OpslaanBehoudt(c: ContractWaarde)
    requires Welgevormd(c)
    ensures VanRij(NaarRij(c)).Ok? && ZelfdeKern(c, VanRij(NaarRij(c)).value)
    ensures VanRij(NaarRij(c)).value.aanbestedingId == NaarRij(c).aanbestedingId
  {
    ContractRondreis(c);
    Grootboek.SomInEuro(c.wijzigingen);
  }

  lemma HerordenenBehoudt(a: ContractRij, b: ContractRij)
    requires VanRij(a).Ok? && ZelfdeRij(a, b)
    ensures VanRij(b).Ok? && ZelfdeKern(VanRij(a).value, VanRij(b).value)
  {
    Grootboek.RijenLezen(a.wijzigingen, b.wijzigingen);
    Grootboek.RijenVolgorde(a.wijzigingen, b.wijzigingen);
    Grootboek.PrestatiesLezen(a.prestaties, b.prestaties);
    SomVolgorde(RijenNaarWijzigingen(a.wijzigingen).value, RijenNaarWijzigingen(b.wijzigingen).value);
  }

  lemma RijVervangen(db: Db, k: string, rij: ContractRij, log: seq<Gebeurtenis>)
    requires Inv(db) && k in db.contracten && VanRij(rij).Ok? && rij.aanbestedingId == db.contracten[k].aanbestedingId
    requires ContractGoed(db, k) && ZelfdeKern(VanRij(db.contracten[k]).value, VanRij(rij).value)
    ensures Inv(Db(db.tenders, db.contracten[k := rij], log))
  {
    var db' := Db(db.tenders, db.contracten[k := rij], log);
    forall l | l in db'.contracten ensures ContractGoed(db', l) {
      assert ContractGoed(db, l);
      if l == k {
        KernVoertUit(db.tenders[rij.aanbestedingId.value], VanRij(db.contracten[k]).value, VanRij(rij).value);
      }
    }
  }

  lemma KernVoertUit(t: TenderWaarde, a: ContractWaarde, b: ContractWaarde)
    requires VoertUit(t, a) && ZelfdeKern(a, b)
    ensures VoertUit(t, b)
  {
  }

  lemma VoerGoed(db: Db, k: string, o: Opdracht)
    requires Inv(db) && OpdrachtMogelijk(o)
    ensures Inv(NaContractopdracht(db, k, o).0)
  {
    if !Blanco(k) && k in db.contracten {
      assert ContractGoed(db, k);
      var c := VanRij(db.contracten[k]).value;
      if Na(c, o).Ok? {
        Grootboek.GeladenIsWelgevormd(db.contracten[k]);
        OpdrachtBehoudt(c, o);
        OpslaanBehoudt(Na(c, o).value);
        RijVervangen(db, k, NaarRij(Na(c, o).value), NaContractopdracht(db, k, o).0.log);
      }
    }
  }

  /** Publication, bids and reordered bids do not touch the contract table. */
  lemma ContractenOngemoeid(db: Db, stap: Stap)
    requires Mogelijk(db, stap) && (stap.Publiceer? || stap.Inschrijf? || stap.Herorden?)
    ensures NaStap(db, stap).contracten == db.contracten
  {
  }

  lemma HerordenContractGoed(db: Db, k: string, rij: ContractRij)
    requires Inv(db) && k in db.contracten && ZelfdeRij(db.contracten[k], rij)
    ensures Inv(db.(contracten := db.contracten[k := rij]))
  {
    assert ContractGoed(db, k);
    HerordenenBehoudt(db.contracten[k], rij);
    RijVervangen(db, k, rij, db.log);
  }

  lemma StapInv(db: Db, stap: Stap)
    requires Inv(db) && Mogelijk(db, stap)
    ensures Inv(NaStap(db, stap))
  {
    match stap {
      case Voer(k, o) => VoerGoed(db, k, o);
      case HerordenContract(k, rij) => HerordenContractGoed(db, k, rij);
      case Gun(c) =>
        StapTendersGoed(db, stap);
        GunGoed(db, c);
      case _ =>
        StapTendersGoed(db, stap);
        StapTenders(db, stap);
        ContractenOngemoeid(db, stap);
        ContractenBlijvenGoed(db, NaStap(db, stap));
    }
  }

  // ---------- over runs ----------

  lemma BeginInv()
    ensures Inv(Db(map[], map[], []))
  {
  }

  lemma {:induction false} RunInv(dbs: seq<Db>, stappen: seq<Stap>, n: nat)
    requires IsRun(dbs, stappen) && n <= |stappen|
    ensures Inv(dbs[n])
  {
    if n == 0 {
      BeginInv();
    } else {
      RunInv(dbs, stappen, n - 1);
      RunStap(dbs, stappen, n - 1);
      StapInv(dbs[n - 1], stappen[n - 1]);
    }
  }

  /** In every run a tender has at most one contract, and a contract carries its tender's kunstwerk, the contractor
      of a best bid, and as its value that bid's price plus its changes. */
  lemma HoogstensEenContract(dbs: seq<Db>, stappen: seq<Stap>, n: nat, k: string)
    requires IsRun(dbs, stappen) && n <= |stappen| && k in dbs[n].contracten
    ensures VanRij(dbs[n].contracten[k]).Ok?
    ensures var c := VanRij(dbs[n].contracten[k]).value;
      c.aanbestedingId.Some? && c.aanbestedingId.value in dbs[n].tenders
        && VoertUit(dbs[n].tenders[c.aanbestedingId.value], c)
    ensures forall l ::
      l in dbs[n].contracten && dbs[n].contracten[l].aanbestedingId == dbs[n].contracten[k].aanbestedingId ==> l == k
  {
    RunInv(dbs, stappen, n);
    assert ContractGoed(dbs[n], k);
  }

  ghost predicate HeeftContract(db: Db, t: string) {
    exists k :: k in db.contracten && db.contracten[k].aanbestedingId == Some(t)
  }

  ghost predicate ZelfdeTenders(a: map<string, ContractRij>, b: map<string, ContractRij>) {
    b.Keys == a.Keys && forall k :: k in a ==> b[k].aanbestedingId == a[k].aanbestedingId
  }

  lemma VoerZelfdeTenders(db: Db, k: string, o: Opdracht)
    requires k in db.contracten ==> ContractLeest(db, k)
    ensures ZelfdeTenders(db.contracten, NaContractopdracht(db, k, o).0.contracten)
  {
  }

  lemma AndersZelfdeTenders(db: Db, stap: Stap)
    requires ContractenGoed(db) && Mogelijk(db, stap) && !stap.Gun?
    ensures ZelfdeTenders(db.contracten, NaStap(db, stap).contracten)
  {
    if stap.Voer? {
      assert stap.id in db.contracten ==> ContractGoed(db, stap.id);
      VoerZelfdeTenders(db, stap.id, stap.o);
    } else if !stap.HerordenContract? {
      ContractenOngemoeid(db, stap);
    }
  }

  lemma HeeftContractNa(db: Db, stap: Stap, t: string)
    requires Inv(db) && Mogelijk(db, stap)
    ensures HeeftContract(NaStap(db, stap), t) <==>
      HeeftContract(db, t) || (stap.Gun? && stap.c.id == t && Geslaagd(db, stap.c) && stap.c.start < stap.c.eind)
  {
    if stap.Gun? {
      GunRij(db, stap.c);
      var db' := NaStap(db, stap);
      assert forall k :: k in db.contracten ==> k in db'.contracten && db'.contracten[k] == db.contracten[k];
    } else {
      AndersZelfdeTenders(db, stap);
    }
  }

  ghost predicate IsGegund(db: Db, t: string) {
    t in db.tenders && db.tenders[t].status == Gegund
  }

  lemma GunGegund(db: Db, c: GunCommand, t: string)
    ensures IsGegund(NaGunning(db, c).0, t) <==> IsGegund(db, t) || (c.id == t && Geslaagd(db, c))
  {
  }

  lemma BodGegund(db: Db, id: string, b: Bod, t: string)
    ensures IsGegund(NaBod(db, id, b).0, t) <==> IsGegund(db, t)
  {
  }

  lemma GegundDoor(db: Db, stap: Stap, t: string)
    requires Mogelijk(db, stap)
    ensures IsGegund(NaStap(db, stap), t) <==> IsGegund(db, t) || (stap.Gun? && stap.c.id == t && Geslaagd(db, stap.c))
  {
    match stap {
      case Gun(c) => GunGegund(db, c, t);
      case Inschrijf(id, b) => BodGegund(db, id, b, t);
      case Voer(k, o) => VoerTenders(db, k, o);
      case Publiceer(_, _, _, _, _) =>
      case Herorden(_, _) =>
      case HerordenContract(_, _) =>
    }
  }

  /** One step towards an awarded tender: it was awarded before and its contract, if any, stays; or this step awarded
      it. */
  lemma GunningsStap(db: Db, stap: Stap, t: string)
    requires Inv(db) && Mogelijk(db, stap) && IsGegund(NaStap(db, stap), t)
    ensures IsGegund(db, t) ==> (HeeftContract(NaStap(db, stap), t) <==> HeeftContract(db, t))
    ensures !IsGegund(db, t) ==>
      stap.Gun? && stap.c.id == t && Geslaagd(db, stap.c)
      && (HeeftContract(NaStap(db, stap), t) <==> stap.c.start < stap.c.eind)
  {
    GegundDoor(db, stap, t);
    HeeftContractNa(db, stap, t);
    if !IsGegund(db, t) {
      NogGeenContract(db, t);
    }
  }

  lemma RunStap(dbs: seq<Db>, stappen: seq<Stap>, n: nat)
    requires IsRun(dbs, stappen) && n < |stappen|
    ensures Mogelijk(dbs[n], stappen[n]) && dbs[n + 1] == NaStap(dbs[n], stappen[n])
  {
  }

  lemma NietMeteen(dbs: seq<Db>, stappen: seq<Stap>, n: nat, t: string)
    requires IsRun(dbs, stappen) && n <= |stappen| && IsGegund(dbs[n], t)
    ensures n > 0
  {
  }

  /** An awarded tender was awarded by exactly the step returned here, and it has a contract exactly when that
      command's end lay after its start: otherwise it stays awarded without one, whatever follows. */
  lemma {:induction false} ContractAlsPeriodeGeldig(dbs: seq<Db>, stappen: seq<Stap>, n: nat, t: string)
      returns (m: nat)
    requires IsRun(dbs, stappen) && n <= |stappen| && IsGegund(dbs[n], t)
    ensures m < n && stappen[m].Gun? && stappen[m].c.id == t && Geslaagd(dbs[m], stappen[m].c)
    ensures HeeftContract(dbs[n], t) <==> stappen[m].c.start < stappen[m].c.eind
    decreases n
  {
    NietMeteen(dbs, stappen, n, t);
    RunInv(dbs, stappen, n - 1);
    RunStap(dbs, stappen, n - 1);
    GunningsStap(dbs[n - 1], stappen[n - 1], t);
    if IsGegund(dbs[n - 1], t) {
      m := ContractAlsPeriodeGeldig(dbs, stappen, n - 1, t);
    } else {
      m := n - 1;
    }
  }

  lemma RunTenders(dbs: seq<Db>, stappen: seq<Stap>, n: nat)
    requires IsRun(dbs, stappen) && n < |stappen|
    ensures TendersBlijven(dbs[n], dbs[n + 1])
  {
    RunInv(dbs, stappen, n);
    RunStap(dbs, stappen, n);
    StapTenders(dbs[n], stappen[n]);
  }

  ghost predicate StapsgewijsBlijvend(dbs: seq<Db>) {
    forall j :: 0 <= j < |dbs| - 1 ==> TendersBlijven(dbs[j], dbs[j + 1])
  }

  lemma {:induction false} BevrorenKeten(dbs: seq<Db>, n: nat, m: nat, t: string)
    requires StapsgewijsBlijvend(dbs) && n <= m < |dbs|
    requires t in dbs[n].tenders && dbs[n].tenders[t].status == Gegund
    ensures t in dbs[m].tenders && TenderBlijft(dbs[n].tenders[t], dbs[m].tenders[t])
    decreases m
  {
    if n < m {
      BevrorenKeten(dbs, n, m - 1, t);
      assert TendersBlijven(dbs[m - 1], dbs[m]);
    }
  }

  /** After the award the bids no longer change, except for their order. */
  lemma InschrijvingenBevroren(dbs: seq<Db>, stappen: seq<Stap>, n: nat, m: nat, t: string)
    requires IsRun(dbs, stappen) && n <= m <= |stappen| && t in dbs[n].tenders && dbs[n].tenders[t].status == Gegund
    ensures t in dbs[m].tenders && TenderBlijft(dbs[n].tenders[t], dbs[m].tenders[t])
  {
    AllesBlijvend(dbs, stappen);
    BevrorenKeten(dbs, n, m, t);
  }

  lemma AllesBlijvend(dbs: seq<Db>, stappen: seq<Stap>)
    requires IsRun(dbs, stappen)
    ensures StapsgewijsBlijvend(dbs)
  {
    forall j | 0 <= j < |dbs| - 1 ensures TendersBlijven(dbs[j], dbs[j + 1]) {
      RunTenders(dbs, stappen, j);
    }
  }
}
