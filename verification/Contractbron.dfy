/** Contract's own table against its outbox, and so against Onderhoud's index of current contracts. */
module Contractbron {
  import opened Gedeeld
  import opened Contractwaarden
  import opened Aanbesteding
  import opened Onderhoudscontract
  import opened Gunning
  import opened Gunningsruns
  import Outbox
  import Relay = ContractRelay
  import Keten = ContractKeten
  import Index = ContractIndex

  /** The events that the index's queue is bound to, as the index reads them. */
  function Gelezen(g: Gebeurtenis): (r: seq<Index.Data>) {
    match g
    case VanContract(ContractGegund(id, k, o, looptijd)) => [Index.Gegund(id, k, o, Some(looptijd.start),
      Some(looptijd.eind))]
    case VanContract(ContractAfgerond(id, _, _)) => [Index.Afgerond(id)]
    case _ => []
  }

  function Indexdata(log: seq<Gebeurtenis>): (r: seq<Index.Data>) {
    if log == [] then [] else Indexdata(log[..|log| - 1]) + Gelezen(log[|log| - 1])
  }

  function Enveloppen(ids: seq<string>, data: seq<Index.Data>): (r: seq<Index.Envelop>)
    requires |ids| == |data|
  {
    seq(|ids|, i requires 0 <= i < |ids| => Index.Envelop(ids[i], data[i]))
  }

  lemma IndexdataPlus(log: seq<Gebeurtenis>, g: Gebeurtenis)
    ensures Indexdata(log + [g]) == Indexdata(log) + Gelezen(g)
  {
    assert (log + [g])[..|log|] == log;
  }

  lemma IndexdataPlusTwee(log: seq<Gebeurtenis>, g: Gebeurtenis, h: Gebeurtenis)
    ensures Indexdata(log + [g, h]) == Indexdata(log) + Gelezen(g) + Gelezen(h)
  {
    assert log + [g, h] == log + [g] + [h];
    IndexdataPlus(log + [g], h);
    IndexdataPlus(log, g);
  }

  // ---------- table and events agree ----------

  datatype Basis = Basis(kunstwerkId: string, opdrachtnemer: string, start: int, eind: int, status: ContractStatus)

  function RijBasis(rij: ContractRij): (r: Basis) {
    Basis(rij.kunstwerkId, rij.opdrachtnemer, rij.looptijdStart, rij.looptijdEind, rij.status)
  }

  function BasisVan(contracten: map<string, ContractRij>): (r: map<string, Basis>) {
    map k | k in contracten :: RijBasis(contracten[k])
  }

  ghost predicate EventsInTabel(data: seq<Index.Data>, b: map<string, Basis>) {
    forall i :: 0 <= i < |data| ==> EventInTabel(data[i], b)
  }

  predicate EventInTabel(d: Index.Data, b: map<string, Basis>) {
    match d
    case Gegund(c, k, o, start, eind) =>
      c in b && b[c].kunstwerkId == k && b[c].opdrachtnemer == o && Some(b[c].start) == start && Some(b[c].eind) == eind
    case Afgerond(c) => c in b && b[c].status == ContractStatus.Afgerond
    case Anders(_) => false
  }

  ghost predicate TabelInEvents(data: seq<Index.Data>, b: map<string, Basis>) {
    && (forall c :: c in b ==> exists i :: 0 <= i < |data| && data[i].Gegund? && data[i].contractId == c)
    && (forall c :: c in b && b[c].status == ContractStatus.Afgerond ==> Index.Afgerond(c) in data)
  }

  ghost predicate EersteKeer(data: seq<Index.Data>) {
    forall i, j :: 0 <= i < j < |data| && data[j].Gegund? ==> data[i].contractId != data[j].contractId
  }

  ghost predicate Overeen(data: seq<Index.Data>, b: map<string, Basis>) {
    EventsInTabel(data, b) && TabelInEvents(data, b) && EersteKeer(data)
  }

  function GegundeBasis(d: Index.Data): (r: Basis)
    requires d.Gegund? && d.looptijdStart.Some? && d.looptijdEind.Some?
  {
    Basis(d.kunstwerkId, d.opdrachtnemer, d.looptijdStart.value, d.looptijdEind.value, Actief)
  }

  lemma GegundErbij(data: seq<Index.Data>, b: map<string, Basis>, d: Index.Data)
    requires Overeen(data, b) && d.Gegund? && d.contractId !in b && d.looptijdStart.Some? && d.looptijdEind.Some?
    ensures Overeen(data + [d], b[d.contractId := GegundeBasis(d)])
  {
    var b' := b[d.contractId := GegundeBasis(d)];
    assert (data + [d])[|data|] == d;
    forall c | c in b' ensures exists i ::
      0 <= i < |data + [d]| && (data + [d])[i].Gegund? && (data + [d])[i].contractId == c {
      if c != d.contractId {
        var i :| 0 <= i < |data| && data[i].Gegund? && data[i].contractId == c;
        assert (data + [d])[i] == data[i];
      }
    }
    assert forall i :: 0 <= i < |data| ==> EventInTabel(data[i], b);
  }

  lemma EventsBlijven(data: seq<Index.Data>, b: map<string, Basis>, c: string)
    requires EventsInTabel(data, b) && c in b
    ensures EventsInTabel(data + [Index.Afgerond(c)], b[c := b[c].(status := ContractStatus.Afgerond)])
  {
    var d := Index.Afgerond(c);
    assert (data + [d])[|data|] == d;
    assert forall i :: 0 <= i < |data| ==> EventInTabel(data[i], b);
  }

  lemma TabelBlijft(data: seq<Index.Data>, b: map<string, Basis>, c: string)
    requires TabelInEvents(data, b) && c in b
    ensures TabelInEvents(data + [Index.Afgerond(c)], b[c := b[c].(status := ContractStatus.Afgerond)])
  {
    var d := Index.Afgerond(c);
    forall x | x in b
      ensures exists i :: 0 <= i < |data + [d]| && (data + [d])[i].Gegund? && (data + [d])[i].contractId == x
    {
      var i :| 0 <= i < |data| && data[i].Gegund? && data[i].contractId == x;
      assert (data + [d])[i] == data[i];
    }
    assert (data + [d])[|data|] == d;
  }

  lemma AfgerondErbij(data: seq<Index.Data>, b: map<string, Basis>, c: string)
    requires Overeen(data, b) && c in b
    ensures Overeen(data + [Index.Afgerond(c)], b[c := b[c].(status := ContractStatus.Afgerond)])
  {
    EventsBlijven(data, b, c);
    TabelBlijft(data, b, c);
  }

  ghost predicate Sluitend(db: Db) {
    Overeen(Indexdata(db.log), BasisVan(db.contracten))
  }

  // ---------- every step keeps them in agreement ----------

  lemma BasisPlus(contracten: map<string, ContractRij>, k: string, rij: ContractRij)
    ensures BasisVan(contracten[k := rij]) ==
      BasisVan(contracten)[k := RijBasis(rij)]
  {
  }

  function GunningVan(rij: ContractRij, c: GunCommand): (r: Index.Data) {
    Index.Gegund(c.contractId, rij.kunstwerkId, rij.opdrachtnemer, Some(c.start), Some(c.eind))
  }

  /** An award that makes a contract writes one grant for it; any other award command writes nothing. */
  lemma GunLog(db: Db, c: GunCommand)
    requires c.contractId !in db.contracten && !Blanco(c.contractId)
    ensures var db' := NaGunning(db, c).0;
      if Geslaagd(db, c) && c.start < c.eind then
        c.contractId in db'.contracten && db'.contracten[c.contractId].status == Actief
        && db'.contracten[c.contractId].looptijdStart == c.start && db'.contracten[c.contractId].looptijdEind == c.eind
        && Indexdata(db'.log) == Indexdata(db.log) + [GunningVan(db'.contracten[c.contractId], c)]
      else db'.log == db.log
  {
    var db' := NaGunning(db, c).0;
    if Geslaagd(db, c) && c.start < c.eind {
      var g, h := db'.log[|db.log|], db'.log[|db.log| + 1];
      IndexdataPlusTwee(db.log, g, h);
      assert Gelezen(g) == [];
    }
  }

  lemma GunSluitend(db: Db, c: GunCommand)
    requires Inv(db) && Mogelijk(db, Gun(c)) && Sluitend(db)
    ensures Sluitend(NaGunning(db, c).0)
  {
    var db' := NaGunning(db, c).0;
    GunRij(db, c);
    GunLog(db, c);
    if Geslaagd(db, c) && c.start < c.eind {
      var rij := db'.contracten[c.contractId];
      BasisPlus(db.contracten, c.contractId, rij);
      GegundErbij(Indexdata(db.log), BasisVan(db.contracten), GunningVan(rij, c));
    }
  }

  /** A contract command leaves contractor and kunstwerk; only rounding off changes the status, and only that is
      read. */
  lemma OpdrachtLog(c: ContractWaarde, o: Opdracht)
    requires Na(c, o).Ok?
    ensures Na(c, o).value.kunstwerkId == c.kunstwerkId && Na(c, o).value.opdrachtnemer == c.opdrachtnemer
    ensures Na(c, o).value.looptijd == c.looptijd
    ensures Na(c, o).value.status == if o.RondAf? then ContractStatus.Afgerond else c.status
    ensures Gelezen(VanContract(EventVan(c, o))) == if o.RondAf? then [Index.Afgerond(c.id)] else []
  {
  }

  /** Row and loaded contract share these columns. */
  lemma GeladenBasis(rij: ContractRij)
    requires VanRij(rij).Ok?
    ensures var c := VanRij(rij).value;
      c.id == rij.id && c.kunstwerkId == rij.kunstwerkId && c.opdrachtnemer == rij.opdrachtnemer
        && c.status == rij.status && c.looptijd == Periode(rij.looptijdStart, rij.looptijdEind)
  {
  }

  lemma VoerUitgevoerd(db: Db, k: string, o: Opdracht)
    requires k in db.contracten && ContractLeest(db, k) && Sluitend(db) && Na(VanRij(db.contracten[k]).value, o).Ok?
    ensures var c := VanRij(db.contracten[k]).value;
      Sluitend(Db(db.tenders, db.contracten[k := NaarRij(Na(c, o).value)], db.log + [VanContract(EventVan(c, o))]))
  {
    var c := VanRij(db.contracten[k]).value;
    GeladenBasis(db.contracten[k]);
    OpdrachtLog(c, o);
    IndexdataPlus(db.log, VanContract(EventVan(c, o)));
    OpgeslagenSluitend(db, k, NaarRij(Na(c, o).value), o.RondAf?, db.log + [VanContract(EventVan(c, o))]);
  }

  lemma VoerSluitend(db: Db, k: string, o: Opdracht)
    requires ContractenGoed(db) && Sluitend(db)
    ensures Sluitend(NaContractopdracht(db, k, o).0)
  {
    if !Blanco(k) && k in db.contracten {
      assert ContractGoed(db, k);
      if Na(VanRij(db.contracten[k]).value, o).Ok? {
        VoerUitgevoerd(db, k, o);
      }
    }
  }

  lemma OpgeslagenSluitend(db: Db, k: string, rij: ContractRij, af: bool, log: seq<Gebeurtenis>)
    requires Sluitend(db) && k in db.contracten
    requires RijBasis(rij) ==
      if af then RijBasis(db.contracten[k]).(status := ContractStatus.Afgerond) else RijBasis(db.contracten[k])
    requires Indexdata(log) == Indexdata(db.log) + if af then [Index.Afgerond(k)] else []
    ensures Sluitend(Db(db.tenders, db.contracten[k := rij], log))
  {
    BasisPlus(db.contracten, k, rij);
    if af {
      AfgerondErbij(Indexdata(db.log), BasisVan(db.contracten), k);
    } else {
      assert Indexdata(log) == Indexdata(db.log);
      assert BasisVan(db.contracten[k := rij]) == BasisVan(db.contracten);
    }
  }

  lemma PublicatieLog(db: Db, id: string, k: string, datum: int, p: real, q: real)
    ensures Indexdata(NaPublicatie(db, id, k, datum, p, q).0.log) == Indexdata(db.log)
    ensures NaPublicatie(db, id, k, datum, p, q).0.contracten == db.contracten
  {
    IndexdataPlus(db.log, VanTender(id, AanbestedingGepubliceerd(id, k, datum, Criteria(p, q))));
  }

  lemma BodLog(db: Db, id: string, b: Bod)
    ensures Indexdata(NaBod(db, id, b).0.log) == Indexdata(db.log) && NaBod(db, id, b).0.contracten == db.contracten
  {
    var i := InschrijvingVan(b);
    if i.Ok? {
      IndexdataPlus(db.log, VanTender(id, InschrijvingOntvangen(b.aannemer, Euro(i.value.prijs), b.kwaliteit)));
    }
  }

  lemma StapSluitend(db: Db, stap: Stap)
    requires Inv(db) && Mogelijk(db, stap) && Sluitend(db)
    ensures Sluitend(NaStap(db, stap))
  {
    match stap {
      case Gun(c) => GunSluitend(db, c);
      case Voer(k, o) => VoerSluitend(db, k, o);
      case HerordenContract(k, rij) => OpgeslagenSluitend(db, k, rij, false, db.log);
      case _ => StilSluitend(db, stap);
    }
  }

  /** Publications, bids and reordered bids touch neither the contract table nor what the index reads. */
  lemma StilSluitend(db: Db, stap: Stap)
    requires Mogelijk(db, stap) && Sluitend(db) && (stap.Publiceer? || stap.Inschrijf? || stap.Herorden?)
    ensures Sluitend(NaStap(db, stap))
  {
    match stap {
      case Publiceer(id, k, datum, p, q) => PublicatieLog(db, id, k, datum, p, q);
      case Inschrijf(id, b) => BodLog(db, id, b);
      case Herorden(_, _) =>
    }
  }

  lemma {:induction false} RunSluitend(dbs: seq<Db>, stappen: seq<Stap>, n: nat)
    requires IsRun(dbs, stappen) && n <= |stappen|
    ensures Sluitend(dbs[n])
  {
    if n > 0 {
      RunSluitend(dbs, stappen, n - 1);
      RunInv(dbs, stappen, n - 1);
      RunStap(dbs, stappen, n - 1);
      StapSluitend(dbs[n - 1], stappen[n - 1]);
    }
  }

  // ---------- what the log says is what the table says ----------

  /** `r` names an active contract of `k` in Contract's own table, or says that there is none. */
  ghost predicate TabelAntwoord(contracten: map<string, ContractRij>, k: string, r: Option<(string, string)>) {
    match r
    case None => forall c :: c in contracten && contracten[c].status == Actief ==> contracten[c].kunstwerkId != k
    case Some((c, opdrachtnemer)) =>
      c in contracten && contracten[c].status == Actief && contracten[c].kunstwerkId == k
        && contracten[c].opdrachtnemer == opdrachtnemer
  }

  lemma {:induction false} LaatsteGunningIsEvent(p: seq<Index.Envelop>, k: string, n: nat) returns (i: nat)
    requires n <= |p|
    ensures match Index.LaatsteGunning(p, k, n)
      case Some((c, o)) => i < n && p[i].data.Gegund? && p[i].data.contractId == c && p[i].data.kunstwerkId == k
        && p[i].data.opdrachtnemer == o && !Index.IsAfgerond(p, c)
      case None => forall j :: 0 <= j < n && p[j].data.Gegund? && p[j].data.kunstwerkId == k ==>
        Index.IsAfgerond(p, p[j].data.contractId)
  {
    i := 0;
    if n > 0 {
      var d := p[n - 1].data;
      if d.Gegund? && d.kunstwerkId == k && !Index.IsAfgerond(p, d.contractId) {
        i := n - 1;
      } else {
        i := LaatsteGunningIsEvent(p, k, n - 1);
      }
    }
  }

  lemma AfgerondInLog(ids: seq<string>, data: seq<Index.Data>, c: string)
    requires |ids| == |data|
    ensures Index.IsAfgerond(Enveloppen(ids, data), c) <==> Index.Afgerond(c) in data
  {
    var p := Enveloppen(ids, data);
    if Index.Afgerond(c) in data {
      var i :| 0 <= i < |data| && data[i] == Index.Afgerond(c);
      assert p[i] in p;
    }
  }

  lemma WettigUitData(ids: seq<string>, data: seq<Index.Data>)
    requires |ids| == |data| && Verschillend(ids) && EersteKeer(data)
    requires forall i :: 0 <= i < |data| ==> data[i].contractId != ""
    ensures Index.Wettig(Enveloppen(ids, data))
  {
    var p := Enveloppen(ids, data);
    assert forall i :: 0 <= i < |p| ==> p[i].eventId == ids[i] && p[i].data == data[i];
  }

  lemma DataGenoemd(db: Db)
    requires Inv(db) && Sluitend(db)
    ensures forall i :: 0 <= i < |Indexdata(db.log)| ==> Indexdata(db.log)[i].contractId != ""
  {
    var data := Indexdata(db.log);
    forall i | 0 <= i < |data| ensures data[i].contractId != "" {
      assert EventInTabel(data[i], BasisVan(db.contracten));
      IdNietLeeg(db, data[i].contractId);
    }
  }

  lemma IdNietLeeg(db: Db, k: string)
    requires ContractenGoed(db) && k in db.contracten
    ensures k != ""
  {
    assert ContractGoed(db, k);
  }

  lemma LogIsWettig(dbs: seq<Db>, stappen: seq<Stap>, n: nat, ids: seq<string>)
    requires IsRun(dbs, stappen) && n <= |stappen| && |ids| == |Indexdata(dbs[n].log)| && Verschillend(ids)
    ensures Index.Wettig(Enveloppen(ids, Indexdata(dbs[n].log)))
  {
    RunSluitend(dbs, stappen, n);
    RunInv(dbs, stappen, n);
    DataGenoemd(dbs[n]);
    WettigUitData(ids, Indexdata(dbs[n].log));
  }

  /** The log of every run satisfies what the index assumes of it, and the contract it calls current is an active
      contract of that kunstwerk in Contract's own table; it calls none current exactly when the table has none. */
  lemma BronIsTabel(dbs: seq<Db>, stappen: seq<Stap>, n: nat, ids: seq<string>, k: string)
    requires IsRun(dbs, stappen) && n <= |stappen| && |ids| == |Indexdata(dbs[n].log)| && Verschillend(ids)
    ensures Index.Wettig(Enveloppen(ids, Indexdata(dbs[n].log)))
    ensures TabelAntwoord(dbs[n].contracten, k, Index.GeldendVolgensBron(Enveloppen(ids, Indexdata(dbs[n].log)), k))
  {
    LogIsWettig(dbs, stappen, n, ids);
    RunSluitend(dbs, stappen, n);
    AntwoordUitLog(Indexdata(dbs[n].log), dbs[n].contracten, ids, k);
  }

  lemma AntwoordUitLog(data: seq<Index.Data>, contracten: map<string, ContractRij>, ids: seq<string>, k: string)
    requires |ids| == |data| && Overeen(data, BasisVan(contracten))
    ensures TabelAntwoord(contracten, k, Index.GeldendVolgensBron(Enveloppen(ids, data), k))
  {
    var p, b := Enveloppen(ids, data), BasisVan(contracten);
    var r := Index.GeldendVolgensBron(p, k);
    var i := LaatsteGunningIsEvent(p, k, |p|);
    if r.Some? {
      AfgerondInLog(ids, data, r.value.0);
      assert EventInTabel(data[i], b);
    } else {
      forall c | c in contracten && contracten[c].status == Actief ensures contracten[c].kunstwerkId != k {
        assert c in b;
        var j :| 0 <= j < |data| && data[j].Gegund? && data[j].contractId == c;
        assert EventInTabel(data[j], b);
        ActiefNietAfgerond(data, b, c);
        AfgerondInLog(ids, data, c);
        assert p[j].data == data[j];
      }
    }
  }

  lemma ActiefNietAfgerond(data: seq<Index.Data>, b: map<string, Basis>, c: string)
    requires EventsInTabel(data, b) && c in b && b[c].status == Actief
    ensures Index.Afgerond(c) !in data
  {
    forall i | 0 <= i < |data| ensures data[i] != Index.Afgerond(c) {
      assert EventInTabel(data[i], b);
    }
  }

  // ---------- from the log to the queue ----------

  /** The routing key of an event is its type. */
  function Routing(g: Gebeurtenis): (r: string) {
    match g
    case VanTender(_, AanbestedingGepubliceerd(_, _, _, _)) => "contract.aanbesteding.gepubliceerd"
    case VanTender(_, InschrijvingOntvangen(_, _, _)) => "contract.inschrijving.ontvangen"
    case VanTender(_, AanbestedingGegund(_, _)) => "contract.aanbesteding.gegund"
    case VanContract(ContractGegund(_, _, _, _)) => "contract.onderhoudscontract.gegund"
    case VanContract(WijzigingGoedgekeurd(_, _, _, _)) => "contract.wijziging.goedgekeurd"
    case VanContract(PrestatieOpgesteld(_, _, _, _)) => "contract.prestatieverklaring.opgesteld"
    case VanContract(ContractAfgerond(_, _, _)) => "contract.onderhoudscontract.afgerond"
  }

  /** The data of an envelope as the index's consumer reads it. */
  function DataVan(g: Gebeurtenis): (d: Index.Data) {
    if Gelezen(g) != [] then Gelezen(g)[0] else Index.Anders(if g.VanContract? then g.c.contractId else "")
  }

  /** The outbox row of an event: row id and envelope id are the same. */
  function RegelVan(id: string, g: Gebeurtenis): (r: Keten.Bericht) {
    Outbox.Regel(id, Routing(g), Index.Envelop(id, DataVan(g)))
  }

  function RegelsVan(ids: seq<string>, log: seq<Gebeurtenis>): (r: seq<Keten.Bericht>)
    requires |ids| == |log|
  {
    seq(|log|, i requires 0 <= i < |log| => RegelVan(ids[i], log[i]))
  }

  /** The ids of the events that the index reads. */
  function GelezenIds(ids: seq<string>, log: seq<Gebeurtenis>): (r: seq<string>)
    requires |ids| == |log|
    ensures |r| == |Indexdata(log)| && forall x :: x in r ==> x in ids
  {
    if log == [] then []
    else
      var n := |log| - 1;
      var voor := GelezenIds(ids[..n], log[..n]);
      if Gelezen(log[n]) != [] then voor + [ids[n]] else voor
  }

  lemma {:induction false} GelezenIdsVerschillend(ids: seq<string>, log: seq<Gebeurtenis>)
    requires |ids| == |log| && Verschillend(ids)
    ensures Verschillend(GelezenIds(ids, log))
    decreases |log|
  {
    if log != [] {
      var n := |log| - 1;
      GelezenIdsVerschillend(ids[..n], log[..n]);
      assert ids[n] !in ids[..n];
    }
  }

  lemma SleutelGebonden(id: string, g: Gebeurtenis, staart: string)
    requires Routing(g) == Keten.BINDING + staart && staart != "" && '.' !in staart
    ensures Keten.Gebonden(RegelVan(id, g))
  {
    assert Routing(g)[..|Keten.BINDING|] == Keten.BINDING && Routing(g)[|Keten.BINDING|..] == staart;
  }

  lemma SleutelOngebonden(id: string, g: Gebeurtenis, i: nat)
    requires i < |Keten.BINDING| && i < |Routing(g)| && Routing(g)[i] != Keten.BINDING[i]
    ensures !Keten.Gebonden(RegelVan(id, g))
  {
    if |Routing(g)| > |Keten.BINDING| {
      assert Routing(g)[..|Keten.BINDING|][i] == Routing(g)[i];
    }
  }

  /** The queue is bound to exactly the grants and the roundings-off. */
  lemma BindingKiest(id: string, g: Gebeurtenis)
    ensures Keten.Gebonden(RegelVan(id, g)) <==> Gelezen(g) != []
  {
    match g
    case VanContract(ContractGegund(_, _, _, _)) =>
      assert Routing(g) == Keten.BINDING + "gegund";
      SleutelGebonden(id, g, "gegund");
    case VanContract(ContractAfgerond(_, _, _)) =>
      assert Routing(g) == Keten.BINDING + "afgerond";
      SleutelGebonden(id, g, "afgerond");
    case _ => SleutelOngebonden(id, g, 9);
  }

  function Gekozen(id: string, g: Gebeurtenis): (r: seq<Index.Envelop>) {
    if Gelezen(g) != [] then [Index.Envelop(id, Gelezen(g)[0])] else []
  }

  lemma RegelsPlus(ids: seq<string>, log: seq<Gebeurtenis>)
    requires |ids| == |log| && log != []
    ensures var n := |log| - 1; RegelsVan(ids, log) == RegelsVan(ids[..n], log[..n]) + [RegelVan(ids[n], log[n])]
  {
  }

  lemma BronPlus(regels: seq<Keten.Bericht>, id: string, g: Gebeurtenis)
    ensures Keten.Inhoud(Filter(Keten.Gebonden, regels + [RegelVan(id, g)])) ==
      Keten.Inhoud(Filter(Keten.Gebonden, regels)) + Gekozen(id, g)
  {
    FilterPlus(Keten.Gebonden, regels, RegelVan(id, g));
    BindingKiest(id, g);
    InhoudPlus(Filter(Keten.Gebonden, regels), RegelVan(id, g));
  }

  lemma InhoudPlus(regels: seq<Keten.Bericht>, m: Keten.Bericht)
    ensures Keten.Inhoud(regels + [m]) == Keten.Inhoud(regels) + [m.payload]
  {
  }

  lemma EnveloppenPlus(ids: seq<string>, data: seq<Index.Data>, id: string, g: Gebeurtenis)
    requires |ids| == |data|
    ensures Enveloppen(ids + (if Gelezen(g) != [] then [id] else []), data + Gelezen(g)) ==
      Enveloppen(ids, data) + Gekozen(id, g)
  {
  }

  /** What reaches the queue of a written log: the events that the index reads, under their own ids. */
  lemma {:induction false} BronVanLog(ids: seq<string>, log: seq<Gebeurtenis>)
    requires |ids| == |log|
    ensures Keten.Inhoud(Filter(Keten.Gebonden, RegelsVan(ids, log))) ==
      Enveloppen(GelezenIds(ids, log), Indexdata(log))
    decreases |log|
  {
    if log != [] {
      var n := |log| - 1;
      BronVanLog(ids[..n], log[..n]);
      RegelsPlus(ids, log);
      BronPlus(RegelsVan(ids[..n], log[..n]), ids[n], log[n]);
      EnveloppenPlus(GelezenIds(ids[..n], log[..n]), Indexdata(log[..n]), ids[n], log[n]);
    }
  }

  /** The outbox holds the log, one row per event, and no two bound rows share a timestamp: a contract's grant and its
      rounding off come from different publish calls. */
  ghost predicate Uitgeschreven(outbox: seq<Outbox.Rij<Index.Envelop>>, ids: seq<string>, log: seq<Gebeurtenis>) {
    && |ids| == |log| && Outbox.Regels(outbox) == RegelsVan(ids, log)
    && (forall i, j ::
         0 <= i < j < |outbox| && Keten.Gebonden(outbox[i].regel) && Keten.Gebonden(outbox[j].regel) ==>
           outbox[i].aangemaaktOp != outbox[j].aangemaaktOp)
  }

  lemma UitgeschrevenIds(t: Outbox.Toestand<Index.Envelop>, ids: seq<string>, log: seq<Gebeurtenis>)
    requires Outbox.Veilig(t) && Uitgeschreven(t.outbox, ids, log)
    ensures Verschillend(ids) && Keten.Envelopregels(t.outbox)
  {
    var regels := Outbox.Regels(t.outbox);
    assert forall i :: 0 <= i < |regels| ==> regels[i] == RegelVan(ids[i], log[i]) && regels[i] == t.outbox[i].regel;
  }

  /** From Contract's use cases to Onderhoud's index: once every row of the written log has been published and marked,
      and the consumer has worked off what its queue is bound to, the index's current contract for `k` is an active
      contract of `k` in Contract's own table, or none when Contract has none. */
  lemma IndexVolgtTabel(dbs: seq<Db>, stappen: seq<Stap>, m: nat, ids: seq<string>,
                        ts: seq<Outbox.Toestand<Index.Envelop>>, rstappen: seq<Relay.Stap<Index.Envelop>>, n: nat,
                        ss: seq<Index.Systeem>, istappen: seq<Index.Stap>, k: string, r: Option<(string, string)>)
    requires IsRun(dbs, stappen) && m <= |stappen|
    requires Relay.IsRun(ts, rstappen) && n <= |rstappen| && Relay.NietsGeweigerd(rstappen)
    requires Uitgeschreven(ts[n].outbox, ids, dbs[m].log)
    requires forall i :: 0 <= i < |ts[n].outbox| ==> ts[n].outbox[i].gepubliceerd
    requires Index.IsRun(ss, istappen, Keten.Inhoud(Keten.Bron(ts[n].outbox)))
    requires var s := ss[|istappen|];
      s.rij == [] && s.gedaan == Keten.Inhoud(Filter(Keten.Gebonden, ts[n].draad))
        && Index.IsAntwoord(s.index.rijen, k, r)
    ensures TabelAntwoord(dbs[m].contracten, k, r)
  {
    Relay.RelayVeilig(ts, rstappen, n);
    UitgeschrevenIds(ts[n], ids, dbs[m].log);
    GelezenIdsVerschillend(ids, dbs[m].log);
    BronVanLog(ids, dbs[m].log);
    BronIsTabel(dbs, stappen, m, GelezenIds(ids, dbs[m].log), k);
    Keten.KetenKlopt(ts, rstappen, n, ss, istappen, k, r);
  }
}
