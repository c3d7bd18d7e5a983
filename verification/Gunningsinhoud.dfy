/** What Contract's commands leave in its tables and its outbox, read back. */
module Gunningsinhoud {
  import opened Gedeeld
  import opened Contractwaarden
  import opened Aanbesteding
  import opened Onderhoudscontract
  import opened Gunning
  import opened Gunningsruns
  import Grootboek = Contractgrootboek
  import Emviwetten

  /** A publication is accepted exactly with two weights that are not negative and add up to 100; then there is an open
      tender without bids, and the event says what it holds. */
  lemma PublicatieGelezen(db: Db, id: string, k: string, datum: int, p: real, q: real)
    requires !Blanco(id) && !Blanco(k)
    ensures var (db', r) := NaPublicatie(db, id, k, datum, p, q);
      && (r.Ok? <==> p >= 0.0 && q >= 0.0 && p + q == 100.0)
      && (r.Err? ==> db' == db)
      && (r.Ok? ==> id in db'.tenders && db'.tenders[id].inschrijvingen == [] && db'.tenders[id].status == Gepubliceerd)
      && (r.Ok? ==> db'.tenders[id].criteria == Criteria(p, q) && db'.tenders[id].sluitingsdatum == datum)
      && (r.Ok? ==> db'.tenders[id].kunstwerkId == k)
      && (r.Ok? ==> db'.log == db.log + [VanTender(id, Aankondiging(db'.tenders[id]))])
  {
  }

  function Aankondiging(t: TenderWaarde): (e: TenderEvent) {
    AanbestedingGepubliceerd(t.id, t.kunstwerkId, t.sluitingsdatum, t.criteria)
  }

  /** The bid that is stored for `b`: its price is the nearest number of cents. */
  predicate IsBod(i: Inschrijving, b: Bod) {
    && i.id == b.id && i.aannemer == b.aannemer && i.kwaliteit == b.kwaliteit && i.prijs.valuta == "EUR"
    && 100.0 * b.prijs - 0.5 < i.prijs.centen as real <= 100.0 * b.prijs + 0.5
  }

  /** A bid is accepted exactly on an open tender, from a named contractor, at a price that does not round below zero;
      then it is the last bid, and the event carries its stored price. */
  lemma BodGelezen(db: Db, id: string, b: Bod)
    requires !Blanco(id) && id in db.tenders
    ensures var (db', fout), t := NaBod(db, id, b), db.tenders[id];
      && (fout == None <==> t.status == Gepubliceerd && !Blanco(b.aannemer) && 100.0 * b.prijs >= -0.5)
      && (fout.Some? ==> db' == db)
      && (fout == None ==> BodErbij(db, db', id, b))
  {
    VanEuroDichtstbij(b.prijs);
  }

  predicate BodErbij(db: Db, db': Db, id: string, b: Bod)
    requires id in db.tenders
  {
    && id in db'.tenders && |db'.tenders[id].inschrijvingen| == |db.tenders[id].inschrijvingen| + 1
    && var i := db'.tenders[id].inschrijvingen[|db.tenders[id].inschrijvingen|];
       && db'.tenders == db.tenders[id := db.tenders[id].(inschrijvingen := db.tenders[id].inschrijvingen + [i])]
       && IsBod(i, b)
       && |db'.log| == |db.log| + 1 && db'.log[..|db.log|] == db.log
       && var e := db'.log[|db.log|];
          e.VanTender? && e.id == id && e.t.InschrijvingOntvangen? && e.t.aannemer == i.aannemer
            && e.t.kwaliteitsscore == i.kwaliteit && 100.0 * e.t.prijsEuro == i.prijs.centen as real
  }

  /** The contract of a successful award is read back active and without changes, for the command's period and the
      tender's kunstwerk; both events say what is stored. */
  lemma GunningGelezen(db: Db, c: GunCommand)
    requires TendersGoed(db) && Geslaagd(db, c) && c.start < c.eind && !Blanco(c.contractId)
    ensures var db', u := NaGunning(db, c).0, NaGun(db.tenders[c.id], c.elders).1;
      && u.Ok? && c.contractId in db'.contracten && VanRij(db'.contracten[c.contractId]).Ok?
      && VanRij(db'.contracten[c.contractId]).value == ContractWaarde(c.contractId, db.tenders[c.id].kunstwerkId,
        u.value.winnaar, Periode(c.start, c.eind), u.value.prijs, Some(c.id), Actief, [], [])
      && db'.log == db.log + Gunningsevents(c.id, u.value.emvi, VanRij(db'.contracten[c.contractId]).value)
  {
    NieuwContractVoertUit(db, c);
    var t := db.tenders[c.id];
    assert TenderGoed(c.id, t);
    var (t', u) := NaGun(t, c.elders);
    assert t.inschrijvingen[HoofdVan(t.criteria, t.inschrijvingen, c.elders)] in t.inschrijvingen;
    NieuwGelezen(NieuwContract(t', u.value, c));
  }

  /** A contract in EUR without changes is read back as it was. */
  lemma NieuwGelezen(c: ContractWaarde)
    requires Welgevormd(c) && c.wijzigingen == [] && c.prestaties == [] && c.waarde.valuta == "EUR"
    ensures VanRij(NaarRij(c)) == Ok(c)
  {
    ContractRondreis(c);
  }

  function Gunningsevents(tender: string, emvi: Option<real>, c: ContractWaarde): (r: seq<Gebeurtenis>) {
    [VanTender(tender, AanbestedingGegund(c.opdrachtnemer, emvi)),
      VanContract(ContractGegund(c.id, c.kunstwerkId, c.opdrachtnemer, c.looptijd))]
  }

  /** A contract command that is accepted is read back as it was carried out, with every amount in EUR, and publishes
      one event; any other leaves everything as it was. */
  lemma OpdrachtGelezen(db: Db, k: string, o: Opdracht)
    requires Inv(db) && OpdrachtMogelijk(o) && !Blanco(k) && k in db.contracten
    ensures VanRij(db.contracten[k]).Ok?
    ensures var (db', fout), c := NaContractopdracht(db, k, o), VanRij(db.contracten[k]).value;
      && (fout == None <==> Na(c, o).Ok?) && (fout.Some? ==> db' == db)
      && (fout == None ==> k in db'.contracten && VanRij(db'.contracten[k]) == Ok(ZonderValuta(Na(c, o).value)))
      && (fout == None ==> db'.log == db.log + [VanContract(EventVan(c, o))])
  {
    assert ContractGoed(db, k);
    var c := VanRij(db.contracten[k]).value;
    Grootboek.GeladenIsWelgevormd(db.contracten[k]);
    if Na(c, o).Ok? {
      OpdrachtBehoudt(c, o);
      ContractRondreis(Na(c, o).value);
    }
  }

  // ---------- from the award to the contract ----------

  /** In every run the contract of a tender awarded with positive prices carries the contractor of a bid whose score no
      other bid's can exceed: a score is what solves the bid's equation against a cheapest price. */
  lemma ContractVanHoogsteScore(dbs: seq<Db>, stappen: seq<Stap>, n: nat, k: string) returns (w: nat, l: nat, x: real)
    requires IsRun(dbs, stappen) && n <= |stappen| && k in dbs[n].contracten
    requires VanRij(dbs[n].contracten[k]).Ok? && VanRij(dbs[n].contracten[k]).value.aanbestedingId.Some?
    requires var t := VanRij(dbs[n].contracten[k]).value.aanbestedingId.value;
      t in dbs[n].tenders && Geprijsd(dbs[n].tenders[t].inschrijvingen)
    ensures var c := VanRij(dbs[n].contracten[k]).value;
      var t := dbs[n].tenders[c.aanbestedingId.value];
      var s := t.inschrijvingen;
      && w < |s| && Emviwetten.IsGoedkoopste(s, l) && c.opdrachtnemer == s[w].aannemer
      && c.waarde.centen - Som(c.wijzigingen) == s[w].prijs.centen
      && Emviwetten.HeeftScore(t.criteria, s[l].prijs.centen, s[w], x)
      && forall j: nat, y: real :: j < |s| && Emviwetten.HeeftScore(t.criteria, s[l].prijs.centen, s[j], y) ==> y <= x
  {
    HoogstensEenContract(dbs, stappen, n, k);
    var c := VanRij(dbs[n].contracten[k]).value;
    var t := dbs[n].tenders[c.aanbestedingId.value];
    var b :| BesteBod(t.criteria, t.inschrijvingen, b) && VoorBod(c, b);
    w, l, x := HoogsteScore(t.criteria, t.inschrijvingen, b);
  }

  lemma HoogsteScore(c: Criteria, s: seq<Inschrijving>, b: Inschrijving) returns (w: nat, l: nat, x: real)
    requires Geprijsd(s) && BesteBod(c, s, b)
    ensures w < |s| && s[w] == b && Emviwetten.IsGoedkoopste(s, l)
    ensures Emviwetten.HeeftScore(c, s[l].prijs.centen, s[w], x)
    ensures forall j: nat, y: real :: j < |s| && Emviwetten.HeeftScore(c, s[l].prijs.centen, s[j], y) ==> y <= x
  {
    w :| 0 <= w < |s| && s[w] == b;
    l :| 0 <= l < |s| && s[l].prijs.centen == Laagste(s);
    x := Emvi(c, Laagste(s), b);
    Emviwetten.EmviLostOp(c, Laagste(s), b);
    forall j: nat, y: real | j < |s| && Emviwetten.HeeftScore(c, Laagste(s), s[j], y) ensures y <= x {
      Emviwetten.EmviLostOp(c, Laagste(s), s[j]);
      Emviwetten.EenOplossing(c, Laagste(s), s[j], y, Score(c, s, j));
    }
  }
}
