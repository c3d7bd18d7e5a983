/** Storing and traject are saved separately; over every sequential run they stay linked. */
module Onderhoudsruns {
  import opened Gedeeld
  import opened Onderhoud
  import opened Onderhoudsbeheer

  datatype Stap =
    | Meld(m: Melding, toegestaan: bool, storingId: string, onderhoudId: string)
    | Diagnose(c: DiagnoseCommand, onderhoudId: string)
    | VoerUit(id: string, a: Actie)
    | RondAf(id: string, resultaat: string, datum: int)
    | Herorden(id: string, inspecties: seq<Inspectie>, facturen: seq<Factuur>)

  /** New ids are fresh. `Herorden` is the database handing back child rows in another order. */
  ghost predicate Mogelijk(db: Db, stap: Stap) {
    match stap
    case Meld(_, _, s, o) => s !in db.storingen && o !in db.trajecten
    case Diagnose(_, o) => o !in db.trajecten
    case Herorden(id, inspecties, facturen) =>
      id in db.trajecten && multiset(inspecties) == multiset(db.trajecten[id].inspecties)
        && multiset(facturen) == multiset(db.trajecten[id].facturen)
    case _ => true
  }

  function Na(db: Db, stap: Stap): (r: Db)
    requires stap.Herorden? ==> stap.id in db.trajecten
  {
    match stap
    case Meld(m, toegestaan, s, o) => NaMelding(db, m, toegestaan, s, o).0
    case Diagnose(c, o) => NaDiagnose(db, c, o).0
    case VoerUit(id, a) => NaTrajectActie(db, id, a).0
    case RondAf(id, resultaat, datum) => NaAfronding(db, id, resultaat, datum).0
    case Herorden(id, inspecties, facturen) => db.(trajecten :=
      db.trajecten[id := db.trajecten[id].(inspecties := inspecties, facturen := facturen)])
  }

  ghost predicate IsRun(dbs: seq<Db>, stappen: seq<Stap>) {
    && |dbs| == |stappen| + 1
    && dbs[0] == Db(map[], map[])
    && forall n :: 0 <= n < |stappen| ==> Mogelijk(dbs[n], stappen[n]) && dbs[n + 1] == Na(dbs[n], stappen[n])
  }

  // ---------- the link ----------

  /** A stored traject reloads under its own id. */
  ghost predicate TrajectLeest(db: Db, o: string)
    requires o in db.trajecten
  {
    EntityNaarOnderhoud(db.trajecten[o]).Ok? && EntityNaarOnderhoud(db.trajecten[o]).value.id == o
  }

  ghost predicate StoringLeest(db: Db, s: string)
    requires s in db.storingen
  {
    EntityNaarStoring(db.storingen[s]).Ok? && EntityNaarStoring(db.storingen[s]).value.id == s
  }

  ghost predicate Gefactureerd(t: TrajectWaarde) {
    exists f :: f in t.facturen && f.status == Goedgekeurd
  }

  /** What holds of a traject by itself. */
  ghost predicate TrajectRegels(t: TrajectWaarde) {
    && Welgevormd(t)
    && (t.status == Afgerond ==> HeeftGoedkeuring(t.inspecties))
    && (Gefactureerd(t) ==> t.status == Afgerond)
  }

  ghost predicate TrajectGoed(db: Db, o: string)
    requires o in db.trajecten
  {
    && TrajectLeest(db, o)
    && var t := EntityNaarOnderhoud(db.trajecten[o]).value;
       && TrajectRegels(t)
       && (t.aanleiding.VanStoring? ==>
            && t.aanleiding.storingId in db.storingen
            && StoringLeest(db, t.aanleiding.storingId)
            && EntityNaarStoring(db.storingen[t.aanleiding.storingId]).value.onderhoudId == Some(o))
  }

  /** What holds of a storing by itself. */
  predicate StoringRegels(s: StoringWaarde) {
    && (s.status == Gemeld <==> s.onderhoudId == None)
    && (s.status == Gemeld <==> !VereistOnderhoud(s.ernst))
  }

  ghost predicate StoringGoed(db: Db, s: string)
    requires s in db.storingen
  {
    && StoringLeest(db, s)
    && var w := EntityNaarStoring(db.storingen[s]).value;
       && StoringRegels(w)
       && (w.onderhoudId.Some? ==>
            && w.onderhoudId.value in db.trajecten
            && TrajectLeest(db, w.onderhoudId.value)
            && var t := EntityNaarOnderhoud(db.trajecten[w.onderhoudId.value]).value;
               t.aanleiding == VanStoring(s) && t.kunstwerkId == w.kunstwerkId
                 && (w.status == Afgehandeld <==> t.status == Afgerond))
  }

  ghost predicate Gekoppeld(db: Db) {
    && (forall o :: o in db.trajecten ==> TrajectGoed(db, o))
    && (forall s :: s in db.storingen ==> StoringGoed(db, s))
  }

  // ---------- one aggregate ----------

  /** No action changes what the link rests on, except rounding off. */
  lemma ActieBehoudt(t: TrajectWaarde, a: Actie)
    requires TrajectRegels(t)
    ensures var t' := NaActie(t, a).0;
      && TrajectRegels(t')
      && t'.id == t.id && t'.kunstwerkId == t.kunstwerkId && t'.aanleiding == t.aanleiding
      && (t'.status == Afgerond <==> t.status == Afgerond)
  {
    var t' := NaActie(t, a).0;
    match a
    case Goedkeuren(id) =>
      var n := Plaats(t.facturen, id);
      if t' != t {
        assert forall f :: f in t'.facturen ==> f in t.facturen || f == t.facturen[n].(status := Goedgekeurd);
        assert t.facturen[n] in t.facturen;
      }
    case Inspecteren(i) =>
      if HeeftGoedkeuring(t.inspecties) {
        var g :| g in t.inspecties && g.oordeel == Goed;
        assert g in t'.inspecties || t' == t;
      }
    case _ =>
  }

  lemma AfrondingBehoudt(t: TrajectWaarde, resultaat: string, datum: int)
    requires TrajectRegels(t) && NaRondAf(t, resultaat, datum).1 == None
    ensures var t' := NaRondAf(t, resultaat, datum).0;
      TrajectRegels(t') && t'.id == t.id && t'.kunstwerkId == t.kunstwerkId && t'.aanleiding == t.aanleiding
        && t'.status == Afgerond
  {
  }

  // ---------- steps ----------

  /** `t'` may take the place of `t`: only the roundedness of a traject that came from a storing counts. */
  ghost predicate Inwisselbaar(t: TrajectWaarde, t': TrajectWaarde) {
    && TrajectRegels(t')
    && t'.id == t.id && t'.kunstwerkId == t.kunstwerkId && t'.aanleiding == t.aanleiding
    && (t.aanleiding.VanStoring? ==> (t'.status == Afgerond <==> t.status == Afgerond))
  }

  lemma RijVervangen(db: Db, o: string, rij: OnderhoudRij)
    requires Gekoppeld(db) && o in db.trajecten && EntityNaarOnderhoud(rij).Ok?
    requires TrajectGoed(db, o) ==>
      Inwisselbaar(EntityNaarOnderhoud(db.trajecten[o]).value, EntityNaarOnderhoud(rij).value)
    ensures Gekoppeld(db.(trajecten := db.trajecten[o := rij]))
  {
    var na := db.(trajecten := db.trajecten[o := rij]);
    assert TrajectGoed(db, o);
    forall x | x in na.trajecten
      ensures TrajectGoed(na, x)
    {
      if x != o {
        assert TrajectGoed(db, x);
      }
    }
    forall s | s in na.storingen
      ensures StoringGoed(na, s)
    {
      assert StoringGoed(db, s);
    }
  }

  lemma NieuwTraject(db: Db, t: TrajectWaarde)
    requires Gekoppeld(db) && t.id !in db.trajecten && TrajectRegels(t) && t.aanleiding.VanDiagnose?
    ensures Gekoppeld(MetTraject(db, t))
  {
    TrajectRondreis(t);
    var na := MetTraject(db, t);
    forall x | x in na.trajecten
      ensures TrajectGoed(na, x)
    {
      if x != t.id {
        assert TrajectGoed(db, x);
      }
    }
    forall s | s in na.storingen
      ensures StoringGoed(na, s)
    {
      assert StoringGoed(db, s);
    }
  }

  lemma NieuweStoring(db: Db, s: StoringWaarde)
    requires Gekoppeld(db) && s.id !in db.storingen && !Blanco(s.id) && !Blanco(s.kunstwerkId)
    requires s.onderhoudId == None && StoringRegels(s)
    ensures Gekoppeld(MetStoring(db, s))
  {
    StoringRondreis(s);
    var na := MetStoring(db, s);
    forall x | x in na.trajecten
      ensures TrajectGoed(na, x)
    {
      assert TrajectGoed(db, x);
    }
    forall x | x in na.storingen
      ensures StoringGoed(na, x)
    {
      if x != s.id {
        assert StoringGoed(db, x);
      }
    }
  }

  /** Adding a storing together with the traject it is linked to. */
  lemma NieuwPaar(db: Db, s: StoringWaarde, t: TrajectWaarde)
    requires Gekoppeld(db) && s.id !in db.storingen && t.id !in db.trajecten
    requires !Blanco(s.id) && !Blanco(s.kunstwerkId) && StoringRegels(s) && s.status != Afgehandeld
    requires s.onderhoudId == Some(t.id)
    requires TrajectRegels(t) && t.status != Afgerond && t.aanleiding == VanStoring(s.id)
    requires t.kunstwerkId == s.kunstwerkId
    ensures Gekoppeld(MetStoring(MetTraject(db, t), s))
  {
    StoringRondreis(s);
    TrajectRondreis(t);
    var na := MetStoring(MetTraject(db, t), s);
    forall x | x in na.trajecten
      ensures TrajectGoed(na, x)
    {
      if x != t.id {
        assert TrajectGoed(db, x);
      }
    }
    forall x | x in na.storingen
      ensures StoringGoed(na, x)
    {
      if x != s.id {
        assert StoringGoed(db, x);
      }
    }
  }

  /** Rounding off a traject together with the storing it came from. */
  lemma PaarAfgerond(db: Db, o: string, t': TrajectWaarde, s': StoringWaarde)
    requires Gekoppeld(db) && o in db.trajecten
    requires var t := EntityNaarOnderhoud(db.trajecten[o]).value;
      TrajectRegels(t') && t'.id == o && t'.kunstwerkId == t.kunstwerkId && t'.aanleiding == t.aanleiding
        && t'.status == Afgerond
    requires t'.aanleiding.VanStoring? && t'.aanleiding.storingId in db.storingen
    requires s' == EntityNaarStoring(db.storingen[t'.aanleiding.storingId]).value.(status := Afgehandeld)
    ensures Gekoppeld(MetStoring(MetTraject(db, t'), s'))
  {
    var s := t'.aanleiding.storingId;
    assert TrajectGoed(db, o) && StoringGoed(db, s);
    TrajectRondreis(t');
    StoringRondreis(s');
    var na := MetStoring(MetTraject(db, t'), s');
    forall x | x in na.trajecten
      ensures TrajectGoed(na, x)
    {
      if x != o {
        assert TrajectGoed(db, x);
      }
    }
    forall x | x in na.storingen
      ensures StoringGoed(na, x)
    {
      if x != s {
        assert StoringGoed(db, x);
      }
    }
  }

  lemma MeldingGekoppeld(db: Db, m: Melding, toegestaan: bool, storingId: string, onderhoudId: string)
    requires Gekoppeld(db) && storingId !in db.storingen && onderhoudId !in db.trajecten
    ensures Gekoppeld(NaMelding(db, m, toegestaan, storingId, onderhoudId).0)
  {
    if NaMelding(db, m, toegestaan, storingId, onderhoudId).1.Ok? {
      var ernst := ErnstVan(m.ernst).value;
      var s := StoringWaarde(storingId, m.kunstwerkId, m.omschrijving, ernst, Gemeld, None);
      if VereistOnderhoud(ernst) {
        NieuwPaar(db, NaKoppeling(s, onderhoudId).0, Plan(onderhoudId, m.kunstwerkId, VanStoring(storingId)));
      } else {
        NieuweStoring(db, s);
      }
    }
  }

  lemma DiagnoseGekoppeld(db: Db, c: DiagnoseCommand, onderhoudId: string)
    requires Gekoppeld(db) && onderhoudId !in db.trajecten
    ensures Gekoppeld(NaDiagnose(db, c, onderhoudId).0)
  {
    if NaDiagnose(db, c, onderhoudId).0 != db {
      NieuwTraject(db,
        Plan(onderhoudId, c.kunstwerkId,
        VanDiagnose(OptioneelId(c.incidentId).value, c.bevinding, ErnstVan(c.ernst).value)));
    }
  }

  lemma ActieGekoppeld(db: Db, id: string, a: Actie)
    requires Gekoppeld(db)
    ensures Gekoppeld(NaTrajectActie(db, id, a).0)
  {
    if NaTrajectActie(db, id, a).1 == None {
      assert TrajectGoed(db, id);
      var t := ZoekTraject(db, id).value;
      ActieBehoudt(t, a);
      TrajectRondreis(NaActie(t, a).0);
      RijVervangen(db, id, OnderhoudNaarEntity(NaActie(t, a).0));
    }
  }

  lemma AfrondingGekoppeld(db: Db, id: string, resultaat: string, datum: int)
    requires Gekoppeld(db)
    ensures Gekoppeld(NaAfronding(db, id, resultaat, datum).0)
  {
    var gevonden := ZoekTraject(db, id);
    if gevonden.Ok? && NaRondAf(gevonden.value, resultaat, datum).1 == None {
      assert TrajectGoed(db, id);
      var t' := NaRondAf(gevonden.value, resultaat, datum).0;
      AfrondingBehoudt(gevonden.value, resultaat, datum);
      if t'.aanleiding.VanStoring? {
        assert StoringGoed(db, t'.aanleiding.storingId);
        PaarAfgerond(db, id, t',
          EntityNaarStoring(db.storingen[t'.aanleiding.storingId]).value.(status := Afgehandeld));
      } else {
        TrajectRondreis(t');
        RijVervangen(db, id, OnderhoudNaarEntity(t'));
      }
    }
  }

  /** Once the traject may be rounded off, its storing loads and nothing throws any more. */
  lemma AfrondingSlaagt(db: Db, id: string, resultaat: string, datum: int)
    requires Gekoppeld(db) && !Blanco(id) && id in db.trajecten && TrajectGoed(db, id)
    ensures NaAfronding(db, id, resultaat, datum).1 == NaRondAf(ZoekTraject(db, id).value, resultaat, datum).1
  {
  }

  lemma HerordeningGekoppeld(db: Db, id: string, inspecties: seq<Inspectie>, facturen: seq<Factuur>)
    requires Gekoppeld(db) && Mogelijk(db, Herorden(id, inspecties, facturen))
    ensures Gekoppeld(Na(db, Herorden(id, inspecties, facturen)))
  {
    assert TrajectGoed(db, id);
    var rij := db.trajecten[id];
    forall i ensures i in inspecties <==> i in rij.inspecties { assert i in inspecties <==> i in multiset(inspecties); }
    forall f ensures f in facturen <==> f in rij.facturen { assert f in facturen <==> f in multiset(facturen); }
    RijVervangen(db, id, rij.(inspecties := inspecties, facturen := facturen));
  }

  lemma StapGekoppeld(db: Db, stap: Stap)
    requires Gekoppeld(db) && Mogelijk(db, stap)
    ensures Gekoppeld(Na(db, stap))
  {
    match stap
    case Meld(m, toegestaan, s, o) => MeldingGekoppeld(db, m, toegestaan, s, o);
    case Diagnose(c, o) => DiagnoseGekoppeld(db, c, o);
    case VoerUit(id, a) => ActieGekoppeld(db, id, a);
    case RondAf(id, resultaat, datum) => AfrondingGekoppeld(db, id, resultaat, datum);
    case Herorden(id, inspecties, facturen) => HerordeningGekoppeld(db, id, inspecties, facturen);
  }

  lemma RunStap(dbs: seq<Db>, stappen: seq<Stap>, j: nat)
    requires IsRun(dbs, stappen) && j < |stappen|
    ensures Mogelijk(dbs[j], stappen[j]) && dbs[j + 1] == Na(dbs[j], stappen[j])
  {
  }

  lemma {:induction false} RunGekoppeld(dbs: seq<Db>, stappen: seq<Stap>, n: nat)
    requires IsRun(dbs, stappen) && n <= |stappen|
    ensures Gekoppeld(dbs[n])
  {
    if n > 0 {
      RunGekoppeld(dbs, stappen, n - 1);
      StapGekoppeld(dbs[n - 1], stappen[n - 1]);
    }
  }

  // ---------- what a reader sees ----------

  ghost function Traject(db: Db, o: string): (t: TrajectWaarde)
    requires o in db.trajecten && TrajectLeest(db, o)
  {
    EntityNaarOnderhoud(db.trajecten[o]).value
  }

  ghost function Storing(db: Db, s: string): (w: StoringWaarde)
    requires s in db.storingen && StoringLeest(db, s)
  {
    EntityNaarStoring(db.storingen[s]).value
  }

  /** After every run everything stored reloads. A storing is Gemeld exactly when it is unlinked, and
      exactly when its severity is Laag or Middel; a linked one points to a traject on the same
      kunstwerk that points back, and is Afgehandeld exactly when that traject is Afgerond. */
  lemma StoringGekoppeld(dbs: seq<Db>, stappen: seq<Stap>, n: nat, s: string)
    requires IsRun(dbs, stappen) && n <= |stappen| && s in dbs[n].storingen
    ensures StoringLeest(dbs[n], s)
    ensures var w := Storing(dbs[n], s);
      && (w.status == Gemeld <==> w.onderhoudId == None)
      && (w.status == Gemeld <==> w.ernst == Laag || w.ernst == Middel)
      && (w.onderhoudId.Some? ==>
           && w.onderhoudId.value in dbs[n].trajecten && TrajectLeest(dbs[n], w.onderhoudId.value)
           && Traject(dbs[n], w.onderhoudId.value).aanleiding == VanStoring(s)
           && Traject(dbs[n], w.onderhoudId.value).kunstwerkId == w.kunstwerkId
           && (w.status == Afgehandeld <==> Traject(dbs[n], w.onderhoudId.value).status == Afgerond))
  {
    RunGekoppeld(dbs, stappen, n);
    assert StoringGoed(dbs[n], s);
  }

  /** After every run: a rounded-off traject has an approved inspection, approved invoices exist only on
      rounded-off trajecten, and a traject caused by a storing is the one that storing points to. */
  lemma TrajectGekoppeld(dbs: seq<Db>, stappen: seq<Stap>, n: nat, o: string)
    requires IsRun(dbs, stappen) && n <= |stappen| && o in dbs[n].trajecten
    ensures TrajectLeest(dbs[n], o)
    ensures var t := Traject(dbs[n], o);
      && (t.status == Afgerond ==> exists i :: i in t.inspecties && i.oordeel == Goed)
      && (forall f :: f in t.facturen && f.status == Goedgekeurd ==> t.status == Afgerond)
      && (t.aanleiding.VanStoring? ==>
           && t.aanleiding.storingId in dbs[n].storingen && StoringLeest(dbs[n], t.aanleiding.storingId)
           && Storing(dbs[n], t.aanleiding.storingId).onderhoudId == Some(o))
  {
    RunGekoppeld(dbs, stappen, n);
    assert TrajectGoed(dbs[n], o);
  }

  /** Linked storingen and storing-caused trajecten correspond one to one. */
  lemma EenOpEen(dbs: seq<Db>, stappen: seq<Stap>, n: nat, s: string, s': string, o: string, o': string)
    requires IsRun(dbs, stappen) && n <= |stappen|
    requires s in dbs[n].storingen && s' in dbs[n].storingen && o in dbs[n].trajecten && o' in dbs[n].trajecten
    requires StoringLeest(dbs[n], s) && Storing(dbs[n], s).onderhoudId == Some(o)
    requires StoringLeest(dbs[n], s') && Storing(dbs[n], s').onderhoudId == Some(o')
    ensures s == s' <==> o == o'
  {
    StoringGekoppeld(dbs, stappen, n, s);
    StoringGekoppeld(dbs, stappen, n, s');
  }
}
