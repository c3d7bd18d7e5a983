/** What a stored traject says of the commands that made it so, over every sequential run of Onderhoud. */
module Trajectboek {
  import opened Gedeeld
  import opened Onderhoud
  import opened Onderhoudsbeheer
  import opened Onderhoudsruns
  import R = Onderhoudsruns

  // ---------- one command, read back ----------

  ghost predicate Gelezen(db: Db, o: string) {
    ZoekTraject(db, o).Ok? && ZoekTraject(db, o).value.id == o
  }

  /** An accepted action is read back as it was computed, and every other traject as it was. */
  lemma ActieGelezen(db: Db, id: string, a: Actie)
    requires Gekoppeld(db) && NaTrajectActie(db, id, a).1 == None
    ensures Gelezen(db, id)
    ensures ZoekTraject(NaTrajectActie(db, id, a).0, id) == Ok(NaActie(ZoekTraject(db, id).value, a).0)
  {
    assert TrajectGoed(db, id);
    var t := ZoekTraject(db, id).value;
    ActieBehoudt(t, a);
    TrajectRondreis(NaActie(t, a).0);
  }

  /** A start is accepted exactly on a planned traject, with a contract or under lenient checking. */
  predicate MagStarten(t: TrajectWaarde, contractId: Option<string>, streng: bool) {
    t.status == Gepland && (if contractId.Some? then !Blanco(contractId.value) else !streng)
  }

  /** A start records its date and the contract that was current, or keeps the old one without; nothing else. */
  lemma StartGelezen(db: Db, id: string, datum: int, contractId: Option<string>, streng: bool)
    requires Gekoppeld(db) && Gelezen(db, id)
    ensures var (db', fout), t := NaTrajectActie(db, id, Starten(datum, contractId, streng)), ZoekTraject(db, id).value;
      && (fout == None <==> MagStarten(t, contractId, streng))
      && (fout == None ==> ZoekTraject(db', id) == Ok(t.(status := Gestart, gestartOp := Some(datum),
           contractId := if contractId.Some? then contractId else t.contractId)))
  {
    if NaTrajectActie(db, id, Starten(datum, contractId, streng)).1 == None {
      ActieGelezen(db, id, Starten(datum, contractId, streng));
    }
  }

  function Ontvangst(a: Actie): (f: Factuur)
    requires a.Factureren?
  {
    Factuur(a.factuurId, a.centen, "EUR", Ontvangen, a.ontvangenOp)
  }

  /** An inspection is accepted exactly on a started traject and is then the last one; an invoice exactly beyond
      planned, at an amount that is not negative, and is then the last one, in EUR and merely received. */
  lemma PostGelezen(db: Db, id: string, a: Actie)
    requires Gekoppeld(db) && Gelezen(db, id) && (a.Inspecteren? || a.Factureren?)
    ensures var (db', fout), t := NaTrajectActie(db, id, a), ZoekTraject(db, id).value;
      && (a.Inspecteren? ==> (fout == None <==> t.status == Gestart && !Blanco(a.inspectie.id)))
      && (a.Factureren? ==> (fout == None <==> t.status != Gepland && !Blanco(a.factuurId) && a.centen >= 0))
      && (fout == None && a.Inspecteren? ==>
           ZoekTraject(db', id) == Ok(t.(inspecties := t.inspecties + [a.inspectie])))
      && (fout == None && a.Factureren? ==>
           ZoekTraject(db', id) == Ok(t.(facturen := t.facturen + [Ontvangst(a)])))
  {
    if NaTrajectActie(db, id, a).1 == None {
      ActieGelezen(db, id, a);
    }
  }

  /** Rounding off is accepted exactly on a started traject with an approved inspection; read back it has the result and
      the day, and its storing, if it came from one, is settled. */
  lemma AfrondingGelezen(db: Db, id: string, resultaat: string, datum: int)
    requires Gekoppeld(db) && Gelezen(db, id)
    ensures var (db', fout), t := NaAfronding(db, id, resultaat, datum), ZoekTraject(db, id).value;
      && (fout == None <==> t.status == Gestart && exists i :: i in t.inspecties && i.oordeel == Goed)
      && (fout == None ==>
           ZoekTraject(db', id) == Ok(t.(status := Afgerond, afgerondOp := Some(datum), resultaat := Some(resultaat))))
      && (fout == None && t.aanleiding.VanStoring? ==>
           t.aanleiding.storingId in db'.storingen && db'.storingen[t.aanleiding.storingId].status == Afgehandeld)
  {
    assert TrajectGoed(db, id);
    var t := ZoekTraject(db, id).value;
    if NaRondAf(t, resultaat, datum).1 == None {
      AfrondingSlaagt(db, id, resultaat, datum);
      AfrondingBehoudt(t, resultaat, datum);
      TrajectRondreis(NaRondAf(t, resultaat, datum).0);
    }
  }

  /** The invoice that an approval is about: the first one with the id. */
  ghost predicate IsEerste(facturen: seq<Factuur>, factuurId: string, n: nat) {
    n < |facturen| && facturen[n].id == factuurId && forall i :: 0 <= i < n ==> facturen[i].id != factuurId
  }

  /** An approval is accepted exactly when the traject is rounded off and has the invoice; then that invoice, and no
      other, is approved, at the same amount. */
  lemma GoedkeuringGelezen(db: Db, id: string, factuurId: string, n: nat)
    requires Gekoppeld(db) && Gelezen(db, id) && !Blanco(factuurId)
    requires IsEerste(ZoekTraject(db, id).value.facturen, factuurId, n)
    ensures var (db', fout), t := NaTrajectActie(db, id, Goedkeuren(factuurId)), ZoekTraject(db, id).value;
      && (fout == None <==> t.status == Afgerond)
      && (fout == None ==> ZoekTraject(db', id).Ok? && var f' := ZoekTraject(db', id).value.facturen;
           |f'| == |t.facturen| && f'[n].status == Goedgekeurd && f'[n].centen == t.facturen[n].centen
             && forall i :: 0 <= i < |f'| && i != n ==> f'[i] == t.facturen[i])
  {
    if NaTrajectActie(db, id, Goedkeuren(factuurId)).1 == None {
      ActieGelezen(db, id, Goedkeuren(factuurId));
    }
  }

  // ---------- the start and the end of a traject, over runs ----------

  predicate Start(db: Db, stap: Stap, o: string) {
    stap.VoerUit? && stap.id == o && stap.a.Starten? && NaTrajectActie(db, o, stap.a).1 == None
  }

  predicate Einde(db: Db, stap: Stap, o: string) {
    stap.RondAf? && stap.id == o && NaAfronding(db, o, stap.resultaat, stap.datum).1 == None
  }

  /** What planning leaves open. */
  predicate Onbegonnen(t: TrajectWaarde) {
    t.status == Gepland && t.contractId == None && t.gestartOp == None && t.afgerondOp == None && t.resultaat == None
  }

  predicate ZelfdeStart(t: TrajectWaarde, t': TrajectWaarde) {
    t'.contractId == t.contractId && t'.gestartOp == t.gestartOp
  }

  predicate ZelfdeEinde(t: TrajectWaarde, t': TrajectWaarde) {
    t'.resultaat == t.resultaat && t'.afgerondOp == t.afgerondOp
  }

  /** What one step does to a traject that exists: a start fills in contract and date, an end result and date, and
      nothing else touches them; its kunstwerk and its cause stay. */
  ghost predicate Verder(db: Db, stap: Stap, o: string, t: TrajectWaarde, t': TrajectWaarde) {
    t'.kunstwerkId == t.kunstwerkId && t'.aanleiding == t.aanleiding &&
    if Start(db, stap, o) then
      t.status == Gepland && t'.status == Gestart && t'.gestartOp == Some(stap.a.datum)
      && t'.contractId == (if stap.a.contractId.Some? then stap.a.contractId else t.contractId) && ZelfdeEinde(t, t')
    else if Einde(db, stap, o) then
      t.status == Gestart && t'.status == Afgerond && t'.afgerondOp == Some(stap.datum)
      && t'.resultaat == Some(stap.resultaat) && ZelfdeStart(t, t')
    else t'.status == t.status && ZelfdeStart(t, t') && ZelfdeEinde(t, t')
  }

  lemma AndermansActie(db: Db, id: string, a: Actie, o: string)
    requires Gekoppeld(db) && o in db.trajecten && (id != o || NaTrajectActie(db, id, a).1 != None)
    ensures var db' := NaTrajectActie(db, id, a).0;
      o in db'.trajecten && db'.trajecten[o] == db.trajecten[o]
  {
    if NaTrajectActie(db, id, a).1 == None {
      assert TrajectGoed(db, id);
      ActieBehoudt(ZoekTraject(db, id).value, a);
    }
  }

  lemma VoerUitVerder(db: Db, id: string, a: Actie, o: string)
    requires Gekoppeld(db) && o in db.trajecten
    ensures var db' := NaTrajectActie(db, id, a).0;
      o in db'.trajecten && TrajectLeest(db, o) && TrajectLeest(db', o)
        && Verder(db, VoerUit(id, a), o, R.Traject(db, o), R.Traject(db', o))
  {
    assert TrajectGoed(db, o);
    if id == o && NaTrajectActie(db, id, a).1 == None {
      ActieGelezen(db, id, a);
      ActieVerder(db, id, a);
    } else {
      AndermansActie(db, id, a, o);
    }
  }

  lemma ActieVerder(db: Db, id: string, a: Actie)
    requires NaTrajectActie(db, id, a).1 == None
    ensures Verder(db, VoerUit(id, a), id, ZoekTraject(db, id).value, NaActie(ZoekTraject(db, id).value, a).0)
  {
  }

  lemma RondAfVerder(db: Db, id: string, resultaat: string, datum: int, o: string)
    requires Gekoppeld(db) && o in db.trajecten
    ensures var db' := NaAfronding(db, id, resultaat, datum).0;
      o in db'.trajecten && TrajectLeest(db, o) && TrajectLeest(db', o)
        && Verder(db, RondAf(id, resultaat, datum), o, R.Traject(db, o), R.Traject(db', o))
  {
    assert TrajectGoed(db, o);
    var t := ZoekTraject(db, id);
    if t.Ok? && NaRondAf(t.value, resultaat, datum).1 == None {
      assert TrajectGoed(db, id);
      AfrondingSlaagt(db, id, resultaat, datum);
      AfrondingBehoudt(t.value, resultaat, datum);
      TrajectRondreis(NaRondAf(t.value, resultaat, datum).0);
    }
  }

  lemma AndersVerder(db: Db, stap: Stap, o: string)
    requires Gekoppeld(db) && Mogelijk(db, stap) && o in db.trajecten && !stap.VoerUit? && !stap.RondAf?
    ensures o in Na(db, stap).trajecten && TrajectLeest(db, o) && TrajectLeest(Na(db, stap), o)
    ensures Verder(db, stap, o, R.Traject(db, o), R.Traject(Na(db, stap), o))
  {
    assert TrajectGoed(db, o);
    StapGekoppeld(db, stap);
    assert o in Na(db, stap).trajecten && TrajectGoed(Na(db, stap), o);
    if stap.Herorden? && stap.id == o {
      HerordendLeest(db.trajecten[o], stap.inspecties, stap.facturen);
    } else {
      assert Na(db, stap).trajecten[o] == db.trajecten[o];
    }
  }

  lemma HerordendLeest(rij: OnderhoudRij, inspecties: seq<Inspectie>, facturen: seq<Factuur>)
    requires EntityNaarOnderhoud(rij).Ok?
    requires EntityNaarOnderhoud(rij.(inspecties := inspecties, facturen := facturen)).Ok?
    ensures EntityNaarOnderhoud(rij.(inspecties := inspecties, facturen := facturen)).value ==
      EntityNaarOnderhoud(rij).value.(inspecties := inspecties, facturen := facturen)
  {
  }

  lemma StapVerder(db: Db, stap: Stap, o: string)
    requires Gekoppeld(db) && Mogelijk(db, stap) && o in db.trajecten
    ensures o in Na(db, stap).trajecten && TrajectLeest(db, o) && TrajectLeest(Na(db, stap), o)
    ensures Verder(db, stap, o, R.Traject(db, o), R.Traject(Na(db, stap), o))
  {
    match stap
    case VoerUit(id, a) => VoerUitVerder(db, id, a, o);
    case RondAf(id, resultaat, datum) => RondAfVerder(db, id, resultaat, datum, o);
    case _ => AndersVerder(db, stap, o);
  }

  lemma RijVelden(rij: OnderhoudRij)
    requires EntityNaarOnderhoud(rij).Ok?
    ensures var t := EntityNaarOnderhoud(rij).value;
      && t.status == rij.status && t.gestartOp == rij.gestartOp && t.afgerondOp == rij.afgerondOp
      && t.resultaat == rij.resultaat && t.facturen == rij.facturen && t.inspecties == rij.inspecties
      && (rij.contractId == None ==> t.contractId == None)
  {
  }

  lemma NieuwIsOnbegonnen(db: Db, stap: Stap, o: string)
    requires Gekoppeld(db) && Mogelijk(db, stap) && o !in db.trajecten && o in Na(db, stap).trajecten
    ensures TrajectLeest(Na(db, stap), o) && Onbegonnen(R.Traject(Na(db, stap), o))
    ensures R.Traject(Na(db, stap), o).facturen == [] && R.Traject(Na(db, stap), o).inspecties == []
  {
    StapGekoppeld(db, stap);
    assert TrajectGoed(Na(db, stap), o);
    NieuwNaPlan(db, stap, o);
    RijVelden(Na(db, stap).trajecten[o]);
  }

  /** A traject that a step adds is planned, with nothing filled in. */
  lemma NieuwNaPlan(db: Db, stap: Stap, o: string)
    requires Gekoppeld(db) && Mogelijk(db, stap) && o !in db.trajecten && o in Na(db, stap).trajecten
    ensures var rij := Na(db, stap).trajecten[o];
      && rij.status == Gepland && rij.contractId == None && rij.gestartOp == None && rij.afgerondOp == None
      && rij.resultaat == None && rij.facturen == [] && rij.inspecties == []
  {
    SleutelsBlijven(db, stap);
  }

  lemma SleutelsBlijven(db: Db, stap: Stap)
    requires Gekoppeld(db) && Mogelijk(db, stap)
    ensures stap.VoerUit? || stap.RondAf? || stap.Herorden? ==> Na(db, stap).trajecten.Keys == db.trajecten.Keys
  {
    if stap.VoerUit? && NaTrajectActie(db, stap.id, stap.a).1 == None {
      assert TrajectGoed(db, stap.id);
      ActieBehoudt(ZoekTraject(db, stap.id).value, stap.a);
    }
    if stap.RondAf? && stap.id in db.trajecten {
      assert TrajectGoed(db, stap.id);
    }
  }

  lemma NogNiets(dbs: seq<Db>, stappen: seq<Stap>, n: nat, o: string)
    requires IsRun(dbs, stappen) && n <= |stappen| && o in dbs[n].trajecten
    ensures n > 0
  {
  }

  /** One step of a run as traject `o` sees it. */
  lemma RunVerder(dbs: seq<Db>, stappen: seq<Stap>, n: nat, o: string)
    requires IsRun(dbs, stappen) && n < |stappen| && o in dbs[n + 1].trajecten
    ensures TrajectLeest(dbs[n + 1], o)
    ensures o in dbs[n].trajecten ==>
      TrajectLeest(dbs[n], o) && Verder(dbs[n], stappen[n], o, R.Traject(dbs[n], o), R.Traject(dbs[n + 1], o))
    ensures o !in dbs[n].trajecten ==> Onbegonnen(R.Traject(dbs[n + 1], o))
  {
    RunGekoppeld(dbs, stappen, n);
    RunStap(dbs, stappen, n);
    if o in dbs[n].trajecten {
      StapVerder(dbs[n], stappen[n], o);
    } else {
      NieuwIsOnbegonnen(dbs[n], stappen[n], o);
    }
  }

  ghost predicate GestartUit(dbs: seq<Db>, stappen: seq<Stap>, m: nat, o: string, t: TrajectWaarde) {
    && m < |stappen| && m < |dbs| && Start(dbs[m], stappen[m], o)
    && t.gestartOp == Some(stappen[m].a.datum) && t.contractId == stappen[m].a.contractId
  }

  ghost predicate AfgerondUit(dbs: seq<Db>, stappen: seq<Stap>, m: nat, o: string, t: TrajectWaarde) {
    && m < |stappen| && m < |dbs| && Einde(dbs[m], stappen[m], o)
    && t.afgerondOp == Some(stappen[m].datum) && t.resultaat == Some(stappen[m].resultaat)
  }

  lemma StartErbij(dbs: seq<Db>, stappen: seq<Stap>, n: nat, k: nat, o: string, t: TrajectWaarde, t': TrajectWaarde)
    returns (m: nat)
    requires n < |stappen| && n < |dbs| && Verder(dbs[n], stappen[n], o, t, t')
    requires if t.status == Gepland then Onbegonnen(t) else k < n && GestartUit(dbs, stappen, k, o, t)
    ensures if t'.status == Gepland then Onbegonnen(t') else m <= n && GestartUit(dbs, stappen, m, o, t')
  {
    m := if Start(dbs[n], stappen[n], o) then n else k;
  }

  lemma EindeErbij(dbs: seq<Db>, stappen: seq<Stap>, n: nat, k: nat, o: string, t: TrajectWaarde, t': TrajectWaarde)
    returns (m: nat)
    requires n < |stappen| && n < |dbs| && Verder(dbs[n], stappen[n], o, t, t')
    requires t.status == Afgerond ==> k < n && AfgerondUit(dbs, stappen, k, o, t)
    ensures t'.status == Afgerond ==> m <= n && AfgerondUit(dbs, stappen, m, o, t')
  {
    m := if Einde(dbs[n], stappen[n], o) then n else k;
  }

  /** In every run a traject that is not merely planned was started by the step returned here, and carries the contract
      that was current then and that step's date, whatever followed; a planned one has nothing filled in. */
  lemma {:induction false} GestartDoor(dbs: seq<Db>, stappen: seq<Stap>, n: nat, o: string) returns (m: nat)
    requires IsRun(dbs, stappen) && n <= |stappen| && o in dbs[n].trajecten
    ensures TrajectLeest(dbs[n], o)
    ensures var t := R.Traject(dbs[n], o);
      if t.status == Gepland then Onbegonnen(t) else m < n && GestartUit(dbs, stappen, m, o, t)
    decreases n
  {
    NogNiets(dbs, stappen, n, o);
    RunVerder(dbs, stappen, n - 1, o);
    m := n - 1;
    if o in dbs[n - 1].trajecten {
      m := GestartDoor(dbs, stappen, n - 1, o);
      m := StartErbij(dbs, stappen, n - 1, m, o, R.Traject(dbs[n - 1], o), R.Traject(dbs[n], o));
    }
  }

  /** In every run a rounded-off traject was rounded off by the step returned here, and carries that step's result and
      date. */
  lemma {:induction false} AfgerondDoor(dbs: seq<Db>, stappen: seq<Stap>, n: nat, o: string) returns (m: nat)
    requires IsRun(dbs, stappen) && n <= |stappen| && o in dbs[n].trajecten
    ensures TrajectLeest(dbs[n], o)
    ensures R.Traject(dbs[n], o).status == Afgerond ==>
      m < n && AfgerondUit(dbs, stappen, m, o, R.Traject(dbs[n], o))
    decreases n
  {
    NogNiets(dbs, stappen, n, o);
    RunVerder(dbs, stappen, n - 1, o);
    m := n - 1;
    if o in dbs[n - 1].trajecten {
      m := AfgerondDoor(dbs, stappen, n - 1, o);
      m := EindeErbij(dbs, stappen, n - 1, m, o, R.Traject(dbs[n - 1], o), R.Traject(dbs[n], o));
    }
  }

  // ---------- the books of a traject ----------

  /** The invoice as it was received. */
  function Bij(f: Factuur): (r: Factuur) {
    f.(status := Ontvangen)
  }

  function BijOntvangst(fs: seq<Factuur>): (r: multiset<Factuur>) {
    if fs == [] then multiset{} else BijOntvangst(fs[..|fs| - 1]) + multiset{Bij(fs[|fs| - 1])}
  }

  /** The invoices as received, and the inspections. */
  datatype Boek = Boek(facturen: multiset<Factuur>, inspecties: multiset<Inspectie>)

  const LEEG := Boek(multiset{}, multiset{})

  function Plus(a: Boek, b: Boek): (r: Boek) {
    Boek(a.facturen + b.facturen, a.inspecties + b.inspecties)
  }

  function BoekVan(t: TrajectWaarde): (r: Boek) {
    Boek(BijOntvangst(t.facturen), multiset(t.inspecties))
  }

  /** What an accepted action enters: an invoice in EUR, or an inspection. */
  function Post(a: Actie): (r: Boek) {
    match a
    case Factureren(id, centen, op) => Boek(multiset{Factuur(id, centen, "EUR", Ontvangen, op)}, multiset{})
    case Inspecteren(i) => Boek(multiset{}, multiset{i})
    case _ => LEEG
  }

  function Geboekt(db: Db, stap: Stap, o: string): (r: Boek) {
    if stap.VoerUit? && stap.id == o && NaTrajectActie(db, o, stap.a).1 == None then Post(stap.a) else LEEG
  }

  /** Everything that the run accepted for traject `o`. */
  function Boekingen(dbs: seq<Db>, stappen: seq<Stap>, n: nat, o: string): (r: Boek)
    requires n <= |stappen| && n <= |dbs|
  {
    if n == 0 then LEEG else Plus(Boekingen(dbs, stappen, n - 1, o), Geboekt(dbs[n - 1], stappen[n - 1], o))
  }

  lemma BijOntvangstPlus(fs: seq<Factuur>, f: Factuur)
    ensures BijOntvangst(fs + [f]) == BijOntvangst(fs) + multiset{Bij(f)}
  {
    assert (fs + [f])[..|fs|] == fs;
  }

  lemma ZonderStaart<T>(s: seq<T>, i: nat)
    requires i < |s| - 1
    ensures var n := |s| - 1; s[..i] + s[i + 1..] == s[..n][..i] + s[..n][i + 1..] + [s[n]]
  {
  }

  lemma {:induction false} BijOntvangstZonder(fs: seq<Factuur>, i: nat)
    requires i < |fs|
    ensures BijOntvangst(fs) == BijOntvangst(fs[..i] + fs[i + 1..]) + multiset{Bij(fs[i])}
    decreases |fs|
  {
    var n := |fs| - 1;
    if i < n {
      BijOntvangstZonder(fs[..n], i);
      ZonderStaart(fs, i);
      BijOntvangstPlus(fs[..n][..i] + fs[..n][i + 1..], fs[n]);
    } else {
      assert fs[..i] + fs[i + 1..] == fs[..n];
    }
  }

  /** The books do not depend on the order in which the rows come back. */
  lemma {:induction false} BijOntvangstVolgorde(a: seq<Factuur>, b: seq<Factuur>)
    requires multiset(a) == multiset(b)
    ensures BijOntvangst(a) == BijOntvangst(b)
    decreases |a|
  {
    if a == [] {
      assert |multiset(b)| == 0;
    } else {
      var n := |a| - 1;
      assert a[n] in multiset(b);
      var i :| 0 <= i < |b| && b[i] == a[n];
      Eruit(a, n);
      Eruit(b, i);
      assert a[..n] + a[n + 1..] == a[..n];
      BijOntvangstVolgorde(a[..n], b[..i] + b[i + 1..]);
      BijOntvangstZonder(b, i);
    }
  }

  /** An approval does not change what was received. */
  lemma {:induction false} BijOntvangstNaKeuring(fs: seq<Factuur>, i: nat)
    requires i < |fs|
    ensures BijOntvangst(fs[i := fs[i].(status := Goedgekeurd)]) == BijOntvangst(fs)
    decreases |fs|
  {
    var n := |fs| - 1;
    var na := fs[i := fs[i].(status := Goedgekeurd)];
    if i < n {
      BijOntvangstNaKeuring(fs[..n], i);
      assert na[..n] == fs[..n][i := fs[i].(status := Goedgekeurd)];
    } else {
      assert na[..n] == fs[..n];
    }
  }

  lemma PlusLeeg(b: Boek)
    ensures Plus(b, LEEG) == b
  {
  }

  lemma ActieBoekt(t: TrajectWaarde, a: Actie)
    requires NaActie(t, a).1 == None
    ensures BoekVan(NaActie(t, a).0) == Plus(BoekVan(t), Post(a))
  {
    FactuurGeboekt(t, a);
    InspectieGeboekt(t, a);
  }

  lemma FactuurGeboekt(t: TrajectWaarde, a: Actie)
    requires NaActie(t, a).1 == None
    ensures BijOntvangst(NaActie(t, a).0.facturen) == BijOntvangst(t.facturen) + Post(a).facturen
  {
    if a.Factureren? {
      FactureringBoekt(t, a);
    } else if a.Goedkeuren? {
      GoedkeuringBoektNiets(t, a);
    } else {
      AndersGeenFactuur(t, a);
    }
  }

  lemma FactureringBoekt(t: TrajectWaarde, a: Actie)
    requires a.Factureren? && NaActie(t, a).1 == None
    ensures BijOntvangst(NaActie(t, a).0.facturen) == BijOntvangst(t.facturen) + Post(a).facturen
  {
    var f := Factuur(a.factuurId, a.centen, "EUR", Ontvangen, a.ontvangenOp);
    assert NaActie(t, a).0.facturen == t.facturen + [f];
    BijOntvangstPlus(t.facturen, f);
  }

  lemma AndersGeenFactuur(t: TrajectWaarde, a: Actie)
    requires !a.Factureren? && !a.Goedkeuren?
    ensures NaActie(t, a).0.facturen == t.facturen
  {
  }

  lemma GoedkeuringBoektNiets(t: TrajectWaarde, a: Actie)
    requires a.Goedkeuren? && NaActie(t, a).1 == None
    ensures BijOntvangst(NaActie(t, a).0.facturen) == BijOntvangst(t.facturen)
  {
    BijOntvangstNaKeuring(t.facturen, Plaats(t.facturen, a.factuurId));
  }

  lemma InspectieGeboekt(t: TrajectWaarde, a: Actie)
    requires NaActie(t, a).1 == None
    ensures multiset(NaActie(t, a).0.inspecties) == multiset(t.inspecties) + Post(a).inspecties
  {
  }

  lemma VoerUitBoekt(db: Db, id: string, a: Actie, o: string)
    requires Gekoppeld(db) && o in db.trajecten && TrajectLeest(db, o)
    ensures var db' := NaTrajectActie(db, id, a).0;
      o in db'.trajecten && TrajectLeest(db', o)
        && BoekVan(R.Traject(db', o)) == Plus(BoekVan(R.Traject(db, o)), Geboekt(db, VoerUit(id, a), o))
  {
    if id == o && NaTrajectActie(db, id, a).1 == None {
      EigenActieBoekt(db, id, a);
    } else {
      PlusLeeg(BoekVan(R.Traject(db, o)));
      AndermansActie(db, id, a, o);
    }
  }

  lemma EigenActieBoekt(db: Db, id: string, a: Actie)
    requires Gekoppeld(db) && NaTrajectActie(db, id, a).1 == None && id in db.trajecten && TrajectLeest(db, id)
    ensures var db' := NaTrajectActie(db, id, a).0;
      id in db'.trajecten && TrajectLeest(db', id)
        && BoekVan(R.Traject(db', id)) == Plus(BoekVan(R.Traject(db, id)), Post(a))
  {
    ActieGelezen(db, id, a);
    ActieBoekt(ZoekTraject(db, id).value, a);
  }

  lemma RondAfBoekt(db: Db, id: string, resultaat: string, datum: int, o: string)
    requires Gekoppeld(db) && o in db.trajecten && TrajectLeest(db, o)
    ensures var db' := NaAfronding(db, id, resultaat, datum).0;
      o in db'.trajecten && TrajectLeest(db', o) && BoekVan(R.Traject(db', o)) == BoekVan(R.Traject(db, o))
  {
    var t := ZoekTraject(db, id);
    if t.Ok? && NaRondAf(t.value, resultaat, datum).1 == None {
      assert TrajectGoed(db, id);
      AfrondingBehoudt(t.value, resultaat, datum);
      TrajectRondreis(NaRondAf(t.value, resultaat, datum).0);
    }
  }

  lemma HerordenBoekt(db: Db, id: string, inspecties: seq<Inspectie>, facturen: seq<Factuur>)
    requires Mogelijk(db, Herorden(id, inspecties, facturen)) && TrajectLeest(db, id)
    requires var db' := Na(db, Herorden(id, inspecties, facturen)); TrajectLeest(db', id)
    ensures BoekVan(R.Traject(Na(db, Herorden(id, inspecties, facturen)), id)) == BoekVan(R.Traject(db, id))
  {
    RijVelden(db.trajecten[id]);
    RijVelden(db.trajecten[id].(inspecties := inspecties, facturen := facturen));
    BijOntvangstVolgorde(facturen, db.trajecten[id].facturen);
  }

  lemma AndersBoekt(db: Db, stap: Stap, o: string)
    requires Gekoppeld(db) && Mogelijk(db, stap) && o in db.trajecten && TrajectLeest(db, o)
    requires !stap.VoerUit? && !stap.RondAf?
    ensures o in Na(db, stap).trajecten && TrajectLeest(Na(db, stap), o)
    ensures BoekVan(R.Traject(Na(db, stap), o)) == BoekVan(R.Traject(db, o))
  {
    StapGekoppeld(db, stap);
    assert o in Na(db, stap).trajecten && TrajectGoed(Na(db, stap), o);
    if stap.Herorden? && stap.id == o {
      HerordenBoekt(db, o, stap.inspecties, stap.facturen);
    } else {
      assert Na(db, stap).trajecten[o] == db.trajecten[o];
    }
  }

  lemma StapBoekt(db: Db, stap: Stap, o: string)
    requires Gekoppeld(db) && Mogelijk(db, stap) && o in db.trajecten && TrajectLeest(db, o)
    ensures o in Na(db, stap).trajecten && TrajectLeest(Na(db, stap), o)
    ensures BoekVan(R.Traject(Na(db, stap), o)) == Plus(BoekVan(R.Traject(db, o)), Geboekt(db, stap, o))
  {
    PlusLeeg(BoekVan(R.Traject(db, o)));
    match stap
    case VoerUit(id, a) => VoerUitBoekt(db, id, a, o);
    case RondAf(id, resultaat, datum) => RondAfBoekt(db, id, resultaat, datum, o);
    case _ => AndersBoekt(db, stap, o);
  }

  /** Before a traject exists nothing is accepted for it. */
  lemma {:induction false} NietsVooraf(dbs: seq<Db>, stappen: seq<Stap>, n: nat, o: string)
    requires IsRun(dbs, stappen) && n <= |stappen| && o !in dbs[n].trajecten
    ensures Boekingen(dbs, stappen, n, o) == LEEG
  {
    if n > 0 {
      PlusLeeg(LEEG);
      RunNietsVooraf(dbs, stappen, n - 1, o);
      NietsVooraf(dbs, stappen, n - 1, o);
    }
  }

  lemma RunNietsVooraf(dbs: seq<Db>, stappen: seq<Stap>, n: nat, o: string)
    requires IsRun(dbs, stappen) && n < |stappen| && o !in dbs[n + 1].trajecten
    ensures o !in dbs[n].trajecten && Geboekt(dbs[n], stappen[n], o) == LEEG
  {
    RunGekoppeld(dbs, stappen, n);
    RunStap(dbs, stappen, n);
    if o in dbs[n].trajecten {
      StapVerder(dbs[n], stappen[n], o);
    }
  }

  /** In every run the books of a traject hold exactly the invoices and the inspections that were accepted for it, each
      as it was received, approved or not, whatever order the rows come back in. */
  lemma {:induction false} BoekenKloppen(dbs: seq<Db>, stappen: seq<Stap>, n: nat, o: string)
    requires IsRun(dbs, stappen) && n <= |stappen| && o in dbs[n].trajecten
    ensures TrajectLeest(dbs[n], o) && BoekVan(R.Traject(dbs[n], o)) == Boekingen(dbs, stappen, n, o)
    decreases n
  {
    NogNiets(dbs, stappen, n, o);
    RunBoekt(dbs, stappen, n - 1, o);
    if o in dbs[n - 1].trajecten {
      BoekenKloppen(dbs, stappen, n - 1, o);
    } else {
      NietsVooraf(dbs, stappen, n - 1, o);
    }
  }

  /** One step of a run in the books of traject `o`. */
  lemma RunBoekt(dbs: seq<Db>, stappen: seq<Stap>, n: nat, o: string)
    requires IsRun(dbs, stappen) && n < |stappen| && o in dbs[n + 1].trajecten
    ensures TrajectLeest(dbs[n + 1], o)
    ensures o in dbs[n].trajecten ==>
      TrajectLeest(dbs[n], o) && BoekVan(R.Traject(dbs[n + 1], o)) ==
        Plus(BoekVan(R.Traject(dbs[n], o)), Geboekt(dbs[n], stappen[n], o))
    ensures o !in dbs[n].trajecten ==>
      BoekVan(R.Traject(dbs[n + 1], o)) == Plus(LEEG, Geboekt(dbs[n], stappen[n], o))
  {
    RunGekoppeld(dbs, stappen, n);
    RunStap(dbs, stappen, n);
    if o in dbs[n].trajecten {
      assert TrajectGoed(dbs[n], o);
      StapBoekt(dbs[n], stappen[n], o);
    } else {
      NieuwBoekt(dbs[n], stappen[n], o);
    }
  }

  lemma NieuwBoekt(db: Db, stap: Stap, o: string)
    requires Gekoppeld(db) && Mogelijk(db, stap) && o !in db.trajecten && o in Na(db, stap).trajecten
    ensures TrajectLeest(Na(db, stap), o) && BoekVan(R.Traject(Na(db, stap), o)) == Plus(LEEG, Geboekt(db, stap, o))
  {
    NieuwIsOnbegonnen(db, stap, o);
    SleutelsBlijven(db, stap);
    PlusLeeg(LEEG);
  }
}
