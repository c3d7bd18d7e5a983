/** Runs of Beheer: commands, and report messages that are published again, redelivered and interrupted. */
module Beheerruns {
  import opened Gedeeld
  import opened Eisenoordeel
  import opened Beheer

  /** `VoorCommit`: the process dies before the commit. `NaCommit`: it dies between commit and acknowledgement. */
  datatype Onderbreking = Geen | VoorCommit | NaCommit

  datatype Systeem = Systeem(db: Gegevens, rij: seq<RapportCommand>)

  datatype Stap =
    | Registreer(k: RegistreerCommand, nieuwId: string)
    | StelVast(eisen: EisenCommand, nieuwId: string, nu: int)
    | Publiceer(c: RapportCommand)
    | Lever(i: nat, nieuwId: string, nu: int, stop: Onderbreking)

  const BEGIN := Systeem(Gegevens(map[], [], [], {}), [])

  ghost predicate Mogelijk(s: Systeem, stap: Stap) {
    match stap
    case Registreer(_, _) => true
    case StelVast(_, id, _) => forall p :: p in s.db.pakketten ==> p.id != id
    case Publiceer(_) => true
    case Lever(i, _, _, _) => i < |s.rij|
  }

  /** Any queued message may be next: the two report queues, and redelivery, need no order here. A
      refused message is dropped, as the consumer rejects it without requeueing. */
  function Na(s: Systeem, stap: Stap): (r: Systeem)
    requires stap.Lever? ==> stap.i < |s.rij|
  {
    match stap
    case Registreer(c, id) => s.(db := NaRegistratie(s.db, c, id).0)
    case StelVast(c, id, nu) => s.(db := NaStelEisenVast(s.db, c, id, nu).0)
    case Publiceer(c) => s.(rij := s.rij + [c])
    case Lever(i, id, nu, stop) =>
      Systeem(if stop == VoorCommit then s.db else NaVerwerkRapport(s.db, s.rij[i], id, nu).0,
              if stop == Geen then s.rij[..i] + s.rij[i + 1..] else s.rij)
  }

  ghost predicate IsRun(ss: seq<Systeem>, stappen: seq<Stap>) {
    && |ss| == |stappen| + 1
    && ss[0] == BEGIN
    && forall n :: 0 <= n < |stappen| ==> Mogelijk(ss[n], stappen[n]) && ss[n + 1] == Na(ss[n], stappen[n])
  }

  // ---------- package versions ----------

  /** Versions 1..n in order, all replaced but the last. */
  ghost predicate Reeks(v: seq<Pakket>) {
    forall i :: 0 <= i < |v| ==> v[i].versie == i + 1 && v[i].status == if i == |v| - 1 then Vastgesteld else Vervangen
  }

  ghost predicate UniekeIds(pakketten: seq<Pakket>) {
    forall i, j :: 0 <= i < j < |pakketten| ==> pakketten[i].id != pakketten[j].id
  }

  ghost predicate VersiesKloppen(pakketten: seq<Pakket>) {
    UniekeIds(pakketten) && forall k: string, s: EisenSoort :: Reeks(Van(pakketten, k, s))
  }

  lemma {:induction false} ReeksMaxVersie(v: seq<Pakket>, n: nat)
    requires n <= |v| && forall i :: 0 <= i < |v| ==> v[i].versie == i + 1
    ensures MaxVersie(v[..n]) == n
  {
    if n > 0 {
      ReeksMaxVersie(v, n - 1);
      assert v[..n][..n - 1] == v[..n - 1];
    }
  }

  /** With versions 1..n and only the last established, the queries return it and n + 1. */
  lemma ReeksQueries(v: seq<Pakket>)
    requires Reeks(v)
    ensures Hoogste(v) == if v == [] then None else Some(v[|v| - 1])
    ensures MaxVersie(v) == |v|
  {
    ReeksMaxVersie(v, |v|);
    assert v[..|v|] == v;
    if v != [] {
      assert v[|v| - 1] in v;
    }
  }

  /** Writing a row does not move it between keys, so writing and selecting commute. */
  lemma {:induction false} VanOpgeslagen(pakketten: seq<Pakket>, p: Pakket, k: string, s: EisenSoort)
    requires forall q :: q in pakketten && q.id == p.id ==> q.kunstwerkId == p.kunstwerkId && q.soort == p.soort
    ensures Van(Opgeslagen(pakketten, p), k, s) == Opgeslagen(Van(pakketten, k, s), p)
    decreases |pakketten|
  {
    if pakketten != [] {
      var n := |pakketten| - 1;
      var voor, x := pakketten[..n], pakketten[n];
      VanOpgeslagen(voor, p, k, s);
      assert Opgeslagen(pakketten, p)[..n] == Opgeslagen(voor, p);
      assert x in pakketten;
    }
  }

  lemma VanPlus(pakketten: seq<Pakket>, p: Pakket, k: string, s: EisenSoort)
    ensures Van(pakketten + [p], k, s) == if p.kunstwerkId == k && p.soort == s then Van(pakketten, k, s) + [p]
      else Van(pakketten, k, s)
  {
    FilterPlus((q: Pakket) => q.kunstwerkId == k && q.soort == s, pakketten, p);
  }

  lemma ZelfdeIdZelfdePakket(pakketten: seq<Pakket>, p: Pakket, q: Pakket)
    requires UniekeIds(pakketten) && p in pakketten && q in pakketten && p.id == q.id
    ensures p == q
  {
    var i, j :| 0 <= i < |pakketten| && 0 <= j < |pakketten| && pakketten[i] == p && pakketten[j] == q;
  }

  /** The same package but for its status and the time of its last change. */
  predicate Zelfde(p: Pakket, q: Pakket) {
    q == p.(status := q.status, gewijzigdOp := q.gewijzigdOp)
  }

  lemma OpslaanElders(v: seq<Pakket>, p: Pakket)
    requires forall q :: q in v ==> q.id != p.id
    ensures Opgeslagen(v, p) == v
  {
    assert forall i :: 0 <= i < |v| ==> v[i] in v;
  }

  /** The series after its last package was replaced at `nu`. */
  function LaatsteVervangen(v: seq<Pakket>, nu: int): (r: seq<Pakket>) {
    if v == [] then [] else v[|v| - 1 := v[|v| - 1].(status := Vervangen, gewijzigdOp := nu)]
  }

  lemma EigenVervangen(v: seq<Pakket>, nu: int)
    requires Reeks(v) && v != [] && forall q :: q in v && q.id == v[|v| - 1].id ==> q == v[|v| - 1]
    ensures Opgeslagen(v, Gemarkeerd(v[|v| - 1], nu)) == LaatsteVervangen(v, nu)
  {
    var p := Gemarkeerd(v[|v| - 1], nu);
    forall i | 0 <= i < |v| ensures v[i].id == p.id ==> i == |v| - 1 {
      assert v[i] in v;
      assert v[i] == v[|v| - 1] ==> v[i].versie == v[|v| - 1].versie;
    }
  }

  /** Replacing the current package: in its own series the last package changes status and time, other series do not
      change. */
  lemma VervangenReeks(g: Gegevens, k: string, s: EisenSoort, nu: int, k': string, s': EisenSoort)
    requires VersiesKloppen(g.pakketten)
    ensures var v, v' := Van(g.pakketten, k', s'), Van(MetVervangen(g, k, s, nu).pakketten, k', s');
      v' == if k' == k && s' == s then LaatsteVervangen(v, nu) else v
  {
    var eigen := Van(g.pakketten, k, s);
    ReeksQueries(eigen);
    if eigen != [] {
      var oud := eigen[|eigen| - 1];
      var p := Gemarkeerd(oud, nu);
      assert oud in eigen;
      forall q | q in g.pakketten && q.id == p.id
        ensures q == oud
      {
        ZelfdeIdZelfdePakket(g.pakketten, q, oud);
      }
      VanOpgeslagen(g.pakketten, p, k', s');
      if k' == k && s' == s {
        EigenVervangen(eigen, nu);
      } else {
        OpslaanElders(Van(g.pakketten, k', s'), p);
      }
    }
  }

  lemma LaatsteVervangenIs(v: seq<Pakket>, nu: int)
    requires Reeks(v)
    ensures var v' := LaatsteVervangen(v, nu);
      |v'| == |v| && forall i :: 0 <= i < |v'| ==>
        v'[i].status == Vervangen && v'[i].versie == i + 1 && Zelfde(v[i], v'[i])
  {
  }

  lemma MetVervangenIds(g: Gegevens, k: string, s: EisenSoort, nu: int)
    ensures |MetVervangen(g, k, s, nu).pakketten| == |g.pakketten|
    ensures forall i :: 0 <= i < |g.pakketten| ==> MetVervangen(g, k, s, nu).pakketten[i].id == g.pakketten[i].id
    ensures MetVervangen(g, k, s, nu) == g.(pakketten := MetVervangen(g, k, s, nu).pakketten)
  {
  }

  lemma VolgendeVersie(g: Gegevens, c: EisenCommand, id: string, nu: int)
    requires VersiesKloppen(g.pakketten)
    ensures NieuwPakket(g, c, id, nu).versie == |Van(g.pakketten, c.kunstwerkId, c.soort)| + 1
  {
    VervangenReeks(g, c.kunstwerkId, c.soort, nu, c.kunstwerkId, c.soort);
    LaatsteVervangenIs(Van(g.pakketten, c.kunstwerkId, c.soort), nu);
    var eigen := Van(MetVervangen(g, c.kunstwerkId, c.soort, nu).pakketten, c.kunstwerkId, c.soort);
    ReeksMaxVersie(eigen, |eigen|);
    assert eigen[..|eigen|] == eigen;
  }

  lemma ReeksVerlengd(v: seq<Pakket>, nu: int, p: Pakket)
    requires Reeks(v) && p.versie == |v| + 1 && p.status == Vastgesteld
    ensures Reeks(LaatsteVervangen(v, nu) + [p]) && Voortgezet(v, LaatsteVervangen(v, nu) + [p])
  {
    LaatsteVervangenIs(v, nu);
  }

  /** An accepted command extends the series of its own key by one and leaves the others alone. */
  lemma StelVastReeks(g: Gegevens, c: EisenCommand, id: string, nu: int, k: string, s: EisenSoort)
    requires VersiesKloppen(g.pakketten) && NaStelEisenVast(g, c, id, nu).1.Ok?
    ensures var v, v' := Van(g.pakketten, k, s), Van(NaStelEisenVast(g, c, id, nu).0.pakketten, k, s);
      && Reeks(v')
      && (if k == c.kunstwerkId && s == c.soort
          then Voortgezet(v, v') && v' == LaatsteVervangen(v, nu) + [NieuwPakket(g, c, id, nu)]
          else v' == v)
  {
    var p, g' := NieuwPakket(g, c, id, nu), MetVervangen(g, c.kunstwerkId, c.soort, nu);
    var v := Van(g.pakketten, k, s);
    assert Reeks(v);
    VolgendeVersie(g, c, id, nu);
    VervangenReeks(g, c.kunstwerkId, c.soort, nu, k, s);
    VanPlus(g'.pakketten, p, k, s);
    if k == c.kunstwerkId && s == c.soort {
      ReeksVerlengd(v, nu, p);
    }
  }

  lemma StelVastKlopt(g: Gegevens, c: EisenCommand, id: string, nu: int)
    requires VersiesKloppen(g.pakketten) && forall p :: p in g.pakketten ==> p.id != id
    ensures VersiesKloppen(NaStelEisenVast(g, c, id, nu).0.pakketten)
  {
    if NaStelEisenVast(g, c, id, nu).1.Ok? {
      forall k: string, s: EisenSoort
        ensures Reeks(Van(NaStelEisenVast(g, c, id, nu).0.pakketten, k, s))
      {
        StelVastReeks(g, c, id, nu, k, s);
      }
      MetVervangenIds(g, c.kunstwerkId, c.soort, nu);
    }
  }

  lemma {:induction false} RunVersies(ss: seq<Systeem>, stappen: seq<Stap>, n: nat)
    requires IsRun(ss, stappen) && n <= |stappen|
    ensures VersiesKloppen(ss[n].db.pakketten)
  {
    if n > 0 {
      RunVersies(ss, stappen, n - 1);
      assert Mogelijk(ss[n - 1], stappen[n - 1]);
      if stappen[n - 1].StelVast? {
        StelVastKlopt(ss[n - 1].db, stappen[n - 1].eisen, stappen[n - 1].nieuwId, stappen[n - 1].nu);
      }
    }
  }

  /** After every run, for each kunstwerk and kind, the versions are exactly 1..n, version n is the only
      established one, and it is what the query for the current package returns. */
  lemma PakketVersies(ss: seq<Systeem>, stappen: seq<Stap>, n: nat, k: string, s: EisenSoort)
    requires IsRun(ss, stappen) && n <= |stappen|
    ensures var v := Van(ss[n].db.pakketten, k, s);
      && (forall i :: 0 <= i < |v| ==> v[i].versie == i + 1)
      && (forall i :: 0 <= i < |v| ==> (v[i].status == Vastgesteld <==> i == |v| - 1))
      && GetCurrent(ss[n].db, k, s) == (if v == [] then None else Some(v[|v| - 1]))
      && NextVersion(ss[n].db, k, s) == |v| + 1
  {
    RunVersies(ss, stappen, n);
    assert Reeks(Van(ss[n].db.pakketten, k, s));
    ReeksQueries(Van(ss[n].db.pakketten, k, s));
  }

  /** `v'` starts with the packages of `v`. */
  ghost predicate Voortgezet(v: seq<Pakket>, v': seq<Pakket>) {
    |v| <= |v'| && forall i :: 0 <= i < |v| ==> Zelfde(v[i], v'[i])
  }

  lemma StapBehoudtVersies(x: Systeem, stap: Stap, k: string, s: EisenSoort)
    requires VersiesKloppen(x.db.pakketten) && Mogelijk(x, stap)
    ensures Voortgezet(Van(x.db.pakketten, k, s), Van(Na(x, stap).db.pakketten, k, s))
  {
    if stap.StelVast? && NaStelEisenVast(x.db, stap.eisen, stap.nieuwId, stap.nu).1.Ok? {
      StelVastReeks(x.db, stap.eisen, stap.nieuwId, stap.nu, k, s);
    }
  }

  lemma VoortgezetKeten(u: seq<Pakket>, v: seq<Pakket>, w: seq<Pakket>)
    requires Voortgezet(u, v) && Voortgezet(v, w)
    ensures Voortgezet(u, w)
  {
    assert forall i :: 0 <= i < |u| ==> Zelfde(u[i], v[i]) && Zelfde(v[i], w[i]);
  }

  lemma RunStapBehoudt(ss: seq<Systeem>, stappen: seq<Stap>, m: nat, k: string, s: EisenSoort)
    requires IsRun(ss, stappen) && m < |stappen|
    ensures Voortgezet(Van(ss[m].db.pakketten, k, s), Van(ss[m + 1].db.pakketten, k, s))
  {
    RunVersies(ss, stappen, m);
    StapBehoudtVersies(ss[m], stappen[m], k, s);
  }

  /** No version is ever lost or rewritten: a later series starts with the same packages. */
  lemma VersiesBlijven(ss: seq<Systeem>, stappen: seq<Stap>, n: nat, m: nat, k: string, s: EisenSoort)
    requires IsRun(ss, stappen) && n <= m <= |stappen|
    ensures Voortgezet(Van(ss[n].db.pakketten, k, s), Van(ss[m].db.pakketten, k, s))
  {
    var eerst := Van(ss[n].db.pakketten, k, s);
    var j := n;
    while j < m
      invariant n <= j <= m
      invariant Voortgezet(eerst, Van(ss[j].db.pakketten, k, s))
    {
      RunStapBehoudt(ss, stappen, j, k, s);
      VoortgezetKeten(eerst, Van(ss[j].db.pakketten, k, s), Van(ss[j + 1].db.pakketten, k, s));
      j := j + 1;
    }
  }

  // ---------- judgements ----------

  ghost predicate EenPerEvent(beoordelingen: seq<Beoordeling>) {
    forall i, j :: 0 <= i < j < |beoordelingen| ==> beoordelingen[i].bronEventId != beoordelingen[j].bronEventId
  }

  ghost predicate VerwerktIsBeoordeeld(g: Gegevens) {
    forall id: string :: id in g.verwerkt <==> exists b :: b in g.beoordelingen && b.bronEventId == id
  }

  ghost predicate BeoordelingenKloppen(g: Gegevens) {
    EenPerEvent(g.beoordelingen) && VerwerktIsBeoordeeld(g)
  }

  lemma {:induction false} GetByBronPlus(beoordelingen: seq<Beoordeling>, b: Beoordeling, id: string)
    ensures GetByBron(beoordelingen + [b], id) ==
      if GetByBron(beoordelingen, id).Some? then GetByBron(beoordelingen, id)
      else if b.bronEventId == id then Some(b) else None
    decreases |beoordelingen|
  {
    if beoordelingen == [] {
      assert ([b])[1..] == [];
    } else {
      GetByBronPlus(beoordelingen[1..], b, id);
      assert (beoordelingen + [b])[1..] == beoordelingen[1..] + [b];
    }
  }

  lemma VerwerkKlopt(g: Gegevens, c: RapportCommand, id: string, nu: int)
    requires BeoordelingenKloppen(g)
    ensures BeoordelingenKloppen(NaVerwerkRapport(g, c, id, nu).0)
    ensures NaVerwerkRapport(g, c, id, nu).1 != Err(Conflict)
  {
    var (g', r) := NaVerwerkRapport(g, c, id, nu);
    if GetByBron(g.beoordelingen, c.bronEventId) == None {
      assert c.bronEventId !in g.verwerkt;
    }
    if g' != g {
      var b := r.value;
      assert g'.beoordelingen == g.beoordelingen + [b];
      forall e: string
        ensures e in g'.verwerkt <==> exists x :: x in g'.beoordelingen && x.bronEventId == e
      {
        if e in g.verwerkt {
          var x :| x in g.beoordelingen && x.bronEventId == e;
          assert x in g'.beoordelingen;
        } else if e == c.bronEventId {
          assert b in g'.beoordelingen;
        }
      }
    }
  }

  lemma {:induction false} RunBeoordelingen(ss: seq<Systeem>, stappen: seq<Stap>, n: nat)
    requires IsRun(ss, stappen) && n <= |stappen|
    ensures BeoordelingenKloppen(ss[n].db)
  {
    if n > 0 {
      RunBeoordelingen(ss, stappen, n - 1);
      var s, stap := ss[n - 1], stappen[n - 1];
      assert Mogelijk(s, stap);
      match stap
      case Lever(i, id, nu, _) => VerwerkKlopt(s.db, s.rij[i], id, nu);
      case StelVast(c, id, nu) => MetVervangenIds(s.db, c.kunstwerkId, c.soort, nu);
      case _ =>
    }
  }

  /** In every run, with republishing, redelivery and crashes: at most one judgement per event, the
      processed events are exactly the judged ones, and so the conflict branch is never taken. */
  lemma HoogstensEenBeoordeling(ss: seq<Systeem>, stappen: seq<Stap>, n: nat, c: RapportCommand, id: string, nu: int)
    requires IsRun(ss, stappen) && n <= |stappen|
    ensures forall i, j :: 0 <= i < j < |ss[n].db.beoordelingen| ==>
      ss[n].db.beoordelingen[i].bronEventId != ss[n].db.beoordelingen[j].bronEventId
    ensures forall e: string :: e in ss[n].db.verwerkt <==>
      exists b :: b in ss[n].db.beoordelingen && b.bronEventId == e
    ensures NaVerwerkRapport(ss[n].db, c, id, nu).1 != Err(Conflict)
  {
    RunBeoordelingen(ss, stappen, n);
    VerwerkKlopt(ss[n].db, c, id, nu);
  }

  /** One step keeps every judgement as it is. */
  lemma BeoordelingBlijft(s: Systeem, stap: Stap, id: string)
    requires Mogelijk(s, stap) && GetByBron(s.db.beoordelingen, id).Some?
    ensures GetByBron(Na(s, stap).db.beoordelingen, id) == GetByBron(s.db.beoordelingen, id)
  {
    match stap
    case StelVast(c, id', nu) => MetVervangenIds(s.db, c.kunstwerkId, c.soort, nu);
    case Lever(i, id', nu, _) =>
      var (g', r) := NaVerwerkRapport(s.db, s.rij[i], id', nu);
      if g' != s.db {
        GetByBronPlus(s.db.beoordelingen, r.value, id);
      }
    case _ =>
  }

  /** A replay at any later time, also after the requirements were replaced, returns the judgement made
      the first time and changes nothing. */
  lemma {:induction false} HerhalingGeeftHetzelfde(ss: seq<Systeem>, stappen: seq<Stap>, n: nat, m: nat,
      c: RapportCommand, id: string, nu: int)
    requires IsRun(ss, stappen) && n <= m <= |stappen| && !Blanco(c.kunstwerkId)
    requires GetByBron(ss[n].db.beoordelingen, c.bronEventId).Some?
    ensures NaVerwerkRapport(ss[m].db, c, id, nu) ==
      (ss[m].db, Ok(GetByBron(ss[n].db.beoordelingen, c.bronEventId).value))
    decreases m
  {
    if n < m {
      HerhalingGeeftHetzelfde(ss, stappen, n, m - 1, c, id, nu);
      BeoordelingBlijft(ss[m - 1], stappen[m - 1], c.bronEventId);
    }
  }

  /** A fresh judgement records the verdict on the package that is current at that moment. */
  lemma BeoordelingVolgtPakket(ss: seq<Systeem>, stappen: seq<Stap>, n: nat, c: RapportCommand, id: string, nu: int)
    requires IsRun(ss, stappen) && n <= |stappen|
    requires NaVerwerkRapport(ss[n].db, c, id, nu).1.Ok? && NaVerwerkRapport(ss[n].db, c, id, nu).0 != ss[n].db
    ensures var b, v := NaVerwerkRapport(ss[n].db, c, id, nu).1.value, Van(ss[n].db.pakketten, c.kunstwerkId, c.soort);
      && (v == [] ==> b.pakketId == None && b.resultaat == NietTeBeoordelen)
      && (v != [] ==> b.pakketId == Some(v[|v| - 1].id))
      && (v != [] ==> (b.resultaat, b.bevindingen) == Oordeel(Some(v[|v| - 1].eisen), c.waarden))
  {
    PakketVersies(ss, stappen, n, c.kunstwerkId, c.soort);
  }

  predicate Aanvaardbaar(c: RapportCommand) {
    !Blanco(c.kunstwerkId) && !Blanco(c.externRapportId) && !Blanco(c.bronEventId)
  }

  /** The step is a delivery of `c` that is acknowledged. */
  predicate Afgeleverd(s: Systeem, stap: Stap, c: RapportCommand) {
    stap.Lever? && stap.i < |s.rij| && s.rij[stap.i] == c && stap.stop == Geen
  }

  /** The step delivers a report on event `id`, as far as the commit, while its kunstwerk is registered. */
  predicate Oordeelt(s: Systeem, stap: Stap, id: string) {
    && stap.Lever? && stap.i < |s.rij| && stap.stop != VoorCommit && !Blanco(stap.nieuwId)
    && var c := s.rij[stap.i]; c.bronEventId == id && Aanvaardbaar(c) && c.kunstwerkId in s.db.kunstwerken
  }

  predicate Beoordeeld(s: Systeem, id: string) {
    GetByBron(s.db.beoordelingen, id).Some?
  }

  /** A judgement on an event comes from such a delivery and from nothing else. */
  lemma StapOordeelt(s: Systeem, stap: Stap, id: string)
    requires Mogelijk(s, stap) && BeoordelingenKloppen(s.db)
    ensures Beoordeeld(Na(s, stap), id) <==> Beoordeeld(s, id) || Oordeelt(s, stap, id)
  {
    if Beoordeeld(s, id) {
      BeoordelingBlijft(s, stap, id);
    }
    match stap
    case StelVast(e, nieuwId, nu) => MetVervangenIds(s.db, e.kunstwerkId, e.soort, nu);
    case Lever(i, nieuwId, nu, stop) =>
      var c := s.rij[i];
      VerwerkKlopt(s.db, c, nieuwId, nu);
      GetByBronPlus(s.db.beoordelingen, NieuweBeoordeling(s.db, c, nieuwId, nu), id);
    case _ =>
  }

  lemma RunStap(ss: seq<Systeem>, stappen: seq<Stap>, n: nat)
    requires IsRun(ss, stappen) && n < |stappen|
    ensures Mogelijk(ss[n], stappen[n]) && ss[n + 1] == Na(ss[n], stappen[n])
  {
  }

  ghost predicate IsGeoordeeld(ss: seq<Systeem>, stappen: seq<Stap>, n: nat, id: string)
    requires n <= |stappen| && n <= |ss|
  {
    exists j :: 0 <= j < n && Oordeelt(ss[j], stappen[j], id)
  }

  /** In every run: an event has a judgement exactly when a report on it was delivered, as far as the commit, while
      its kunstwerk was registered. */
  lemma {:induction false} BeoordeeldPrecies(ss: seq<Systeem>, stappen: seq<Stap>, n: nat, id: string)
    requires IsRun(ss, stappen) && n <= |stappen|
    ensures Beoordeeld(ss[n], id) <==> IsGeoordeeld(ss, stappen, n, id)
  {
    if n > 0 {
      BeoordeeldPrecies(ss, stappen, n - 1, id);
      RunBeoordelingen(ss, stappen, n - 1);
      RunStap(ss, stappen, n - 1);
      StapOordeelt(ss[n - 1], stappen[n - 1], id);
      IsGeoordeeldPlus(ss, stappen, n - 1, id);
    }
  }

  lemma IsGeoordeeldPlus(ss: seq<Systeem>, stappen: seq<Stap>, n: nat, id: string)
    requires n < |stappen| && n < |ss|
    ensures IsGeoordeeld(ss, stappen, n + 1, id) <==>
      IsGeoordeeld(ss, stappen, n, id) || Oordeelt(ss[n], stappen[n], id)
  {
  }

  /** A queued report stays queued until it is acknowledged. */
  lemma StapHoudtInRij(s: Systeem, stap: Stap, c: RapportCommand)
    requires Mogelijk(s, stap) && c in s.rij
    ensures c in Na(s, stap).rij || Afgeleverd(s, stap, c)
  {
    if stap.Lever? && stap.stop == Geen && s.rij[stap.i] != c {
      var j :| 0 <= j < |s.rij| && s.rij[j] == c;
      assert Na(s, stap).rij[if j < stap.i then j else j - 1] == c;
    }
  }

  /** Whoever leaves the queue was acknowledged at some step, while still queued. */
  lemma {:induction false} AfgeleverdErgens(ss: seq<Systeem>, stappen: seq<Stap>, n: nat, m: nat, c: RapportCommand)
      returns (j: nat)
    requires IsRun(ss, stappen) && n < m <= |stappen| && stappen[n] == Publiceer(c) && c !in ss[m].rij
    ensures n < j < m && Afgeleverd(ss[j], stappen[j], c)
    decreases m
  {
    RunStap(ss, stappen, n);
    assert c in ss[n + 1].rij by {
      assert ss[n + 1].rij[|ss[n].rij|] == c;
    }
    RunStap(ss, stappen, m - 1);
    j := m - 1;
    if c in ss[m - 1].rij {
      StapHoudtInRij(ss[m - 1], stappen[m - 1], c);
    } else {
      j := AfgeleverdErgens(ss, stappen, n, m - 1, c);
    }
  }

  ghost predicate IsEnige(beoordelingen: seq<Beoordeling>, i: nat, id: string)
    requires i < |beoordelingen|
  {
    beoordelingen[i].bronEventId == id && forall j :: 0 <= j < |beoordelingen| && j != i ==>
      beoordelingen[j].bronEventId != id
  }

  /** Exactly once: a published report that is acknowledged only while its kunstwerk is registered has exactly one
      judgement as soon as no copy of it is queued any more, whatever was republished, redelivered or interrupted. */
  lemma PreciesEenBeoordeling(ss: seq<Systeem>, stappen: seq<Stap>, n: nat, m: nat, c: RapportCommand)
    requires IsRun(ss, stappen) && n < m <= |stappen| && stappen[n] == Publiceer(c)
    requires Aanvaardbaar(c) && c !in ss[m].rij
    requires forall j :: n < j < m && Afgeleverd(ss[j], stappen[j], c) ==>
      c.kunstwerkId in ss[j].db.kunstwerken && !Blanco(stappen[j].nieuwId)
    ensures exists i :: 0 <= i < |ss[m].db.beoordelingen| && IsEnige(ss[m].db.beoordelingen, i, c.bronEventId)
  {
    var j := AfgeleverdErgens(ss, stappen, n, m, c);
    assert Oordeelt(ss[j], stappen[j], c.bronEventId);
    BeoordeeldPrecies(ss, stappen, m, c.bronEventId);
    RunBeoordelingen(ss, stappen, m);
    var b := GetByBron(ss[m].db.beoordelingen, c.bronEventId).value;
    var i :| 0 <= i < |ss[m].db.beoordelingen| && ss[m].db.beoordelingen[i] == b;
    assert IsEnige(ss[m].db.beoordelingen, i, c.bronEventId);
  }
}
