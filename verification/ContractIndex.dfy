/** Onderhoud's index of current contracts, fed by contract.onderhoudscontract.* events. */
module ContractIndex {
  import opened Gedeeld
  import opened Dedup

  datatype Data =
    | Gegund(contractId: string, kunstwerkId: string, opdrachtnemer: string, looptijdStart: Option<int>,
      looptijdEind: Option<int>)
    | Afgerond(contractId: string)
    | Anders(contractId: string)

  datatype Envelop = Envelop(eventId: string, data: Data)

  datatype GeldendContract = GeldendContract(
    kunstwerkId: string, opdrachtnemer: string, looptijdStart: Option<int>, looptijdEind: Option<int>,
    actief: bool, bijgewerktOp: int)

  type Rijen = map<string, GeldendContract>

  /** The row for this grant is there already, active and with the same content. */
  predicate Onveranderd(rijen: Rijen, data: Data) {
    && data.Gegund? && data.contractId in rijen
    && var rij := rijen[data.contractId];
       rij == GeldendContract(data.kunstwerkId, data.opdrachtnemer, data.looptijdStart, data.looptijdEind, true,
         rij.bijgewerktOp)
  }

  /** `raakt` says whether saving a row without changes renews its date. */
  function Effect(rijen: Rijen, data: Data, nu: int, raakt: bool): (r: Rijen) {
    match data
    case Gegund(c, k, o, start, eind) =>
      if Onveranderd(rijen, data) && !raakt then rijen else rijen[c := GeldendContract(k, o, start, eind, true, nu)]
    case Afgerond(c) => if c in rijen then rijen[c := rijen[c].(actief := false, bijgewerktOp := nu)] else rijen
    case Anders(_) => rijen
  }

  datatype Index = Index(rijen: Rijen, verwerkt: set<string>)

  /** One delivery: skip a known event, otherwise effect and then mark, unless cut short. */
  function NaLevering(ix: Index, env: Envelop, nu: int, stop: Onderbreking, raakt: bool): (r: Index) {
    if env.eventId in ix.verwerkt || env.data.contractId == "" || stop == VoorEffect then ix
    else if stop == NaEffect then ix.(rijen := Effect(ix.rijen, env.data, nu, raakt))
    else Index(Effect(ix.rijen, env.data, nu, raakt), ix.verwerkt + {env.eventId})
  }

  class ContractenReadModel {
    var rijen: Rijen

    constructor ()
      ensures rijen == map[]
    {
      rijen := map[];
    }

    /** Saving writes only what differs; what it does to the date of an unchanged row is up to `raakt`. */
    method UpsertGegund(p: Data, nu: int, raakt: bool)
      requires p.Gegund?
      modifies this
      ensures rijen == Effect(old(rijen), p, nu, raakt)
    {
      if Onveranderd(rijen, p) && !raakt {
        return;
      }
      rijen := rijen[p.contractId :=
        GeldendContract(p.kunstwerkId, p.opdrachtnemer, p.looptijdStart, p.looptijdEind, true, nu)];
    }

    method MarkeerAfgerond(contractId: string, nu: int)
      modifies this
      ensures rijen == Effect(old(rijen), Afgerond(contractId), nu, true)
    {
      if contractId in rijen {
        rijen := rijen[contractId := rijen[contractId].(actief := false, bijgewerktOp := nu)];
      }
    }
  }

  class ContractVerwerker {
    const store: ContractenReadModel
    const dedup: EventDedup

    constructor (store: ContractenReadModel, dedup: EventDedup)
      ensures this.store == store && this.dedup == dedup
    {
      this.store, this.dedup := store, dedup;
    }

    /** `stop` says where the process dies, if it does. */
    method Verwerk(env: Envelop, nu: int, stop: Onderbreking, raakt: bool)
      modifies store, dedup
      ensures Index(store.rijen, dedup.verwerkt) ==
        NaLevering(Index(old(store.rijen), old(dedup.verwerkt)), env, nu, stop, raakt)
    {
      if dedup.IsVerwerkt(env.eventId) || env.data.contractId == "" || stop == VoorEffect {
        return;
      }
      match env.data {
        case Gegund(_, _, _, _, _) => store.UpsertGegund(env.data, nu, raakt);
        case Afgerond(c) => store.MarkeerAfgerond(c, nu);
        case Anders(_) =>
      }
      if stop == NaEffect {
        return;
      }
      dedup.MarkeerVerwerkt(env.eventId);
    }
  }

  /** The database's answer to "the active row for `k`, newest first". */
  ghost predicate IsAntwoord(rijen: Rijen, k: string, r: Option<(string, string)>) {
    match r
    case None => forall c :: c in rijen && rijen[c].actief ==> rijen[c].kunstwerkId != k
    case Some((c, opdrachtnemer)) =>
      && c in rijen && rijen[c].actief && rijen[c].kunstwerkId == k && rijen[c].opdrachtnemer == opdrachtnemer
      && forall d :: d in rijen && rijen[d].actief && rijen[d].kunstwerkId == k ==>
        rijen[d].bijgewerktOp <= rijen[c].bijgewerktOp
  }

  // ---------- what the source context says ----------

  ghost predicate IsAfgerond(p: seq<Envelop>, c: string) {
    exists e :: e in p && e.data == Afgerond(c)
  }

  /** What Contract promises of its log: unique event ids, no empty contract ids, every contract is
      granted at most once and rounded off only after that. */
  ghost predicate Wettig(log: seq<Envelop>) {
    && (forall i :: 0 <= i < |log| ==> log[i].data.contractId != "")
    && (forall i, j :: 0 <= i < j < |log| ==> log[i].eventId != log[j].eventId)
    && (forall i, j :: 0 <= i < j < |log| && log[j].data.Gegund? && !log[i].data.Anders? ==>
      log[i].data.contractId != log[j].data.contractId)
  }

  /** The most recent grant for `k` among the first `n` events that `p` has not rounded off. */
  ghost function LaatsteGunning(p: seq<Envelop>, k: string, n: nat): (r: Option<(string, string)>)
    requires n <= |p|
  {
    if n == 0 then None
    else
      var d := p[n - 1].data;
      if d.Gegund? && d.kunstwerkId == k && !IsAfgerond(p, d.contractId) then Some((d.contractId, d.opdrachtnemer))
      else LaatsteGunning(p, k, n - 1)
  }

  ghost function GeldendVolgensBron(p: seq<Envelop>, k: string): (r: Option<(string, string)>) {
    LaatsteGunning(p, k, |p|)
  }

  // ---------- the index agrees with a prefix of the log ----------

  ghost predicate Toegekend(p: seq<Envelop>, c: string) {
    exists i :: 0 <= i < |p| && p[i].data.Gegund? && p[i].data.contractId == c
  }

  ghost predicate RijKlopt(rijen: Rijen, d: Data, klok: int)
    requires d.Gegund?
  {
    && d.contractId in rijen
    && var rij := rijen[d.contractId];
       rij == GeldendContract(d.kunstwerkId, d.opdrachtnemer, d.looptijdStart, d.looptijdEind, rij.actief,
         rij.bijgewerktOp)
       && rij.bijgewerktOp <= klok
  }

  ghost predicate Inhoud(rijen: Rijen, p: seq<Envelop>, klok: int) {
    && (forall c :: c in rijen ==> Toegekend(p, c))
    && (forall i :: 0 <= i < |p| && p[i].data.Gegund? ==>
          RijKlopt(rijen, p[i].data, klok)
            && rijen[p[i].data.contractId].actief == !IsAfgerond(p, p[i].data.contractId))
  }

  /** Active rows carry update times in the order of their grants. */
  ghost predicate Tijdvolgorde(rijen: Rijen, p: seq<Envelop>) {
    forall i, j :: 0 <= i < j < |p| && Loopt(rijen, p[i]) && Loopt(rijen, p[j]) ==>
      rijen[p[i].data.contractId].bijgewerktOp < rijen[p[j].data.contractId].bijgewerktOp
  }

  ghost predicate Loopt(rijen: Rijen, e: Envelop) {
    e.data.Gegund? && e.data.contractId in rijen && rijen[e.data.contractId].actief
  }

  ghost predicate Klopt(rijen: Rijen, p: seq<Envelop>, klok: int) {
    Inhoud(rijen, p, klok) && Tijdvolgorde(rijen, p)
  }

  /** Agreement with `p` except for the row that the next event `e` writes, which may hold either the
      old or the new content: what is known before `e` is applied, for the first time or again. */
  ghost predicate BijnaKlopt(rijen: Rijen, p: seq<Envelop>, e: Envelop, klok: int) {
    && (forall c :: c in rijen ==> Toegekend(p, c) || (e.data.Gegund? && c == e.data.contractId))
    && (forall i :: 0 <= i < |p| && p[i].data.Gegund? ==>
          && RijKlopt(rijen, p[i].data, klok)
          && (Afgerond(p[i].data.contractId) != e.data ==>
            rijen[p[i].data.contractId].actief == !IsAfgerond(p, p[i].data.contractId)))
    && Tijdvolgorde(rijen, p)
  }

  lemma AfgerondPlus(p: seq<Envelop>, e: Envelop, c: string)
    ensures IsAfgerond(p + [e], c) <==> IsAfgerond(p, c) || e.data == Afgerond(c)
  {
    if IsAfgerond(p, c) {
      var x :| x in p && x.data == Afgerond(c);
      assert x in p + [e];
    }
    if e.data == Afgerond(c) {
      assert e in p + [e];
    }
  }

  lemma ToegekendPlus(p: seq<Envelop>, e: Envelop, c: string)
    ensures Toegekend(p + [e], c) <==> Toegekend(p, c) || (e.data.Gegund? && e.data.contractId == c)
  {
    var q := p + [e];
    if Toegekend(p, c) {
      var i :| 0 <= i < |p| && p[i].data.Gegund? && p[i].data.contractId == c;
      assert q[i] == p[i];
    }
    if e.data.Gegund? && e.data.contractId == c {
      assert q[|p|] == e;
    }
  }

  lemma GunningIsNieuw(p: seq<Envelop>, e: Envelop)
    requires Wettig(p + [e]) && e.data.Gegund?
    ensures !IsAfgerond(p, e.data.contractId) && !Toegekend(p, e.data.contractId)
  {
    var q := p + [e];
    assert forall i :: 0 <= i < |p| ==> q[i] == p[i] && q[|p|] == e;
    assert forall x :: x in p ==> exists i :: 0 <= i < |p| && q[i] == x;
  }

  lemma EersteKeer(rijen: Rijen, p: seq<Envelop>, e: Envelop, klok: int)
    requires Klopt(rijen, p, klok)
    ensures BijnaKlopt(rijen, p, e, klok)
  {
  }

  lemma NogEens(rijen: Rijen, p: seq<Envelop>, e: Envelop, klok: int)
    requires Klopt(rijen, p + [e], klok)
    ensures BijnaKlopt(rijen, p, e, klok)
  {
    var q := p + [e];
    forall c ensures IsAfgerond(q, c) <==> IsAfgerond(p, c) || e.data == Afgerond(c) { AfgerondPlus(p, e, c); }
    forall c ensures Toegekend(q, c) <==>
      Toegekend(p, c) || (e.data.Gegund? && e.data.contractId == c) { ToegekendPlus(p, e, c); }
    assert forall i :: 0 <= i < |p| ==> q[i] == p[i];
  }

  lemma EffectInhoud(rijen: Rijen, p: seq<Envelop>, e: Envelop, klok: int, nu: int)
    requires Wettig(p + [e]) && BijnaKlopt(rijen, p, e, klok) && nu > klok
    ensures Inhoud(Effect(rijen, e.data, nu, true), p + [e], nu)
  {
    var q, na := p + [e], Effect(rijen, e.data, nu, true);
    forall c ensures Toegekend(q, c) <==>
      Toegekend(p, c) || (e.data.Gegund? && e.data.contractId == c) { ToegekendPlus(p, e, c); }
    if e.data.Gegund? {
      GunningIsNieuw(p, e);
      AfgerondPlus(p, e, e.data.contractId);
    }
    forall i | 0 <= i < |q| && q[i].data.Gegund?
      ensures RijKlopt(na, q[i].data, nu) && na[q[i].data.contractId].actief == !IsAfgerond(q, q[i].data.contractId)
    {
      if i < |p| {
        assert q[i] == p[i] && Toegekend(p, p[i].data.contractId);
        AfgerondPlus(p, e, p[i].data.contractId);
      }
    }
  }

  lemma EffectTijd(rijen: Rijen, p: seq<Envelop>, e: Envelop, klok: int, nu: int)
    requires Wettig(p + [e]) && BijnaKlopt(rijen, p, e, klok) && nu > klok
    ensures Tijdvolgorde(Effect(rijen, e.data, nu, true), p + [e])
  {
    var q, na := p + [e], Effect(rijen, e.data, nu, true);
    if e.data.Gegund? {
      GunningIsNieuw(p, e);
    }
    forall i, j | 0 <= i < j < |q| && Loopt(na, q[i]) && Loopt(na, q[j])
      ensures na[q[i].data.contractId].bijgewerktOp < na[q[j].data.contractId].bijgewerktOp
    {
      assert q[i] == p[i] && Toegekend(p, p[i].data.contractId) && Loopt(rijen, p[i]);
      assert RijKlopt(rijen, p[i].data, klok);
      if j < |p| {
        assert q[j] == p[j] && Toegekend(p, p[j].data.contractId) && Loopt(rijen, p[j]);
      }
    }
  }

  /** Applying the next event of the log, for the first time or after a crash once more, brings the
      index to that event. */
  lemma EffectKlopt(rijen: Rijen, p: seq<Envelop>, e: Envelop, klok: int, nu: int, raakt: bool)
    requires Wettig(p + [e]) && nu > klok
    requires Klopt(rijen, p, klok) || Klopt(rijen, p + [e], klok)
    ensures Klopt(Effect(rijen, e.data, nu, raakt), p + [e], nu)
  {
    if Klopt(rijen, p + [e], klok) && Onveranderd(rijen, e.data) && !raakt {
      KloptLater(rijen, p + [e], klok, nu);
    } else {
      if Klopt(rijen, p, klok) {
        EersteKeer(rijen, p, e, klok);
        EersteKeerNieuw(rijen, p, e, klok);
      } else {
        NogEens(rijen, p, e, klok);
      }
      EffectInhoud(rijen, p, e, klok, nu);
      EffectTijd(rijen, p, e, klok, nu);
    }
  }

  /** The first time, a grant finds no row of its own. */
  lemma EersteKeerNieuw(rijen: Rijen, p: seq<Envelop>, e: Envelop, klok: int)
    requires Wettig(p + [e]) && Klopt(rijen, p, klok)
    ensures !Onveranderd(rijen, e.data)
  {
    if e.data.Gegund? {
      GunningIsNieuw(p, e);
    }
  }

  /** An index that agrees with `p` answers every question as the log does. */
  lemma KloptIsAntwoord(rijen: Rijen, p: seq<Envelop>, klok: int, k: string, r: Option<(string, string)>)
    requires Wettig(p) && Klopt(rijen, p, klok) && IsAntwoord(rijen, k, r)
    ensures r == GeldendVolgensBron(p, k)
  {
    if r.Some? {
      var c := r.value.0;
      assert Toegekend(p, c);
      var i :| 0 <= i < |p| && p[i].data.Gegund? && p[i].data.contractId == c;
      assert RijKlopt(rijen, p[i].data, klok) && Loopt(rijen, p[i]);
      forall j | i < j < |p| && p[j].data.Gegund? && p[j].data.kunstwerkId == k
        ensures IsAfgerond(p, p[j].data.contractId)
      {
        assert RijKlopt(rijen, p[j].data, klok);
      }
      LaatsteIs(p, k, |p|, i);
    } else {
      forall j | 0 <= j < |p| && p[j].data.Gegund? && p[j].data.kunstwerkId == k
        ensures IsAfgerond(p, p[j].data.contractId)
      {
        assert RijKlopt(rijen, p[j].data, klok);
      }
      GeenLaatste(p, k, |p|);
    }
  }

  lemma {:induction false} LaatsteIs(p: seq<Envelop>, k: string, n: nat, i: nat)
    requires i < n <= |p| && p[i].data.Gegund? && p[i].data.kunstwerkId == k && !IsAfgerond(p, p[i].data.contractId)
    requires forall j :: i < j < n && p[j].data.Gegund? && p[j].data.kunstwerkId == k ==>
      IsAfgerond(p, p[j].data.contractId)
    ensures LaatsteGunning(p, k, n) == Some((p[i].data.contractId, p[i].data.opdrachtnemer))
  {
    if n - 1 != i {
      LaatsteIs(p, k, n - 1, i);
    }
  }

  lemma {:induction false} GeenLaatste(p: seq<Envelop>, k: string, n: nat)
    requires n <= |p|
    requires forall j :: 0 <= j < n && p[j].data.Gegund? && p[j].data.kunstwerkId == k ==>
      IsAfgerond(p, p[j].data.contractId)
    ensures LaatsteGunning(p, k, n) == None
  {
    if n > 0 {
      GeenLaatste(p, k, n - 1);
    }
  }

  // ---------- runs of queue and consumer ----------

  /** `gedaan` are the acknowledged messages, `rij` those still queued; `gedaan + rij` is everything
      that ever arrived. */
  datatype Systeem = Systeem(index: Index, gedaan: seq<Envelop>, rij: seq<Envelop>, klok: int)

  /** `Elders` is another consumer that marks an event of its own in the shared table. */
  datatype Stap = Bezorg(env: Envelop) | Lever(nu: int, stop: Onderbreking, raakt: bool) | Elders(eventId: string)

  ghost predicate Mogelijk(s: Systeem, stap: Stap, log: seq<Envelop>) {
    match stap
    case Bezorg(_) => true
    case Lever(nu, _, _) => s.rij != [] && nu > s.klok
    case Elders(id) => forall e :: e in log ==> e.eventId != id
  }

  function Na(s: Systeem, stap: Stap): (r: Systeem)
    requires stap.Lever? ==> s.rij != []
  {
    match stap
    case Bezorg(env) => s.(rij := s.rij + [env])
    case Lever(nu, stop, raakt) =>
      var s' := s.(index := NaLevering(s.index, s.rij[0], nu, stop, raakt), klok := nu);
      if stop == Geen then s'.(gedaan := s.gedaan + [s.rij[0]], rij := s.rij[1..]) else s'
    case Elders(id) => s.(index := s.index.(verwerkt := s.index.verwerkt + {id}))
  }

  const BEGIN := Systeem(Index(map[], {}), [], [], 0)

  ghost predicate IsRun(ss: seq<Systeem>, stappen: seq<Stap>, log: seq<Envelop>) {
    && |ss| == |stappen| + 1
    && ss[0] == BEGIN
    && forall n :: 0 <= n < |stappen| ==> Mogelijk(ss[n], stappen[n], log) && ss[n + 1] == Na(ss[n], stappen[n])
  }

  ghost predicate DedupKlopt(verwerkt: set<string>, log: seq<Envelop>, p: seq<Envelop>) {
    forall e :: e in log ==> (e.eventId in verwerkt <==> e in p)
  }

  /** Index and marks agree with the events of `p`. */
  ghost predicate Bij(ix: Index, log: seq<Envelop>, p: seq<Envelop>, klok: int) {
    DedupKlopt(ix.verwerkt, log, p) && Klopt(ix.rijen, p, klok)
  }

  /** The next event `h` has been applied to the index but is not acknowledged, with or without its mark. */
  ghost predicate Halverwege(ix: Index, log: seq<Envelop>, p: seq<Envelop>, h: Envelop, klok: int) {
    Klopt(ix.rijen, p + [h], klok) && (DedupKlopt(ix.verwerkt, log, p) || DedupKlopt(ix.verwerkt, log, p + [h]))
  }

  ghost predicate Inv(s: Systeem, log: seq<Envelop>) {
    || Bij(s.index, log, Eersten(s.gedaan), s.klok)
    || (s.rij != [] && s.rij[0] !in s.gedaan && Halverwege(s.index, log, Eersten(s.gedaan), s.rij[0], s.klok))
  }

  lemma WettigPrefix(p: seq<Envelop>, log: seq<Envelop>)
    requires Wettig(log) && p <= log
    ensures Wettig(p)
  {
    assert forall i :: 0 <= i < |p| ==> p[i] == log[i];
  }

  lemma KloptLater(rijen: Rijen, p: seq<Envelop>, klok: int, nu: int)
    requires Klopt(rijen, p, klok) && nu >= klok
    ensures Klopt(rijen, p, nu)
  {
    assert forall i :: 0 <= i < |p| && p[i].data.Gegund? ==> RijKlopt(rijen, p[i].data, klok);
  }

  lemma DedupPlus(verwerkt: set<string>, log: seq<Envelop>, p: seq<Envelop>, h: Envelop)
    requires Wettig(log) && h in log && DedupKlopt(verwerkt, log, p)
    ensures DedupKlopt(verwerkt + {h.eventId}, log, p + [h])
  {
    forall e | e in log
      ensures e.eventId in verwerkt + {h.eventId} <==> e in p + [h]
    {
      if e.eventId == h.eventId {
        var i, j :| 0 <= i < |log| && 0 <= j < |log| && log[i] == e && log[j] == h;
        assert i == j;
      }
    }
  }

  lemma KopInLog(gedaan: seq<Envelop>, h: Envelop, rest: seq<Envelop>, log: seq<Envelop>)
    requires Eersten(gedaan + [h] + rest) <= log
    ensures h in log && Eersten(gedaan + [h]) <= log
  {
    EerstenPrefix(gedaan + [h], rest);
    assert h in gedaan + [h];
    assert h in Eersten(gedaan + [h]);
  }

  /** The head of the queue, when new, is the next event of the log. */
  lemma KopIsVolgende(s: Systeem, log: seq<Envelop>)
    requires Eersten(s.gedaan + s.rij) <= log && s.rij != []
    ensures s.rij[0] in log && Eersten(s.gedaan) <= log
    ensures s.rij[0] !in s.gedaan ==> Eersten(s.gedaan) + [s.rij[0]] <= log
    ensures Eersten(s.gedaan + [s.rij[0]]) == if s.rij[0] in s.gedaan then Eersten(s.gedaan)
      else Eersten(s.gedaan) + [s.rij[0]]
  {
    var h := s.rij[0];
    assert s.gedaan + s.rij == s.gedaan + [h] + s.rij[1..];
    KopInLog(s.gedaan, h, s.rij[1..], log);
    EerstenPlus(s.gedaan, h);
  }

  lemma WettigGenoemd(log: seq<Envelop>, h: Envelop)
    requires Wettig(log) && h in log
    ensures h.data.contractId != ""
  {
  }

  lemma LeverBekend(s: Systeem, log: seq<Envelop>, nu: int, stop: Onderbreking, raakt: bool)
    requires s.rij != [] && s.rij[0] in log && s.rij[0] in s.gedaan && nu > s.klok && Inv(s, log)
    requires Eersten(s.gedaan + [s.rij[0]]) == Eersten(s.gedaan)
    ensures Inv(Na(s, Lever(nu, stop, raakt)), log)
  {
    assert s.rij[0] in Eersten(s.gedaan);
    KloptLater(s.index.rijen, Eersten(s.gedaan), s.klok, nu);
  }

  lemma BijLater(ix: Index, log: seq<Envelop>, p: seq<Envelop>, klok: int, nu: int)
    requires Bij(ix, log, p, klok) && nu >= klok
    ensures Bij(ix, log, p, nu)
  {
    KloptLater(ix.rijen, p, klok, nu);
  }

  lemma HalverwegeLater(ix: Index, log: seq<Envelop>, p: seq<Envelop>, h: Envelop, klok: int, nu: int)
    requires Halverwege(ix, log, p, h, klok) && nu >= klok
    ensures Halverwege(ix, log, p, h, nu)
  {
    KloptLater(ix.rijen, p + [h], klok, nu);
  }

  /** A head that is marked already is skipped. */
  lemma GemerkteKop(ix: Index, log: seq<Envelop>, p: seq<Envelop>, h: Envelop, klok: int)
    requires h in log && h !in p && h.eventId in ix.verwerkt
    requires Bij(ix, log, p, klok) || Halverwege(ix, log, p, h, klok)
    ensures Bij(ix, log, p + [h], klok) && Halverwege(ix, log, p, h, klok)
  {
  }

  lemma OngemerkteKop(ix: Index, log: seq<Envelop>, p: seq<Envelop>, h: Envelop, klok: int)
    requires h in log && h !in p && h.eventId !in ix.verwerkt
    requires Bij(ix, log, p, klok) || Halverwege(ix, log, p, h, klok)
    ensures DedupKlopt(ix.verwerkt, log, p) && (Klopt(ix.rijen, p, klok) || Klopt(ix.rijen, p + [h], klok))
  {
    assert h in p + [h];
  }

  lemma LeverNieuw(ix: Index, log: seq<Envelop>, p: seq<Envelop>, h: Envelop, klok: int, nu: int, stop: Onderbreking,
      raakt: bool)
    requires Wettig(log) && Wettig(p + [h]) && h in log && h !in p && h.data.contractId != "" && nu > klok
    requires Bij(ix, log, p, klok) || Halverwege(ix, log, p, h, klok)
    ensures stop == Geen ==> Bij(NaLevering(ix, h, nu, stop, raakt), log, p + [h], nu)
    ensures Bij(NaLevering(ix, h, nu, stop, raakt), log, p, nu)
      || Halverwege(NaLevering(ix, h, nu, stop, raakt), log, p, h, nu)
  {
    if h.eventId in ix.verwerkt {
      GemerkteKop(ix, log, p, h, klok);
      BijLater(ix, log, p + [h], klok, nu);
      HalverwegeLater(ix, log, p, h, klok, nu);
    } else if stop == VoorEffect {
      if Bij(ix, log, p, klok) {
        BijLater(ix, log, p, klok, nu);
      } else {
        HalverwegeLater(ix, log, p, h, klok, nu);
      }
    } else {
      OngemerkteKop(ix, log, p, h, klok);
      DedupPlus(ix.verwerkt, log, p, h);
      EffectKlopt(ix.rijen, p, h, klok, nu, raakt);
    }
  }

  lemma LeverVers(s: Systeem, log: seq<Envelop>, nu: int, stop: Onderbreking, raakt: bool)
    requires s.rij != [] && s.rij[0] in log && s.rij[0] !in s.gedaan && nu > s.klok && Inv(s, log)
    requires Wettig(log) && Wettig(Eersten(s.gedaan) + [s.rij[0]])
    requires Eersten(s.gedaan + [s.rij[0]]) == Eersten(s.gedaan) + [s.rij[0]]
    ensures Inv(Na(s, Lever(nu, stop, raakt)), log)
  {
    WettigGenoemd(log, s.rij[0]);
    LeverNieuw(s.index, log, Eersten(s.gedaan), s.rij[0], s.klok, nu, stop, raakt);
  }

  lemma LeverInv(s: Systeem, log: seq<Envelop>, nu: int, stop: Onderbreking, raakt: bool)
    requires Wettig(log) && Eersten(s.gedaan + s.rij) <= log
    requires s.rij != [] && nu > s.klok && Inv(s, log)
    ensures Inv(Na(s, Lever(nu, stop, raakt)), log)
  {
    KopIsVolgende(s, log);
    if s.rij[0] in s.gedaan {
      LeverBekend(s, log, nu, stop, raakt);
    } else {
      WettigPrefix(Eersten(s.gedaan) + [s.rij[0]], log);
      LeverVers(s, log, nu, stop, raakt);
    }
  }

  lemma StapInv(s: Systeem, stap: Stap, log: seq<Envelop>)
    requires Wettig(log) && Eersten(s.gedaan + s.rij) <= log
    requires Mogelijk(s, stap, log) && Inv(s, log)
    ensures Inv(Na(s, stap), log)
  {
    match stap
    case Bezorg(_) =>
    case Lever(nu, stop, raakt) => LeverInv(s, log, nu, stop, raakt);
    case Elders(_) =>
  }

  lemma AanvoerGroeit(s: Systeem, stap: Stap)
    requires stap.Lever? ==> s.rij != []
    ensures s.gedaan + s.rij <= Na(s, stap).gedaan + Na(s, stap).rij
  {
    if stap.Lever? {
      assert s.gedaan + s.rij == s.gedaan + [s.rij[0]] + s.rij[1..];
    }
    if stap.Bezorg? {
      assert s.gedaan + (s.rij + [stap.env]) == (s.gedaan + s.rij) + [stap.env];
    }
  }

  /** In every run, with republishing, redelivery and a crash at any point of any delivery. */
  lemma {:induction false} RunInv(ss: seq<Systeem>, stappen: seq<Stap>, log: seq<Envelop>, n: nat)
    requires IsRun(ss, stappen, log) && n <= |stappen| && Wettig(log)
    requires Eersten(ss[n].gedaan + ss[n].rij) <= log
    ensures Inv(ss[n], log)
  {
    if n == 0 {
      assert Eersten(ss[0].gedaan) == [];
    } else {
      var s, s', stap := ss[n - 1], ss[n], stappen[n - 1];
      assert Mogelijk(s, stap, log);
      AanvoerGroeit(s, stap);
      var oud, nieuw := s.gedaan + s.rij, s'.gedaan + s'.rij;
      assert nieuw == oud + nieuw[|oud|..];
      EerstenPrefix(oud, nieuw[|oud|..]);
      RunInv(ss, stappen, log, n - 1);
      StapInv(s, stap, log);
    }
  }

  /** Once the queue is drained, the current contract for every kunstwerk is the most recently granted
      one that is not rounded off, or none, by the events received so far: however often events were
      republished or redelivered and wherever the consumer crashed. */
  lemma IndexKlopt(ss: seq<Systeem>, stappen: seq<Stap>, log: seq<Envelop>, k: string, r: Option<(string, string)>)
    requires IsRun(ss, stappen, log) && Wettig(log)
    requires var s := ss[|stappen|]; s.rij == [] && Eersten(s.gedaan) <= log && IsAntwoord(s.index.rijen, k, r)
    ensures r == GeldendVolgensBron(Eersten(ss[|stappen|].gedaan), k)
  {
    var s := ss[|stappen|];
    assert s.gedaan + s.rij == s.gedaan;
    RunInv(ss, stappen, log, |stappen|);
    WettigPrefix(Eersten(s.gedaan), log);
    KloptIsAntwoord(s.index.rijen, Eersten(s.gedaan), s.klok, k, r);
  }

  /** No late duplicate revives a contract: from the moment its rounding off is acknowledged, the
      contract is inactive in every later state, drained or not. */
  lemma NooitHerleefd(ss: seq<Systeem>, stappen: seq<Stap>, log: seq<Envelop>, n: nat, c: string)
    requires IsRun(ss, stappen, log) && n <= |stappen| && Wettig(log)
    requires Eersten(ss[n].gedaan + ss[n].rij) <= log
    requires IsAfgerond(ss[n].gedaan, c)
    ensures c in ss[n].index.rijen ==> !ss[n].index.rijen[c].actief
  {
    var s := ss[n];
    RunInv(ss, stappen, log, n);
    var p := Eersten(s.gedaan);
    var x :| x in s.gedaan && x.data == Afgerond(c);
    assert x in p;
    var q := if Klopt(s.index.rijen, p, s.klok) then p else p + [s.rij[0]];
    assert x in q && IsAfgerond(q, c);
    if c in s.index.rijen {
      assert Toegekend(q, c);
      var i :| 0 <= i < |q| && q[i].data.Gegund? && q[i].data.contractId == c;
      assert RijKlopt(s.index.rijen, q[i].data, s.klok);
    }
  }

  /** A known event and an event without a contract id change nothing, not even the marks; any other one is marked once
      its delivery is acknowledged, whether or not it has an effect. */
  lemma AlleenNieuweMetContract(ix: Index, env: Envelop, nu: int, stop: Onderbreking, raakt: bool)
    ensures env.eventId in ix.verwerkt || env.data.contractId == "" ==> NaLevering(ix, env, nu, stop, raakt) == ix
    ensures env.data.contractId != "" ==> env.eventId in NaLevering(ix, env, nu, Geen, raakt).verwerkt
    ensures env.data.Anders? ==> NaLevering(ix, env, nu, stop, raakt).rijen == ix.rijen
  {
  }

  /** An effect touches the row of its own contract only. A grant leaves it active and dated now, unless the row held
      the same already; a rounding off leaves it inactive, dated now and otherwise as it was. */
  lemma EffectRaaktEigenRij(rijen: Rijen, data: Data, nu: int, raakt: bool)
    ensures var na := Effect(rijen, data, nu, raakt);
      && (forall c :: c != data.contractId ==> (c in na <==> c in rijen) && (c in rijen ==> na[c] == rijen[c]))
      && (data.Gegund? ==> data.contractId in na && na[data.contractId].actief)
      && (data.Gegund? && na[data.contractId].bijgewerktOp != nu ==> na == rijen && !raakt)
      && (data.Afgerond? ==> (data.contractId in na <==> data.contractId in rijen))
      && (data.Afgerond? && data.contractId in rijen ==>
           var oud, rij := rijen[data.contractId], na[data.contractId];
           rij.bijgewerktOp == nu && !rij.actief && rij == oud.(actief := false, bijgewerktOp := nu))
  {
  }
}
