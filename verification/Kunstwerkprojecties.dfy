/** The three local copies of Beheer's register: Contract, Monitoring and Onderhoud each keep a table
    of known kunstwerken from the same events, with slightly different stores. */
module Kunstwerkprojecties {
  import opened Gedeeld
  import opened Dedup

  datatype Soort =
    | Geregistreerd(type_: Option<string>, locatie: Option<string>)
    | Buitengebruikgesteld
    | EisenVastgesteld(eisen: seq<string>)
    | Anders

  datatype Envelop = Envelop(eventId: string, kunstwerkId: string, soort: Soort)

  datatype Rij = Rij(type_: Option<string>, locatie: Option<string>, inGebruik: bool)
  type Rijen = map<string, Rij>

  datatype Dienst = Contract | Monitoring | Onderhoud

  /** Contract's update leaves a column alone when the event does not carry it. */
  function Of(nieuw: Option<string>, oud: Option<string>): (r: Option<string>) {
    if nieuw.Some? then nieuw else oud
  }

  function Upsert(d: Dienst, rijen: Rijen, k: string, t: Option<string>, l: Option<string>): (r: Rijen) {
    if d == Contract && k in rijen then rijen[k := Rij(Of(t, rijen[k].type_), Of(l, rijen[k].locatie), true)]
    else rijen[k := Rij(t, l, true)]
  }

  /** Monitoring ignores an unknown kunstwerk; the other two insert a row for it. */
  function BuitenGebruik(d: Dienst, rijen: Rijen, k: string): (r: Rijen) {
    if k in rijen then rijen[k := rijen[k].(inGebruik := false)]
    else if d == Monitoring then rijen
    else rijen[k := Rij(None, None, false)]
  }

  function Effect(d: Dienst, rijen: Rijen, env: Envelop): (r: Rijen) {
    match env.soort
    case Geregistreerd(t, l) => Upsert(d, rijen, env.kunstwerkId, t, l)
    case Buitengebruikgesteld => BuitenGebruik(d, rijen, env.kunstwerkId)
    case _ => rijen
  }

  datatype Projectie = Projectie(rijen: Rijen, verwerkt: set<string>)

  predicate InGebruik(p: Projectie, k: string) {
    k in p.rijen && p.rijen[k].inGebruik
  }

  function NaLevering(d: Dienst, p: Projectie, env: Envelop, stop: Onderbreking): (r: Projectie) {
    if d == Monitoring && env.eventId == "" then p
    else if env.eventId in p.verwerkt || env.kunstwerkId == "" || stop == VoorEffect then p
    else if stop == NaEffect then p.(rijen := Effect(d, p.rijen, env))
    else Projectie(Effect(d, p.rijen, env), p.verwerkt + {env.eventId})
  }

  /** `signalen` lists the kunstwerken for which the optional callback was called. */
  class ContractVerwerker {
    var rijen: Rijen
    var signalen: seq<string>
    const onBuitengebruik: bool
    const dedup: EventDedup

    constructor (dedup: EventDedup, onBuitengebruik: bool)
      ensures this.dedup == dedup && this.onBuitengebruik == onBuitengebruik && rijen == map[] && signalen == []
    {
      this.dedup, this.onBuitengebruik, rijen, signalen := dedup, onBuitengebruik, map[], [];
    }

    predicate IsBekendEnInGebruik(k: string)
      reads this
      ensures IsBekendEnInGebruik(k) <==> InGebruik(Projectie(rijen, {}), k)
    {
      if k in rijen then rijen[k].inGebruik else false
    }

    method Verwerk(env: Envelop, stop: Onderbreking)
      modifies this, dedup
      ensures Projectie(rijen, dedup.verwerkt) ==
        NaLevering(Contract, Projectie(old(rijen), old(dedup.verwerkt)), env, stop)
      ensures signalen == old(signalen) +
        if onBuitengebruik && env.soort == Buitengebruikgesteld && env.eventId !in old(dedup.verwerkt)
          && env.kunstwerkId != "" && stop != VoorEffect
        then [env.kunstwerkId] else []
    {
      if dedup.IsVerwerkt(env.eventId) { return; }
      if env.kunstwerkId == "" || stop == VoorEffect { return; }
      var k := env.kunstwerkId;
      match env.soort {
        case Geregistreerd(t, l) =>
          if k in rijen {
            rijen := rijen[k := Rij(Of(t, rijen[k].type_), Of(l, rijen[k].locatie), true)];
          } else {
            rijen := rijen[k := Rij(t, l, true)];
          }
        case Buitengebruikgesteld =>
          rijen := rijen[k := if k in rijen then rijen[k].(inGebruik := false) else Rij(None, None, false)];
          if onBuitengebruik {
            signalen := signalen + [k];
          }
        case _ =>
      }
      if stop == NaEffect { return; }
      dedup.MarkeerVerwerkt(env.eventId);
    }
  }

  class MonitoringVerwerker {
    var rijen: Rijen
    const dedup: EventDedup

    constructor (dedup: EventDedup)
      ensures this.dedup == dedup && rijen == map[]
    {
      this.dedup, rijen := dedup, map[];
    }

    predicate IsBekendEnInGebruik(k: string)
      reads this
      ensures IsBekendEnInGebruik(k) <==> InGebruik(Projectie(rijen, {}), k)
    {
      k in rijen && rijen[k].inGebruik
    }

    method Verwerk(env: Envelop, stop: Onderbreking)
      modifies this, dedup
      ensures Projectie(rijen, dedup.verwerkt) ==
        NaLevering(Monitoring, Projectie(old(rijen), old(dedup.verwerkt)), env, stop)
    {
      if env.eventId == "" { return; }
      if dedup.IsVerwerkt(env.eventId) { return; }
      if env.kunstwerkId == "" || stop == VoorEffect { return; }
      var k := env.kunstwerkId;
      match env.soort {
        case Geregistreerd(t, l) =>
          if k !in rijen {
            rijen := rijen[k := Rij(t, l, true)];
          } else {
            rijen := rijen[k := rijen[k].(type_ := t, locatie := l, inGebruik := true)];
          }
        case Buitengebruikgesteld =>
          if k in rijen {
            rijen := rijen[k := rijen[k].(inGebruik := false)];
          }
        case _ =>
      }
      if stop == NaEffect { return; }
      dedup.MarkeerVerwerkt(env.eventId);
    }
  }

  class OnderhoudVerwerker {
    var rijen: Rijen
    var eisen: map<string, seq<string>>
    const dedup: EventDedup

    constructor (dedup: EventDedup)
      ensures this.dedup == dedup && rijen == map[] && eisen == map[]
    {
      this.dedup, rijen, eisen := dedup, map[], map[];
    }

    predicate IsBekendEnInGebruik(k: string)
      reads this
      ensures IsBekendEnInGebruik(k) <==> InGebruik(Projectie(rijen, {}), k)
    {
      if k in rijen then rijen[k].inGebruik else false
    }

    method Verwerk(env: Envelop, stop: Onderbreking)
      modifies this, dedup
      ensures Projectie(rijen, dedup.verwerkt) ==
        NaLevering(Onderhoud, Projectie(old(rijen), old(dedup.verwerkt)), env, stop)
      ensures eisen == if !env.soort.EisenVastgesteld? || env.eventId in old(dedup.verwerkt) || env.kunstwerkId == ""
        || stop == VoorEffect
        then old(eisen) else old(eisen)[env.kunstwerkId := env.soort.eisen]
    {
      if dedup.IsVerwerkt(env.eventId) { return; }
      if env.kunstwerkId == "" || stop == VoorEffect { return; }
      var k := env.kunstwerkId;
      match env.soort {
        case Geregistreerd(t, l) => rijen := rijen[k := Rij(t, l, true)];
        case Buitengebruikgesteld =>
          var bestaand := if k in rijen then rijen[k] else Rij(None, None, false);
          rijen := rijen[k := bestaand.(inGebruik := false)];
        case EisenVastgesteld(e) => eisen := eisen[k := e];
        case Anders =>
      }
      if stop == NaEffect { return; }
      dedup.MarkeerVerwerkt(env.eventId);
    }
  }

  // ---------- drained runs ----------

  /** One message and the interruptions of its deliveries before the one that is acknowledged. */
  datatype Bericht = Bericht(env: Envelop, onderbroken: seq<Onderbreking>)

  function NaPogingen(d: Dienst, p: Projectie, env: Envelop, stops: seq<Onderbreking>): (r: Projectie) {
    if stops == [] then p else NaLevering(d, NaPogingen(d, p, env, stops[..|stops| - 1]), env, stops[|stops| - 1])
  }

  function NaBericht(d: Dienst, p: Projectie, b: Bericht): (r: Projectie) {
    NaLevering(d, NaPogingen(d, p, b.env, b.onderbroken), b.env, Geen)
  }

  /** The table after all messages of a queue were worked off in order. */
  function NaRij(d: Dienst, berichten: seq<Bericht>): (r: Projectie) {
    if berichten == [] then Projectie(map[], {})
    else NaBericht(d, NaRij(d, berichten[..|berichten| - 1]), berichten[|berichten| - 1])
  }

  function Enveloppen(berichten: seq<Bericht>): (r: seq<Envelop>) {
    if berichten == [] then [] else Enveloppen(berichten[..|berichten| - 1]) + [berichten[|berichten| - 1].env]
  }

  /** Whether the last event in `events` that concerns the use of `k` is a registration. */
  function LaatsteIsRegistratie(events: seq<Envelop>, k: string): (r: bool) {
    if events == [] then false
    else
      var e := events[|events| - 1];
      if e.kunstwerkId == k && e.soort.Geregistreerd? then true
      else if e.kunstwerkId == k && e.soort.Buitengebruikgesteld? then false
      else LaatsteIsRegistratie(events[..|events| - 1], k)
  }

  /** What applying an event does to the answers, in every service. */
  lemma EffectAntwoord(d: Dienst, p: Projectie, env: Envelop, verwerkt: set<string>)
    ensures forall k: string :: InGebruik(Projectie(Effect(d, p.rijen, env), verwerkt), k) <==>
      if env.kunstwerkId == k && env.soort.Geregistreerd? then true
      else if env.kunstwerkId == k && env.soort.Buitengebruikgesteld? then false
      else InGebruik(p, k)
  {
  }

  /** Applying an event twice is applying it once. */
  lemma EffectTweemaal(d: Dienst, rijen: Rijen, env: Envelop)
    ensures Effect(d, Effect(d, rijen, env), env) == Effect(d, rijen, env)
  {
  }

  /** A table between two deliveries of the same message: as before it, or as after it with or without
      the mark. */
  ghost predicate Tussen(q: Projectie, p: Projectie, na: Projectie) {
    q == p || (q.rijen == na.rijen && (q.verwerkt == na.verwerkt || q.verwerkt == p.verwerkt))
  }

  lemma NogEenPoging(d: Dienst, p: Projectie, env: Envelop, q: Projectie, stop: Onderbreking)
    requires Tussen(q, p, NaLevering(d, p, env, Geen))
    ensures Tussen(NaLevering(d, q, env, stop), p, NaLevering(d, p, env, Geen))
    ensures NaLevering(d, q, env, Geen) == NaLevering(d, p, env, Geen)
  {
    EffectTweemaal(d, p.rijen, env);
  }

  lemma {:induction false} PogingenOnzichtbaar(d: Dienst, p: Projectie, env: Envelop, stops: seq<Onderbreking>)
    ensures Tussen(NaPogingen(d, p, env, stops), p, NaLevering(d, p, env, Geen))
    decreases |stops|
  {
    if stops != [] {
      PogingenOnzichtbaar(d, p, env, stops[..|stops| - 1]);
      NogEenPoging(d, p, env, NaPogingen(d, p, env, stops[..|stops| - 1]), stops[|stops| - 1]);
    }
  }

  /** However often the deliveries of a message are interrupted, after the acknowledged one the table is what a single
      clean delivery makes of it. */
  lemma BerichtIsLevering(d: Dienst, p: Projectie, b: Bericht)
    ensures NaBericht(d, p, b) == NaLevering(d, p, b.env, Geen)
  {
    PogingenOnzichtbaar(d, p, b.env, b.onderbroken);
    NogEenPoging(d, p, b.env, NaPogingen(d, p, b.env, b.onderbroken), Geen);
  }

  // ---------- which events count ----------

  /** Every service drops an event without kunstwerk, Monitoring also one without an event id. */
  predicate Telt(d: Dienst, e: Envelop) {
    e.kunstwerkId != "" && (d == Monitoring ==> e.eventId != "")
  }

  predicate HeeftId(events: seq<Envelop>, id: string) {
    exists i :: 0 <= i < |events| && events[i].eventId == id
  }

  /** The first event under each id: an id that comes back is taken for a duplicate, whatever it carries. */
  function EerstePerId(events: seq<Envelop>): (r: seq<Envelop>) {
    if events == [] then []
    else
      var voor, e := EerstePerId(events[..|events| - 1]), events[|events| - 1];
      if HeeftId(voor, e.eventId) then voor else voor + [e]
  }

  /** The events that take effect in service `d`. */
  ghost function Geldend(d: Dienst, events: seq<Envelop>): (r: seq<Envelop>) {
    EerstePerId(Filter((e: Envelop) => Telt(d, e), events))
  }

  lemma EerstePerIdPlus(events: seq<Envelop>, e: Envelop)
    ensures EerstePerId(events + [e]) == if HeeftId(EerstePerId(events), e.eventId) then EerstePerId(events)
      else EerstePerId(events) + [e]
  {
    assert (events + [e])[..|events|] == events;
  }

  lemma HeeftIdPlus(events: seq<Envelop>, e: Envelop, id: string)
    ensures HeeftId(events + [e], id) <==> HeeftId(events, id) || e.eventId == id
  {
    assert (events + [e])[|events|] == e;
    assert forall i :: 0 <= i < |events| ==> (events + [e])[i] == events[i];
  }

  lemma GeldendPlus(d: Dienst, events: seq<Envelop>, e: Envelop)
    ensures Geldend(d, events + [e]) ==
      if Telt(d, e) && !HeeftId(Geldend(d, events), e.eventId) then Geldend(d, events) + [e] else Geldend(d, events)
  {
    var p := (x: Envelop) => Telt(d, x);
    FilterPlus(p, events, e);
    EerstePerIdPlus(Filter(p, events), e);
  }

  // ---------- what a table answers ----------

  ghost predicate Antwoordt(p: Projectie, geldend: seq<Envelop>) {
    forall k: string :: InGebruik(p, k) <==> LaatsteIsRegistratie(geldend, k)
  }

  ghost predicate Onthoudt(p: Projectie, geldend: seq<Envelop>) {
    forall id: string :: id in p.verwerkt <==> HeeftId(geldend, id)
  }

  lemma {:induction false} TeltNiet(d: Dienst, p: Projectie, e: Envelop, stops: seq<Onderbreking>)
    requires !Telt(d, e)
    ensures NaPogingen(d, p, e, stops) == p
    decreases |stops|
  {
    if stops != [] {
      TeltNiet(d, p, e, stops[..|stops| - 1]);
    }
  }

  lemma NieuweLevering(d: Dienst, p: Projectie, geldend: seq<Envelop>, e: Envelop)
    requires Telt(d, e) && !HeeftId(geldend, e.eventId) && Antwoordt(p, geldend) && Onthoudt(p, geldend)
    ensures Antwoordt(NaLevering(d, p, e, Geen), geldend + [e]) && Onthoudt(NaLevering(d, p, e, Geen), geldend + [e])
  {
    var q := NaLevering(d, p, e, Geen);
    EffectAntwoord(d, p, e, p.verwerkt + {e.eventId});
    assert (geldend + [e])[..|geldend|] == geldend;
    forall id: string ensures id in q.verwerkt <==> HeeftId(geldend + [e], id) {
      HeeftIdPlus(geldend, e, id);
    }
  }

  /** In every service and for every queue, with duplicates, ids that come back and interruptions anywhere: the table
      answers "in use" exactly when the last event that took effect on the kunstwerk was a registration. */
  lemma {:induction false} ProjectieVolgt(d: Dienst, berichten: seq<Bericht>)
    ensures Antwoordt(NaRij(d, berichten), Geldend(d, Enveloppen(berichten)))
    ensures Onthoudt(NaRij(d, berichten), Geldend(d, Enveloppen(berichten)))
    decreases |berichten|
  {
    if berichten != [] {
      var voor, b := berichten[..|berichten| - 1], berichten[|berichten| - 1];
      var oud, p := Enveloppen(voor), NaRij(d, voor);
      ProjectieVolgt(d, voor);
      GeldendPlus(d, oud, b.env);
      if Telt(d, b.env) {
        BerichtIsLevering(d, p, b);
        if !HeeftId(Geldend(d, oud), b.env.eventId) {
          NieuweLevering(d, p, Geldend(d, oud), b.env);
        }
      } else {
        TeltNiet(d, p, b.env, b.onderbroken);
      }
    }
  }

  // ---------- the other columns ----------

  /** Whether service `d` has a row for `k` after these events: Monitoring makes one for a registration only. */
  predicate Bekend(d: Dienst, events: seq<Envelop>, k: string) {
    events != [] &&
    var e := events[|events| - 1];
    || (e.kunstwerkId == k && (e.soort.Geregistreerd? || (e.soort.Buitengebruikgesteld? && d != Monitoring)))
    || Bekend(d, events[..|events| - 1], k)
  }

  /** Type and location of `k` after these events: those of the last registration; in Contract what that leaves out
      comes from the one before. */
  function Kolommen(d: Dienst, events: seq<Envelop>, k: string): (r: (Option<string>, Option<string>)) {
    if events == [] then (None, None)
    else
      var e, rest := events[|events| - 1], Kolommen(d, events[..|events| - 1], k);
      if e.kunstwerkId == k && e.soort.Geregistreerd? then
        (if d == Contract && e.soort.type_ == None then rest.0 else e.soort.type_,
         if d == Contract && e.soort.locatie == None then rest.1 else e.soort.locatie)
      else rest
  }

  ghost predicate Beschrijft(d: Dienst, rijen: Rijen, events: seq<Envelop>) {
    forall k: string :: (k in rijen <==> Bekend(d, events, k)) &&
      Kolommen(d, events, k) == if k in rijen then (rijen[k].type_, rijen[k].locatie) else (None, None)
  }

  lemma EffectBeschrijft(d: Dienst, rijen: Rijen, events: seq<Envelop>, e: Envelop)
    requires Beschrijft(d, rijen, events)
    ensures Beschrijft(d, Effect(d, rijen, e), events + [e])
  {
    assert (events + [e])[..|events|] == events;
  }

  /** In every service and for every queue the rows are those of the events that took effect: which kunstwerken are
      known, and with which type and location. */
  lemma {:induction false} KolommenVolgen(d: Dienst, berichten: seq<Bericht>)
    ensures Beschrijft(d, NaRij(d, berichten).rijen, Geldend(d, Enveloppen(berichten)))
    decreases |berichten|
  {
    if berichten != [] {
      var voor, b := berichten[..|berichten| - 1], berichten[|berichten| - 1];
      var oud, p := Enveloppen(voor), NaRij(d, voor);
      KolommenVolgen(d, voor);
      ProjectieVolgt(d, voor);
      GeldendPlus(d, oud, b.env);
      BerichtBeschrijft(d, p, Geldend(d, oud), b);
    }
  }

  /** One message: nothing changes unless it takes effect. */
  lemma BerichtBeschrijft(d: Dienst, p: Projectie, geldend: seq<Envelop>, b: Bericht)
    requires Beschrijft(d, p.rijen, geldend) && Onthoudt(p, geldend)
    ensures Beschrijft(d, NaBericht(d, p, b).rijen,
      if Telt(d, b.env) && !HeeftId(geldend, b.env.eventId) then geldend + [b.env] else geldend)
  {
    BerichtIsLevering(d, p, b);
    if Telt(d, b.env) && !HeeftId(geldend, b.env.eventId) {
      EffectBeschrijft(d, p.rijen, geldend, b.env);
    }
  }

  // ---------- the three services together ----------

  predicate OverKunstwerk(e: Envelop) {
    !e.soort.EisenVastgesteld?
  }

  predicate MetId(e: Envelop) {
    e.eventId != ""
  }

  lemma {:induction false} EisenTellenNiet(events: seq<Envelop>, k: string)
    ensures LaatsteIsRegistratie(Filter(OverKunstwerk, events), k) == LaatsteIsRegistratie(events, k)
    decreases |events|
  {
    if events != [] {
      var voor, e := events[..|events| - 1], events[|events| - 1];
      EisenTellenNiet(voor, k);
      assert events == voor + [e];
      FilterPlus(OverKunstwerk, voor, e);
      assert (Filter(OverKunstwerk, voor) + [e])[..|Filter(OverKunstwerk, voor)|] == Filter(OverKunstwerk, voor);
    }
  }

  /** Whether the event changes the answer for `k`. */
  predicate Betreft(e: Envelop, k: string) {
    e.kunstwerkId == k && (e.soort.Geregistreerd? || e.soort.Buitengebruikgesteld?)
  }

  /** The last event on `k` has no event id, and says something else than the events before it. */
  ghost predicate LeegBeslist(events: seq<Envelop>, k: string) {
    exists i :: 0 <= i < |events| && LaatsteBetreft(events, i, k) && events[i].eventId == ""
      && (events[i].soort.Geregistreerd? != LaatsteIsRegistratie(events[..i], k))
  }

  ghost predicate LaatsteBetreft(events: seq<Envelop>, i: nat, k: string)
    requires i < |events|
  {
    Betreft(events[i], k) && forall j :: i < j < |events| ==> !Betreft(events[j], k)
  }

  ghost predicate UniekeEventIds(events: seq<Envelop>) {
    forall i, j :: 0 <= i < j < |events| ==> events[i].eventId != events[j].eventId
  }

  lemma {:induction false} AllesMetId(events: seq<Envelop>)
    requires forall i :: 0 <= i < |events| ==> events[i].eventId != ""
    ensures Filter(MetId, events) == events
    decreases |events|
  {
    if events != [] {
      AllesMetId(events[..|events| - 1]);
    }
  }

  lemma LeegBeslistEerder(events: seq<Envelop>, k: string)
    requires events != [] && !Betreft(events[|events| - 1], k)
    ensures LeegBeslist(events, k) <==> LeegBeslist(events[..|events| - 1], k)
  {
    var voor := events[..|events| - 1];
    forall i | 0 <= i < |voor|
      ensures voor[i] == events[i] && voor[..i] == events[..i]
      && (LaatsteBetreft(voor, i, k) <==> LaatsteBetreft(events, i, k)) {
    }
  }

  /** Leaving out the events without an id changes the answer exactly when such an event decides it. */
  lemma {:induction false} ZonderLeeg(events: seq<Envelop>, k: string)
    requires UniekeEventIds(events)
    ensures LaatsteIsRegistratie(Filter(MetId, events), k) == LaatsteIsRegistratie(events, k) <==>
      !LeegBeslist(events, k)
    decreases |events|
  {
    if events != [] {
      var n := |events| - 1;
      var voor, e := events[..n], events[n];
      assert events == voor + [e];
      FilterPlus(MetId, voor, e);
      var f := Filter(MetId, voor);
      assert (f + [e])[..|f|] == f;
      if !Betreft(e, k) {
        ZonderLeeg(voor, k);
        LeegBeslistEerder(events, k);
      } else {
        assert LaatsteBetreft(events, n, k);
        if e.eventId == "" {
          AllesMetId(voor);
        }
      }
    }
  }

  lemma {:induction false} EerstePerIdUniek(events: seq<Envelop>)
    ensures UniekeEventIds(EerstePerId(events))
    decreases |events|
  {
    if events != [] {
      EerstePerIdUniek(events[..|events| - 1]);
    }
  }

  /** `p` does not tell events with the same id apart. */
  ghost predicate IdGesloten(p: Envelop -> bool, events: seq<Envelop>) {
    forall e, f :: e in events && f in events && e.eventId == f.eventId ==> p(e) == p(f)
  }

  lemma {:induction false} EerstePerIdLeden(events: seq<Envelop>)
    ensures forall e :: e in EerstePerId(events) ==> e in events
    ensures forall id: string :: HeeftId(EerstePerId(events), id) <==> HeeftId(events, id)
    decreases |events|
  {
    if events != [] {
      var voor, e := events[..|events| - 1], events[|events| - 1];
      EerstePerIdLeden(voor);
      assert events == voor + [e];
      forall id: string ensures HeeftId(EerstePerId(events), id) <==> HeeftId(events, id) {
        HeeftIdPlus(voor, e, id);
        HeeftIdPlus(EerstePerId(voor), e, id);
      }
    }
  }

  lemma {:induction false} FilterHeeftId(p: Envelop -> bool, events: seq<Envelop>, e: Envelop)
    requires forall f :: f in events && f.eventId == e.eventId ==> p(f)
    ensures HeeftId(Filter(p, events), e.eventId) <==> HeeftId(events, e.eventId)
  {
    if HeeftId(events, e.eventId) {
      var i :| 0 <= i < |events| && events[i].eventId == e.eventId;
      assert events[i] in Filter(p, events);
    }
    if HeeftId(Filter(p, events), e.eventId) {
      var i :| 0 <= i < |Filter(p, events)| && Filter(p, events)[i].eventId == e.eventId;
      assert Filter(p, events)[i] in events;
    }
  }

  /** A selection by id and taking the first per id commute. */
  lemma {:induction false} FilterEerste(p: Envelop -> bool, events: seq<Envelop>)
    requires IdGesloten(p, events)
    ensures Filter(p, EerstePerId(events)) == EerstePerId(Filter(p, events))
    decreases |events|
  {
    if events != [] {
      var voor, e := events[..|events| - 1], events[|events| - 1];
      assert events == voor + [e];
      FilterEerste(p, voor);
      FilterPlus(p, voor, e);
      EerstePerIdPlus(voor, e);
      EerstePerIdPlus(Filter(p, voor), e);
      EerstePerIdLeden(voor);
      FilterPlus(p, EerstePerId(voor), e);
      if p(e) {
        EerstePerIdLeden(Filter(p, voor));
        FilterHeeftId(p, voor, e);
      }
    }
  }

  lemma {:induction false} EersteVanEersten(events: seq<Envelop>)
    ensures EerstePerId(Eersten(events)) == EerstePerId(events)
    decreases |events|
  {
    if events != [] {
      var voor, e := events[..|events| - 1], events[|events| - 1];
      assert events == voor + [e];
      EersteVanEersten(voor);
      EerstenPlus(voor, e);
      EerstePerIdPlus(voor, e);
      if e in voor {
        EerstePerIdLeden(voor);
        var i :| 0 <= i < |voor| && voor[i] == e;
      } else {
        EerstePerIdPlus(Eersten(voor), e);
      }
    }
  }

  lemma {:induction false} FilterVerwisseld(p: Envelop -> bool, q: Envelop -> bool, events: seq<Envelop>)
    ensures Filter(p, Filter(q, events)) == Filter(q, Filter(p, events))
    decreases |events|
  {
    if events != [] {
      var voor, e := events[..|events| - 1], events[|events| - 1];
      assert events == voor + [e];
      FilterVerwisseld(p, q, voor);
      FilterPlus(p, voor, e);
      FilterPlus(q, voor, e);
      FilterPlus(p, Filter(q, voor), e);
      FilterPlus(q, Filter(p, voor), e);
    }
  }

  lemma {:induction false} FilterTweemaal(p: Envelop -> bool, q: Envelop -> bool, r: Envelop -> bool,
      events: seq<Envelop>)
    requires forall e :: r(e) <==> p(e) && q(e)
    ensures Filter(p, Filter(q, events)) == Filter(r, events)
    decreases |events|
  {
    if events != [] {
      var voor, e := events[..|events| - 1], events[|events| - 1];
      assert events == voor + [e];
      FilterTweemaal(p, q, r, voor);
      FilterPlus(q, voor, e);
      FilterPlus(r, voor, e);
      FilterPlus(p, Filter(q, voor), e);
    }
  }

  /** The distinct kunstwerk events of a queue in order of first arrival; only Onderhoud's queue also carries
      requirement events. */
  ghost function Kunstwerkevents(berichten: seq<Bericht>): (r: seq<Envelop>) {
    Filter(OverKunstwerk, Eersten(Enveloppen(berichten)))
  }

  /** No requirement event shares its id with a kunstwerk event. */
  ghost predicate Gescheiden(berichten: seq<Bericht>) {
    IdGesloten(OverKunstwerk, Enveloppen(berichten))
  }

  /** The kunstwerk events that take effect in `d`, given the distinct ones that arrived. */
  ghost function Werkzaam(d: Dienst, kunstwerkevents: seq<Envelop>): (r: seq<Envelop>) {
    EerstePerId(Filter((e: Envelop) => Telt(d, e), kunstwerkevents))
  }

  lemma GeldendIsWerkzaam(d: Dienst, berichten: seq<Bericht>)
    requires Gescheiden(berichten)
    ensures Filter(OverKunstwerk, Geldend(d, Enveloppen(berichten))) == Werkzaam(d, Kunstwerkevents(berichten))
  {
    var events, p := Enveloppen(berichten), (e: Envelop) => Telt(d, e);
    var geteld := Filter(p, events);
    FilterEerste(OverKunstwerk, geteld);
    FilterVerwisseld(OverKunstwerk, p, events);
    var kunstwerk := Filter(OverKunstwerk, events);
    EersteVanEersten(Filter(p, kunstwerk));
    EerstenFilter(p, kunstwerk);
    EerstenFilter(OverKunstwerk, events);
  }

  lemma MonitoringZonderLeeg(kunstwerkevents: seq<Envelop>)
    ensures Werkzaam(Monitoring, kunstwerkevents) == Filter(MetId, Werkzaam(Contract, kunstwerkevents))
  {
    var contract, monitoring := (e: Envelop) => Telt(Contract, e), (e: Envelop) => Telt(Monitoring, e);
    FilterTweemaal(MetId, contract, monitoring, kunstwerkevents);
    FilterEerste(MetId, Filter(contract, kunstwerkevents));
  }

  lemma AntwoordUitKunstwerkevents(d: Dienst, berichten: seq<Bericht>, k: string)
    requires Gescheiden(berichten)
    ensures InGebruik(NaRij(d, berichten), k) == LaatsteIsRegistratie(Werkzaam(d, Kunstwerkevents(berichten)), k)
  {
    ProjectieVolgt(d, berichten);
    GeldendIsWerkzaam(d, berichten);
    EisenTellenNiet(Geldend(d, Enveloppen(berichten)), k);
  }

  /** Whatever duplicates each service received and wherever its deliveries were interrupted: if the distinct
      kunstwerk events reached the three services in the same order, Contract and Onderhoud give the same answer for
      every kunstwerk, namely whether the last event that took effect was a registration, and Monitoring gives it too
      exactly when that answer does not hang on an event without an id. */
  lemma DrieProjecties(contract: seq<Bericht>, monitoring: seq<Bericht>, onderhoud: seq<Bericht>, k: string)
    requires Gescheiden(contract) && Gescheiden(monitoring) && Gescheiden(onderhoud)
    requires Kunstwerkevents(contract) == Kunstwerkevents(monitoring) == Kunstwerkevents(onderhoud)
    ensures var werkzaam := Werkzaam(Contract, Kunstwerkevents(contract));
      && InGebruik(NaRij(Contract, contract), k) == InGebruik(NaRij(Onderhoud, onderhoud), k) ==
        LaatsteIsRegistratie(werkzaam, k)
      && (InGebruik(NaRij(Monitoring, monitoring), k) == LaatsteIsRegistratie(werkzaam, k) <==>
        !LeegBeslist(werkzaam, k))
  {
    var events := Kunstwerkevents(contract);
    AntwoordUitKunstwerkevents(Contract, contract, k);
    AntwoordUitKunstwerkevents(Onderhoud, onderhoud, k);
    AntwoordUitKunstwerkevents(Monitoring, monitoring, k);
    assert Werkzaam(Contract, events) == Werkzaam(Onderhoud, events) by {
      FilterTweemaal((e: Envelop) => true, (e: Envelop) => Telt(Contract, e), (e: Envelop) => Telt(Onderhoud, e),
        events);
      FilterAlles(Filter((e: Envelop) => Telt(Contract, e), events));
    }
    MonitoringZonderLeeg(events);
    EerstePerIdUniek(Filter((e: Envelop) => Telt(Contract, e), events));
    ZonderLeeg(Werkzaam(Contract, events), k);
  }

  lemma {:induction false} FilterAlles(events: seq<Envelop>)
    ensures Filter((e: Envelop) => true, events) == events
    decreases |events|
  {
    if events != [] {
      FilterAlles(events[..|events| - 1]);
    }
  }

  /** When every event has an id, the three services agree on every kunstwerk. */
  lemma DrieProjectiesMetId(contract: seq<Bericht>, monitoring: seq<Bericht>, onderhoud: seq<Bericht>, k: string)
    requires Gescheiden(contract) && Gescheiden(monitoring) && Gescheiden(onderhoud)
    requires Kunstwerkevents(contract) == Kunstwerkevents(monitoring) == Kunstwerkevents(onderhoud)
    requires forall e :: e in Enveloppen(contract) ==> e.eventId != ""
    ensures InGebruik(NaRij(Contract, contract), k) == InGebruik(NaRij(Monitoring, monitoring), k) ==
      InGebruik(NaRij(Onderhoud, onderhoud), k)
  {
    DrieProjecties(contract, monitoring, onderhoud, k);
    var telt := (e: Envelop) => Telt(Contract, e);
    EerstePerIdLeden(Filter(telt, Kunstwerkevents(contract)));
    var werkzaam := Werkzaam(Contract, Kunstwerkevents(contract));
    forall i | 0 <= i < |werkzaam| ensures werkzaam[i].eventId != "" {
      assert werkzaam[i] in Filter(telt, Kunstwerkevents(contract));
      assert werkzaam[i] in Enveloppen(contract);
    }
  }

  /** A registration with an empty event id: Monitoring drops it, the others apply it. */
  lemma LeegEventIdScheidt(k: string)
    requires k != ""
    ensures var b := [Bericht(Envelop("", k, Geregistreerd(None, None)), [])];
      InGebruik(NaRij(Contract, b), k) && InGebruik(NaRij(Onderhoud, b), k) && !InGebruik(NaRij(Monitoring, b), k)
  {
    var b := [Bericht(Envelop("", k, Geregistreerd(None, None)), [])];
    assert b[..0] == [];
  }
}
