/** From a reading in Monitoring to a planned traject in Onderhoud. */
module Incidentketen {
  import opened Gedeeld
  import opened Dedup
  import M = Metingregistratie
  import MR = MonitoringRapport
  import opened O = Onderhoud
  import opened B = Onderhoudsbeheer
  import OR = Onderhoudsruns

  // ---------- the consumer ----------

  function DiagnoseVan(g: M.Gebeurtenis): (r: DiagnoseCommand)
    requires g.IncidentAangemaakt?
  {
    DiagnoseCommand(g.kunstwerkId, if g.incidentId != "" then Some(g.incidentId) else None, g.omschrijving, g.ernst)
  }

  /** Other event types, known events and events without kunstwerk pass without effect. */
  predicate Verwerkbaar(verwerkt: set<string>, env: M.OutboxRij) {
    env.gebeurtenis.IncidentAangemaakt? && env.eventId !in verwerkt && env.gebeurtenis.kunstwerkId != ""
  }

  /** Diagnosis and then mark, unless cut short. A diagnosis that throws leaves everything as it was. */
  function NaVerwerking(verwerkt: set<string>, db: Db, env: M.OutboxRij, onderhoudId: string, stop: Onderbreking):
      (r: (set<string>, Db)) {
    if !Verwerkbaar(verwerkt, env) || stop == VoorEffect then (verwerkt, db)
    else
      var (db', r) := NaDiagnose(db, DiagnoseVan(env.gebeurtenis), onderhoudId);
      if r.Err? then (verwerkt, db)
      else (if stop == NaEffect then verwerkt else verwerkt + {env.eventId}, db')
  }

  class MonitoringIncidentVerwerker {
    const service: OnderhoudService
    const dedup: EventDedup

    constructor (service: OnderhoudService, dedup: EventDedup)
      ensures this.service == service && this.dedup == dedup
    {
      this.service, this.dedup := service, dedup;
    }

    method Verwerk(env: M.OutboxRij, onderhoudId: string, stop: Onderbreking)
      modifies service, dedup
      ensures (dedup.verwerkt, service.Waarde()) ==
        NaVerwerking(old(dedup.verwerkt), old(service.Waarde()), env, onderhoudId, stop)
    {
      if !env.gebeurtenis.IncidentAangemaakt? {
        return;
      }
      if dedup.IsVerwerkt(env.eventId) || env.gebeurtenis.kunstwerkId == "" || stop == VoorEffect {
        return;
      }
      var r := service.StelDiagnose(DiagnoseVan(env.gebeurtenis), onderhoudId);
      if r.Err? || stop == NaEffect {
        return;
      }
      dedup.MarkeerVerwerkt(env.eventId);
    }
  }

  /** An event of another type, a known one, one without a kunstwerk and one whose severity is unknown leave tables and
      marks alone; one of the two lower severities is marked and plans nothing. */
  lemma GeenDiagnose(verwerkt: set<string>, db: Db, env: M.OutboxRij, onderhoudId: string, stop: Onderbreking)
    ensures var na := NaVerwerking(verwerkt, db, env, onderhoudId, stop);
      && (!env.gebeurtenis.IncidentAangemaakt? || env.eventId in verwerkt ==> na == (verwerkt, db))
      && (env.gebeurtenis.IncidentAangemaakt? ==>
           && (env.gebeurtenis.kunstwerkId == "" || !Bekend(env.gebeurtenis.ernst) ==> na == (verwerkt, db))
           && (env.gebeurtenis.kunstwerkId != "" && stop == Geen && IsLicht(env.gebeurtenis.ernst) ==>
                na == (verwerkt + {env.eventId}, db)))
  {
    assert env.eventId in verwerkt ==> verwerkt + {env.eventId} == verwerkt;
  }

  predicate IsLicht(ernst: string) {
    ernst == "Laag" || ernst == "Middel"
  }

  predicate Bekend(ernst: string) {
    IsLicht(ernst) || ernst == "Hoog" || ernst == "Kritiek"
  }

  // ---------- the system ----------

  /** `gecrasht` counts, per event, the crashes between saving the traject and marking the event;
      `handmatig` counts, per incident, the diagnoses by hand that name it and planned a traject. */
  datatype Systeem = Systeem(mon: M.Gegevens, rij: seq<M.OutboxRij>, verwerkt: set<string>, onderhoud: Db,
                             gecrasht: multiset<string>, handmatig: multiset<string>)

  /** `Sessies` is any change of the sessions, `Onderhoudsstap` any command in Onderhoud, a diagnosis by hand
      included, and `Elders` another consumer that marks an event of its own in the shared table. */
  datatype Stap =
    | Registreer(c: M.Command, toegestaan: bool, ids: M.Ids, nu: int)
    | Sessies(sessies: seq<M.Sessie>)
    | Publiceer(i: nat)
    | Lever(onderhoudId: string, stop: Onderbreking)
    | Onderhoudsstap(stap: OR.Stap)
    | Elders(eventId: string)

  ghost predicate Mogelijk(s: Systeem, stap: Stap) {
    match stap
    case Registreer(_, _, ids, _) =>
      && !Blanco(ids.incident) && ids.event1 != ids.event2
      && (forall x :: x in s.mon.outbox ==> x.eventId != ids.event1 && x.eventId != ids.event2)
      && (forall x :: x in s.mon.incidenten ==> x.id != ids.incident)
      && ids.event1 !in s.verwerkt && ids.event2 !in s.verwerkt
    case Sessies(_) => true
    case Publiceer(i) => i < |s.mon.outbox| && s.mon.outbox[i].gebeurtenis.IncidentAangemaakt?
    case Lever(id, _) => s.rij != [] && !Blanco(id) && id !in s.onderhoud.trajecten
    case Onderhoudsstap(stap) => OR.Mogelijk(s.onderhoud, stap)
    case Elders(id) => forall x :: x in s.mon.outbox ==> x.eventId != id
  }

  /** The incident that a diagnosis by hand plans a traject for, if it plans one and names an incident. */
  function Genoemd(db: Db, stap: OR.Stap): (r: Option<string>) {
    if stap.Diagnose? && NaDiagnose(db, stap.c, stap.onderhoudId).1.Ok?
      && NaDiagnose(db, stap.c, stap.onderhoudId).1.value.Some?
    then OptioneelId(stap.c.incidentId).value else None
  }

  function Na(d: M.Drempels, s: Systeem, stap: Stap): (r: Systeem)
    requires M.Positief(d)
    requires stap.Publiceer? ==> stap.i < |s.mon.outbox|
    requires stap.Lever? ==> s.rij != []
    requires stap.Onderhoudsstap? && stap.stap.Herorden? ==> stap.stap.id in s.onderhoud.trajecten
  {
    match stap
    case Registreer(c, toegestaan, ids, nu) => s.(mon := M.NaRegistratie(s.mon, c, d, toegestaan, ids, nu).0)
    case Sessies(sessies) => s.(mon := s.mon.(sessies := sessies))
    case Publiceer(i) => s.(rij := s.rij + [s.mon.outbox[i]])
    case Lever(id, stop) =>
      var env := s.rij[0];
      var (verwerkt, db) := NaVerwerking(s.verwerkt, s.onderhoud, env, id, stop);
      s.(verwerkt := verwerkt, onderhoud := db, rij := if stop == Geen then s.rij[1..] else s.rij,
         gecrasht := if stop == NaEffect && Verwerkbaar(s.verwerkt, env) then s.gecrasht + multiset{env.eventId}
           else s.gecrasht)
    case Onderhoudsstap(stap) =>
      var genoemd := Genoemd(s.onderhoud, stap);
      s.(onderhoud := OR.Na(s.onderhoud, stap),
         handmatig := if genoemd.Some? then s.handmatig + multiset{genoemd.value} else s.handmatig)
    case Elders(id) => s.(verwerkt := s.verwerkt + {id})
  }

  const BEGIN := Systeem(M.Gegevens([], [], [], []), [], {}, Db(map[], map[]), multiset{}, multiset{})

  ghost predicate IsRun(d: M.Drempels, ss: seq<Systeem>, stappen: seq<Stap>)
    requires M.Positief(d)
  {
    && |ss| == |stappen| + 1
    && ss[0] == BEGIN
    && forall n :: 0 <= n < |stappen| ==> Mogelijk(ss[n], stappen[n]) && ss[n + 1] == Na(d, ss[n], stappen[n])
  }

  /** The trajecten planned for an incident, whatever became of them since. */
  function TrajectenVoor(db: Db, incidentId: string): (r: set<string>) {
    set o | o in db.trajecten && db.trajecten[o].aanleidingSoort == SoortDiagnose
      && db.trajecten[o].incidentId == Some(incidentId)
  }

  /** The severities that ask for maintenance. */
  predicate Zwaar(g: M.Gebeurtenis)
    requires g.IncidentAangemaakt?
  {
    g.ernst == "Hoog" || g.ernst == "Kritiek"
  }

  /** The trajecten that the event itself gave. */
  function UitEvent(s: Systeem, x: M.OutboxRij): (n: nat)
    requires x.gebeurtenis.IncidentAangemaakt?
  {
    if Zwaar(x.gebeurtenis) then s.gecrasht[x.eventId] + (if x.eventId in s.verwerkt then 1 else 0) else 0
  }

  function Verwacht(s: Systeem, x: M.OutboxRij): (n: nat)
    requires x.gebeurtenis.IncidentAangemaakt?
  {
    UitEvent(s, x) + s.handmatig[x.gebeurtenis.incidentId]
  }

  ghost predicate UniekeEvents(outbox: seq<M.OutboxRij>) {
    forall i, j :: 0 <= i < j < |outbox| ==> outbox[i].eventId != outbox[j].eventId
  }

  predicate ZelfdeIncident(g: M.Gebeurtenis, h: M.Gebeurtenis) {
    g.IncidentAangemaakt? && h.IncidentAangemaakt? && g.incidentId == h.incidentId
  }

  ghost predicate UniekeIncidenten(outbox: seq<M.OutboxRij>) {
    forall i, j :: 0 <= i < j < |outbox| ==> !ZelfdeIncident(outbox[i].gebeurtenis, outbox[j].gebeurtenis)
  }

  ghost predicate Bestaat(g: M.Gegevens, incidentId: string) {
    exists k :: k in g.incidenten && k.id == incidentId
  }

  ghost predicate Gevuld(g: M.Gegevens) {
    forall x :: x in g.outbox && x.gebeurtenis.IncidentAangemaakt? ==>
      && !Blanco(x.gebeurtenis.incidentId) && !Blanco(x.gebeurtenis.kunstwerkId) && ErnstVan(x.gebeurtenis.ernst).Ok?
      && Bestaat(g, x.gebeurtenis.incidentId)
  }

  /** Monitoring's outbox: one event id per row, one row per incident, all fields filled. */
  ghost predicate OutboxGoed(g: M.Gegevens) {
    UniekeEvents(g.outbox) && UniekeIncidenten(g.outbox) && Gevuld(g)
  }

  /** Conservation: every incident has as many trajecten as its event was completed or crashed on, plus those
      planned by hand. */
  ghost predicate Telt(s: Systeem) {
    forall x :: x in s.mon.outbox && x.gebeurtenis.IncidentAangemaakt? ==>
      |TrajectenVoor(s.onderhoud, x.gebeurtenis.incidentId)| == Verwacht(s, x)
  }

  /** Events that do not exist yet have no crashes, incidents that do not exist yet only trajecten planned by hand. */
  ghost predicate NietsVooruit(s: Systeem) {
    && (forall id: string :: (forall x :: x in s.mon.outbox ==> x.eventId != id) ==> s.gecrasht[id] == 0)
    && (forall id: string :: id != "" && !Bestaat(s.mon, id) ==> |TrajectenVoor(s.onderhoud, id)| == s.handmatig[id])
  }

  /** Only incident events are queued. */
  ghost predicate RijGoed(s: Systeem) {
    forall x :: x in s.rij ==> x in s.mon.outbox && x.gebeurtenis.IncidentAangemaakt?
  }

  ghost predicate Inv(s: Systeem) {
    && OutboxGoed(s.mon)
    && RijGoed(s)
    && Telt(s) && NietsVooruit(s)
    && OR.Gekoppeld(s.onderhoud)
  }

  // ---------- steps ----------

  lemma ZelfdeRij(g: M.Gegevens, x: M.OutboxRij, y: M.OutboxRij)
    requires OutboxGoed(g) && x in g.outbox && y in g.outbox
    ensures x.eventId == y.eventId ==> x == y
    ensures ZelfdeIncident(x.gebeurtenis, y.gebeurtenis) ==> x == y
  {
    var i, j :| 0 <= i < |g.outbox| && 0 <= j < |g.outbox| && g.outbox[i] == x && g.outbox[j] == y;
  }

  lemma RegistratieOutbox(d: M.Drempels, g: M.Gegevens, c: M.Command, toegestaan: bool, ids: M.Ids, nu: int)
    requires M.Positief(d) && OutboxGoed(g)
    requires !Blanco(ids.incident) && ids.event1 != ids.event2
    requires forall x :: x in g.outbox ==> x.eventId != ids.event1 && x.eventId != ids.event2
    requires forall x :: x in g.incidenten ==> x.id != ids.incident
    ensures OutboxGoed(M.NaRegistratie(g, c, d, toegestaan, ids, nu).0)
  {
    var (g', r) := M.NaRegistratie(g, c, d, toegestaan, ids, nu);
    if r.Ok? {
      RegistratieUniek(d, g, c, toegestaan, ids, nu);
      forall id | Bestaat(g, id)
        ensures Bestaat(g', id)
      {
        var k :| k in g.incidenten && k.id == id;
        assert k in g'.incidenten;
      }
      if r.value.Some? {
        assert g'.incidenten[|g.incidenten|] in g'.incidenten;
      }
    }
  }

  lemma RegistratieUniek(d: M.Drempels, g: M.Gegevens, c: M.Command, toegestaan: bool, ids: M.Ids, nu: int)
    requires M.Positief(d) && OutboxGoed(g)
    requires ids.event1 != ids.event2
    requires forall x :: x in g.outbox ==> x.eventId != ids.event1 && x.eventId != ids.event2
    requires forall x :: x in g.incidenten ==> x.id != ids.incident
    ensures UniekeEvents(M.NaRegistratie(g, c, d, toegestaan, ids, nu).0.outbox)
    ensures UniekeIncidenten(M.NaRegistratie(g, c, d, toegestaan, ids, nu).0.outbox)
  {
    var outbox := M.NaRegistratie(g, c, d, toegestaan, ids, nu).0.outbox;
    forall i | 0 <= i < |g.outbox|
      ensures outbox[i] == g.outbox[i] && g.outbox[i].eventId != ids.event1 && g.outbox[i].eventId != ids.event2
      ensures g.outbox[i].gebeurtenis.IncidentAangemaakt? ==> g.outbox[i].gebeurtenis.incidentId != ids.incident
    {
      assert g.outbox[i] in g.outbox;
    }
  }

  lemma RegistratieNieuw(d: M.Drempels, g: M.Gegevens, c: M.Command, toegestaan: bool, ids: M.Ids, nu: int)
    requires M.Positief(d)
    ensures var g' := M.NaRegistratie(g, c, d, toegestaan, ids, nu).0;
      && (forall x :: x in g.outbox ==> x in g'.outbox)
      && (forall x :: x in g'.outbox && x !in g.outbox && x.gebeurtenis.IncidentAangemaakt? ==>
        x.eventId == ids.event2 && x.gebeurtenis.incidentId == ids.incident)
      && (forall k :: k in g.incidenten ==> k in g'.incidenten)
  {
  }

  lemma RegistreerTelt(d: M.Drempels, s: Systeem, stap: Stap)
    requires M.Positief(d) && Telt(s) && NietsVooruit(s) && Mogelijk(s, stap) && stap.Registreer?
    ensures Telt(Na(d, s, stap))
  {
    var s' := Na(d, s, stap);
    RegistratieNieuw(d, s.mon, stap.c, stap.toegestaan, stap.ids, stap.nu);
    forall x | x in s'.mon.outbox && x.gebeurtenis.IncidentAangemaakt?
      ensures |TrajectenVoor(s'.onderhoud, x.gebeurtenis.incidentId)| == Verwacht(s', x)
    {
      if x !in s.mon.outbox {
        assert s.gecrasht[stap.ids.event2] == 0;
        assert !Bestaat(s.mon, stap.ids.incident);
      }
    }
  }

  lemma RegistreerVooruit(d: M.Drempels, s: Systeem, stap: Stap)
    requires M.Positief(d) && NietsVooruit(s) && Mogelijk(s, stap) && stap.Registreer?
    ensures NietsVooruit(Na(d, s, stap))
  {
    var s' := Na(d, s, stap);
    RegistratieNieuw(d, s.mon, stap.c, stap.toegestaan, stap.ids, stap.nu);
    assert forall id :: Bestaat(s.mon, id) ==> Bestaat(s'.mon, id);
  }

  lemma RegistreerInv(d: M.Drempels, s: Systeem, stap: Stap)
    requires M.Positief(d) && Inv(s) && Mogelijk(s, stap) && stap.Registreer?
    ensures Inv(Na(d, s, stap))
  {
    RegistratieOutbox(d, s.mon, stap.c, stap.toegestaan, stap.ids, stap.nu);
    RegistratieNieuw(d, s.mon, stap.c, stap.toegestaan, stap.ids, stap.nu);
    RegistreerTelt(d, s, stap);
    RegistreerVooruit(d, s, stap);
  }

  lemma NieuwTrajectTelt(db: Db, t: TrajectWaarde, incidentId: string)
    requires t.id !in db.trajecten
    ensures TrajectenVoor(MetTraject(db, t), incidentId) ==
      TrajectenVoor(db, incidentId) +
        (if t.aanleiding.VanDiagnose? && t.aanleiding.incidentId == Some(incidentId) then {t.id} else {})
    ensures t.id !in TrajectenVoor(db, incidentId)
  {
  }

  /** A well-formed incident event never makes the diagnosis throw. */
  lemma DiagnoseSlaagt(db: Db, g: M.Gebeurtenis, onderhoudId: string)
    requires g.IncidentAangemaakt? && !Blanco(g.incidentId) && !Blanco(g.kunstwerkId) && ErnstVan(g.ernst).Ok?
    requires !Blanco(onderhoudId)
    ensures var (db', r) := NaDiagnose(db, DiagnoseVan(g), onderhoudId);
      && r.Ok?
      && (if g.ernst == "Hoog" || g.ernst == "Kritiek"
          then db' == MetTraject(db,
            Plan(onderhoudId, g.kunstwerkId, VanDiagnose(Some(g.incidentId), g.omschrijving, ErnstVan(g.ernst).value)))
          else db' == db)
  {
  }

  function GeplandVoor(g: M.Gebeurtenis, onderhoudId: string): (t: TrajectWaarde)
    requires g.IncidentAangemaakt? && ErnstVan(g.ernst).Ok?
  {
    Plan(onderhoudId, g.kunstwerkId, VanDiagnose(Some(g.incidentId), g.omschrijving, ErnstVan(g.ernst).value))
  }

  ghost predicate Gaat(s: Systeem, onderhoudId: string, stop: Onderbreking) {
    Inv(s) && Mogelijk(s, Lever(onderhoudId, stop)) && Verwerkbaar(s.verwerkt, s.rij[0]) && stop != VoorEffect
  }

  lemma KopGoed(s: Systeem)
    requires Inv(s) && s.rij != []
    ensures s.rij[0] in s.mon.outbox && s.rij[0].gebeurtenis.IncidentAangemaakt?
    ensures ErnstVan(s.rij[0].gebeurtenis.ernst).Ok?
    ensures Bestaat(s.mon, s.rij[0].gebeurtenis.incidentId)
    ensures !Blanco(s.rij[0].gebeurtenis.incidentId) && !Blanco(s.rij[0].gebeurtenis.kunstwerkId)
  {
    assert s.rij[0] in s.rij;
  }

  /** The event is marked, or its crash before the mark is counted. */
  predicate Gemerkt(s: Systeem, s': Systeem, eventId: string, stop: Onderbreking) {
    if stop == NaEffect then s'.verwerkt == s.verwerkt && s'.gecrasht == s.gecrasht + multiset{eventId}
    else s'.verwerkt == s.verwerkt + {eventId} && s'.gecrasht == s.gecrasht
  }

  /** A delivery that gets as far as the diagnosis plans one traject for a heavy incident, and marks or counts the
      crash. */
  lemma LeverEffect(d: M.Drempels, s: Systeem, onderhoudId: string, stop: Onderbreking)
    requires M.Positief(d) && Gaat(s, onderhoudId, stop)
    ensures var env, s' := s.rij[0], Na(d, s, Lever(onderhoudId, stop));
      && env.gebeurtenis.IncidentAangemaakt? && ErnstVan(env.gebeurtenis.ernst).Ok? && s'.mon == s.mon
      && s'.onderhoud == MetGepland(s.onderhoud, env.gebeurtenis, onderhoudId)
      && s'.handmatig == s.handmatig && Gemerkt(s, s', env.eventId, stop)
  {
    KopGoed(s);
    DiagnoseSlaagt(s.onderhoud, s.rij[0].gebeurtenis, onderhoudId);
  }

  /** The table after the diagnosis of an incident event. */
  function MetGepland(db: Db, g: M.Gebeurtenis, onderhoudId: string): (r: Db)
    requires g.IncidentAangemaakt? && ErnstVan(g.ernst).Ok?
  {
    if Zwaar(g) then MetTraject(db, GeplandVoor(g, onderhoudId)) else db
  }

  lemma GeplandTelt(db: Db, g: M.Gebeurtenis, onderhoudId: string, incidentId: string)
    requires g.IncidentAangemaakt? && ErnstVan(g.ernst).Ok? && onderhoudId !in db.trajecten
    ensures |TrajectenVoor(MetGepland(db, g, onderhoudId), incidentId)| ==
      |TrajectenVoor(db, incidentId)| + if g.incidentId == incidentId && Zwaar(g) then 1 else 0
  {
    NieuwTrajectTelt(db, GeplandVoor(g, onderhoudId), incidentId);
  }

  lemma LeverTelt(d: M.Drempels, s: Systeem, onderhoudId: string, stop: Onderbreking, incidentId: string)
    requires M.Positief(d) && Gaat(s, onderhoudId, stop)
    ensures s.rij[0].gebeurtenis.IncidentAangemaakt?
    ensures var g, s' := s.rij[0].gebeurtenis, Na(d, s, Lever(onderhoudId, stop));
      |TrajectenVoor(s'.onderhoud, incidentId)| ==
        |TrajectenVoor(s.onderhoud, incidentId)| + (if g.incidentId == incidentId && Zwaar(g) then 1 else 0)
  {
    LeverEffect(d, s, onderhoudId, stop);
    GeplandTelt(s.onderhoud, s.rij[0].gebeurtenis, onderhoudId, incidentId);
  }

  /** The expected count follows one delivery of `env`. */
  lemma VerwachtNaLever(s: Systeem, s': Systeem, env: M.OutboxRij, x: M.OutboxRij, stop: Onderbreking)
    requires x.gebeurtenis.IncidentAangemaakt? && env.eventId !in s.verwerkt && (x.eventId == env.eventId ==> x == env)
    requires s'.handmatig == s.handmatig && Gemerkt(s, s', env.eventId, stop)
    ensures Verwacht(s', x) == Verwacht(s, x) + if x == env && Zwaar(x.gebeurtenis) then 1 else 0
  {
  }

  lemma LeverEvent(d: M.Drempels, s: Systeem, onderhoudId: string, stop: Onderbreking, x: M.OutboxRij)
    requires M.Positief(d) && Gaat(s, onderhoudId, stop) && x in s.mon.outbox && x.gebeurtenis.IncidentAangemaakt?
    ensures var s' := Na(d, s, Lever(onderhoudId, stop));
      |TrajectenVoor(s'.onderhoud, x.gebeurtenis.incidentId)| == Verwacht(s', x)
  {
    KopGoed(s);
    LeverEffect(d, s, onderhoudId, stop);
    ZelfdeRij(s.mon, x, s.rij[0]);
    LeverTelt(d, s, onderhoudId, stop, x.gebeurtenis.incidentId);
    VerwachtNaLever(s, Na(d, s, Lever(onderhoudId, stop)), s.rij[0], x, stop);
    Geteld(s, x);
  }

  lemma Geteld(s: Systeem, x: M.OutboxRij)
    requires Telt(s) && x in s.mon.outbox && x.gebeurtenis.IncidentAangemaakt?
    ensures |TrajectenVoor(s.onderhoud, x.gebeurtenis.incidentId)| == Verwacht(s, x)
  {
  }

  lemma LeverVerwerkt(d: M.Drempels, s: Systeem, onderhoudId: string, stop: Onderbreking)
    requires M.Positief(d) && Gaat(s, onderhoudId, stop)
    ensures Telt(Na(d, s, Lever(onderhoudId, stop))) && NietsVooruit(Na(d, s, Lever(onderhoudId, stop)))
  {
    var s' := Na(d, s, Lever(onderhoudId, stop));
    KopGoed(s);
    LeverEffect(d, s, onderhoudId, stop);
    forall x | x in s.mon.outbox && x.gebeurtenis.IncidentAangemaakt?
      ensures |TrajectenVoor(s'.onderhoud, x.gebeurtenis.incidentId)| == Verwacht(s', x)
    {
      LeverEvent(d, s, onderhoudId, stop, x);
    }
    forall id: string | id != "" && !Bestaat(s.mon, id)
      ensures |TrajectenVoor(s'.onderhoud, id)| == s'.handmatig[id]
    {
      LeverTelt(d, s, onderhoudId, stop, id);
    }
  }

  lemma LeverRij(d: M.Drempels, s: Systeem, onderhoudId: string, stop: Onderbreking)
    requires M.Positief(d) && RijGoed(s) && s.rij != []
    ensures RijGoed(Na(d, s, Lever(onderhoudId, stop))) && Na(d, s, Lever(onderhoudId, stop)).mon == s.mon
  {
  }

  /** A delivery that does not get as far as the diagnosis changes no count. */
  lemma LeverNiets(d: M.Drempels, s: Systeem, onderhoudId: string, stop: Onderbreking)
    requires M.Positief(d) && s.rij != [] && !(Verwerkbaar(s.verwerkt, s.rij[0]) && stop != VoorEffect)
    ensures var s' := Na(d, s, Lever(onderhoudId, stop));
      && s'.onderhoud == s.onderhoud && s'.verwerkt == s.verwerkt
      && s'.gecrasht == s.gecrasht && s'.handmatig == s.handmatig
  {
  }

  lemma LeverGekoppeld(d: M.Drempels, s: Systeem, onderhoudId: string, stop: Onderbreking)
    requires M.Positief(d) && Gaat(s, onderhoudId, stop)
    ensures OR.Gekoppeld(Na(d, s, Lever(onderhoudId, stop)).onderhoud)
  {
    KopGoed(s);
    OR.DiagnoseGekoppeld(s.onderhoud, DiagnoseVan(s.rij[0].gebeurtenis), onderhoudId);
  }

  lemma LeverInv(d: M.Drempels, s: Systeem, onderhoudId: string, stop: Onderbreking)
    requires M.Positief(d) && Inv(s) && Mogelijk(s, Lever(onderhoudId, stop))
    ensures Inv(Na(d, s, Lever(onderhoudId, stop)))
  {
    LeverRij(d, s, onderhoudId, stop);
    if Verwerkbaar(s.verwerkt, s.rij[0]) && stop != VoorEffect {
      LeverVerwerkt(d, s, onderhoudId, stop);
      LeverGekoppeld(d, s, onderhoudId, stop);
    } else {
      LeverNiets(d, s, onderhoudId, stop);
      ZelfdeTellingen(s, Na(d, s, Lever(onderhoudId, stop)));
    }
  }

  lemma ZelfdeTellingen(s: Systeem, s': Systeem)
    requires Telt(s) && NietsVooruit(s) && s'.mon == s.mon
    requires s'.onderhoud == s.onderhoud && s'.verwerkt == s.verwerkt
    requires s'.gecrasht == s.gecrasht && s'.handmatig == s.handmatig
    ensures Telt(s') && NietsVooruit(s')
  {
    assert forall x :: x in s.mon.outbox && x.gebeurtenis.IncidentAangemaakt? ==> Verwacht(s', x) == Verwacht(s, x);
  }

  /** Row and loaded traject agree on the incident they were planned for. */
  lemma IncidentKolommen(rij: OnderhoudRij, incidentId: string)
    requires EntityNaarOnderhoud(rij).Ok? && incidentId != ""
    ensures rij.aanleidingSoort == SoortDiagnose && rij.incidentId == Some(incidentId) <==>
      EntityNaarOnderhoud(rij).value.aanleiding.VanDiagnose?
        && EntityNaarOnderhoud(rij).value.aanleiding.incidentId == Some(incidentId)
  {
  }

  /** Saving a traject with an unchanged cause does not change the count. */
  lemma VervangenTelt(db: Db, o: string, t': TrajectWaarde, incidentId: string)
    requires o in db.trajecten && t'.id == o && incidentId != ""
    requires EntityNaarOnderhoud(db.trajecten[o]).Ok?
    requires t'.aanleiding == EntityNaarOnderhoud(db.trajecten[o]).value.aanleiding
    ensures TrajectenVoor(MetTraject(db, t'), incidentId) == TrajectenVoor(db, incidentId)
  {
    IncidentKolommen(db.trajecten[o], incidentId);
  }

  /** A diagnosis by hand counts for the incident it names. */
  lemma DiagnoseTelt(db: Db, c: DiagnoseCommand, o: string, incidentId: string)
    requires o !in db.trajecten && incidentId != ""
    ensures |TrajectenVoor(NaDiagnose(db, c, o).0, incidentId)| ==
      |TrajectenVoor(db, incidentId)| + if Genoemd(db, OR.Diagnose(c, o)) == Some(incidentId) then 1 else 0
  {
    var r := NaDiagnose(db, c, o).1;
    if r.Ok? && r.value.Some? {
      NieuwTrajectTelt(db,
        Plan(o, c.kunstwerkId, VanDiagnose(OptioneelId(c.incidentId).value, c.bevinding, ErnstVan(c.ernst).value)),
        incidentId);
    }
  }

  lemma ActieTelt(db: Db, id: string, a: Actie, incidentId: string)
    requires OR.Gekoppeld(db) && incidentId != ""
    ensures TrajectenVoor(NaTrajectActie(db, id, a).0, incidentId) == TrajectenVoor(db, incidentId)
  {
    if NaTrajectActie(db, id, a).1 == None {
      assert OR.TrajectGoed(db, id);
      OR.ActieBehoudt(ZoekTraject(db, id).value, a);
      VervangenTelt(db, id, NaActie(ZoekTraject(db, id).value, a).0, incidentId);
    }
  }

  lemma MeldingTelt(db: Db, m: Melding, toegestaan: bool, s: string, o: string, incidentId: string)
    requires o !in db.trajecten
    ensures TrajectenVoor(NaMelding(db, m, toegestaan, s, o).0, incidentId) == TrajectenVoor(db, incidentId)
  {
    NieuwTrajectTelt(db, Plan(o, m.kunstwerkId, VanStoring(s)), incidentId);
  }

  lemma AfrondingTelt(db: Db, id: string, resultaat: string, datum: int, incidentId: string)
    requires OR.Gekoppeld(db) && incidentId != ""
    ensures TrajectenVoor(NaAfronding(db, id, resultaat, datum).0, incidentId) == TrajectenVoor(db, incidentId)
  {
    var t := ZoekTraject(db, id);
    if t.Ok? && NaRondAf(t.value, resultaat, datum).1 == None {
      assert OR.TrajectGoed(db, id);
      VervangenTelt(db, id, NaRondAf(t.value, resultaat, datum).0, incidentId);
    }
  }

  lemma AndereStapTelt(db: Db, stap: OR.Stap, incidentId: string)
    requires OR.Gekoppeld(db) && OR.Mogelijk(db, stap) && !stap.Diagnose? && incidentId != ""
    ensures TrajectenVoor(OR.Na(db, stap), incidentId) == TrajectenVoor(db, incidentId)
  {
    match stap
    case Meld(m, toegestaan, s, o) => MeldingTelt(db, m, toegestaan, s, o, incidentId);
    case VoerUit(id, a) =>
      ActieTelt(db, id, a, incidentId);
    case RondAf(id, resultaat, datum) =>
      AfrondingTelt(db, id, resultaat, datum, incidentId);
    case Herorden(id, _, _) =>
  }

  lemma OnderhoudsstapTelt(db: Db, stap: OR.Stap, incidentId: string)
    requires OR.Gekoppeld(db) && OR.Mogelijk(db, stap) && incidentId != ""
    ensures |TrajectenVoor(OR.Na(db, stap), incidentId)| ==
      |TrajectenVoor(db, incidentId)| + if Genoemd(db, stap) == Some(incidentId) then 1 else 0
  {
    if stap.Diagnose? {
      DiagnoseTelt(db, stap.c, stap.onderhoudId, incidentId);
    } else {
      AndereStapTelt(db, stap, incidentId);
    }
  }

  /** What a command in Onderhoud changes. */
  lemma NaOnderhoudsstap(d: M.Drempels, s: Systeem, stap: OR.Stap)
    requires M.Positief(d) && OR.Mogelijk(s.onderhoud, stap)
    ensures var s', genoemd := Na(d, s, Onderhoudsstap(stap)), Genoemd(s.onderhoud, stap);
      && s' == s.(onderhoud := OR.Na(s.onderhoud, stap), handmatig := s'.handmatig)
      && s'.handmatig == s.handmatig + if genoemd.Some? then multiset{genoemd.value} else multiset{}
  {
  }

  /** Counts keep up when one more traject comes with one more mention. */
  lemma TelMee(s: Systeem, s': Systeem, genoemd: Option<string>, x: M.OutboxRij)
    requires x.gebeurtenis.IncidentAangemaakt? && s'.verwerkt == s.verwerkt && s'.gecrasht == s.gecrasht
    requires s'.handmatig == s.handmatig + if genoemd.Some? then multiset{genoemd.value} else multiset{}
    ensures Verwacht(s', x) == Verwacht(s, x) + if genoemd == Some(x.gebeurtenis.incidentId) then 1 else 0
  {
  }

  lemma OnderhoudsstapBehoudtTelling(d: M.Drempels, s: Systeem, stap: OR.Stap, x: M.OutboxRij)
    requires M.Positief(d) && OR.Gekoppeld(s.onderhoud) && OR.Mogelijk(s.onderhoud, stap)
    requires x.gebeurtenis.IncidentAangemaakt? && x.gebeurtenis.incidentId != ""
    requires |TrajectenVoor(s.onderhoud, x.gebeurtenis.incidentId)| == Verwacht(s, x)
    ensures var s' := Na(d, s, Onderhoudsstap(stap));
      |TrajectenVoor(s'.onderhoud, x.gebeurtenis.incidentId)| == Verwacht(s', x)
  {
    OnderhoudsstapTelt(s.onderhoud, stap, x.gebeurtenis.incidentId);
    NaOnderhoudsstap(d, s, stap);
    TelMee(s, Na(d, s, Onderhoudsstap(stap)), Genoemd(s.onderhoud, stap), x);
  }

  lemma OnderhoudsstapBehoudtHandmatig(d: M.Drempels, s: Systeem, stap: OR.Stap, id: string)
    requires M.Positief(d) && OR.Gekoppeld(s.onderhoud) && OR.Mogelijk(s.onderhoud, stap) && id != ""
    requires |TrajectenVoor(s.onderhoud, id)| == s.handmatig[id]
    ensures var s' := Na(d, s, Onderhoudsstap(stap));
      |TrajectenVoor(s'.onderhoud, id)| == s'.handmatig[id]
  {
    OnderhoudsstapTelt(s.onderhoud, stap, id);
    NaOnderhoudsstap(d, s, stap);
  }

  lemma IncidentGenoemd(g: M.Gegevens, x: M.OutboxRij)
    requires Gevuld(g) && x in g.outbox && x.gebeurtenis.IncidentAangemaakt?
    ensures x.gebeurtenis.incidentId != "" && Bestaat(g, x.gebeurtenis.incidentId)
  {
  }

  lemma OnderhoudsstapTellingen(d: M.Drempels, s: Systeem, stap: OR.Stap)
    requires M.Positief(d) && Gevuld(s.mon) && Telt(s) && NietsVooruit(s)
    requires OR.Gekoppeld(s.onderhoud) && OR.Mogelijk(s.onderhoud, stap)
    ensures Telt(Na(d, s, Onderhoudsstap(stap))) && NietsVooruit(Na(d, s, Onderhoudsstap(stap)))
  {
    var s' := Na(d, s, Onderhoudsstap(stap));
    forall x | x in s.mon.outbox && x.gebeurtenis.IncidentAangemaakt?
      ensures |TrajectenVoor(s'.onderhoud, x.gebeurtenis.incidentId)| == Verwacht(s', x)
    {
      IncidentGenoemd(s.mon, x);
      OnderhoudsstapBehoudtTelling(d, s, stap, x);
    }
    forall id: string | id != "" && !Bestaat(s.mon, id)
      ensures |TrajectenVoor(s'.onderhoud, id)| == s'.handmatig[id]
    {
      OnderhoudsstapBehoudtHandmatig(d, s, stap, id);
    }
  }

  lemma OnderhoudsstapInv(d: M.Drempels, s: Systeem, stap: OR.Stap)
    requires M.Positief(d) && Inv(s) && Mogelijk(s, Onderhoudsstap(stap))
    ensures Inv(Na(d, s, Onderhoudsstap(stap)))
  {
    OR.StapGekoppeld(s.onderhoud, stap);
    OnderhoudsstapTellingen(d, s, stap);
  }

  lemma PubliceerInv(d: M.Drempels, s: Systeem, i: nat)
    requires M.Positief(d) && Inv(s) && Mogelijk(s, Publiceer(i))
    ensures Inv(Na(d, s, Publiceer(i)))
  {
    var s' := Na(d, s, Publiceer(i));
    assert RijGoed(s');
    ZelfdeTellingen(s, s');
  }

  lemma SessiesInv(d: M.Drempels, s: Systeem, sessies: seq<M.Sessie>)
    requires M.Positief(d) && Inv(s)
    ensures Inv(Na(d, s, Sessies(sessies)))
  {
    var s' := Na(d, s, Sessies(sessies));
    assert s'.mon.outbox == s.mon.outbox && s'.mon.incidenten == s.mon.incidenten;
    assert forall id :: Bestaat(s'.mon, id) == Bestaat(s.mon, id);
  }

  lemma EldersInv(d: M.Drempels, s: Systeem, id: string)
    requires M.Positief(d) && Inv(s) && Mogelijk(s, Elders(id))
    ensures Inv(Na(d, s, Elders(id)))
  {
    var s' := Na(d, s, Elders(id));
    forall x | x in s.mon.outbox && x.gebeurtenis.IncidentAangemaakt? ensures Verwacht(s', x) == Verwacht(s, x) {
      assert x.eventId != id;
    }
  }

  lemma StapInv(d: M.Drempels, s: Systeem, stap: Stap)
    requires M.Positief(d) && Inv(s) && Mogelijk(s, stap)
    ensures Inv(Na(d, s, stap))
  {
    match stap
    case Registreer(_, _, _, _) => RegistreerInv(d, s, stap);
    case Sessies(sessies) => SessiesInv(d, s, sessies);
    case Publiceer(i) => PubliceerInv(d, s, i);
    case Lever(id, stop) => LeverInv(d, s, id, stop);
    case Onderhoudsstap(o) => OnderhoudsstapInv(d, s, o);
    case Elders(id) => EldersInv(d, s, id);
  }

  lemma BeginInv()
    ensures Inv(BEGIN)
  {
  }

  lemma {:induction false} RunInv(d: M.Drempels, ss: seq<Systeem>, stappen: seq<Stap>, n: nat)
    requires M.Positief(d) && IsRun(d, ss, stappen) && n <= |stappen|
    ensures Inv(ss[n])
  {
    if n == 0 {
      BeginInv();
    } else {
      RunInv(d, ss, stappen, n - 1);
      StapInv(d, ss[n - 1], stappen[n - 1]);
    }
  }

  // ---------- from reading to traject ----------

  /** Whether step `j` was a diagnosis by hand that names the incident and asks for maintenance. */
  ghost predicate NoemtIncident(ss: seq<Systeem>, stappen: seq<Stap>, j: nat, incidentId: string)
    requires j < |stappen| && j < |ss|
  {
    stappen[j].Onderhoudsstap? && Genoemd(ss[j].onderhoud, stappen[j].stap) == Some(incidentId)
  }

  /** The count by hand is zero exactly when no such diagnosis was made. */
  lemma {:induction false} HandmatigNul(d: M.Drempels, ss: seq<Systeem>, stappen: seq<Stap>, n: nat, incidentId: string)
    requires M.Positief(d) && IsRun(d, ss, stappen) && n <= |stappen|
    ensures ss[n].handmatig[incidentId] == 0 <==> forall j :: 0 <= j < n ==> !NoemtIncident(ss, stappen, j, incidentId)
  {
    if n > 0 {
      HandmatigNul(d, ss, stappen, n - 1, incidentId);
      HandmatigPlus(d, ss, stappen, n - 1, incidentId);
    }
  }

  lemma HandmatigPlus(d: M.Drempels, ss: seq<Systeem>, stappen: seq<Stap>, j: nat, incidentId: string)
    requires M.Positief(d) && IsRun(d, ss, stappen) && j < |stappen|
    ensures ss[j + 1].handmatig[incidentId] ==
      ss[j].handmatig[incidentId] + if NoemtIncident(ss, stappen, j, incidentId) then 1 else 0
  {
    assert Mogelijk(ss[j], stappen[j]) && ss[j + 1] == Na(d, ss[j], stappen[j]);
    if stappen[j].Onderhoudsstap? {
      NaOnderhoudsstap(d, ss[j], stappen[j].stap);
    }
  }

  /** At every moment, drained or not: beyond the trajecten planned by hand there is at most one per incident
      plus one per crash between saving the traject and marking the event, and none for the two lower severities. */
  lemma HoogstensEenPlusCrashes(d: M.Drempels, ss: seq<Systeem>, stappen: seq<Stap>, n: nat, x: M.OutboxRij)
    requires M.Positief(d) && IsRun(d, ss, stappen) && n <= |stappen|
    requires x in ss[n].mon.outbox && x.gebeurtenis.IncidentAangemaakt?
    ensures var i, aantal := x.gebeurtenis.incidentId, |TrajectenVoor(ss[n].onderhoud, x.gebeurtenis.incidentId)|;
      && ss[n].handmatig[i] <= aantal <= 1 + ss[n].gecrasht[x.eventId] + ss[n].handmatig[i]
      && (x.gebeurtenis.ernst == "Laag" || x.gebeurtenis.ernst == "Middel" ==> aantal == ss[n].handmatig[i])
  {
    RunInv(d, ss, stappen, n);
    assert |TrajectenVoor(ss[n].onderhoud, x.gebeurtenis.incidentId)| == Verwacht(ss[n], x);
  }

  /** A row stays, and once published it is queued or marked. */
  lemma StapOnderweg(d: M.Drempels, s: Systeem, stap: Stap, x: M.OutboxRij)
    requires M.Positief(d) && Inv(s) && Mogelijk(s, stap) && x in s.mon.outbox
    ensures x in Na(d, s, stap).mon.outbox
    ensures x in s.rij || x.eventId in s.verwerkt ==> x in Na(d, s, stap).rij || x.eventId in Na(d, s, stap).verwerkt
  {
    match stap
    case Registreer(c, toegestaan, ids, nu) => RegistratieNieuw(d, s.mon, c, toegestaan, ids, nu);
    case Lever(id, stop) =>
      LeverRijEnMerk(d, s, id, stop);
      if x in s.rij || x.eventId in s.verwerkt {
        LeverOnderweg(d, s, id, stop, x);
      }
    case _ =>
  }

  /** What a delivery does to the queue and to the marks. */
  lemma LeverRijEnMerk(d: M.Drempels, s: Systeem, onderhoudId: string, stop: Onderbreking)
    requires M.Positief(d) && Inv(s) && Mogelijk(s, Lever(onderhoudId, stop))
    ensures var s' := Na(d, s, Lever(onderhoudId, stop));
      && s'.mon == s.mon && s.verwerkt <= s'.verwerkt
      && s'.rij == (if stop == Geen then s.rij[1..] else s.rij)
      && (stop == Geen ==> s.rij[0].eventId in s'.verwerkt)
  {
    KopGoed(s);
    DiagnoseSlaagt(s.onderhoud, s.rij[0].gebeurtenis, onderhoudId);
  }

  lemma LeverOnderweg(d: M.Drempels, s: Systeem, onderhoudId: string, stop: Onderbreking, x: M.OutboxRij)
    requires M.Positief(d) && Inv(s) && Mogelijk(s, Lever(onderhoudId, stop)) && (x in s.rij || x.eventId in s.verwerkt)
    ensures var s' := Na(d, s, Lever(onderhoudId, stop));
      x in s'.rij || x.eventId in s'.verwerkt
  {
    LeverRijEnMerk(d, s, onderhoudId, stop);
    InRest(s.rij, x);
  }

  lemma InRest(rij: seq<M.OutboxRij>, x: M.OutboxRij)
    requires rij != []
    ensures x in rij ==> x == rij[0] || x in rij[1..]
  {
  }

  lemma RijBlijft(d: M.Drempels, ss: seq<Systeem>, stappen: seq<Stap>, m: nat, n: nat, x: M.OutboxRij)
    requires M.Positief(d) && IsRun(d, ss, stappen) && m <= n <= |stappen|
    requires x in ss[m].mon.outbox && x.gebeurtenis.IncidentAangemaakt?
    ensures x in ss[n].mon.outbox
    ensures x in ss[m].rij || x.eventId in ss[m].verwerkt ==> x in ss[n].rij || x.eventId in ss[n].verwerkt
  {
    var j := m;
    while j < n
      invariant m <= j <= n && x in ss[j].mon.outbox
      invariant x in ss[m].rij || x.eventId in ss[m].verwerkt ==> x in ss[j].rij || x.eventId in ss[j].verwerkt
    {
      RunInv(d, ss, stappen, j);
      StapOnderweg(d, ss[j], stappen[j], x);
      j := j + 1;
    }
  }

  lemma MetingGeeftEvent(d: M.Drempels, g: M.Gegevens, c: M.Command, toegestaan: bool, ids: M.Ids, nu: int)
    requires M.Positief(d) && M.Aanvaard(g, c, toegestaan)
    ensures var (g', r) := M.NaRegistratie(g, c, d, toegestaan, ids, nu);
      && r.Ok? && (r.value == None <==> c.waarde < d[c.sensor.value])
      && (r.value.Some? ==>
        r.value.value == ids.incident && exists x ::
        x in g'.outbox && IsEventVan(x, ids, c.waarde >= 1.5 * d[c.sensor.value]))
  {
    M.AnalyseGrenzen(d, c.sensor.value, c.waarde);
    var (g', r) := M.NaRegistratie(g, c, d, toegestaan, ids, nu);
    if r.value.Some? {
      var x := g'.outbox[|g.outbox| + 1];
      assert x in g'.outbox && IsEventVan(x, ids, c.waarde >= 1.5 * d[c.sensor.value]);
    }
  }

  /** The incident event of a reading; `zwaar` says whether it asks for maintenance, which Onderhoud
      reads off the severity and Monitoring announces as the follow-up action. */
  predicate IsEventVan(x: M.OutboxRij, ids: M.Ids, zwaar: bool) {
    && x.eventId == ids.event2 && x.gebeurtenis.IncidentAangemaakt? && x.gebeurtenis.incidentId == ids.incident
    && (Zwaar(x.gebeurtenis) <==> zwaar)
    && (x.gebeurtenis.vervolgactie == M.OnderhoudPlegen <==> zwaar)
  }

  /** A published incident event has its trajecten counted exactly once the queue is drained. */
  lemma EventWordtTraject(d: M.Drempels, ss: seq<Systeem>, stappen: seq<Stap>, p: nat, n: nat, i: nat, x: M.OutboxRij)
    requires M.Positief(d) && IsRun(d, ss, stappen) && p < n <= |stappen|
    requires stappen[p] == Publiceer(i) && i < |ss[p].mon.outbox| && ss[p].mon.outbox[i].eventId == x.eventId
    requires ss[n].rij == []
    requires x in ss[p].mon.outbox && x.gebeurtenis.IncidentAangemaakt?
    ensures |TrajectenVoor(ss[n].onderhoud, x.gebeurtenis.incidentId)| ==
      (if Zwaar(x.gebeurtenis) then 1 + ss[n].gecrasht[x.eventId] else 0) + ss[n].handmatig[x.gebeurtenis.incidentId]
  {
    RunInv(d, ss, stappen, p);
    ZelfdeRij(ss[p].mon, x, ss[p].mon.outbox[i]);
    assert ss[p + 1].rij == ss[p].rij + [x] && x in ss[p + 1].rij;
    RijBlijft(d, ss, stappen, p + 1, n, x);
    RunInv(d, ss, stappen, n);
    assert |TrajectenVoor(ss[n].onderhoud, x.gebeurtenis.incidentId)| == Verwacht(ss[n], x);
  }

  /** What the reading itself should lead to: one traject, and one more per crash, from one and a half times the
      threshold on. */
  function UitMeting(d: M.Drempels, c: M.Command, crashes: nat): (n: nat)
    requires M.Positief(d) && c.sensor.Some?
  {
    if c.waarde >= 1.5 * d[c.sensor.value] then 1 + crashes else 0
  }

  /** Step `m` registers a reading, and if that made an incident its event was published by step `p`. */
  ghost predicate Gemeten(d: M.Drempels, ss: seq<Systeem>, stappen: seq<Stap>, m: nat, p: nat, i: nat)
    requires M.Positief(d)
  {
    && IsRun(d, ss, stappen) && m < p < |stappen| && stappen[m].Registreer?
    && M.Aanvaard(ss[m].mon, stappen[m].c, stappen[m].toegestaan)
    && (Uitkomst(d, ss, stappen, m).Some? ==>
          stappen[p] == Publiceer(i) && i < |ss[p].mon.outbox| && ss[p].mon.outbox[i].eventId == stappen[m].ids.event2)
  }

  /** The incident that the reading of step `m` made, if any. */
  function Uitkomst(d: M.Drempels, ss: seq<Systeem>, stappen: seq<Stap>, m: nat): (r: Option<string>)
    requires M.Positief(d) && m < |stappen| && m < |ss| && stappen[m].Registreer?
    requires M.Aanvaard(ss[m].mon, stappen[m].c, stappen[m].toegestaan)
  {
    M.NaRegistratie(ss[m].mon, stappen[m].c, d, stappen[m].toegestaan, stappen[m].ids, stappen[m].nu).1.value
  }

  /** End to end: an accepted reading below the threshold gives no incident. One from the threshold on gives an
      incident, and once its event was published and the queue is drained, that incident has exactly one planned
      traject, plus one per crash between saving and marking, if the value is at least one and a half times the
      threshold, and none otherwise; beyond that it has one for every heavy diagnosis by hand that names it. */
  lemma MetingWordtTraject(d: M.Drempels, ss: seq<Systeem>, stappen: seq<Stap>, m: nat, p: nat, n: nat, i: nat)
    requires M.Positief(d) && Gemeten(d, ss, stappen, m, p, i) && p < n <= |stappen|
    requires Uitkomst(d, ss, stappen, m).Some? ==> ss[n].rij == []
    ensures var c, ids, uitkomst := stappen[m].c, stappen[m].ids, Uitkomst(d, ss, stappen, m);
      && (uitkomst == None <==> c.waarde < d[c.sensor.value])
      && (uitkomst.Some? ==> uitkomst.value == ids.incident)
      && (uitkomst.Some? ==>
           |TrajectenVoor(ss[n].onderhoud, ids.incident)| == UitMeting(d, c, ss[n].gecrasht[ids.event2]) +
             ss[n].handmatig[ids.incident])
  {
    var c, ids := stappen[m].c, stappen[m].ids;
    MetingGeeftEvent(d, ss[m].mon, c, stappen[m].toegestaan, ids, stappen[m].nu);
    if c.waarde >= d[c.sensor.value] {
      var x :| x in ss[m + 1].mon.outbox && IsEventVan(x, ids, c.waarde >= 1.5 * d[c.sensor.value]);
      RijBlijft(d, ss, stappen, m + 1, p, x);
      EventWordtTraject(d, ss, stappen, p, n, i, x);
    }
  }

  /** The incident has just the trajecten of its reading exactly when nobody made a heavy diagnosis by hand that names
      it. */
  lemma AlleenUitMeting(d: M.Drempels, ss: seq<Systeem>, stappen: seq<Stap>, m: nat, p: nat, n: nat, i: nat)
    requires M.Positief(d) && Gemeten(d, ss, stappen, m, p, i) && p < n <= |stappen| && ss[n].rij == []
    requires Uitkomst(d, ss, stappen, m).Some?
    ensures var c, ids := stappen[m].c, stappen[m].ids;
      |TrajectenVoor(ss[n].onderhoud, ids.incident)| == UitMeting(d, c, ss[n].gecrasht[ids.event2]) <==>
        forall j :: 0 <= j < n ==> !NoemtIncident(ss, stappen, j, ids.incident)
  {
    MetingWordtTraject(d, ss, stappen, m, p, n, i);
    HandmatigNul(d, ss, stappen, n, stappen[m].ids.incident);
  }

  // ---------- a diagnosis by hand on top ----------

  lemma NietBlanco(s: string)
    requires s != "" && s[0] !in " \t\n\r"
    ensures !Blanco(s)
  {
    assert s[0] in s;
  }

  const IDS := M.Ids("M", "I", "E1", "E2", "trilling")

  /** A reading of one and a half times the threshold, made into an incident event. */
  lemma ZwareMeting(d: M.Drempels, g: M.Gegevens)
    requires M.Positief(d) && g == M.Gegevens([M.Sessie("S", "K", M.Actief, 0)], [], [], [])
    ensures var c := M.Command("K", Some(MR.Trilling), 1.5 * d[MR.Trilling]);
      && M.Aanvaard(g, c, true)
      && var (g', r) := M.NaRegistratie(g, c, d, true, IDS, 0);
         && r == Ok(Some("I")) && |g'.outbox| == 2 && g'.outbox[1].eventId == "E2"
           && g'.outbox[1].gebeurtenis.IncidentAangemaakt?
  {
    NietBlanco("K");
    M.AnalyseGrenzen(d, MR.Trilling, 1.5 * d[MR.Trilling]);
  }

  function Voorbeeldmeting(d: M.Drempels): (c: M.Command)
    requires M.Positief(d)
  {
    M.Command("K", Some(MR.Trilling), 1.5 * d[MR.Trilling])
  }

  /** A session, the reading, its publication, one delivery, and a diagnosis by hand. */
  function Voorbeeld(d: M.Drempels): (r: seq<Stap>)
    requires M.Positief(d)
  {
    [Sessies([M.Sessie("S", "K", M.Actief, 0)]), Registreer(Voorbeeldmeting(d), true, IDS, 0), Publiceer(1),
      Lever("O1", Geen),
     Onderhoudsstap(OR.Diagnose(DiagnoseCommand("K", Some("I"), "", "Hoog"), "O2"))]
  }

  predicate Gepubliceerd(s: Systeem) {
    s.onderhoud == Db(map[], map[]) && s.gecrasht == multiset{} && s.handmatig == multiset{} && |s.rij| == 1
  }

  lemma TotPublicatie(d: M.Drempels) returns (s1: Systeem, s2: Systeem, s3: Systeem)
    requires M.Positief(d)
    ensures Stapt(d, BEGIN, Voorbeeld(d)[0], s1) && Stapt(d, s1, Voorbeeld(d)[1], s2)
    ensures Stapt(d, s2, Voorbeeld(d)[2], s3)
    ensures M.Aanvaard(s1.mon, Voorbeeldmeting(d), true) && |s2.mon.outbox| == 2 && s2.mon.outbox[1].eventId == "E2"
    ensures Gepubliceerd(s3)
  {
    s1 := Na(d, BEGIN, Voorbeeld(d)[0]);
    ZwareMeting(d, s1.mon);
    NietBlanco("I");
    assert "E1"[1] != "E2"[1];
    s2 := Na(d, s1, Voorbeeld(d)[1]);
    s3 := Na(d, s2, Voorbeeld(d)[2]);
  }

  lemma NaDiagnoseStap(d: M.Drempels, s: Systeem)
    requires M.Positief(d)
    ensures var stap, s' := Voorbeeld(d)[4], Na(d, s, Voorbeeld(d)[4]);
      s'.rij == s.rij && s'.gecrasht == s.gecrasht && s'.handmatig == s.handmatig + multiset{"I"}
        && Genoemd(s.onderhoud, stap.stap) == Some("I")
  {
    TweedeDiagnose(s.onderhoud);
  }

  lemma LeverEnDiagnose(d: M.Drempels, s3: Systeem) returns (s4: Systeem, s5: Systeem)
    requires M.Positief(d) && Gepubliceerd(s3)
    ensures Stapt(d, s3, Voorbeeld(d)[3], s4) && Stapt(d, s4, Voorbeeld(d)[4], s5)
    ensures s5.rij == [] && s5.gecrasht == multiset{} && s5.handmatig == multiset{"I"}
  {
    NietBlanco("O1");
    NietBlanco("O2");
    s4 := Na(d, s3, Voorbeeld(d)[3]);
    EenLevering(d, s3);
    s5 := Na(d, s4, Voorbeeld(d)[4]);
    NaDiagnoseStap(d, s4);
  }

  ghost predicate Stapt(d: M.Drempels, s: Systeem, stap: Stap, s': Systeem)
    requires M.Positief(d)
  {
    Mogelijk(s, stap) && s' == Na(d, s, stap)
  }

  lemma VijfStappen(d: M.Drempels, ss: seq<Systeem>, v: seq<Stap>)
    requires M.Positief(d) && |ss| == 6 && |v| == 5 && ss[0] == BEGIN
    requires Stapt(d, ss[0], v[0], ss[1]) && Stapt(d, ss[1], v[1], ss[2]) && Stapt(d, ss[2], v[2], ss[3])
    requires Stapt(d, ss[3], v[3], ss[4]) && Stapt(d, ss[4], v[4], ss[5])
    ensures IsRun(d, ss, v)
  {
    assert forall n :: 0 <= n < |v| ==> Stapt(d, ss[n], v[n], ss[n + 1]);
  }

  lemma VoorbeeldIsRun(d: M.Drempels) returns (ss: seq<Systeem>)
    requires M.Positief(d)
    ensures IsRun(d, ss, Voorbeeld(d)) && ss[5].rij == [] && ss[5].gecrasht == multiset{}
    ensures ss[5].handmatig == multiset{"I"}
    ensures M.Aanvaard(ss[1].mon, Voorbeeldmeting(d), true) && |ss[2].mon.outbox| == 2
    ensures ss[2].mon.outbox[1].eventId == "E2"
  {
    var s1, s2, s3 := TotPublicatie(d);
    var s4, s5 := LeverEnDiagnose(d, s3);
    ss := [BEGIN, s1, s2, s3, s4, s5];
    VijfStappen(d, ss, Voorbeeld(d));
  }

  /** For any thresholds: a reading that gives one traject, delivered once without a crash, and one heavy diagnosis
      by hand that names its incident leave two trajecten. */
  lemma HandmatigeDiagnoseTeltMee(d: M.Drempels) returns (ss: seq<Systeem>)
    requires M.Positief(d)
    ensures Gemeten(d, ss, Voorbeeld(d), 1, 2, 1) && ss[5].rij == [] && ss[5].gecrasht == multiset{}
    ensures UitMeting(d, Voorbeeldmeting(d), 0) == 1 && |TrajectenVoor(ss[5].onderhoud, "I")| == 2
  {
    ss := VoorbeeldIsRun(d);
    MetingGeeftEvent(d, ss[1].mon, Voorbeeldmeting(d), true, IDS, 0);
    MetingWordtTraject(d, ss, Voorbeeld(d), 1, 2, 5, 1);
  }

  lemma TweedeDiagnose(db: Db)
    ensures Genoemd(db, OR.Diagnose(DiagnoseCommand("K", Some("I"), "", "Hoog"), "O2")) == Some("I")
  {
    NietBlanco("K");
    NietBlanco("I");
    NietBlanco("O2");
  }

  /** An uninterrupted delivery to an empty table adds at most the traject that was asked for. */
  lemma EenLevering(d: M.Drempels, s: Systeem)
    requires M.Positief(d) && Gepubliceerd(s)
    ensures var s' := Na(d, s, Lever("O1", Geen));
      "O2" !in s'.onderhoud.trajecten && s'.rij == [] && s'.gecrasht == multiset{} && s'.handmatig == s.handmatig
  {
    assert "O1"[1] != "O2"[1];
  }
}
