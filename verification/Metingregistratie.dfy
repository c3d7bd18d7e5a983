/** Monitoring's use case for one reading: session, reading, incident and outbox events in sequence. */
module Metingregistratie {
  import opened Gedeeld
  import opened MonitoringRapport

  datatype MonitoringStatus = Actief | Gepauzeerd | Afgerond
  datatype Vervolgactie = IntensieverMonitoren | Inspectie | OnderhoudPlegen

  function VervolgactieVoor(e: Ernst): (r: Vervolgactie) {
    match e
    case Laag => IntensieverMonitoren
    case Middel => Inspectie
    case Hoog => OnderhoudPlegen
    case Kritiek => OnderhoudPlegen
  }

  function ErnstNaam(e: Ernst): (r: string) {
    match e
    case Laag => "Laag"
    case Middel => "Middel"
    case Hoog => "Hoog"
    case Kritiek => "Kritiek"
  }

  type Drempels = map<SensorType, real>

  predicate Positief(d: Drempels) {
    forall t: SensorType :: t in d && d[t] > 0.0
  }

  datatype Afwijking = Afwijking(sensor: SensorType, waarde: real, drempel: real, ernst: Ernst)

  /** The ratio of value to threshold decides whether there is a deviation and how severe it is. */
  function Analyseer(d: Drempels, t: SensorType, waarde: real): (r: Option<Afwijking>)
    requires Positief(d)
  {
    var factor := waarde / d[t];
    if factor < 1.0 then None
    else Some(Afwijking(t, waarde, d[t],
      if factor < 1.25 then Laag
      else if factor < 1.5 then Middel
      else if factor < 2.0 then Hoog
      else Kritiek))
  }

  /** SensorData.Van refuses negative values except temperatures, and wear above 100 percent. */
  predicate GeldigeWaarde(t: SensorType, waarde: real) {
    (waarde >= 0.0 || t == Temperatuur) && (t == Slijtage ==> waarde <= 100.0)
  }

  datatype Sessie = Sessie(id: string, kunstwerkId: string, status: MonitoringStatus, aantalMetingen: nat)
  datatype MetingRij = MetingRij(id: string, sessieId: string, kunstwerkId: string, sensor: SensorType, waarde: real,
      tijdstip: int)

  datatype IncidentRij = IncidentRij(
    id: string, kunstwerkId: string, afwijking: Afwijking, omschrijving: string, vervolgactie: Vervolgactie,
      status: IncidentStatus, aangemaaktOp: int)

  datatype Gebeurtenis =
    | MetingGeregistreerd(metingId: string, sessieId: string, kunstwerkId: string, sensor: SensorType, waarde: real)
    | IncidentAangemaakt(incidentId: string, kunstwerkId: string, ernst: string, omschrijving: string,
      vervolgactie: Vervolgactie)

  datatype OutboxRij = OutboxRij(eventId: string, gebeurtenis: Gebeurtenis)

  datatype Gegevens = Gegevens(sessies: seq<Sessie>, metingen: seq<MetingRij>, incidenten: seq<IncidentRij>,
      outbox: seq<OutboxRij>)

  /** `sensor` is the outcome of parsing the sensor's name. */
  datatype Command = Command(kunstwerkId: string, sensor: Option<SensorType>, waarde: real)

  /** The ids drawn for the reading, the incident and the two envelopes, and the incident's text, whose
      number format is left open. */
  datatype Ids = Ids(meting: string, incident: string, event1: string, event2: string, omschrijving: string)

  /** The position of the first session for `k` that has not ended, or the length. */
  function Lopende(sessies: seq<Sessie>, k: string): (n: nat)
    ensures n <= |sessies| && (n < |sessies| ==> sessies[n].kunstwerkId == k && sessies[n].status != Afgerond)
  {
    if sessies == [] || (sessies[0].kunstwerkId == k && sessies[0].status != Afgerond) then 0
      else 1 + Lopende(sessies[1..], k)
  }

  predicate Aanvaard(g: Gegevens, c: Command, toegestaan: bool) {
    && c.sensor.Some? && !Blanco(c.kunstwerkId) && toegestaan
    && Lopende(g.sessies, c.kunstwerkId) < |g.sessies|
    && GeldigeWaarde(c.sensor.value, c.waarde)
    && g.sessies[Lopende(g.sessies, c.kunstwerkId)].status == Actief
  }

  function IncidentVoor(c: Command, a: Afwijking, ids: Ids, nu: int): (r: IncidentRij) {
    IncidentRij(ids.incident, c.kunstwerkId, a, ids.omschrijving, VervolgactieVoor(a.ernst), Nieuw, nu)
  }

  function IncidentEvent(i: IncidentRij): (r: Gebeurtenis) {
    IncidentAangemaakt(i.id, i.kunstwerkId, ErnstNaam(i.afwijking.ernst), i.omschrijving, i.vervolgactie)
  }

  function NaRegistratie(g: Gegevens, c: Command, d: Drempels, toegestaan: bool, ids: Ids, nu: int):
      (r: (Gegevens, Result<Option<string>>))
    requires Positief(d)
  {
    if !Aanvaard(g, c, toegestaan) then (g, Err(DomeinFout))
    else
      var n := Lopende(g.sessies, c.kunstwerkId);
      var sessie := g.sessies[n].(aantalMetingen := g.sessies[n].aantalMetingen + 1);
      var sessies, metingen :=
        g.sessies[n := sessie],
        g.metingen + [MetingRij(ids.meting, sessie.id, c.kunstwerkId, c.sensor.value, c.waarde, nu)];
      var gemeten := OutboxRij(ids.event1,
        MetingGeregistreerd(ids.meting, sessie.id, c.kunstwerkId, c.sensor.value, c.waarde));
      match Analyseer(d, c.sensor.value, c.waarde)
      case None => (Gegevens(sessies, metingen, g.incidenten, g.outbox + [gemeten]), Ok(None))
      case Some(a) =>
        var incident := IncidentVoor(c, a, ids, nu);
        (Gegevens(sessies, metingen, g.incidenten + [incident],
          g.outbox + [gemeten, OutboxRij(ids.event2, IncidentEvent(incident))]), Ok(Some(ids.incident)))
  }

  class RegistreerMeting {
    var sessies: seq<Sessie>
    var metingen: seq<MetingRij>
    var incidenten: seq<IncidentRij>
    var outbox: seq<OutboxRij>
    const drempels: Drempels

    function Waarde(): (g: Gegevens)
      reads this
    {
      Gegevens(sessies, metingen, incidenten, outbox)
    }

    constructor (drempels: Drempels)
      ensures this.drempels == drempels && Waarde() == Gegevens([], [], [], [])
    {
      this.drempels := drempels;
      sessies, metingen, incidenten, outbox := [], [], [], [];
    }

    method Uitvoeren(c: Command, bekend: bool, streng: bool, ids: Ids, nu: int) returns (r: Result<Option<string>>)
      requires Positief(drempels)
      modifies this
      ensures (Waarde(), r) == NaRegistratie(old(Waarde()), c, drempels, bekend || !streng, ids, nu)
    {
      if c.sensor == None || Blanco(c.kunstwerkId) {
        return Err(DomeinFout);
      }
      if !bekend && streng {
        return Err(DomeinFout);
      }
      var n := Lopende(sessies, c.kunstwerkId);
      if n == |sessies| {
        return Err(DomeinFout);
      }
      var sensor := c.sensor.value;
      if (c.waarde < 0.0 && sensor != Temperatuur) || (sensor == Slijtage && c.waarde > 100.0) {
        return Err(DomeinFout);
      }
      if sessies[n].status != Actief {
        return Err(DomeinFout);
      }
      var sessie := sessies[n].(aantalMetingen := sessies[n].aantalMetingen + 1);
      sessies := sessies[n := sessie];
      metingen := metingen + [MetingRij(ids.meting, sessie.id, c.kunstwerkId, sensor, c.waarde, nu)];
      var teVerzenden :=
        [OutboxRij(ids.event1, MetingGeregistreerd(ids.meting, sessie.id, c.kunstwerkId, sensor, c.waarde))];
      r := Ok(None);
      var afwijking := Analyseer(drempels, sensor, c.waarde);
      if afwijking.Some? {
        var incident := IncidentVoor(c, afwijking.value, ids, nu);
        incidenten := incidenten + [incident];
        var gemeten := teVerzenden[0];
        teVerzenden := teVerzenden + [OutboxRij(ids.event2, IncidentEvent(incident))];
        assert teVerzenden == [gemeten, OutboxRij(ids.event2, IncidentEvent(incident))];
        r := Ok(Some(incident.id));
      }
      outbox := outbox + teVerzenden;
    }
  }

  lemma FactorGrens(waarde: real, drempel: real, grens: real)
    requires drempel > 0.0
    ensures waarde / drempel >= grens <==> waarde >= grens * drempel
  {
    var q := waarde / drempel;
    assert q * drempel == waarde;
    assert (q - grens) * drempel == waarde - grens * drempel;
  }

  /** The analysis in terms of the threshold itself: there is an incident from the threshold on, and it
      calls for maintenance exactly from one and a half times the threshold on. A deviation is never
      refused for lying below its threshold. */
  lemma AnalyseGrenzen(d: Drempels, t: SensorType, waarde: real)
    requires Positief(d)
    ensures Analyseer(d, t, waarde).Some? <==> waarde >= d[t]
    ensures Analyseer(d, t, waarde).Some? ==>
      (VervolgactieVoor(Analyseer(d, t, waarde).value.ernst) == OnderhoudPlegen <==> waarde >= 1.5 * d[t])
    ensures Analyseer(d, t, waarde).Some? ==>
      Analyseer(d, t, waarde).value.waarde >= Analyseer(d, t, waarde).value.drempel
  {
    FactorGrens(waarde, d[t], 1.0);
    FactorGrens(waarde, d[t], 1.5);
  }

  /** Which severity belongs to which part of the range above the threshold. */
  predicate ErnstBij(e: Ernst, waarde: real, drempel: real) {
    match e
    case Laag => drempel <= waarde < 1.25 * drempel
    case Middel => 1.25 * drempel <= waarde < 1.5 * drempel
    case Hoog => 1.5 * drempel <= waarde < 2.0 * drempel
    case Kritiek => 2.0 * drempel <= waarde
  }

  /** A deviation carries the reading, its threshold, and the severity of the range that the reading lies in. */
  lemma ErnstGrenzen(d: Drempels, t: SensorType, waarde: real)
    requires Positief(d) && Analyseer(d, t, waarde).Some?
    ensures var a := Analyseer(d, t, waarde).value;
      a.sensor == t && a.waarde == waarde && a.drempel == d[t] && ErnstBij(a.ernst, waarde, d[t])
  {
    FactorGrens(waarde, d[t], 1.0);
    FactorGrens(waarde, d[t], 1.25);
    FactorGrens(waarde, d[t], 1.5);
    FactorGrens(waarde, d[t], 2.0);
  }

  // ---------- what one reading leaves behind ----------

  /** The session that a reading counts for: the first of its kunstwerk that has not ended. */
  ghost predicate IsLopende(sessies: seq<Sessie>, k: string, n: nat) {
    && n < |sessies| && sessies[n].kunstwerkId == k && sessies[n].status != Afgerond
    && forall i :: 0 <= i < n ==> sessies[i].kunstwerkId != k || sessies[i].status == Afgerond
  }

  lemma {:induction false} LopendeIsEerste(sessies: seq<Sessie>, k: string, n: nat)
    ensures IsLopende(sessies, k, n) <==> n < |sessies| && n == Lopende(sessies, k)
    decreases |sessies|
  {
    if sessies != [] && n > 0 {
      LopendeIsEerste(sessies[1..], k, n - 1);
      assert forall i :: 0 < i < |sessies| ==> sessies[i] == sessies[1..][i - 1];
    }
  }

  predicate WaardeMag(t: SensorType, waarde: real) {
    match t
    case Temperatuur => true
    case Slijtage => 0.0 <= waarde <= 100.0
    case _ => 0.0 <= waarde
  }

  /** A reading is accepted exactly when its sensor and kunstwerk are known and allowed, its value is possible and the
      running session is active. */
  lemma MetingAanvaard(g: Gegevens, c: Command, d: Drempels, toegestaan: bool, ids: Ids, nu: int)
    requires Positief(d)
    ensures NaRegistratie(g, c, d, toegestaan, ids, nu).1.Ok? <==>
      c.sensor.Some? && WaardeMag(c.sensor.value, c.waarde) && toegestaan && !Blanco(c.kunstwerkId)
        && exists n: nat :: IsLopende(g.sessies, c.kunstwerkId, n) && g.sessies[n].status == Actief
    ensures NaRegistratie(g, c, d, toegestaan, ids, nu).1.Err? ==> NaRegistratie(g, c, d, toegestaan, ids, nu).0 == g
  {
    var n := Lopende(g.sessies, c.kunstwerkId);
    LopendeIsEerste(g.sessies, c.kunstwerkId, n);
    forall i: nat ensures IsLopende(g.sessies, c.kunstwerkId, i) <==> i < |g.sessies| && i == n {
      LopendeIsEerste(g.sessies, c.kunstwerkId, i);
    }
    if NaRegistratie(g, c, d, toegestaan, ids, nu).1.Ok? {
      assert IsLopende(g.sessies, c.kunstwerkId, n);
    }
  }

  function EventVanMeting(m: MetingRij): (e: Gebeurtenis) {
    MetingGeregistreerd(m.id, m.sessieId, m.kunstwerkId, m.sensor, m.waarde)
  }

  /** An accepted reading counts once, in the running session alone, and its row and its event say the same. */
  lemma MetingVastgelegd(g: Gegevens, c: Command, d: Drempels, toegestaan: bool, ids: Ids, nu: int) returns (n: nat)
    requires Positief(d) && NaRegistratie(g, c, d, toegestaan, ids, nu).1.Ok?
    ensures IsLopende(g.sessies, c.kunstwerkId, n)
    ensures var g' := NaRegistratie(g, c, d, toegestaan, ids, nu).0;
      && g'.sessies == g.sessies[n := g.sessies[n].(aantalMetingen := g.sessies[n].aantalMetingen + 1)]
      && g'.metingen ==
         g.metingen + [MetingRij(ids.meting, g.sessies[n].id, c.kunstwerkId, c.sensor.value, c.waarde, nu)]
      && |g.outbox| < |g'.outbox| && g'.outbox[..|g.outbox|] == g.outbox
      && g'.outbox[|g.outbox|] == OutboxRij(ids.event1, EventVanMeting(g'.metingen[|g.metingen|]))
  {
    n := Lopende(g.sessies, c.kunstwerkId);
    LopendeIsEerste(g.sessies, c.kunstwerkId, n);
  }

  function Ernstnaam(waarde: real, drempel: real): (r: string) {
    if waarde < 1.25 * drempel then "Laag"
    else if waarde < 1.5 * drempel then "Middel"
    else if waarde < 2.0 * drempel then "Hoog"
    else "Kritiek"
  }

  /** From the threshold on an accepted reading also leaves one new incident; row and event agree, and the event names
      the severity and the follow-up that belong to the ratio of the reading to the threshold. */
  lemma IncidentVastgelegd(g: Gegevens, c: Command, d: Drempels, toegestaan: bool, ids: Ids, nu: int)
    requires Positief(d) && NaRegistratie(g, c, d, toegestaan, ids, nu).1.Ok?
    ensures var g', waarde, drempel := NaRegistratie(g, c, d, toegestaan, ids, nu).0, c.waarde, d[c.sensor.value];
      if waarde < drempel then g'.incidenten == g.incidenten && |g'.outbox| == |g.outbox| + 1
      else
        && |g'.incidenten| == |g.incidenten| + 1 && g'.incidenten[..|g.incidenten|] == g.incidenten
        && |g'.outbox| == |g.outbox| + 2
        && var i := g'.incidenten[|g.incidenten|];
           var vervolg := if waarde < 1.25 * drempel then IntensieverMonitoren
             else if waarde < 1.5 * drempel then Inspectie else OnderhoudPlegen;
           i.id == ids.incident && i.kunstwerkId == c.kunstwerkId && i.afwijking.waarde == waarde
             && i.afwijking.drempel == drempel && i.status == Nieuw && i.aangemaaktOp == nu
             && i.vervolgactie == vervolg && g'.outbox[|g.outbox| + 1] == OutboxRij(ids.event2,
               IncidentAangemaakt(i.id, i.kunstwerkId, Ernstnaam(waarde, drempel), i.omschrijving, vervolg))
  {
    AnalyseGrenzen(d, c.sensor.value, c.waarde);
    if c.waarde >= d[c.sensor.value] {
      ErnstGrenzen(d, c.sensor.value, c.waarde);
    }
  }

  const STANDAARD_DREMPELS: Drempels := map[Trilling := 5.0, Belasting := 100.0, Temperatuur := 40.0, Slijtage := 60.0]

  lemma StandaardIsPositief()
    ensures Positief(STANDAARD_DREMPELS)
  {
    forall t: SensorType ensures t in STANDAARD_DREMPELS && STANDAARD_DREMPELS[t] > 0.0 {
      match t
      case Trilling =>
      case _ =>
    }
  }

  /** Under the default thresholds an incident starts at 5 for vibration, 100 for load, 40 for temperature and 60 for
      wear. */
  lemma StandaardGrenzen(t: SensorType, waarde: real)
    ensures Positief(STANDAARD_DREMPELS)
    ensures Analyseer(STANDAARD_DREMPELS, t, waarde).Some? <==>
      waarde >= match t case Trilling => 5.0 case Belasting => 100.0 case Temperatuur => 40.0 case Slijtage => 60.0
  {
    StandaardIsPositief();
    AnalyseGrenzen(STANDAARD_DREMPELS, t, waarde);
  }
}
