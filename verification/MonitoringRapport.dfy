/** Monitoring's report: readings summarised per sensor, incidents counted, and its JSON form. */
module MonitoringRapport {
  import opened Gedeeld

  datatype SensorType = Trilling | Belasting | Temperatuur | Slijtage

  function Naam(t: SensorType): (r: string) {
    match t
    case Trilling => "Trilling"
    case Belasting => "Belasting"
    case Temperatuur => "Temperatuur"
    case Slijtage => "Slijtage"
  }

  /** The order of the enum, in which the groups are listed. */
  const SENSOREN: seq<SensorType> := [Trilling, Belasting, Temperatuur, Slijtage]

  datatype Meting = Meting(sensor: SensorType, waarde: real)

  datatype Ernst = Laag | Middel | Hoog | Kritiek

  function Orde(e: Ernst): (n: nat) {
    match e
    case Laag => 1
    case Middel => 2
    case Hoog => 3
    case Kritiek => 4
  }

  datatype IncidentStatus = Nieuw | InBehandeling | Opgelost
  datatype Incident = Incident(id: string, ernst: Ernst, status: IncidentStatus, aangemaaktOp: int)

  datatype Samenvatting = Samenvatting(sensorType: string, aantal: nat, min: real, max: real, gemiddelde: real)

  datatype Resultaten = Resultaten(perSensor: seq<Samenvatting>, totaalIncidenten: nat, openIncidenten: nat,
      opgelosteIncidenten: nat, incidentIds: seq<string>)

  // ---------- readings ----------

  function WaardenVan(metingen: seq<Meting>, t: SensorType): (r: seq<real>) {
    if metingen == [] then []
    else
      var rest := WaardenVan(metingen[..|metingen| - 1], t);
      if metingen[|metingen| - 1].sensor == t then rest + [metingen[|metingen| - 1].waarde] else rest
  }

  function Som(w: seq<real>): (r: real) {
    if w == [] then 0.0 else Som(w[..|w| - 1]) + w[|w| - 1]
  }

  function Kleinste(w: seq<real>): (r: real)
    requires w != []
  {
    if |w| == 1 then w[0]
    else
      var rest := Kleinste(w[..|w| - 1]);
      if w[|w| - 1] < rest then w[|w| - 1] else rest
  }

  function Grootste(w: seq<real>): (r: real)
    requires w != []
  {
    if |w| == 1 then w[0]
    else
      var rest := Grootste(w[..|w| - 1]);
      if w[|w| - 1] > rest then w[|w| - 1] else rest
  }

  function Gemiddelde(w: seq<real>): (r: real)
    requires w != []
  {
    Som(w) / |w| as real
  }

  /** Sensors without readings have no group. */
  function PerSensor(metingen: seq<Meting>, sensoren: seq<SensorType>): (r: seq<Samenvatting>) {
    if sensoren == [] then []
    else
      var t := sensoren[|sensoren| - 1];
      var w, rest := WaardenVan(metingen, t), PerSensor(metingen, sensoren[..|sensoren| - 1]);
      if w == [] then rest else rest + [Samenvatting(Naam(t), |w|, Kleinste(w), Grootste(w), Gemiddelde(w))]
  }

  lemma {:induction false} WaardenVanBevat(metingen: seq<Meting>, t: SensorType, x: real)
    ensures x in WaardenVan(metingen, t) <==> Meting(t, x) in metingen
    decreases |metingen|
  {
    if metingen != [] {
      var voor, m := metingen[..|metingen| - 1], metingen[|metingen| - 1];
      WaardenVanBevat(voor, t, x);
      assert metingen == voor + [m];
    }
  }

  lemma {:induction false} SomTussen(w: seq<real>, laag: real, hoog: real)
    requires forall x :: x in w ==> laag <= x <= hoog
    ensures laag * |w| as real <= Som(w) <= hoog * |w| as real
    decreases |w|
  {
    if w != [] {
      var voor := w[..|w| - 1];
      assert forall x :: x in voor ==> x in w;
      assert w[|w| - 1] in w;
      SomTussen(voor, laag, hoog);
      assert |w| as real == |voor| as real + 1.0;
    }
  }

  lemma {:induction false} Grenzen(w: seq<real>)
    requires w != []
    ensures Kleinste(w) in w && Grootste(w) in w
    ensures forall x :: x in w ==> Kleinste(w) <= x <= Grootste(w)
    decreases |w|
  {
    if |w| > 1 {
      Grenzen(w[..|w| - 1]);
      assert w == w[..|w| - 1] + [w[|w| - 1]];
    }
  }

  lemma DeelTussen(som: real, n: real, laag: real, hoog: real)
    requires n > 0.0 && laag * n <= som <= hoog * n
    ensures laag <= som / n <= hoog
  {
    var q := som / n;
    assert (q - laag) * n == som - laag * n && (hoog - q) * n == hoog * n - som;
  }

  /** The average lies in every interval that holds all values, so between minimum and maximum. */
  lemma GemiddeldeTussen(w: seq<real>, laag: real, hoog: real)
    requires w != [] && forall x :: x in w ==> laag <= x <= hoog
    ensures laag <= Gemiddelde(w) <= hoog
  {
    SomTussen(w, laag, hoog);
    DeelTussen(Som(w), |w| as real, laag, hoog);
  }

  // ---------- incidents ----------

  function Open(incidenten: seq<Incident>): (r: seq<Incident>) {
    Filter((i: Incident) => i.status != Opgelost, incidenten)
  }

  function Opgeloste(incidenten: seq<Incident>): (r: seq<Incident>) {
    Filter((i: Incident) => i.status == Opgelost, incidenten)
  }

  lemma {:induction false} OpenPlusOpgelost(incidenten: seq<Incident>)
    ensures |Open(incidenten)| + |Opgeloste(incidenten)| == |incidenten|
    decreases |incidenten|
  {
    if incidenten != [] {
      OpenPlusOpgelost(incidenten[..|incidenten| - 1]);
    }
  }

  /** Descending severity, then descending creation time. */
  predicate Zwaarder(a: Incident, b: Incident) {
    Orde(a.ernst) > Orde(b.ernst) || (Orde(a.ernst) == Orde(b.ernst) && a.aangemaaktOp > b.aangemaaktOp)
  }

  /** The head of the stable descending order: the first incident that no other one exceeds. */
  function Zwaarste(s: seq<Incident>): (r: Option<Incident>) {
    if s == [] then None
    else
      var rest, laatste := Zwaarste(s[..|s| - 1]), s[|s| - 1];
      if rest == None || Zwaarder(laatste, rest.value) then Some(laatste) else rest
  }

  ghost predicate IsEersteZwaarste(s: seq<Incident>, k: nat)
    requires k < |s|
  {
    (forall i :: 0 <= i < |s| ==> !Zwaarder(s[i], s[k])) && (forall i :: 0 <= i < k ==> Zwaarder(s[k], s[i]))
  }

  lemma ZwaarstePlus(s: seq<Incident>, x: Incident)
    ensures Zwaarste(s + [x]) == if Zwaarste(s) == None || Zwaarder(x, Zwaarste(s).value) then Some(x) else Zwaarste(s)
  {
    assert (s + [x])[..|s|] == s;
  }

  /** The result is an incident of the list, at a position that no other exceeds and no earlier one reaches. */
  lemma {:induction false} ZwaarsteIsZwaarst(s: seq<Incident>) returns (k: nat)
    requires s != []
    ensures k < |s| && Zwaarste(s) == Some(s[k]) && IsEersteZwaarste(s, k)
    decreases |s|
  {
    var n := |s| - 1;
    assert s == s[..n] + [s[n]];
    ZwaarstePlus(s[..n], s[n]);
    k := n;
    if n > 0 {
      var j := ZwaarsteIsZwaarst(s[..n]);
      assert forall i :: 0 <= i < n ==> s[..n][i] == s[i];
      if !Zwaarder(s[n], s[j]) { k := j; }
    }
  }

  function IdsVan(incidenten: seq<Incident>): (r: seq<string>) {
    seq(|incidenten|, i requires 0 <= i < |incidenten| => incidenten[i].id)
  }

  function StelOp(metingen: seq<Meting>, incidenten: seq<Incident>): (r: (Resultaten, Option<string>)) {
    var zwaarste := Zwaarste(Open(incidenten));
    (Resultaten(PerSensor(metingen, SENSOREN), |incidenten|, |Open(incidenten)|, |Opgeloste(incidenten)|,
                IdsVan(incidenten)),
     if zwaarste.Some? then Some(zwaarste.value.id) else None)
  }

  /** The summary of a sensor: how many readings, two of them as bounds of all, and an average in between. */
  ghost predicate Vat(s: Samenvatting, metingen: seq<Meting>, t: SensorType) {
    && s.sensorType == Naam(t)
    && s.aantal == |Filter((m: Meting) => m.sensor == t, metingen)| > 0
    && Meting(t, s.min) in metingen && Meting(t, s.max) in metingen
    && (forall m :: m in metingen && m.sensor == t ==> s.min <= m.waarde <= s.max)
    && s.min <= s.gemiddelde <= s.max
  }

  lemma {:induction false} AantalWaarden(metingen: seq<Meting>, t: SensorType)
    ensures |WaardenVan(metingen, t)| == |Filter((m: Meting) => m.sensor == t, metingen)|
    decreases |metingen|
  {
    if metingen != [] {
      AantalWaarden(metingen[..|metingen| - 1], t);
    }
  }

  lemma SamenvattingVat(metingen: seq<Meting>, t: SensorType)
    requires WaardenVan(metingen, t) != []
    ensures var w := WaardenVan(metingen, t);
      Vat(Samenvatting(Naam(t), |w|, Kleinste(w), Grootste(w), Gemiddelde(w)), metingen, t)
  {
    var w := WaardenVan(metingen, t);
    AantalWaarden(metingen, t);
    Grenzen(w);
    GemiddeldeTussen(w, Kleinste(w), Grootste(w));
    WaardenVanBevat(metingen, t, Kleinste(w));
    WaardenVanBevat(metingen, t, Grootste(w));
    forall m | m in metingen && m.sensor == t ensures Kleinste(w) <= m.waarde <= Grootste(w) {
      WaardenVanBevat(metingen, t, m.waarde);
    }
  }

  lemma {:induction false} PerSensorVat(metingen: seq<Meting>, sensoren: seq<SensorType>, t: SensorType)
    ensures (exists s :: s in PerSensor(metingen, sensoren) && Vat(s, metingen, t)) <==>
      t in sensoren && WaardenVan(metingen, t) != []
    ensures forall s :: s in PerSensor(metingen, sensoren) ==> exists u :: u in sensoren && Vat(s, metingen, u)
    decreases |sensoren|
  {
    if sensoren != [] {
      var n := |sensoren| - 1;
      var voor, laatste := sensoren[..n], sensoren[n];
      PerSensorVat(metingen, voor, t);
      assert sensoren == voor + [laatste];
      if WaardenVan(metingen, laatste) != [] {
        SamenvattingVat(metingen, laatste);
        NaamBepaalt(t, laatste);
      }
    }
  }

  lemma NaamBepaalt(t: SensorType, u: SensorType)
    ensures Naam(t) == Naam(u) <==> t == u
  {
    assert Naam(t) == Naam(u) ==> |Naam(t)| == |Naam(u)| && Naam(t)[0] == Naam(u)[0];
  }

  lemma HeeftWaarden(metingen: seq<Meting>, t: SensorType)
    ensures WaardenVan(metingen, t) != [] <==> exists m :: m in metingen && m.sensor == t
  {
    var w := WaardenVan(metingen, t);
    if w != [] {
      WaardenVanBevat(metingen, t, w[0]);
      assert Meting(t, w[0]).sensor == t;
    }
    if m :| m in metingen && m.sensor == t {
      WaardenVanBevat(metingen, t, m.waarde);
    }
  }

  /** A report summarises exactly the sensors with readings, and names an open incident that no open one exceeds,
      if there is an open one. */
  lemma RapportVatSamen(metingen: seq<Meting>, incidenten: seq<Incident>, t: SensorType)
    ensures (exists s :: s in StelOp(metingen, incidenten).0.perSensor && Vat(s, metingen, t)) <==>
      exists m :: m in metingen && m.sensor == t
    ensures StelOp(metingen, incidenten).1 == None <==> forall i :: i in incidenten ==> i.status == Opgelost
    ensures StelOp(metingen, incidenten).1.Some? ==>
      exists i :: IsZwaarsteOpen(i, incidenten) && StelOp(metingen, incidenten).1 == Some(i.id)
  {
    PerSensorVat(metingen, SENSOREN, t);
    assert t in SENSOREN by {
      assert SENSOREN[0] == Trilling && SENSOREN[1] == Belasting && SENSOREN[2] == Temperatuur
        && SENSOREN[3] == Slijtage;
    }
    HeeftWaarden(metingen, t);
    RapportNoemt(metingen, incidenten);
  }

  lemma RapportNoemt(metingen: seq<Meting>, incidenten: seq<Incident>)
    ensures StelOp(metingen, incidenten).1 == None <==> forall i :: i in incidenten ==> i.status == Opgelost
    ensures StelOp(metingen, incidenten).1.Some? ==>
      exists i :: IsZwaarsteOpen(i, incidenten) && StelOp(metingen, incidenten).1 == Some(i.id)
  {
    var open := Open(incidenten);
    if open != [] {
      var k := ZwaarsteIsZwaarst(open);
      assert open[k] in open;
      assert IsZwaarsteOpen(open[k], incidenten);
    } else {
      assert forall i :: i in incidenten && i.status != Opgelost ==> i in open;
    }
  }

  /** An open incident that no open one exceeds. */
  ghost predicate IsZwaarsteOpen(i: Incident, incidenten: seq<Incident>) {
    i in incidenten && i.status != Opgelost && forall j :: j in incidenten && j.status != Opgelost ==> !Zwaarder(j, i)
  }

  // ---------- one line of the report ----------

  /** The last line under this name, if there is one. */
  function Zoek(p: seq<Samenvatting>, naam: string): (r: Option<Samenvatting>)
    ensures r.Some? ==> r.value in p && r.value.sensorType == naam
    ensures r == None ==> forall s :: s in p ==> s.sensorType != naam
  {
    if p == [] then None
    else if p[|p| - 1].sensorType == naam then Some(p[|p| - 1])
    else Zoek(p[..|p| - 1], naam)
  }

  /** What a report says of sensor `t`. */
  function Regel(metingen: seq<Meting>, incidenten: seq<Incident>, t: SensorType): (r: Option<Samenvatting>) {
    Zoek(StelOp(metingen, incidenten).0.perSensor, Naam(t))
  }

  function SamenvattingVan(w: seq<real>, t: SensorType): (r: Option<Samenvatting>) {
    if w == [] then None else Some(Samenvatting(Naam(t), |w|, Kleinste(w), Grootste(w), Gemiddelde(w)))
  }

  lemma {:induction false} ZoekPerSensor(metingen: seq<Meting>, sensoren: seq<SensorType>, t: SensorType)
    ensures Zoek(PerSensor(metingen, sensoren), Naam(t)) ==
      if t in sensoren then SamenvattingVan(WaardenVan(metingen, t), t) else None
    decreases |sensoren|
  {
    if sensoren != [] {
      var voor, laatste := sensoren[..|sensoren| - 1], sensoren[|sensoren| - 1];
      ZoekPerSensor(metingen, voor, t);
      NaamBepaalt(t, laatste);
      assert sensoren == voor + [laatste];
      var rest := PerSensor(metingen, voor);
      if WaardenVan(metingen, laatste) != [] {
        assert PerSensor(metingen, sensoren)[..|rest|] == rest;
      }
    }
  }

  lemma RegelIs(metingen: seq<Meting>, incidenten: seq<Incident>, t: SensorType)
    ensures Regel(metingen, incidenten, t) == SamenvattingVan(WaardenVan(metingen, t), t)
  {
    ZoekPerSensor(metingen, SENSOREN, t);
    assert t in SENSOREN by {
      assert SENSOREN[0] == Trilling && SENSOREN[1] == Belasting && SENSOREN[2] == Temperatuur
        && SENSOREN[3] == Slijtage;
    }
  }

  function AantalIn(r: Option<Samenvatting>): (n: nat) {
    if r.Some? then r.value.aantal else 0
  }

  /** The number of readings times their average; nothing without readings. */
  function Gewicht(r: Option<Samenvatting>): (x: real) {
    if r.Some? then r.value.aantal as real * r.value.gemiddelde else 0.0
  }

  lemma {:induction false} WaardenSamen(a: seq<Meting>, b: seq<Meting>, t: SensorType)
    ensures WaardenVan(a + b, t) == WaardenVan(a, t) + WaardenVan(b, t)
    decreases |b|
  {
    if b == [] {
      assert a + b == a;
    } else {
      var voor := b[..|b| - 1];
      WaardenSamen(a, voor, t);
      assert (a + b)[..|a + b| - 1] == a + voor;
    }
  }

  lemma {:induction false} SomSamen(v: seq<real>, w: seq<real>)
    ensures Som(v + w) == Som(v) + Som(w)
    decreases |w|
  {
    if w == [] {
      assert v + w == v;
    } else {
      var voor := w[..|w| - 1];
      SomSamen(v, voor);
      assert (v + w)[..|v + w| - 1] == v + voor;
    }
  }

  lemma GewichtIsSom(w: seq<real>, t: SensorType)
    ensures Gewicht(SamenvattingVan(w, t)) == Som(w)
  {
    if w != [] {
      var n := |w| as real;
      assert Som(w) / n * n == Som(w);
    }
  }

  /** Two lots of readings in one report: their numbers add up, and so do their averages, weighted by those numbers. */
  lemma GemiddeldeSamen(a: seq<Meting>, b: seq<Meting>, incidenten: seq<Incident>, t: SensorType)
    ensures var x, y, xy := Regel(a, incidenten, t), Regel(b, incidenten, t), Regel(a + b, incidenten, t);
      AantalIn(xy) == AantalIn(x) + AantalIn(y) && Gewicht(xy) == Gewicht(x) + Gewicht(y)
  {
    RegelIs(a, incidenten, t);
    RegelIs(b, incidenten, t);
    RegelIs(a + b, incidenten, t);
    WaardenSamen(a, b, t);
    SomSamen(WaardenVan(a, t), WaardenVan(b, t));
    GewichtIsSom(WaardenVan(a, t), t);
    GewichtIsSom(WaardenVan(b, t), t);
    GewichtIsSom(WaardenVan(a + b, t), t);
  }

  /** A single reading is the smallest, the largest and the average of its sensor, and no other sensor has a line. */
  lemma GemiddeldeAlleen(m: Meting, incidenten: seq<Incident>, t: SensorType)
    ensures Regel([m], incidenten, t) ==
      if t == m.sensor then Some(Samenvatting(Naam(t), 1, m.waarde, m.waarde, m.waarde)) else None
  {
    RegelIs([m], incidenten, t);
    WaardenVanEen(m, t);
    EenWaarde(m.waarde);
  }

  lemma WaardenVanEen(m: Meting, t: SensorType)
    ensures WaardenVan([m], t) == if t == m.sensor then [m.waarde] else []
  {
    assert [m][..|[m]| - 1] == [];
    assert WaardenVan([], t) == [];
  }

  lemma EenWaarde(x: real)
    ensures Kleinste([x]) == x && Grootste([x]) == x && Gemiddelde([x]) == x
  {
    assert [x][..|[x]| - 1] == [];
    assert Som([]) == 0.0;
    assert Som([x]) == x;
  }

  // ---------- the incidents of the report ----------

  /** The incident that a report names, in plain words: open, of the highest severity among the open ones, and of
      those of that severity none is younger. */
  lemma NoemtErnstigste(metingen: seq<Meting>, incidenten: seq<Incident>) returns (i: Incident)
    requires exists j :: j in incidenten && j.status != Opgelost
    ensures StelOp(metingen, incidenten).1 == Some(i.id) && i in incidenten && i.status != Opgelost
    ensures forall j :: j in incidenten && j.status != Opgelost ==>
      && (j.ernst == Kritiek ==> i.ernst == Kritiek)
      && (j.ernst == Hoog ==> i.ernst == Hoog || i.ernst == Kritiek)
      && (j.ernst == Middel ==> i.ernst != Laag)
      && (j.ernst == i.ernst ==> j.aangemaaktOp <= i.aangemaaktOp)
  {
    RapportNoemt(metingen, incidenten);
    i :| IsZwaarsteOpen(i, incidenten) && StelOp(metingen, incidenten).1 == Some(i.id);
  }

  lemma {:induction false} FilterSamen(p: Incident -> bool, a: seq<Incident>, b: seq<Incident>)
    ensures Filter(p, a + b) == Filter(p, a) + Filter(p, b)
    decreases |b|
  {
    if b == [] {
      assert a + b == a;
    } else {
      var voor, x := b[..|b| - 1], b[|b| - 1];
      FilterSamen(p, a, voor);
      assert a + b == (a + voor) + [x] && b == voor + [x];
      FilterPlus(p, a + voor, x);
      FilterPlus(p, voor, x);
    }
  }

  /** Two lots of incidents in one report: all three counts add up, and the ids follow each other. */
  lemma IncidentenSamen(metingen: seq<Meting>, a: seq<Incident>, b: seq<Incident>)
    ensures var x, y, xy := StelOp(metingen, a).0, StelOp(metingen, b).0, StelOp(metingen, a + b).0;
      && xy.totaalIncidenten == x.totaalIncidenten + y.totaalIncidenten
      && xy.openIncidenten == x.openIncidenten + y.openIncidenten
      && xy.opgelosteIncidenten == x.opgelosteIncidenten + y.opgelosteIncidenten
      && xy.incidentIds == x.incidentIds + y.incidentIds
  {
    OpenSamen(a, b);
    OpgelosteSamen(a, b);
    IdsSamen(a, b);
  }

  lemma OpenSamen(a: seq<Incident>, b: seq<Incident>)
    ensures Open(a + b) == Open(a) + Open(b)
  {
    FilterSamen((i: Incident) => i.status != Opgelost, a, b);
  }

  lemma OpgelosteSamen(a: seq<Incident>, b: seq<Incident>)
    ensures Opgeloste(a + b) == Opgeloste(a) + Opgeloste(b)
  {
    FilterSamen((i: Incident) => i.status == Opgelost, a, b);
  }

  lemma IdsSamen(a: seq<Incident>, b: seq<Incident>)
    ensures IdsVan(a + b) == IdsVan(a) + IdsVan(b)
  {
  }

  /** A single incident counts as solved when it is Opgelost and as open otherwise. */
  lemma IncidentAlleen(metingen: seq<Meting>, i: Incident)
    ensures var x, opgelost := StelOp(metingen, [i]).0, if i.status == Opgelost then 1 else 0;
      && x.totaalIncidenten == 1 && x.openIncidenten == 1 - opgelost && x.opgelosteIncidenten == opgelost
      && x.incidentIds == [i.id]
  {
    EenOpen(i);
    EenOpgelost(i);
  }

  lemma EenOpen(i: Incident)
    ensures |Open([i])| == if i.status == Opgelost then 0 else 1
  {
    FilterPlus((x: Incident) => x.status != Opgelost, [], i);
    assert [] + [i] == [i];
  }

  lemma EenOpgelost(i: Incident)
    ensures |Opgeloste([i])| == if i.status == Opgelost then 1 else 0
  {
    FilterPlus((x: Incident) => x.status == Opgelost, [], i);
    assert [] + [i] == [i];
  }

  predicate Eerder(t: SensorType, u: SensorType) {
    match t
    case Trilling => u != Trilling
    case Belasting => u == Temperatuur || u == Slijtage
    case Temperatuur => u == Slijtage
    case Slijtage => false
  }

  ghost predicate InVolgorde(p: seq<Samenvatting>) {
    forall i, j, t, u ::
      0 <= i < j < |p| && p[i].sensorType == Naam(t) && p[j].sensorType == Naam(u) ==> Eerder(t, u)
  }

  lemma {:induction false} PerSensorInVolgorde(metingen: seq<Meting>, sensoren: seq<SensorType>)
    requires forall i, j :: 0 <= i < j < |sensoren| ==> Eerder(sensoren[i], sensoren[j])
    ensures InVolgorde(PerSensor(metingen, sensoren))
    ensures forall s :: s in PerSensor(metingen, sensoren) ==> exists t :: t in sensoren && s.sensorType == Naam(t)
    decreases |sensoren|
  {
    if sensoren != [] {
      var n := |sensoren| - 1;
      var voor, laatste := sensoren[..n], sensoren[n];
      PerSensorInVolgorde(metingen, voor);
      assert sensoren == voor + [laatste];
      forall v | v in voor ensures Eerder(v, laatste) {
        var i :| 0 <= i < |voor| && voor[i] == v;
        assert sensoren[i] == v;
      }
      if WaardenVan(metingen, laatste) != [] {
        AchteraanInVolgorde(PerSensor(metingen, voor), voor, PerSensor(metingen, sensoren)[|PerSensor(metingen, voor)|],
          laatste);
      }
    }
  }

  lemma AchteraanInVolgorde(p: seq<Samenvatting>, voor: seq<SensorType>, s: Samenvatting, laatste: SensorType)
    requires InVolgorde(p) && s.sensorType == Naam(laatste) && forall v :: v in voor ==> Eerder(v, laatste)
    requires forall x :: x in p ==> exists v :: v in voor && x.sensorType == Naam(v)
    ensures InVolgorde(p + [s])
  {
    var q := p + [s];
    forall i, j, t, u | 0 <= i < j < |q| && q[i].sensorType == Naam(t) && q[j].sensorType == Naam(u)
      ensures Eerder(t, u)
    {
      assert p[i] in p;
      if j == |p| {
        NaamBepaalt(u, laatste);
        var v :| v in voor && p[i].sensorType == Naam(v);
        NaamBepaalt(t, v);
      }
    }
  }

  /** The lines of a report follow the order vibration, load, temperature, wear. */
  lemma RegelsInVolgorde(metingen: seq<Meting>, incidenten: seq<Incident>)
    ensures InVolgorde(StelOp(metingen, incidenten).0.perSensor)
  {
    PerSensorInVolgorde(metingen, SENSOREN);
  }

  // ---------- the wire form ----------

  datatype Json =
    | Null
    | Bool(b: bool)
    | Getal(waarde: real)
    | Tekst(s: string)
    | Lijst(items: seq<Json>)
    | Object(velden: seq<(string, Json)>)

  function SamenvattingJson(s: Samenvatting): (r: Json) {
    Object([("sensorType", Tekst(s.sensorType)), ("aantal", Getal(s.aantal as real)), ("min", Getal(s.min)),
      ("max", Getal(s.max)), ("gemiddelde", Getal(s.gemiddelde))])
  }

  function PerSensorJson(p: seq<Samenvatting>): (r: seq<Json>) {
    seq(|p|, i requires 0 <= i < |p| => SamenvattingJson(p[i]))
  }

  function IdsJson(ids: seq<string>): (r: seq<Json>) {
    seq(|ids|, i requires 0 <= i < |ids| => Tekst(ids[i]))
  }

  /** The property `resultaten` of the report event. */
  function NaarJson(r: Resultaten): (j: Json) {
    Object([("perSensor", Lijst(PerSensorJson(r.perSensor))),
            ("totaalIncidenten", Getal(r.totaalIncidenten as real)),
            ("openIncidenten", Getal(r.openIncidenten as real)),
            ("opgelosteIncidenten", Getal(r.opgelosteIncidenten as real)),
            ("incidentIds", Lijst(IdsJson(r.incidentIds)))])
  }
}
