/** From Monitoring's readings over the report's JSON to Beheer's verdict. */
module Rapportketen {
  import opened Gedeeld
  import opened MonitoringRapport
  import opened Rapportwaarden
  import Oordeel = Eisenoordeel

  // ---------- one sensor summary ----------

  lemma KleineNaam(t: SensorType)
    ensures Klein(Naam(t)) == match t case Trilling => "trilling" case Belasting => "belasting"
      case Temperatuur => "temperatuur" case Slijtage => "slijtage"
    ensures Klein(Naam(t)) != Naam(t)
  {
    var k := Klein(Naam(t));
    match t
    case Trilling => assert k == "trilling";
    case Belasting => assert k == "belasting";
    case Temperatuur => assert k == "temperatuur";
    case Slijtage => assert k == "slijtage";
  }

  lemma NamenVerschillen(t: SensorType, u: SensorType)
    requires t != u
    ensures Naam(t) != Naam(u) && Klein(Naam(t)) != Klein(Naam(u)) && Naam(t) != Klein(Naam(u))
  {
    KleineNaam(t);
    KleineNaam(u);
    assert Naam(t)[0] != Klein(Naam(u))[0];
    match t
    case Trilling => assert Naam(u)[1] != 'r' || Naam(u)[0] != 'T';
    case Temperatuur => assert Naam(u)[1] != 'e' || Naam(u)[0] != 'T';
    case _ =>
  }

  function MetNaam(w: Waarden, naam: string, getal: real): (r: Waarden) {
    w[naam := getal][Klein(naam) := getal]
  }

  lemma ItemNaam(s: Samenvatting)
    ensures var v := SamenvattingJson(s).velden;
      s.sensorType != "" ==>
        Of(Get(v, "meetwaarde"), Of(Get(v, "code"), Of(Get(v, "naam"), Get(v, "sensorType")))) ==
        Tekst(s.sensorType) == Get(v, "sensorType")
  {
    var v := SamenvattingJson(s).velden;
    GetVeld(v, "meetwaarde", 5);
    GetVeld(v, "code", 5);
    GetVeld(v, "naam", 5);
    GetVeld(v, "sensorType", 0);
  }

  lemma ItemGetal(s: Samenvatting)
    ensures NumericFromMapping(SamenvattingJson(s).velden) == Some(s.gemiddelde)
  {
    var v := SamenvattingJson(s).velden;
    GetVeld(v, "waarde", 5);
    GetVeld(v, "value", 5);
    GetVeld(v, "gemiddelde", 4);
  }

  /** A sensor summary adds its average under the sensor's name and under the name in lower case. */
  lemma ItemWaarden(w: Waarden, s: Samenvatting, t: SensorType, str: Json -> string)
    requires s.sensorType == Naam(t)
    ensures MetItem(w, SamenvattingJson(s), str) == MetNaam(w, Naam(t), s.gemiddelde)
  {
    KleineNaam(t);
    ItemNaam(s);
    ItemGetal(s);
  }

  // ---------- the whole report ----------

  /** The names a sensor's average goes by. */
  predicate IsNaamVan(naam: string, t: SensorType) {
    naam == Naam(t) || naam == Klein(Naam(t))
  }

  lemma NaamIsUniek(naam: string, t: SensorType, u: SensorType)
    requires IsNaamVan(naam, t) && IsNaamVan(naam, u)
    ensures t == u
  {
    if t != u {
      NamenVerschillen(t, u);
      NamenVerschillen(u, t);
    }
  }

  ghost predicate HeeftGemiddelden(w: Waarden, metingen: seq<Meting>, sensoren: seq<SensorType>) {
    forall t, naam :: t in sensoren && WaardenVan(metingen, t) != [] && IsNaamVan(naam, t) ==>
      naam in w && w[naam] == Gemiddelde(WaardenVan(metingen, t))
  }

  ghost predicate NoemtSensor(naam: string, metingen: seq<Meting>, sensoren: seq<SensorType>) {
    exists t :: t in sensoren && WaardenVan(metingen, t) != [] && IsNaamVan(naam, t)
  }

  /** `w` holds exactly the averages of the sensors among `sensoren` that have readings. */
  ghost predicate Gemiddelden(w: Waarden, metingen: seq<Meting>, sensoren: seq<SensorType>) {
    HeeftGemiddelden(w, metingen, sensoren) && forall naam :: naam in w ==> NoemtSensor(naam, metingen, sensoren)
  }

  lemma MetNaamLezen(w: Waarden, t: SensorType, getal: real, naam: string)
    ensures naam in MetNaam(w, Naam(t), getal) <==> naam in w || IsNaamVan(naam, t)
    ensures IsNaamVan(naam, t) ==> MetNaam(w, Naam(t), getal)[naam] == getal
    ensures naam in w && !IsNaamVan(naam, t) ==> MetNaam(w, Naam(t), getal)[naam] == w[naam]
  {
  }

  lemma SensorErbij(w: Waarden, metingen: seq<Meting>, sensoren: seq<SensorType>, t: SensorType)
    requires Gemiddelden(w, metingen, sensoren) && t !in sensoren && WaardenVan(metingen, t) != []
    ensures Gemiddelden(MetNaam(w, Naam(t), Gemiddelde(WaardenVan(metingen, t))), metingen, sensoren + [t])
  {
    var getal := Gemiddelde(WaardenVan(metingen, t));
    var w' := MetNaam(w, Naam(t), getal);
    forall u, naam | u in sensoren + [t] && WaardenVan(metingen, u) != [] && IsNaamVan(naam, u)
      ensures naam in w' && w'[naam] == Gemiddelde(WaardenVan(metingen, u))
    {
      MetNaamLezen(w, t, getal, naam);
      if IsNaamVan(naam, t) {
        NaamIsUniek(naam, t, u);
      }
    }
    forall naam | naam in w'
      ensures NoemtSensor(naam, metingen, sensoren + [t])
    {
      MetNaamLezen(w, t, getal, naam);
      SensorGenoemd(naam, metingen, sensoren, t);
    }
  }

  lemma SensorGenoemd(naam: string, metingen: seq<Meting>, sensoren: seq<SensorType>, t: SensorType)
    requires NoemtSensor(naam, metingen, sensoren) || (IsNaamVan(naam, t) && WaardenVan(metingen, t) != [])
    ensures NoemtSensor(naam, metingen, sensoren + [t])
  {
    if NoemtSensor(naam, metingen, sensoren) {
      var u :| u in sensoren && WaardenVan(metingen, u) != [] && IsNaamVan(naam, u);
      assert u in sensoren + [t];
    } else {
      assert t in sensoren + [t];
    }
  }

  lemma SensorZonderMetingen(w: Waarden, metingen: seq<Meting>, sensoren: seq<SensorType>, t: SensorType)
    requires Gemiddelden(w, metingen, sensoren) && WaardenVan(metingen, t) == []
    ensures Gemiddelden(w, metingen, sensoren + [t])
  {
    forall naam | naam in w
      ensures NoemtSensor(naam, metingen, sensoren + [t])
    {
      SensorGenoemd(naam, metingen, sensoren, t);
    }
  }

  lemma {:induction false} PerSensorWaarden(metingen: seq<Meting>, sensoren: seq<SensorType>, str: Json -> string)
    requires Verschillend(sensoren)
    ensures Gemiddelden(LijstWaarden(PerSensorJson(PerSensor(metingen, sensoren)), str), metingen, sensoren)
    decreases |sensoren|
  {
    if sensoren != [] {
      var n := |sensoren| - 1;
      var voor, t := sensoren[..n], sensoren[n];
      PerSensorWaarden(metingen, voor, str);
      assert t !in voor;
      var rest := PerSensor(metingen, voor);
      var oud := LijstWaarden(PerSensorJson(rest), str);
      assert voor + [t] == sensoren;
      var waarden := WaardenVan(metingen, t);
      if waarden == [] {
        SensorZonderMetingen(oud, metingen, voor, t);
      } else {
        SensorErbij(oud, metingen, voor, t);
        var s := Samenvatting(Naam(t), |waarden|, Kleinste(waarden), Grootste(waarden), Gemiddelde(waarden));
        ItemWaarden(oud, s, t, str);
        assert PerSensorJson(rest + [s]) == PerSensorJson(rest) + [SamenvattingJson(s)];
      }
    }
  }

  lemma {:induction false} IdsGevenNiets(ids: seq<string>, str: Json -> string)
    ensures LijstWaarden(IdsJson(ids), str) == map[]
    decreases |ids|
  {
    if ids != [] {
      IdsGevenNiets(ids[..|ids| - 1], str);
      assert IdsJson(ids)[..|ids| - 1] == IdsJson(ids[..|ids| - 1]);
    }
  }

  function MetTellingen(w: Waarden, r: Resultaten): (w': Waarden) {
    w["totaalIncidenten" := r.totaalIncidenten as real]["openIncidenten" :=
      r.openIncidenten as real]["opgelosteIncidenten" := r.opgelosteIncidenten as real]
  }

  lemma ObjectStap(velden: seq<(string, Json)>, n: nat, str: Json -> string)
    requires n < |velden|
    ensures ObjectWaarden(velden[..n + 1], str) ==
      MetVeld(ObjectWaarden(velden[..n], str), velden[n].0, velden[n].1, str)
  {
    assert velden[..n + 1][..n] == velden[..n];
  }

  lemma EersteVelden(r: Resultaten, str: Json -> string)
    ensures ObjectWaarden(NaarJson(r).velden[..3], str) ==
      LijstWaarden(PerSensorJson(r.perSensor), str)["totaalIncidenten" :=
        r.totaalIncidenten as real]["openIncidenten" := r.openIncidenten as real]
  {
    var v, lijst := NaarJson(r).velden, LijstWaarden(PerSensorJson(r.perSensor), str);
    ObjectStap(v, 0, str);
    ObjectStap(v, 1, str);
    ObjectStap(v, 2, str);
    assert map[] + lijst == lijst;
  }

  lemma RapportWaarden(r: Resultaten, str: Json -> string)
    ensures AlleWaarden(NaarJson(r), str) == MetTellingen(LijstWaarden(PerSensorJson(r.perSensor), str), r)
  {
    var v := NaarJson(r).velden;
    EersteVelden(r, str);
    ObjectStap(v, 3, str);
    ObjectStap(v, 4, str);
    IdsGevenNiets(r.incidentIds, str);
    assert v[..5] == v;
  }

  lemma TellingGeenSensor(naam: string, t: SensorType)
    requires IsNaamVan(naam, t)
    ensures naam != "totaalIncidenten" && naam != "openIncidenten" && naam != "opgelosteIncidenten"
  {
    KleineNaam(t);
  }

  const TELLINGEN := ["totaalIncidenten", "openIncidenten", "opgelosteIncidenten"]

  lemma TellingenLezen(w: Waarden, r: Resultaten, naam: string)
    ensures naam in MetTellingen(w, r) <==> naam in w || naam in TELLINGEN
    ensures naam !in TELLINGEN && naam in w ==> MetTellingen(w, r)[naam] == w[naam]
  {
  }

  lemma TellingenWaarde(w: Waarden, r: Resultaten)
    ensures MetTellingen(w, r)["totaalIncidenten"] == r.totaalIncidenten as real
    ensures MetTellingen(w, r)["openIncidenten"] == r.openIncidenten as real
    ensures MetTellingen(w, r)["opgelosteIncidenten"] == r.opgelosteIncidenten as real
  {
    assert "totaalIncidenten"[0] != "openIncidenten"[0] && "openIncidenten"[1] == 'p'
      && "opgelosteIncidenten"[2] == 'g' && "openIncidenten"[2] == 'e';
  }

  /** Flattening a report loses and overwrites nothing: every sensor with readings is found with its
      average under both spellings, the three counts under their own names, and nothing else. */
  lemma RapportVlak(metingen: seq<Meting>, incidenten: seq<Incident>, str: Json -> string, naam: string)
    ensures var r := StelOp(metingen, incidenten).0; var w := AlleWaarden(NaarJson(r), str);
      && (forall t :: WaardenVan(metingen, t) != [] && IsNaamVan(naam, t) ==>
        naam in w && w[naam] == Gemiddelde(WaardenVan(metingen, t)))
      && (naam == "totaalIncidenten" ==> naam in w && w[naam] == |incidenten| as real)
      && (naam == "openIncidenten" ==> naam in w && w[naam] == |Open(incidenten)| as real)
      && (naam == "opgelosteIncidenten" ==> naam in w && w[naam] == |Opgeloste(incidenten)| as real)
      && (naam in w ==> naam in TELLINGEN || exists t :: WaardenVan(metingen, t) != [] && IsNaamVan(naam, t))
  {
    var r := StelOp(metingen, incidenten).0;
    var lijst := LijstWaarden(PerSensorJson(r.perSensor), str);
    RapportWaarden(r, str);
    PerSensorWaarden(metingen, SENSOREN, str);
    TellingenLezen(lijst, r, naam);
    TellingenWaarde(lijst, r);
    forall t | WaardenVan(metingen, t) != [] && IsNaamVan(naam, t)
      ensures naam in AlleWaarden(NaarJson(r), str)
      ensures AlleWaarden(NaarJson(r), str)[naam] == Gemiddelde(WaardenVan(metingen, t))
    {
      SensorInLijst(t);
      TellingGeenSensor(naam, t);
    }
  }

  lemma SensorInLijst(t: SensorType)
    ensures t in SENSOREN
  {
    match t
    case Trilling => assert SENSOREN[0] == t;
    case Belasting => assert SENSOREN[1] == t;
    case Temperatuur => assert SENSOREN[2] == t;
    case Slijtage => assert SENSOREN[3] == t;
  }

  // ---------- the verdict ----------

  ghost predicate AlleVoldoen(metingen: seq<Meting>, t: SensorType, eis: Oordeel.Eis) {
    forall m :: m in metingen && m.sensor == t ==> Oordeel.Vergelijk(m.waarde, eis)
  }

  ghost predicate AlleSchenden(metingen: seq<Meting>, t: SensorType, eis: Oordeel.Eis) {
    forall m :: m in metingen && m.sensor == t ==> !Oordeel.Vergelijk(m.waarde, eis)
  }

  ghost predicate GaatOver(eis: Oordeel.Eis, t: SensorType, metingen: seq<Meting>) {
    IsNaamVan(eis.meetwaarde, t) && exists m :: m in metingen && m.sensor == t
  }

  /** For a requirement on a sensor with readings, Beheer compares exactly the average that the report gives for that
      sensor. */
  lemma EisZietGemiddelde(metingen: seq<Meting>, incidenten: seq<Incident>, str: Json -> string, eis: Oordeel.Eis,
      t: SensorType)
    requires GaatOver(eis, t, metingen)
    ensures WaardenVan(metingen, t) != [] && Regel(metingen, incidenten, t).Some?
    ensures Regel(metingen, incidenten, t).value.gemiddelde == Gemiddelde(WaardenVan(metingen, t))
    ensures Oordeel.WaardeVoorEis(eis, AlleWaarden(NaarJson(StelOp(metingen, incidenten).0), str)) ==
      Some(Regel(metingen, incidenten, t).value.gemiddelde)
    ensures Oordeel.ResultaatVoor(eis, AlleWaarden(NaarJson(StelOp(metingen, incidenten).0), str)) ==
      if Oordeel.Vergelijk(Gemiddelde(WaardenVan(metingen, t)), eis) then Oordeel.Voldoet else Oordeel.VoldoetNiet
  {
    var m :| m in metingen && m.sensor == t;
    WaardenVanBevat(metingen, t, m.waarde);
    RapportVlak(metingen, incidenten, str, eis.meetwaarde);
    RegelIs(metingen, incidenten, t);
  }

  /** If every reading meets the requirement, whatever its operator, so does the average. */
  lemma GemiddeldeVoldoet(metingen: seq<Meting>, t: SensorType, eis: Oordeel.Eis)
    requires AlleVoldoen(metingen, t, eis) && WaardenVan(metingen, t) != []
    ensures Oordeel.Vergelijk(Gemiddelde(WaardenVan(metingen, t)), eis)
  {
    var w := WaardenVan(metingen, t);
    Grenzen(w);
    GemiddeldeTussen(w, Kleinste(w), Grootste(w));
    WaardenVanBevat(metingen, t, Kleinste(w));
    WaardenVanBevat(metingen, t, Grootste(w));
    assert Oordeel.Vergelijk(Kleinste(w), eis) && Oordeel.Vergelijk(Grootste(w), eis) by {
      assert Meting(t, Kleinste(w)) in metingen && Meting(t, Grootste(w)) in metingen;
    }
  }

  /** If every reading violates the requirement and its operator is not equality, so does the average. */
  lemma GemiddeldeSchendt(metingen: seq<Meting>, t: SensorType, eis: Oordeel.Eis)
    requires AlleSchenden(metingen, t, eis) && WaardenVan(metingen, t) != [] && eis.operator != Oordeel.GelijkAan
    ensures !Oordeel.Vergelijk(Gemiddelde(WaardenVan(metingen, t)), eis)
  {
    var w := WaardenVan(metingen, t);
    Grenzen(w);
    GemiddeldeTussen(w, Kleinste(w), Grootste(w));
    WaardenVanBevat(metingen, t, Kleinste(w));
    WaardenVanBevat(metingen, t, Grootste(w));
    assert !Oordeel.Vergelijk(Kleinste(w), eis) && !Oordeel.Vergelijk(Grootste(w), eis) by {
      assert Meting(t, Kleinste(w)) in metingen && Meting(t, Grootste(w)) in metingen;
    }
  }

  /** Across the two services: if all readings meet the requirement Beheer finds Voldoet; if all violate
      it (and the operator is not equality) Beheer finds VoldoetNiet. */
  lemma OordeelOverServices(metingen: seq<Meting>, incidenten: seq<Incident>, str: Json -> string, eis: Oordeel.Eis,
      t: SensorType)
    requires GaatOver(eis, t, metingen)
    ensures var r := Oordeel.ResultaatVoor(eis, AlleWaarden(NaarJson(StelOp(metingen, incidenten).0), str));
      && (AlleVoldoen(metingen, t, eis) ==> r == Oordeel.Voldoet)
      && (AlleSchenden(metingen, t, eis) && eis.operator != Oordeel.GelijkAan ==> r == Oordeel.VoldoetNiet)
  {
    EisZietGemiddelde(metingen, incidenten, str, eis, t);
    if AlleVoldoen(metingen, t, eis) {
      GemiddeldeVoldoet(metingen, t, eis);
    }
    if AlleSchenden(metingen, t, eis) && eis.operator != Oordeel.GelijkAan {
      GemiddeldeSchendt(metingen, t, eis);
    }
  }

  /** For a whole package of such requirements: Voldoet when all readings meet all requirements,
      VoldoetNiet as soon as one requirement is violated by all its readings. */
  lemma PakketOverServices(metingen: seq<Meting>, incidenten: seq<Incident>, str: Json -> string,
      eisen: seq<Oordeel.Eis>, sensor: seq<SensorType>)
    requires eisen != [] && |sensor| == |eisen|
    requires forall i :: 0 <= i < |eisen| ==> GaatOver(eisen[i], sensor[i], metingen)
    ensures var r := Oordeel.Oordeel(Some(eisen), AlleWaarden(NaarJson(StelOp(metingen, incidenten).0), str)).0;
      && ((forall i :: 0 <= i < |eisen| ==> AlleVoldoen(metingen, sensor[i], eisen[i])) ==> r == Oordeel.Voldoet)
      && ((exists i ::
        0 <= i < |eisen| && AlleSchenden(metingen, sensor[i], eisen[i]) && eisen[i].operator != Oordeel.GelijkAan) ==>
        r == Oordeel.VoldoetNiet)
  {
    var w := AlleWaarden(NaarJson(StelOp(metingen, incidenten).0), str);
    Oordeel.OordeelBetekent(eisen, w);
    forall i | 0 <= i < |eisen|
      ensures AlleVoldoen(metingen, sensor[i], eisen[i]) ==> Oordeel.ResultaatVoor(eisen[i], w) == Oordeel.Voldoet
      ensures AlleSchenden(metingen, sensor[i], eisen[i]) && eisen[i].operator != Oordeel.GelijkAan ==>
        Oordeel.ResultaatVoor(eisen[i], w) == Oordeel.VoldoetNiet
    {
      OordeelOverServices(metingen, incidenten, str, eisen[i], sensor[i]);
    }
    if i :| 0 <= i < |eisen| && AlleSchenden(metingen, sensor[i], eisen[i]) && eisen[i].operator != Oordeel.GelijkAan {
      assert eisen[i] in eisen;
    }
  }

  /** For equality the second half fails: both readings miss the bound, their average hits it. */
  lemma GelijkheidOpGemiddelde(code: string, str: Json -> string)
    ensures var metingen := [Meting(Trilling, 0.0), Meting(Trilling, 2.0)];
      var eis := Oordeel.Eis(code, "", "trilling", Oordeel.GelijkAan, 1.0, "mm/s");
      && AlleSchenden(metingen, Trilling, eis)
      && Oordeel.ResultaatVoor(eis, AlleWaarden(NaarJson(StelOp(metingen, []).0), str)) == Oordeel.Voldoet
  {
    var metingen := [Meting(Trilling, 0.0), Meting(Trilling, 2.0)];
    var eis := Oordeel.Eis(code, "", "trilling", Oordeel.GelijkAan, 1.0, "mm/s");
    KleineNaam(Trilling);
    assert metingen[0] in metingen;
    EisZietGemiddelde(metingen, [], str, eis, Trilling);
    NulEnTwee();
  }

  lemma NulEnTwee()
    ensures WaardenVan([Meting(Trilling, 0.0), Meting(Trilling, 2.0)], Trilling) != []
    ensures Gemiddelde(WaardenVan([Meting(Trilling, 0.0), Meting(Trilling, 2.0)], Trilling)) == 1.0
  {
    var metingen := [Meting(Trilling, 0.0), Meting(Trilling, 2.0)];
    assert metingen[..1] == [metingen[0]] && metingen[..1][..0] == [];
    assert WaardenVan(metingen[..1], Trilling) == [0.0];
    assert WaardenVan(metingen, Trilling) == [0.0, 2.0];
    assert [0.0, 2.0][..1] == [0.0] && [0.0][..0] == [];
    assert Som([0.0, 2.0]) == 2.0;
  }
}
