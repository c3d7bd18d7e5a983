/** Contract's translation of Monitoring's report into one KPI score. */
module Kpi {
  import opened Gedeeld
  import opened MonitoringRapport
  import R = Rapportwaarden

  function Begrensd(n: int): (r: int) {
    if n > 100 then 100 else if n < 0 then 0 else n
  }

  function Veld(j: Json, naam: string): (r: Json) {
    if j.Object? then R.Get(j.velden, naam) else Null
  }

  /** The first number among three properties, if any. */
  function Kandidaat(j: Json): (r: Option<real>) {
    if Veld(j, "kpiScore").Getal? then Some(Veld(j, "kpiScore").waarde)
    else if Veld(j, "score").Getal? then Some(Veld(j, "score").waarde)
    else if Veld(j, "beschikbaarheid").Getal? then Some(Veld(j, "beschikbaarheid").waarde)
    else None
  }

  function VertaalNaarKpiScore(j: Json): (r: Option<int>)
    ensures r.Some? ==> 0 <= r.value <= 100
  {
    if !j.Object? && !j.Lijst? then None
    else
      var kandidaat := Kandidaat(j);
      if kandidaat.Some? then Some(Begrensd(Rond(kandidaat.value)))
      else
        var totaal, open := Veld(j, "totaalIncidenten"), Veld(j, "openIncidenten");
        if totaal.Getal? && open.Getal? && totaal.waarde >= 0.0 && open.waarde >= 0.0 then
          if totaal.waarde == 0.0 then Some(100)
          else Some(Begrensd(Rond(100.0 * (1.0 - open.waarde / totaal.waarde))))
        else None
  }

  /** The integer nearest to `x`, pulled into 0..100. */
  predicate Dichtbij(r: Option<int>, x: real) {
    && r.Some? && 0 <= r.value <= 100
    && (0.0 <= x <= 100.0 ==> x - 0.5 < r.value as real <= x + 0.5)
    && (x > 100.0 ==> r.value == 100) && (x < 0.0 ==> r.value == 0)
  }

  predicate Telbaar(j: Json) {
    && Veld(j, "totaalIncidenten").Getal? && Veld(j, "openIncidenten").Getal?
    && Veld(j, "totaalIncidenten").waarde >= 0.0 && Veld(j, "openIncidenten").waarde >= 0.0
  }

  /** Which property decides: the first of three that is a number, else the two counts, else nothing. */
  lemma VertalingBetekent(j: Json)
    ensures var r, kpi, score, beschikbaar :=
      VertaalNaarKpiScore(j), Veld(j, "kpiScore"), Veld(j, "score"), Veld(j, "beschikbaarheid");
      && (kpi.Getal? ==> Dichtbij(r, kpi.waarde))
      && (!kpi.Getal? && score.Getal? ==> Dichtbij(r, score.waarde))
      && (!kpi.Getal? && !score.Getal? && beschikbaar.Getal? ==> Dichtbij(r, beschikbaar.waarde))
      && (!kpi.Getal? && !score.Getal? && !beschikbaar.Getal? ==>
           if !Telbaar(j) then r == None
           else var totaal, open := Veld(j, "totaalIncidenten").waarde, Veld(j, "openIncidenten").waarde;
             if totaal == 0.0 then r == Some(100) else Dichtbij(r, 100.0 * (1.0 - open / totaal)))
  {
  }

  /** The score of a report whose incidents are `incidenten`. */
  function Score(metingen: seq<Meting>, incidenten: seq<Incident>): (r: Option<int>) {
    VertaalNaarKpiScore(NaarJson(StelOp(metingen, incidenten).0))
  }

  function AandeelOpgelost(incidenten: seq<Incident>): (r: real)
    requires incidenten != []
  {
    100.0 * |Opgeloste(incidenten)| as real / |incidenten| as real
  }

  lemma GeenKandidaat(metingen: seq<Meting>, incidenten: seq<Incident>)
    ensures Kandidaat(NaarJson(StelOp(metingen, incidenten).0)) == None
  {
    var v := NaarJson(StelOp(metingen, incidenten).0).velden;
    R.GetVeld(v, "kpiScore", 5);
    R.GetVeld(v, "score", 5);
    R.GetVeld(v, "beschikbaarheid", 5);
  }

  lemma Tellingen(metingen: seq<Meting>, incidenten: seq<Incident>)
    ensures var j := NaarJson(StelOp(metingen, incidenten).0);
      && Veld(j, "totaalIncidenten") == Getal(|incidenten| as real)
      && Veld(j, "openIncidenten") == Getal(|Open(incidenten)| as real)
  {
    var v := NaarJson(StelOp(metingen, incidenten).0).velden;
    R.GetVeld(v, "totaalIncidenten", 1);
    R.GetVeld(v, "openIncidenten", 2);
  }

  /** Of a report Contract reads only the two counts. */
  lemma RapportScore(metingen: seq<Meting>, incidenten: seq<Incident>)
    ensures Score(metingen, incidenten) ==
      if incidenten == [] then Some(100)
      else Some(Begrensd(Rond(100.0 * (1.0 - |Open(incidenten)| as real / |incidenten| as real))))
  {
    GeenKandidaat(metingen, incidenten);
    Tellingen(metingen, incidenten);
  }

  lemma Breuk(open: real, opgelost: real, totaal: real)
    requires totaal > 0.0 && open >= 0.0 && opgelost >= 0.0 && open + opgelost == totaal
    ensures 100.0 * (1.0 - open / totaal) == 100.0 * opgelost / totaal
    ensures 0.0 <= 100.0 * opgelost / totaal <= 100.0
  {
    var q := opgelost / totaal;
    DeelTussen(opgelost, totaal, 0.0, 1.0);
    DeelTussen(open, totaal, 1.0 - q, 1.0 - q);
    DeelTussen(100.0 * opgelost, totaal, 100.0 * q, 100.0 * q);
  }

  lemma RondNabij(x: real)
    requires 0.0 <= x <= 100.0
    ensures 0 <= Rond(x) <= 100 && Begrensd(Rond(x)) == Rond(x)
    ensures x - 0.5 <= Rond(x) as real <= x + 0.5
  {
  }

  /** Every report Monitoring can build has a score: 100 without incidents, otherwise the integer within
      one half of the percentage of solved incidents. */
  lemma ScoreIsAandeel(metingen: seq<Meting>, incidenten: seq<Incident>)
    ensures Score(metingen, incidenten).Some?
    ensures incidenten == [] ==> Score(metingen, incidenten) == Some(100)
    ensures incidenten != [] ==> var s := Score(metingen, incidenten).value as real;
      AandeelOpgelost(incidenten) - 0.5 <= s <= AandeelOpgelost(incidenten) + 0.5
  {
    RapportScore(metingen, incidenten);
    if incidenten != [] {
      OpenPlusOpgelost(incidenten);
      Breuk(|Open(incidenten)| as real, |Opgeloste(incidenten)| as real, |incidenten| as real);
      RondNabij(AandeelOpgelost(incidenten));
    }
  }

  lemma {:induction false} OplossenTelt(incidenten: seq<Incident>, i: nat)
    requires i < |incidenten|
    ensures |Opgeloste(incidenten)| <= |Opgeloste(incidenten[i := incidenten[i].(status := Opgelost)])|
    decreases |incidenten|
  {
    var n := |incidenten| - 1;
    var na := incidenten[i := incidenten[i].(status := Opgelost)];
    if i < n {
      OplossenTelt(incidenten[..n], i);
      assert na[..n] == incidenten[..n][i := incidenten[i].(status := Opgelost)];
    } else {
      assert na[..n] == incidenten[..n];
    }
  }

  lemma RondMonotoon(x: real, y: real)
    requires x <= y
    ensures Begrensd(Rond(x)) <= Begrensd(Rond(y))
  {
  }

  lemma AandeelMonotoon(a: real, b: real, n: real)
    requires a <= b && n > 0.0
    ensures 100.0 * a / n <= 100.0 * b / n
  {
    assert 100.0 * b / n - 100.0 * a / n == 100.0 * (b - a) / n;
    DeelTussen(100.0 * (b - a), n, 0.0, 100.0 * (b - a) / n);
  }

  /** Solving an incident never lowers the score. */
  lemma OplossenVerlaagtNooit(metingen: seq<Meting>, incidenten: seq<Incident>, i: nat)
    requires i < |incidenten|
    ensures Score(metingen, incidenten).Some?
    ensures Score(metingen, incidenten[i := incidenten[i].(status := Opgelost)]).Some?
    ensures Score(metingen, incidenten).value <= Score(metingen,
      incidenten[i := incidenten[i].(status := Opgelost)]).value
  {
    var na := incidenten[i := incidenten[i].(status := Opgelost)];
    RapportScore(metingen, incidenten);
    RapportScore(metingen, na);
    OpenPlusOpgelost(incidenten);
    OpenPlusOpgelost(na);
    OplossenTelt(incidenten, i);
    Breuk(|Open(incidenten)| as real, |Opgeloste(incidenten)| as real, |incidenten| as real);
    Breuk(|Open(na)| as real, |Opgeloste(na)| as real, |na| as real);
    AandeelMonotoon(|Opgeloste(incidenten)| as real, |Opgeloste(na)| as real, |na| as real);
    RondMonotoon(AandeelOpgelost(incidenten), AandeelOpgelost(na));
  }
}
