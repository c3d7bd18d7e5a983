/** Contract's value objects: amounts in cents with a currency, periods and award criteria. */
module Contractwaarden {
  import opened Gedeeld

  datatype Bedrag = Bedrag(centen: int, valuta: string)

  function VanCenten(centen: int, valuta: string): (r: Result<Bedrag>) {
    if centen < 0 then Err(DomeinFout) else Ok(Bedrag(centen, valuta))
  }

  /** An amount in euro, rounded to whole cents. */
  function VanEuro(euro: real): (r: Result<Bedrag>) {
    VanCenten(Rond(euro * 100.0), "EUR")
  }

  /** A price becomes the nearest number of cents, halves upwards, and is refused only when that is negative. */
  lemma VanEuroDichtstbij(euro: real)
    ensures VanEuro(euro).Ok? <==> 100.0 * euro >= -0.5
    ensures VanEuro(euro).Ok? ==>
      VanEuro(euro).value.valuta == "EUR"
        && 100.0 * euro - 0.5 < VanEuro(euro).value.centen as real <= 100.0 * euro + 0.5
  {
    assert euro * 100.0 == 100.0 * euro;
  }

  function Plus(a: Bedrag, b: Bedrag): (r: Result<Bedrag>) {
    if a.valuta != b.valuta then Err(DomeinFout) else VanCenten(a.centen + b.centen, a.valuta)
  }

  function Min(a: Bedrag, b: Bedrag): (r: Result<Bedrag>) {
    if a.valuta != b.valuta then Err(DomeinFout) else VanCenten(a.centen - b.centen, a.valuta)
  }

  function Euro(b: Bedrag): (r: real) {
    b.centen as real / 100.0
  }

  /** Whole cents survive the way over euro. */
  lemma EuroRondreis(b: Bedrag)
    requires b.centen >= 0
    ensures VanEuro(Euro(b)) == Ok(Bedrag(b.centen, "EUR"))
  {
    assert Euro(b) * 100.0 == b.centen as real;
    VanEuroDichtstbij(Euro(b));
  }

  datatype Periode = Periode(start: int, eind: int)

  function PeriodeVan(start: int, eind: int): (r: Result<Periode>) {
    if eind <= start then Err(DomeinFout) else Ok(Periode(start, eind))
  }

  predicate Bevat(p: Periode, datum: int) {
    p.start <= datum <= p.eind
  }

  predicate Omvat(p: Periode, andere: Periode) {
    Bevat(p, andere.start) && Bevat(p, andere.eind)
  }

  datatype Criteria = Criteria(prijsgewicht: real, kwaliteitsgewicht: real)

  predicate Geldig(c: Criteria) {
    c.prijsgewicht >= 0.0 && c.kwaliteitsgewicht >= 0.0 && c.prijsgewicht + c.kwaliteitsgewicht == 100.0
  }

  function CriteriaVan(prijsgewicht: real, kwaliteitsgewicht: real): (r: Result<Criteria>)
    ensures r.Ok? <==> Geldig(Criteria(prijsgewicht, kwaliteitsgewicht))
  {
    if prijsgewicht < 0.0 || kwaliteitsgewicht < 0.0 then Err(DomeinFout)
    else if prijsgewicht + kwaliteitsgewicht != 100.0 then Err(DomeinFout)
    else Ok(Criteria(prijsgewicht, kwaliteitsgewicht))
  }

  // ---------- signed sums ----------

  datatype Soort = Verhoging | Verlaging

  datatype Wijziging = Wijziging(id: string, mutatie: Bedrag, soort: Soort, reden: string, datum: int)

  function Teken(w: Wijziging): (r: int) {
    if w.soort == Verhoging then w.mutatie.centen else -w.mutatie.centen
  }

  /** Increases minus decreases, in cents. */
  function Som(ws: seq<Wijziging>): (r: int) {
    if ws == [] then 0 else Som(ws[..|ws| - 1]) + Teken(ws[|ws| - 1])
  }

  lemma {:induction false} SomZonder(ws: seq<Wijziging>, i: nat)
    requires i < |ws|
    ensures Som(ws) == Som(ws[..i] + ws[i + 1..]) + Teken(ws[i])
    decreases |ws|
  {
    var n := |ws| - 1;
    if i < n {
      SomZonder(ws[..n], i);
      assert (ws[..i] + ws[i + 1..])[..n - 1] == ws[..n][..i] + ws[..n][i + 1..];
      assert (ws[..i] + ws[i + 1..])[n - 1] == ws[n];
    } else {
      assert ws[..i] + ws[i + 1..] == ws[..n];
    }
  }

  /** The sum does not depend on the order in which the rows come back. */
  lemma {:induction false} SomVolgorde(a: seq<Wijziging>, b: seq<Wijziging>)
    requires multiset(a) == multiset(b)
    ensures Som(a) == Som(b)
    decreases |a|
  {
    if a == [] {
      assert |multiset(b)| == 0;
    } else {
      var n := |a| - 1;
      assert a[n] in multiset(b);
      var i :| 0 <= i < |b| && b[i] == a[n];
      Eruit(a, n);
      Eruit(b, i);
      assert a[..n] + a[n + 1..] == a[..n];
      SomVolgorde(a[..n], b[..i] + b[i + 1..]);
      SomZonder(b, i);
    }
  }
}
