/** Laws of the award: what the winning score depends on, and when the winner keeps winning. */
module Emviwetten {
  import opened Contractwaarden
  import opened Aanbesteding
  import opened MonitoringRapport

  // ---------- arithmetic of one score ----------

  lemma PrijsscoreTussen(laagste: int, prijs: int)
    requires 0 < laagste <= prijs
    ensures 0.0 <= Prijsscore(laagste, prijs) <= 100.0
    ensures laagste == prijs ==> Prijsscore(laagste, prijs) == 100.0
  {
    DeelTussen(laagste as real, prijs as real, if laagste == prijs then 1.0 else 0.0, 1.0);
  }

  lemma Product(a: real, b: real)
    requires a >= 0.0 && b >= 0.0
    ensures a * b >= 0.0
  {
  }

  lemma Positief(a: real, b: real)
    requires a > 0.0 && b > 0.0
    ensures a * b > 0.0
  {
  }

  lemma Kruis(a: real, b: real, l: real, m: real)
    requires a > 0.0 && b > 0.0 && l * b <= m * a
    ensures l / a <= m / b
    ensures l * b < m * a ==> l / a < m / b
  {
    var x, y := l / a, m / b;
    assert x * a == l && y * b == m;
    assert (x - y) * (a * b) == l * b - m * a;
    Positief(a, b);
    if x > y {
      Positief(x - y, a * b);
    }
  }

  /** A higher reference price or a lower own price never lowers the price score. */
  lemma PrijsscoreMonotoon(l: int, m: int, prijs: int, prijs': int)
    requires 0 < l <= m && 0 < prijs' <= prijs
    ensures Prijsscore(l, prijs) <= Prijsscore(m, prijs')
    ensures l < m ==> Prijsscore(l, prijs) < Prijsscore(m, prijs')
  {
    Producten(l as real, m as real, prijs' as real, prijs as real);
    Kruis(prijs as real, prijs' as real, l as real, m as real);
  }

  lemma Producten(l: real, m: real, p: real, q: real)
    requires 0.0 < l <= m && 0.0 < p <= q
    ensures l * p <= m * q
    ensures l < m ==> l * p < m * q
  {
    assert (m - l) * q >= 0.0 && l * (q - p) >= 0.0;
    assert m * q - l * p == (m - l) * q + l * (q - p);
    if l < m { assert (m - l) * q > 0.0; }
  }

  lemma Gewogen(p: real, p': real, q: real, q': real, c: Criteria)
    requires Geldig(c) && p <= p' && q <= q'
    ensures p * c.prijsgewicht + q * c.kwaliteitsgewicht <= p' * c.prijsgewicht + q' * c.kwaliteitsgewicht
    ensures p < p' && c.prijsgewicht > 0.0 ==>
      p * c.prijsgewicht + q * c.kwaliteitsgewicht < p' * c.prijsgewicht + q' * c.kwaliteitsgewicht
  {
    var P, Q := c.prijsgewicht, c.kwaliteitsgewicht;
    Product(p' - p, P);
    Product(q' - q, Q);
    assert (p' - p) * P == p' * P - p * P;
    if p < p' && P > 0.0 {
      Positief(p' - p, P);
    }
    assert (q' - q) * Q == q' * Q - q * Q;
  }

  lemma EmviMonotoon(c: Criteria, l: int, m: int, i: Inschrijving, j: Inschrijving)
    requires Geldig(c) && 0 < l <= m && 0 < j.prijs.centen <= i.prijs.centen && i.kwaliteit <= j.kwaliteit
    ensures Emvi(c, l, i) <= Emvi(c, m, j)
    ensures l < m && c.prijsgewicht > 0.0 ==> Emvi(c, l, i) < Emvi(c, m, j)
  {
    PrijsscoreMonotoon(l, m, i.prijs.centen, j.prijs.centen);
    Gewogen(Prijsscore(l, i.prijs.centen), Prijsscore(m, j.prijs.centen), i.kwaliteit, j.kwaliteit, c);
  }

  // ---------- bounds ----------

  lemma EmviHoogstens(c: Criteria, l: int, i: Inschrijving)
    requires Geldig(c) && 0 < l <= i.prijs.centen && i.kwaliteit <= 100.0
    ensures Emvi(c, l, i) <= 100.0
  {
    var p := Prijsscore(l, i.prijs.centen);
    PrijsscoreTussen(l, i.prijs.centen);
    Gewogen(p, 100.0, i.kwaliteit, 100.0, c);
  }

  /** The quality part of the score alone. */
  function Kwaliteitsdeel(c: Criteria, i: Inschrijving): (r: real) {
    i.kwaliteit * c.kwaliteitsgewicht / 100.0
  }

  lemma EmviMinstensKwaliteit(c: Criteria, l: int, i: Inschrijving)
    requires Geldig(c) && 0 < l <= i.prijs.centen
    ensures Kwaliteitsdeel(c, i) <= Emvi(c, l, i)
  {
    var p := Prijsscore(l, i.prijs.centen);
    PrijsscoreTussen(l, i.prijs.centen);
    Gewogen(0.0, p, i.kwaliteit, i.kwaliteit, c);
  }

  lemma EmviMinstensPrijs(c: Criteria, i: Inschrijving)
    requires Geldig(c) && 0 < i.prijs.centen && 0.0 <= i.kwaliteit
    ensures c.prijsgewicht <= Emvi(c, i.prijs.centen, i)
  {
    PrijsscoreTussen(i.prijs.centen, i.prijs.centen);
    Gewogen(100.0, 100.0, 0.0, i.kwaliteit, c);
  }

  lemma WinnaarScoortMeest(c: Criteria, s: seq<Inschrijving>, j: nat)
    requires Geprijsd(s) && j < |s|
    ensures Emvi(c, Laagste(s), s[j]) <= Score(c, s, Winnaar(c, s))
  {
    assert Score(c, s, j) <= Score(c, s, Winnaar(c, s));
  }

  lemma MinstensPrijsgewicht(c: Criteria, s: seq<Inschrijving>)
    requires Geldig(c) && Geprijsd(s) && s != []
    requires forall i :: 0 <= i < |s| ==> 0.0 <= s[i].kwaliteit
    ensures c.prijsgewicht <= Score(c, s, Winnaar(c, s))
  {
    var g :| 0 <= g < |s| && s[g].prijs.centen == Laagste(s);
    EmviMinstensPrijs(c, s[g]);
    WinnaarScoortMeest(c, s, g);
  }

  lemma MinstensKwaliteit(c: Criteria, s: seq<Inschrijving>, j: nat)
    requires Geldig(c) && Geprijsd(s) && j < |s|
    ensures Kwaliteitsdeel(c, s[j]) <= Score(c, s, Winnaar(c, s))
  {
    EmviMinstensKwaliteit(c, Laagste(s), s[j]);
    WinnaarScoortMeest(c, s, j);
    Tussenin(Kwaliteitsdeel(c, s[j]), Emvi(c, Laagste(s), s[j]), Score(c, s, Winnaar(c, s)));
  }

  lemma Tussenin(a: real, b: real, c: real)
    requires a <= b <= c
    ensures a <= c
  {
  }

  lemma HoogstensHonderd(c: Criteria, s: seq<Inschrijving>)
    requires Geldig(c) && Geprijsd(s) && s != []
    requires forall i :: 0 <= i < |s| ==> s[i].kwaliteit <= 100.0
    ensures Score(c, s, Winnaar(c, s)) <= 100.0
  {
    EmviHoogstens(c, Laagste(s), s[Winnaar(c, s)]);
  }

  /** The winning score is at least the price weight, at least the weighted quality of every bid, and at most 100. */
  lemma WinnendeScoreBegrensd(c: Criteria, s: seq<Inschrijving>, j: nat)
    requires Geldig(c) && Geprijsd(s) && j < |s|
    requires forall i :: 0 <= i < |s| ==> 0.0 <= s[i].kwaliteit <= 100.0
    ensures c.prijsgewicht <= Score(c, s, Winnaar(c, s)) <= 100.0
    ensures Kwaliteitsdeel(c, s[j]) <= Score(c, s, Winnaar(c, s))
  {
    MinstensPrijsgewicht(c, s);
    MinstensKwaliteit(c, s, j);
    HoogstensHonderd(c, s);
  }

  // ---------- the outcome itself ----------

  /** `x` solves the equation of the bid's score against the lowest price: what is left after its weighted quality is
      the price weight times the lowest price relative to its own. */
  predicate HeeftScore(c: Criteria, laagste: int, i: Inschrijving, x: real) {
    (100.0 * x - i.kwaliteit * c.kwaliteitsgewicht) * i.prijs.centen as real ==
      100.0 * laagste as real * c.prijsgewicht
  }

  lemma EmviLostOp(c: Criteria, l: int, i: Inschrijving)
    requires i.prijs.centen > 0
    ensures HeeftScore(c, l, i, Emvi(c, l, i))
  {
    var p, q := i.prijs.centen as real, l as real / i.prijs.centen as real;
    assert q * p == l as real;
    assert 100.0 * Emvi(c, l, i) - i.kwaliteit * c.kwaliteitsgewicht == q * 100.0 * c.prijsgewicht;
    assert q * 100.0 * c.prijsgewicht * p == (q * p) * 100.0 * c.prijsgewicht;
  }

  lemma EenOplossing(c: Criteria, l: int, i: Inschrijving, x: real, y: real)
    requires i.prijs.centen > 0 && HeeftScore(c, l, i, x) && HeeftScore(c, l, i, y)
    ensures x == y
  {
    var p := i.prijs.centen as real;
    assert (100.0 * x - 100.0 * y) * p == 0.0;
  }

  ghost predicate IsGoedkoopste(s: seq<Inschrijving>, l: nat) {
    l < |s| && forall j :: 0 <= j < |s| ==> s[l].prijs.centen <= s[j].prijs.centen
  }

  /** Any score that solves the equation of bid `j` is beaten by the winning score `x`, strictly before the winner. */
  ghost predicate VerslaatAlle(c: Criteria, s: seq<Inschrijving>, laagste: int, w: nat, x: real) {
    forall j: nat, y: real :: j < |s| && HeeftScore(c, laagste, s[j], y) ==> y <= x && (j < w ==> y < x)
  }

  /** The outcome of an award with positive prices: it names a bid, with its own price and the score that solves its
      equation against a cheapest bid, and no bid has a solution above it, nor an earlier bid one as high. */
  lemma GunPrecies(t: TenderWaarde, elders: nat) returns (w: nat, l: nat)
    requires t.status == Gepubliceerd && t.inschrijvingen != [] && Geprijsd(t.inschrijvingen)
    ensures NaGun(t, elders).1.Ok? && NaGun(t, elders).1.value.emvi.Some?
    ensures w < |t.inschrijvingen| && IsGoedkoopste(t.inschrijvingen, l)
    ensures var c, s, u := t.criteria, t.inschrijvingen, NaGun(t, elders).1.value;
      && u.winnaar == s[w].aannemer && u.prijs == s[w].prijs
      && HeeftScore(c, s[l].prijs.centen, s[w], u.emvi.value)
      && VerslaatAlle(c, s, s[l].prijs.centen, w, u.emvi.value)
  {
    var c, s := t.criteria, t.inschrijvingen;
    w := Winnaar(c, s);
    l :| 0 <= l < |s| && s[l].prijs.centen == Laagste(s);
    EmviLostOp(c, Laagste(s), s[w]);
    forall j: nat, y: real | j < |s| && HeeftScore(c, Laagste(s), s[j], y)
      ensures y <= Score(c, s, w) && (j < w ==> y < Score(c, s, w))
    {
      EmviLostOp(c, Laagste(s), s[j]);
      EenOplossing(c, Laagste(s), s[j], y, Emvi(c, Laagste(s), s[j]));
      assert Score(c, s, j) <= Score(c, s, w);
    }
  }

  /** Two bids at one price are exactly their weighted difference in quality apart. */
  lemma ScoreVerschil(c: Criteria, s: seq<Inschrijving>, i: nat, j: nat)
    requires Geprijsd(s) && i < |s| && j < |s| && s[i].prijs.centen == s[j].prijs.centen
    ensures 100.0 * (Score(c, s, j) - Score(c, s, i)) == (s[j].kwaliteit - s[i].kwaliteit) * c.kwaliteitsgewicht
  {
  }

  /** At its own price the winner has the best quality, and a strictly better one than any earlier bid. */
  lemma BesteKwaliteit(t: TenderWaarde, elders: nat, j: nat) returns (w: nat)
    requires t.status == Gepubliceerd && Geprijsd(t.inschrijvingen) && j < |t.inschrijvingen|
    requires t.criteria.kwaliteitsgewicht > 0.0
    ensures w < |t.inschrijvingen| && NaGun(t, elders).1.Ok?
    ensures NaGun(t, elders).1.value.winnaar == t.inschrijvingen[w].aannemer
    ensures NaGun(t, elders).1.value.prijs == t.inschrijvingen[w].prijs
    ensures t.inschrijvingen[j].prijs.centen == t.inschrijvingen[w].prijs.centen ==>
      t.inschrijvingen[j].kwaliteit <= t.inschrijvingen[w].kwaliteit
        && (j < w ==> t.inschrijvingen[j].kwaliteit < t.inschrijvingen[w].kwaliteit)
  {
    var c, s := t.criteria, t.inschrijvingen;
    w := Winnaar(c, s);
    assert Score(c, s, j) <= Score(c, s, w) && (j < w ==> Score(c, s, j) < Score(c, s, w));
    if s[j].prijs.centen == s[w].prijs.centen {
      ScoreVolgtKwaliteit(c, s, j, w);
    }
  }

  lemma ScoreVolgtKwaliteit(c: Criteria, s: seq<Inschrijving>, i: nat, j: nat)
    requires Geprijsd(s) && i < |s| && j < |s| && s[i].prijs.centen == s[j].prijs.centen && c.kwaliteitsgewicht > 0.0
    ensures Score(c, s, i) <= Score(c, s, j) ==> s[i].kwaliteit <= s[j].kwaliteit
    ensures Score(c, s, i) < Score(c, s, j) ==> s[i].kwaliteit < s[j].kwaliteit
  {
    ScoreVerschil(c, s, i, j);
    VerschilPositief(Score(c, s, j) - Score(c, s, i), s[j].kwaliteit - s[i].kwaliteit, c.kwaliteitsgewicht);
  }

  lemma VerschilPositief(x: real, a: real, b: real)
    requires 100.0 * x == a * b && b > 0.0
    ensures (x >= 0.0 ==> a >= 0.0) && (x > 0.0 ==> a > 0.0)
  {
    KleinerePositief(a, b);
  }

  lemma KleinerePositief(a: real, b: real)
    requires b > 0.0
    ensures a * b >= 0.0 ==> a >= 0.0
    ensures a * b > 0.0 ==> a > 0.0
  {
    if a < 0.0 {
      Positief(-a, b);
    }
  }

  // ---------- order of the bids ----------

  lemma LaagsteIsMinimum(s: seq<Inschrijving>, t: seq<Inschrijving>)
    requires s != [] && t != []
    requires forall x :: x in s ==> x in t
    ensures Laagste(t) <= Laagste(s)
  {
    var i :| 0 <= i < |s| && s[i].prijs.centen == Laagste(s);
    assert s[i] in t;
  }

  lemma WinnaarHaaltMeer(c: Criteria, s: seq<Inschrijving>, t: seq<Inschrijving>)
    requires Geprijsd(s) && Geprijsd(t) && s != [] && t != []
    requires Laagste(s) == Laagste(t) && forall x :: x in s ==> x in t
    ensures Score(c, s, Winnaar(c, s)) <= Score(c, t, Winnaar(c, t))
  {
    assert s[Winnaar(c, s)] in t;
    var j :| 0 <= j < |t| && t[j] == s[Winnaar(c, s)];
    assert Score(c, t, j) <= Score(c, t, Winnaar(c, t));
  }

  lemma ZelfdeElementen<T>(s: seq<T>, t: seq<T>)
    requires multiset(s) == multiset(t)
    ensures forall x :: x in s <==> x in t
  {
    forall x ensures x in s <==> x in t {
      assert x in s <==> x in multiset(s);
      assert x in t <==> x in multiset(t);
    }
  }

  /** The store reloads the bids in any order; the winning score stays, and among equal scores only the order
      decides. */
  lemma VolgordeMaaktNietUit(c: Criteria, s: seq<Inschrijving>, t: seq<Inschrijving>)
    requires Geprijsd(s) && s != [] && multiset(s) == multiset(t)
    ensures Geprijsd(t) && t != []
    ensures Score(c, s, Winnaar(c, s)) == Score(c, t, Winnaar(c, t))
    ensures exists i :: 0 <= i < |s| && s[i] == t[Winnaar(c, t)] && Score(c, s, i) == Score(c, s, Winnaar(c, s))
  {
    ZelfdeElementen(s, t);
    assert s[0] in t;
    forall i | 0 <= i < |t| ensures t[i].prijs.centen > 0 {
      assert t[i] in s;
    }
    LaagsteIsMinimum(s, t);
    LaagsteIsMinimum(t, s);
    WinnaarHaaltMeer(c, s, t);
    WinnaarHaaltMeer(c, t, s);
    assert t[Winnaar(c, t)] in s;
    var i :| 0 <= i < |s| && s[i] == t[Winnaar(c, t)];
    assert Score(c, s, i) == Score(c, t, Winnaar(c, t));
  }

  // ---------- monotonicity ----------

  /** `b` is the same bid at a price that is not higher and with a quality that is not lower. */
  predicate Beter(b: Inschrijving, a: Inschrijving) {
    0 < b.prijs.centen <= a.prijs.centen && b.kwaliteit >= a.kwaliteit
  }

  /** After one better price the lowest price is the old one, or the better price itself. */
  lemma LaagsteNa(s: seq<Inschrijving>, w: nat, b: Inschrijving)
    requires w < |s| && b.prijs.centen <= s[w].prijs.centen
    ensures Laagste(s[w := b]) == if b.prijs.centen < Laagste(s) then b.prijs.centen else Laagste(s)
  {
    var t := s[w := b];
    var i :| 0 <= i < |s| && s[i].prijs.centen == Laagste(s);
    assert t[w] == b && t[i].prijs.centen <= s[i].prijs.centen;
    var j :| 0 <= j < |t| && t[j].prijs.centen == Laagste(t);
    assert j != w ==> t[j] == s[j];
  }

  /** A bid that becomes the lowest has the full price score. */
  lemma EmviNieuweLaagste(c: Criteria, l: int, i: Inschrijving, b: Inschrijving)
    requires Geldig(c) && 0 < l <= i.prijs.centen && 0 < b.prijs.centen && i.kwaliteit <= b.kwaliteit
    ensures Emvi(c, l, i) <= Emvi(c, b.prijs.centen, b)
  {
    PrijsscoreTussen(b.prijs.centen, b.prijs.centen);
    PrijsscoreTussen(l, i.prijs.centen);
    Gewogen(Prijsscore(l, i.prijs.centen), 100.0, i.kwaliteit, b.kwaliteit, c);
  }

  lemma EigenScoreNa(c: Criteria, s: seq<Inschrijving>, w: nat, b: Inschrijving)
    requires Geldig(c) && Geprijsd(s) && w < |s| && Beter(b, s[w])
    ensures Emvi(c, Laagste(s), s[w]) <= Emvi(c, Laagste(s[w := b]), b)
  {
    LaagsteNa(s, w, b);
    if b.prijs.centen < Laagste(s) {
      EmviNieuweLaagste(c, Laagste(s), s[w], b);
    } else {
      EmviMonotoon(c, Laagste(s), Laagste(s), s[w], b);
    }
  }

  /** The improved bid scores at least what it did, every other bid at most what it did. */
  lemma ScoresNa(c: Criteria, s: seq<Inschrijving>, w: nat, b: Inschrijving, j: nat)
    requires Geldig(c) && Geprijsd(s) && w < |s| && j < |s| && Beter(b, s[w])
    ensures Geprijsd(s[w := b])
    ensures Score(c, s, w) <= Score(c, s[w := b], w)
    ensures j != w ==> Score(c, s[w := b], j) <= Score(c, s, j)
  {
    EigenScoreNa(c, s, w, b);
    LaagsteNa(s, w, b);
    EmviMonotoon(c, Laagste(s[w := b]), Laagste(s), s[j], s[j]);
  }

  /** The winner still wins after lowering its own price or raising its own quality, although a new lowest
      price shifts every other score. */
  lemma WinnaarBlijft(c: Criteria, s: seq<Inschrijving>, b: Inschrijving)
    requires Geldig(c) && Geprijsd(s) && s != [] && Beter(b, s[Winnaar(c, s)])
    ensures Geprijsd(s[Winnaar(c, s) := b])
    ensures Winnaar(c, s[Winnaar(c, s) := b]) == Winnaar(c, s)
    ensures Score(c, s, Winnaar(c, s)) <= Score(c, s[Winnaar(c, s) := b], Winnaar(c, s))
  {
    var w := Winnaar(c, s);
    var t := s[w := b];
    ScoresNa(c, s, w, b, w);
    forall j | 0 <= j < |t| ensures Score(c, t, j) <= Score(c, t, w) && (j < w ==> Score(c, t, j) < Score(c, t, w)) {
      ScoresNa(c, s, w, b, j);
      assert Score(c, s, j) <= Score(c, s, w) && (j < w ==> Score(c, s, j) < Score(c, s, w));
    }
    WinnaarIsUniek(c, t, w, Winnaar(c, t));
  }

  // ---------- independence ----------

  function Zonder(s: seq<Inschrijving>, k: nat): (r: seq<Inschrijving>)
    requires k < |s|
  {
    s[..k] + s[k + 1..]
  }

  /** The position that bid `i` has once bid `k` is gone, and back. */
  function Opgeschoven(i: nat, k: nat): (r: nat)
    requires i != k
  {
    if i < k then i else i - 1
  }

  function Terug(i: nat, k: nat): (r: nat)
    ensures r != k && Opgeschoven(r, k) == i
  {
    if i < k then i else i + 1
  }

  ghost predicate OokLaagste(s: seq<Inschrijving>, k: nat)
    requires k < |s|
  {
    exists j :: 0 <= j < |s| && j != k && s[j].prijs.centen == Laagste(s)
  }

  lemma ZonderLid(s: seq<Inschrijving>, k: nat, i: nat)
    requires k < |s| && i < |s| - 1
    ensures Zonder(s, k)[i] == s[Terug(i, k)]
  {
  }

  lemma ZonderGeprijsd(s: seq<Inschrijving>, k: nat)
    requires k < |s| && Geprijsd(s)
    ensures Geprijsd(Zonder(s, k))
  {
    forall i | 0 <= i < |s| - 1 ensures Zonder(s, k)[i].prijs.centen > 0 {
      ZonderLid(s, k, i);
    }
  }

  /** The lowest price of the rest is the price of some other bid. */
  lemma LaagsteRest(s: seq<Inschrijving>, k: nat) returns (o: nat)
    requires k < |s| && |s| > 1
    ensures o < |s| && o != k && s[o].prijs.centen == Laagste(Zonder(s, k))
  {
    var t := Zonder(s, k);
    var i :| 0 <= i < |t| && t[i].prijs.centen == Laagste(t);
    ZonderLid(s, k, i);
    o := Terug(i, k);
  }

  lemma RestMinstens(s: seq<Inschrijving>, k: nat, j: nat)
    requires k < |s| && j < |s| && j != k
    ensures Laagste(Zonder(s, k)) <= s[j].prijs.centen
  {
    ZonderLid(s, k, Opgeschoven(j, k));
  }

  lemma LaagsteZonder(s: seq<Inschrijving>, k: nat)
    requires k < |s| && |s| > 1
    ensures Laagste(s) <= Laagste(Zonder(s, k))
    ensures Laagste(Zonder(s, k)) == Laagste(s) <==> OokLaagste(s, k)
  {
    var o := LaagsteRest(s, k);
    if OokLaagste(s, k) {
      var j :| 0 <= j < |s| && j != k && s[j].prijs.centen == Laagste(s);
      RestMinstens(s, k, j);
    }
  }

  lemma ScoreZonder(c: Criteria, s: seq<Inschrijving>, k: nat, i: nat)
    requires Geprijsd(s) && k < |s| && i < |s| - 1 && Geprijsd(Zonder(s, k))
    requires c.prijsgewicht == 0.0 || OokLaagste(s, k)
    ensures Score(c, Zonder(s, k), i) == Score(c, s, Terug(i, k))
  {
    ZonderLid(s, k, i);
    LaagsteZonder(s, k);
    var p := s[Terug(i, k)].prijs.centen;
    assert Prijsscore(Laagste(s), p) * c.prijsgewicht == Prijsscore(Laagste(Zonder(s, k)), p) * c.prijsgewicht;
  }

  lemma ZelfdeLaagste(c: Criteria, s: seq<Inschrijving>, k: nat)
    requires Geprijsd(s) && s != [] && k < |s| && k != Winnaar(c, s) && Geprijsd(Zonder(s, k))
    requires c.prijsgewicht == 0.0 || OokLaagste(s, k)
    ensures Winnaar(c, Zonder(s, k)) == Opgeschoven(Winnaar(c, s), k)
    ensures Score(c, Zonder(s, k), Winnaar(c, Zonder(s, k))) == Score(c, s, Winnaar(c, s))
  {
    var t, v := Zonder(s, k), Winnaar(c, s);
    var w := Opgeschoven(v, k);
    ScoreZonder(c, s, k, w);
    forall j | 0 <= j < |t| ensures Score(c, t, j) <= Score(c, t, w) && (j < w ==> Score(c, t, j) < Score(c, t, w)) {
      ScoreZonder(c, s, k, j);
      assert Score(c, s, Terug(j, k)) <= Score(c, s, v)
        && (Terug(j, k) < v ==> Score(c, s, Terug(j, k)) < Score(c, s, v));
    }
    WinnaarIsUniek(c, t, w, Winnaar(c, t));
  }

  lemma LaagsteStijgt(s: seq<Inschrijving>, k: nat)
    requires k < |s| && |s| > 1 && !OokLaagste(s, k)
    ensures Laagste(s) < Laagste(Zonder(s, k))
  {
    LaagsteZonder(s, k);
  }

  lemma EmviStijgt(c: Criteria, l: int, m: int, i: Inschrijving)
    requires Geldig(c) && c.prijsgewicht > 0.0 && 0 < l < m && 0 < i.prijs.centen
    ensures Emvi(c, l, i) < Emvi(c, m, i)
  {
    EmviMonotoon(c, l, m, i, i);
  }

  /** A bid that is scored against a higher lowest price lifts the winning score. */
  lemma StijgtVerder(c: Criteria, i: Inschrijving, l: int, t: seq<Inschrijving>, o: nat)
    requires Geldig(c) && c.prijsgewicht > 0.0 && Geprijsd(t) && o < |t| && t[o] == i && 0 < l < Laagste(t)
    ensures Emvi(c, l, i) < Score(c, t, Winnaar(c, t))
  {
    EmviStijgt(c, l, Laagste(t), i);
    WinnaarScoortMeest(c, t, o);
  }

  /** Without the only bid at the lowest price every remaining score rises. */
  lemma HogereLaagste(c: Criteria, s: seq<Inschrijving>, k: nat)
    requires Geldig(c) && Geprijsd(s) && s != [] && k < |s| && k != Winnaar(c, s) && Geprijsd(Zonder(s, k))
    requires c.prijsgewicht > 0.0 && !OokLaagste(s, k)
    ensures Score(c, Zonder(s, k), Winnaar(c, Zonder(s, k))) > Score(c, s, Winnaar(c, s))
  {
    var v := Winnaar(c, s);
    ZonderLid(s, k, Opgeschoven(v, k));
    LaagsteStijgt(s, k);
    StijgtVerder(c, s[v], Laagste(s), Zonder(s, k), Opgeschoven(v, k));
  }

  /** Removing a losing bid leaves the winner and its score exactly when price has no weight or another bid
      also has the lowest price. */
  lemma VerliezerWeg(c: Criteria, s: seq<Inschrijving>, k: nat)
    requires Geldig(c) && Geprijsd(s) && s != [] && k < |s| && k != Winnaar(c, s)
    ensures Geprijsd(Zonder(s, k)) && Zonder(s, k) != []
    ensures (Winnaar(c, Zonder(s, k)) == Opgeschoven(Winnaar(c, s), k)
      && Score(c, Zonder(s, k), Winnaar(c, Zonder(s, k))) == Score(c, s, Winnaar(c, s))) <==>
      (c.prijsgewicht == 0.0 || OokLaagste(s, k))
  {
    ZonderGeprijsd(s, k);
    if c.prijsgewicht == 0.0 || OokLaagste(s, k) {
      ZelfdeLaagste(c, s, k);
    } else {
      HogereLaagste(c, s, k);
    }
  }

  lemma LaagsteIs(s: seq<Inschrijving>, i: nat)
    requires i < |s| && forall j :: 0 <= j < |s| ==> s[i].prijs.centen <= s[j].prijs.centen
    ensures Laagste(s) == s[i].prijs.centen
  {
  }

  lemma DriePrijzen(x: Inschrijving, y: Inschrijving, z: Inschrijving)
    requires x.prijs.centen == 50 && y.prijs.centen == 100 && z.prijs.centen == 200
    ensures Laagste([x, y, z]) == 50 && Laagste([y, z]) == 100 && Zonder([x, y, z], 0) == [y, z]
  {
    var s, t := [x, y, z], [y, z];
    assert Zonder(s, 0) == t;
    LaagsteIs(s, 0);
    LaagsteIs(t, 0);
  }

  lemma Scorevoorbeeld(x: Inschrijving, y: Inschrijving, z: Inschrijving)
    requires x.prijs.centen == 50 && y.prijs.centen == 100 && z.prijs.centen == 200
    requires x.kwaliteit == 0.0 && y.kwaliteit == 60.0 && z.kwaliteit == 90.0
    ensures var c := Criteria(50.0, 50.0);
      && Emvi(c, 50, x) == 50.0 && Emvi(c, 50, y) == 55.0 && Emvi(c, 50, z) == 57.5
      && Emvi(c, 100, y) == 80.0 && Emvi(c, 100, z) == 70.0
  {
  }

  lemma MetGoedkoopste(x: Inschrijving, y: Inschrijving, z: Inschrijving)
    requires x.prijs.centen == 50 && y.prijs.centen == 100 && z.prijs.centen == 200
    requires x.kwaliteit == 0.0 && y.kwaliteit == 60.0 && z.kwaliteit == 90.0
    ensures Winnaar(Criteria(50.0, 50.0), [x, y, z]) == 2
  {
    DriePrijzen(x, y, z);
    Scorevoorbeeld(x, y, z);
    WinnaarScoortMeest(Criteria(50.0, 50.0), [x, y, z], 2);
  }

  lemma ZonderGoedkoopste(x: Inschrijving, y: Inschrijving, z: Inschrijving)
    requires x.prijs.centen == 50 && y.prijs.centen == 100 && z.prijs.centen == 200
    requires x.kwaliteit == 0.0 && y.kwaliteit == 60.0 && z.kwaliteit == 90.0
    ensures Winnaar(Criteria(50.0, 50.0), [y, z]) == 0
  {
    DriePrijzen(x, y, z);
    Scorevoorbeeld(x, y, z);
    WinnaarScoortMeest(Criteria(50.0, 50.0), [y, z], 0);
  }

  /** Three bids of which the cheapest loses; without it another one wins. */
  lemma VerliezerBeslistMee(x: Inschrijving, y: Inschrijving, z: Inschrijving)
    requires x.prijs.centen == 50 && y.prijs.centen == 100 && z.prijs.centen == 200
    requires x.kwaliteit == 0.0 && y.kwaliteit == 60.0 && z.kwaliteit == 90.0
    ensures Winnaar(Criteria(50.0, 50.0), [x, y, z]) == 2
    ensures Winnaar(Criteria(50.0, 50.0), Zonder([x, y, z], 0)) == 0
  {
    MetGoedkoopste(x, y, z);
    ZonderGoedkoopste(x, y, z);
    DriePrijzen(x, y, z);
  }
}
