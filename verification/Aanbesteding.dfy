/** The tender: every bid is scored against the lowest price, and the best score wins. */
module Aanbesteding {
  import opened Gedeeld
  import opened Contractwaarden

  datatype Inschrijving = Inschrijving(id: string, aannemer: string, prijs: Bedrag, kwaliteit: real)

  /** The scores are numbers only when every price is positive; Bedrag itself allows zero. */
  predicate Geprijsd(s: seq<Inschrijving>) {
    forall i :: 0 <= i < |s| ==> s[i].prijs.centen > 0
  }

  function Laagste(s: seq<Inschrijving>): (r: int)
    requires s != []
    ensures exists i :: 0 <= i < |s| && s[i].prijs.centen == r
    ensures forall i :: 0 <= i < |s| ==> r <= s[i].prijs.centen
  {
    var x := s[|s| - 1].prijs.centen;
    if |s| == 1 then x
    else
      var rest := Laagste(s[..|s| - 1]);
      if x < rest then x else rest
  }

  /** The lowest price relative to this price, in percent. */
  function Prijsscore(laagste: int, prijs: int): (r: real)
    requires prijs > 0
  {
    laagste as real / prijs as real * 100.0
  }

  function Emvi(c: Criteria, laagste: int, i: Inschrijving): (r: real)
    requires i.prijs.centen > 0
  {
    (Prijsscore(laagste, i.prijs.centen) * c.prijsgewicht + i.kwaliteit * c.kwaliteitsgewicht) / 100.0
  }

  /** The score of bid `i` among all bids `s`. */
  function Score(c: Criteria, s: seq<Inschrijving>, i: nat): (r: real)
    requires Geprijsd(s) && i < |s|
  {
    Emvi(c, Laagste(s), s[i])
  }

  // ---------- who wins ----------

  /** No bid scores higher, and no earlier bid scores as high. */
  ghost predicate IsWinnaar(c: Criteria, s: seq<Inschrijving>, w: nat)
    requires Geprijsd(s)
  {
    && w < |s|
    && (forall j :: 0 <= j < |s| ==> Score(c, s, j) <= Score(c, s, w))
    && (forall j :: 0 <= j < w ==> Score(c, s, j) < Score(c, s, w))
  }

  function EersteMax(scores: seq<real>): (w: nat)
    requires scores != []
    ensures w < |scores|
    ensures forall j :: 0 <= j < |scores| ==> scores[j] <= scores[w]
    ensures forall j :: 0 <= j < w ==> scores[j] < scores[w]
  {
    var n := |scores| - 1;
    if n == 0 then 0
    else
      var w := EersteMax(scores[..n]);
      if scores[n] > scores[w] then n else w
  }

  function Scores(c: Criteria, s: seq<Inschrijving>): (r: seq<real>)
    requires Geprijsd(s)
    ensures |r| == |s| && forall i :: 0 <= i < |s| ==> r[i] == Score(c, s, i)
  {
    seq(|s|, i requires 0 <= i < |s| => Score(c, s, i))
  }

  function Winnaar(c: Criteria, s: seq<Inschrijving>): (w: nat)
    requires Geprijsd(s) && s != []
    ensures IsWinnaar(c, s, w)
  {
    EersteMax(Scores(c, s))
  }

  /** There is one winner only. */
  lemma WinnaarIsUniek(c: Criteria, s: seq<Inschrijving>, v: nat, w: nat)
    requires Geprijsd(s) && IsWinnaar(c, s, v) && IsWinnaar(c, s, w)
    ensures v == w
  {
    assert Score(c, s, v) <= Score(c, s, w) <= Score(c, s, v);
  }

  /** The positions of `scores` as a stable sort from high to low leaves them. */
  ghost predicate StabielGesorteerd(scores: seq<real>, p: seq<nat>) {
    && (forall k :: 0 <= k < |p| ==> p[k] < |scores|)
    && (forall k, l :: 0 <= k < l < |p| ==> Voor(scores, p[k], p[l]))
  }

  predicate Voor(scores: seq<real>, a: nat, b: nat)
    requires a < |scores| && b < |scores|
  {
    scores[a] > scores[b] || (scores[a] == scores[b] && a < b)
  }

  lemma Invoegen(scores: seq<real>, p: seq<nat>, k: nat, i: nat)
    requires StabielGesorteerd(scores, p) && i < |scores| && k <= |p|
    requires forall l :: 0 <= l < k ==> Voor(scores, p[l], i)
    requires forall l :: k <= l < |p| ==> Voor(scores, i, p[l])
    ensures StabielGesorteerd(scores, p[..k] + [i] + p[k..])
  {
    var q := p[..k] + [i] + p[k..];
    assert forall l :: 0 <= l < k ==> q[l] == p[l];
    assert forall l :: k < l < |q| ==> q[l] == p[l - 1];
    forall a, b | 0 <= a < b < |q| ensures Voor(scores, q[a], q[b]) {
      if a != k && b != k {
        assert Voor(scores, p[if a < k then a else a - 1], p[if b < k then b else b - 1]);
      }
    }
  }

  /** A stable sort on the score, highest first: insertion behind everything that scores at least as high. */
  method Sorteer(scores: seq<real>) returns (p: seq<nat>)
    ensures StabielGesorteerd(scores, p)
    ensures |p| == |scores| && forall i :: 0 <= i < |scores| ==> i in p
  {
    p := [];
    for i := 0 to |scores|
      invariant StabielGesorteerd(scores, p) && |p| == i
      invariant forall k :: 0 <= k < i ==> p[k] < i
      invariant forall x :: 0 <= x < i ==> x in p
    {
      var k := i;
      while k > 0 && scores[p[k - 1]] < scores[i]
        invariant 0 <= k <= i
        invariant forall l :: k <= l < i ==> Voor(scores, i, p[l])
      {
        k := k - 1;
      }
      forall l | 0 <= l < k ensures Voor(scores, p[l], i) {
        assert l < k - 1 ==> Voor(scores, p[l], p[k - 1]);
      }
      Invoegen(scores, p, k, i);
      ghost var oud := p;
      p := p[..k] + [i] + p[k..];
      forall x | 0 <= x <= i ensures x in p {
        assert p[k] == i;
        assert x in oud ==> x in oud[..k] + oud[k..];
      }
    }
  }

  lemma HoofdIsWinnaar(c: Criteria, s: seq<Inschrijving>, p: seq<nat>)
    requires Geprijsd(s) && s != []
    requires StabielGesorteerd(Scores(c, s), p) && |p| == |s| && forall i :: 0 <= i < |s| ==> i in p
    ensures p[0] == Winnaar(c, s)
  {
    forall j | 0 <= j < |s|
      ensures Score(c, s, j) <= Score(c, s, p[0]) && (j < p[0] ==> Score(c, s, j) < Score(c, s, p[0])) {
      assert j in p;
      var k :| 0 <= k < |p| && p[k] == j;
      assert k == 0 || Voor(Scores(c, s), p[0], p[k]);
    }
    WinnaarIsUniek(c, s, p[0], Winnaar(c, s));
  }

  // ---------- the aggregate ----------

  datatype Status = Gepubliceerd | Gegund

  datatype TenderWaarde = TenderWaarde(id: string, kunstwerkId: string, sluitingsdatum: int, criteria: Criteria,
      status: Status, inschrijvingen: seq<Inschrijving>)

  datatype TenderEvent =
    | AanbestedingGepubliceerd(aanbestedingId: string, kunstwerkId: string, sluitingsdatum: int, criteria: Criteria)
    | InschrijvingOntvangen(aannemer: string, prijsEuro: real, kwaliteitsscore: real)
    | AanbestedingGegund(winnendeAannemer: string, emviScore: Option<real>)

  /** `emvi` is None where the program computes NaN. */
  datatype Uitslag = Uitslag(winnaar: string, emvi: Option<real>, prijs: Bedrag)

  function NaInschrijving(t: TenderWaarde, i: Inschrijving): (r: (TenderWaarde, Option<Fout>)) {
    if t.status != Gepubliceerd then (t, Some(DomeinFout))
    else (t.(inschrijvingen := t.inschrijvingen + [i]), None)
  }

  /** With a zero price the score is 0/0. */
  function EmviOfNaN(c: Criteria, s: seq<Inschrijving>, i: nat): (r: Option<real>)
    requires i < |s|
  {
    if s[i].prijs.centen > 0 then Some(Emvi(c, Laagste(s), s[i])) else None
  }

  /** All scores that are numbers are equal. */
  predicate AllesGelijk(c: Criteria, s: seq<Inschrijving>) {
    forall i, j :: 0 <= i < |s| && 0 <= j < |s| && EmviOfNaN(c, s, i).Some? && EmviOfNaN(c, s, j).Some? ==>
      EmviOfNaN(c, s, i) == EmviOfNaN(c, s, j)
  }

  /** The head of the sorted list. The sort takes NaN for "equal"; that leaves the order of receipt when all other
      scores are equal too, and is no order at all when they are not: then the head is left to `elders`. */
  function HoofdVan(c: Criteria, s: seq<Inschrijving>, elders: nat): (w: nat)
    requires s != []
    ensures w < |s|
    ensures Geprijsd(s) ==> IsWinnaar(c, s, w)
    ensures !Geprijsd(s) && AllesGelijk(c, s) ==> w == 0
  {
    if Geprijsd(s) then Winnaar(c, s) else if AllesGelijk(c, s) then 0 else elders % |s|
  }

  function NaGun(t: TenderWaarde, elders: nat): (r: (TenderWaarde, Result<Uitslag>))
    ensures r.1.Ok? <==> t.status == Gepubliceerd && t.inschrijvingen != []
    ensures r.0 == if r.1.Ok? then t.(status := Gegund) else t
  {
    if t.status != Gepubliceerd || t.inschrijvingen == [] then (t, Err(DomeinFout))
    else
      var w := HoofdVan(t.criteria, t.inschrijvingen, elders);
      var i := t.inschrijvingen[w];
      (t.(status := Gegund), Ok(Uitslag(i.aannemer, EmviOfNaN(t.criteria, t.inschrijvingen, w), i.prijs)))
  }

  class Tender {
    const id: string
    const kunstwerkId: string
    const sluitingsdatum: int
    const criteria: Criteria
    var status: Status
    var inschrijvingen: seq<Inschrijving>
    var events: seq<TenderEvent>

    function Waarde(): (w: TenderWaarde)
      reads this
    {
      TenderWaarde(id, kunstwerkId, sluitingsdatum, criteria, status, inschrijvingen)
    }

    constructor Publiceer(id: string, kunstwerkId: string, sluitingsdatum: int, criteria: Criteria)
      ensures Waarde() == TenderWaarde(id, kunstwerkId, sluitingsdatum, criteria, Gepubliceerd, [])
      ensures events == [AanbestedingGepubliceerd(id, kunstwerkId, sluitingsdatum, criteria)]
    {
      this.id, this.kunstwerkId, this.sluitingsdatum, this.criteria := id, kunstwerkId, sluitingsdatum, criteria;
      status, inschrijvingen, events :=
        Gepubliceerd, [], [AanbestedingGepubliceerd(id, kunstwerkId, sluitingsdatum, criteria)];
    }

    constructor Herstel(t: TenderWaarde)
      ensures Waarde() == t && events == []
    {
      id, kunstwerkId, sluitingsdatum, criteria := t.id, t.kunstwerkId, t.sluitingsdatum, t.criteria;
      status, inschrijvingen, events := t.status, t.inschrijvingen, [];
    }

    method OntvangInschrijving(i: Inschrijving) returns (fout: Option<Fout>)
      modifies this
      ensures (Waarde(), fout) == NaInschrijving(old(Waarde()), i)
      ensures events == old(events) + if fout == None
        then [InschrijvingOntvangen(i.aannemer, Euro(i.prijs), i.kwaliteit)] else []
    {
      if status != Gepubliceerd {
        return Some(DomeinFout);
      }
      inschrijvingen := inschrijvingen + [i];
      events := events + [InschrijvingOntvangen(i.aannemer, Euro(i.prijs), i.kwaliteit)];
      return None;
    }

    /** Score every bid, sort, take the head. */
    method Gun(elders: nat) returns (r: Result<Uitslag>)
      modifies this
      ensures (Waarde(), r) == NaGun(old(Waarde()), elders)
      ensures events == old(events) + if r.Ok? then [AanbestedingGegund(r.value.winnaar, r.value.emvi)] else []
    {
      if status != Gepubliceerd {
        return Err(DomeinFout);
      }
      if |inschrijvingen| == 0 {
        return Err(DomeinFout);
      }
      var hoofd := elders % |inschrijvingen|;
      if Geprijsd(inschrijvingen) {
        var gescoord := Sorteer(Scores(criteria, inschrijvingen));
        HoofdIsWinnaar(criteria, inschrijvingen, gescoord);
        hoofd := gescoord[0];
      } else if AllesGelijk(criteria, inschrijvingen) {
        hoofd := 0;
      }
      var winnaar := inschrijvingen[hoofd];
      var emvi := EmviOfNaN(criteria, inschrijvingen, hoofd);
      status := Gegund;
      events := events + [AanbestedingGegund(winnaar.aannemer, emvi)];
      return Ok(Uitslag(winnaar.aannemer, emvi, winnaar.prijs));
    }
  }
}
