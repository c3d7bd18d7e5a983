/** Types and sequence facts that several services of the model share. */
module Gedeeld {

  datatype Option<+T> = None | Some(value: T)

  /** The exceptions of the four services, as values. */
  datatype Fout = DomeinFout | NietGevonden | Conflict | AclFout | Technisch

  datatype Result<+T> = Ok(value: T) | Err(fout: Fout)

  /** Empty or white space only, as strip() and trim() decide it for ASCII. */
  predicate Blanco(s: string) {
    forall c :: c in s ==> c in " \t\n\r"
  }

  /** Math.round: to the nearest integer, halves upwards. */
  function Rond(x: real): (r: int)
    ensures x - 0.5 < r as real <= x + 0.5
  {
    (x + 0.5).Floor
  }

  ghost predicate Verschillend<T>(s: seq<T>) {
    forall i, j :: 0 <= i < j < |s| ==> s[i] != s[j]
  }

  /** The distinct elements of `s`, in the order in which they first occur. */
  function Eersten<T(==, !new)>(s: seq<T>): (r: seq<T>)
    ensures forall x :: x in r <==> x in s
    ensures Verschillend(r)
  {
    if s == [] then []
    else
      var vorige := Eersten(s[..|s| - 1]);
      if s[|s| - 1] in vorige then vorige else vorige + [s[|s| - 1]]
  }

  lemma EerstenPlus<T(!new)>(s: seq<T>, x: T)
    ensures Eersten(s + [x]) == if x in s then Eersten(s) else Eersten(s) + [x]
  {
    assert (s + [x])[..|s|] == s;
  }

  /** What arrives later only extends the list of first occurrences. */
  lemma {:induction false} EerstenPrefix<T(!new)>(s: seq<T>, t: seq<T>)
    ensures Eersten(s) <= Eersten(s + t)
    decreases |t|
  {
    if t == [] {
      assert s + t == s;
    } else {
      var voor := t[..|t| - 1];
      EerstenPrefix(s, voor);
      assert s + t == (s + voor) + [t[|t| - 1]];
      EerstenPlus(s + voor, t[|t| - 1]);
    }
  }

  function Filter<T(!new)>(p: T -> bool, s: seq<T>): (r: seq<T>)
    ensures forall x :: x in r <==> x in s && p(x)
  {
    if s == [] then []
    else
      var vorige := Filter(p, s[..|s| - 1]);
      if p(s[|s| - 1]) then vorige + [s[|s| - 1]] else vorige
  }

  lemma FilterPlus<T(!new)>(p: T -> bool, s: seq<T>, x: T)
    ensures Filter(p, s + [x]) == if p(x) then Filter(p, s) + [x] else Filter(p, s)
  {
    assert (s + [x])[..|s|] == s;
  }

  lemma {:induction false} FilterPrefix<T(!new)>(p: T -> bool, s: seq<T>, t: seq<T>)
    requires s <= t
    ensures Filter(p, s) <= Filter(p, t)
    decreases |t|
  {
    if s != t {
      var voor := t[..|t| - 1];
      assert s <= voor;
      FilterPrefix(p, s, voor);
      assert t == voor + [t[|t| - 1]];
      FilterPlus(p, voor, t[|t| - 1]);
    }
  }

  /** Choosing a queue's messages and listing first occurrences commute. */
  lemma {:induction false} EerstenFilter<T(!new)>(p: T -> bool, s: seq<T>)
    ensures Eersten(Filter(p, s)) == Filter(p, Eersten(s))
  {
    if s != [] {
      var voor, x := s[..|s| - 1], s[|s| - 1];
      EerstenFilter(p, voor);
      assert s == voor + [x];
      EerstenPlus(voor, x);
      FilterPlus(p, voor, x);
      if p(x) {
        EerstenPlus(Filter(p, voor), x);
      }
      if x !in voor {
        FilterPlus(p, Eersten(voor), x);
      }
    }
  }

  /** A list that follows the order of `bron` and leaves no gaps is a prefix of `bron`. */
  lemma {:induction false} PrefixUitOrde<T(!new)>(bron: seq<T>, e: seq<T>)
    requires Verschillend(bron) && Verschillend(e)
    requires forall x :: x in e ==> x in bron
    requires forall a, b, i, j ::
      0 <= a < b < |e| && 0 <= i < |bron| && 0 <= j < |bron| && bron[i] == e[a] && bron[j] == e[b] ==> i <= j
    requires forall i, j :: 0 <= i < j < |bron| && bron[j] in e ==> bron[i] in e
    ensures e <= bron
  {
    var k := 0;
    while k < |e|
      invariant k <= |e| && k <= |bron|
      invariant forall n :: 0 <= n < k ==> e[n] == bron[n]
    {
      assert e[k] in bron;
      var i :| 0 <= i < |bron| && bron[i] == e[k];
      assert i >= k;
      assert bron[k] in e;
      var b :| 0 <= b < |e| && e[b] == bron[k];
      assert i == k;
      k := k + 1;
    }
  }

  lemma Eruit<T>(s: seq<T>, i: nat)
    requires i < |s|
    ensures multiset(s[..i] + s[i + 1..]) == multiset(s) - multiset{s[i]}
  {
    assert s == s[..i] + [s[i]] + s[i + 1..];
  }

  function Verzameling<T(==)>(s: seq<T>): (r: set<T>) { set x | x in s }

  /** A list without repetitions has as many elements as its set. */
  lemma {:induction false} AantalVerschillend<T(!new)>(s: seq<T>)
    requires Verschillend(s)
    ensures |Verzameling(s)| == |s|
    decreases |s|
  {
    if s != [] {
      var voor, x := s[..|s| - 1], s[|s| - 1];
      AantalVerschillend(voor);
      assert x !in voor;
      forall y ensures y in Verzameling(s) <==> y in Verzameling(voor) + {x} {
        assert s == voor + [x];
      }
      assert Verzameling(s) == Verzameling(voor) + {x};
    }
  }
}
