/** When exactly Monitoring's relay keeps the order of its outbox: if and only if no two rows share a timestamp. */
module Relayvolgorde {
  import opened Gedeeld
  import opened Outbox
  import opened MonitoringRelay

  /** The first `m` rows were sent, in order and once, and exactly those are marked. */
  ghost predicate Ordelijk<P>(t: Toestand<P>, m: nat) {
    && m <= |t.outbox| && UniekeIds(Regels(t.outbox)) && Oplopend(t.outbox)
    && t.draad == Regels(t.outbox)[..m]
    && forall i :: 0 <= i < |t.outbox| ==> (t.outbox[i].gepubliceerd <==> i < m)
  }

  /** From row `m` on, the next `limiet` rows are each strictly older than their successor. */
  ghost predicate StriktTussen<P>(outbox: seq<Rij<P>>, m: nat, limiet: nat) {
    forall i :: m <= i < m + limiet && i + 1 < |outbox| ==> outbox[i].aangemaaktOp < outbox[i + 1].aangemaaktOp
  }

  function Aantal(n: nat, m: nat, limiet: nat): (k: nat)
    requires m <= n
  {
    if n - m < limiet then n - m else limiet
  }

  /** The answer in row order. */
  function Rechtuit(m: nat, k: nat): (r: seq<nat>) {
    seq(k, a requires 0 <= a < k => m + a)
  }

  // ---------- what the query may answer ----------

  lemma {:induction false} OpenTelt<P>(outbox: seq<Rij<P>>, m: nat)
    requires m <= |outbox| && forall i :: 0 <= i < |outbox| ==> (outbox[i].gepubliceerd <==> i < m)
    ensures |Open(outbox)| == |outbox| - m
  {
    var rest := Rechtuit(m, |outbox| - m);
    AantalVerschillend(rest);
    forall x: nat ensures x in Open(outbox) <==> x in Verzameling(rest) {
      if x in Open(outbox) { assert rest[x - m] == x; }
    }
    assert Open(outbox) == Verzameling(rest);
  }

  /** The rows in order, except that with `i` set the rows `i` and `i + 1` change places. */
  function Verwisseld(m: nat, k: nat, i: nat): (r: seq<nat>)
    requires m <= i < m + k
  {
    seq(k, a requires 0 <= a < k => if m + a == i then i + 1 else if m + a == i + 1 then i else m + a)
  }

  lemma TijdOplopend<P>(outbox: seq<Rij<P>>, i: nat, j: nat)
    requires Oplopend(outbox) && i <= j < |outbox|
    ensures outbox[i].aangemaaktOp <= outbox[j].aangemaaktOp
  {
  }

  lemma VerwisseldKiest<P(!new)>(t: Toestand<P>, m: nat, k: nat, i: nat)
    requires Ordelijk(t, m) && m <= i < m + k && m + k <= |t.outbox| && i + 1 < |t.outbox|
    ensures Verschillend(Verwisseld(m, k, i))
    ensures forall a :: 0 <= a < k ==> m <= Verwisseld(m, k, i)[a] < |t.outbox|
  {
  }

  lemma VerwisseldOudsteEerst<P(!new)>(t: Toestand<P>, m: nat, k: nat, i: nat)
    requires Ordelijk(t, m) && m <= i < m + k && m + k <= |t.outbox| && i + 1 < |t.outbox|
    requires t.outbox[i].aangemaaktOp == t.outbox[i + 1].aangemaaktOp
    ensures forall a, b :: 0 <= a < b < k ==>
      t.outbox[Verwisseld(m, k, i)[a]].aangemaaktOp <= t.outbox[Verwisseld(m, k, i)[b]].aangemaaktOp
  {
    var keuze := Verwisseld(m, k, i);
    forall a, b | 0 <= a < b < k ensures t.outbox[keuze[a]].aangemaaktOp <= t.outbox[keuze[b]].aangemaaktOp {
      TijdOplopend(t.outbox, m + a, m + b);
    }
  }

  lemma VerwisseldLaatNietsLiggen<P(!new)>(t: Toestand<P>, m: nat, k: nat, i: nat, a: nat, j: nat)
    requires Ordelijk(t, m) && m <= i < m + k && m + k <= |t.outbox| && i + 1 < |t.outbox|
    requires t.outbox[i].aangemaaktOp == t.outbox[i + 1].aangemaaktOp
    requires a < k && m <= j < |t.outbox| && j !in Verwisseld(m, k, i)
    ensures t.outbox[Verwisseld(m, k, i)[a]].aangemaaktOp <= t.outbox[j].aangemaaktOp
  {
    if j < m + k && (j != i || i < m + k - 1) {
      InVerwisseld(m, k, i, j);
    } else {
      TijdOplopend(t.outbox, m + a, if j == i then i + 1 else j);
    }
  }

  /** Two neighbours of equal age may change places in the answer. */
  lemma VerwisseldIsAntwoord<P(!new)>(t: Toestand<P>, m: nat, limiet: nat, i: nat)
    requires Ordelijk(t, m) && m <= i < m + limiet && i + 1 < |t.outbox|
    requires t.outbox[i].aangemaaktOp == t.outbox[i + 1].aangemaaktOp
    ensures IsAntwoord(t.outbox, limiet, Verwisseld(m, Aantal(|t.outbox|, m, limiet), i))
  {
    var k := Aantal(|t.outbox|, m, limiet);
    var keuze := Verwisseld(m, k, i);
    OpenTelt(t.outbox, m);
    VerwisseldKiest(t, m, k, i);
    VerwisseldOudsteEerst(t, m, k, i);
    forall a, j | 0 <= a < k && 0 <= j < |t.outbox| && !t.outbox[j].gepubliceerd && j !in keuze
      ensures t.outbox[keuze[a]].aangemaaktOp <= t.outbox[j].aangemaaktOp
    {
      VerwisseldLaatNietsLiggen(t, m, k, i, a, j);
    }
  }

  lemma InVerwisseld(m: nat, k: nat, i: nat, j: nat)
    requires m <= i < m + k && m <= j < m + k && (j != i || i < m + k - 1)
    ensures j in Verwisseld(m, k, i)
  {
    var a := if j == i then i + 1 - m else if j == i + 1 then i - m else j - m;
    assert Verwisseld(m, k, i)[a] == j;
  }

  lemma InRechtuit(m: nat, k: nat, j: nat)
    requires m <= j < m + k
    ensures j in Rechtuit(m, k)
  {
    assert Rechtuit(m, k)[j - m] == j;
  }

  lemma RechtuitIsAntwoord<P(!new)>(t: Toestand<P>, m: nat, limiet: nat)
    requires Ordelijk(t, m)
    ensures IsAntwoord(t.outbox, limiet, Rechtuit(m, Aantal(|t.outbox|, m, limiet)))
  {
    var k := Aantal(|t.outbox|, m, limiet);
    var keuze := Rechtuit(m, k);
    OpenTelt(t.outbox, m);
    forall a, j | 0 <= a < k && 0 <= j < |t.outbox| && !t.outbox[j].gepubliceerd && j !in keuze
      ensures t.outbox[keuze[a]].aangemaaktOp <= t.outbox[j].aangemaaktOp
    {
      if j < m + k {
        InRechtuit(m, k, j);
      } else {
        TijdOplopend(t.outbox, m + a, j);
      }
    }
  }

  /** Strictly growing times leave the database one answer. */
  lemma AntwoordIsRechtuit<P>(t: Toestand<P>, m: nat, limiet: nat, keuze: seq<nat>)
    requires Ordelijk(t, m) && StriktTussen(t.outbox, m, limiet) && IsAntwoord(t.outbox, limiet, keuze)
    ensures keuze == Rechtuit(m, Aantal(|t.outbox|, m, limiet))
  {
    OpenTelt(t.outbox, m);
    var a := 0;
    while a < |keuze|
      invariant a <= |keuze| && forall b :: 0 <= b < a ==> keuze[b] == m + b
    {
      EersteIsOudste(t, m, limiet, keuze, a);
      a := a + 1;
    }
  }

  lemma EersteIsOudste<P>(t: Toestand<P>, m: nat, limiet: nat, keuze: seq<nat>, a: nat)
    requires Ordelijk(t, m) && StriktTussen(t.outbox, m, limiet) && IsAntwoord(t.outbox, limiet, keuze)
    requires a < |keuze| <= limiet && m + a < |t.outbox| && forall b :: 0 <= b < a ==> keuze[b] == m + b
    ensures keuze[a] == m + a
  {
    var x := keuze[a];
    if m + a < x {
      TijdOplopend(t.outbox, m + a + 1, x);
      var b := OuderEerder(t.outbox, limiet, keuze, a, m + a);
    } else if x < m + a {
      NietTweemaal(keuze, x - m, a);
    }
  }

  /** An older unsent row comes earlier in the answer. */
  lemma OuderEerder<P>(outbox: seq<Rij<P>>, limiet: nat, keuze: seq<nat>, a: nat, j: nat) returns (b: nat)
    requires IsAntwoord(outbox, limiet, keuze) && a < |keuze| && j < |outbox| && !outbox[j].gepubliceerd
    requires outbox[j].aangemaaktOp < outbox[keuze[a]].aangemaaktOp
    ensures b < a && keuze[b] == j
  {
    assert j in keuze;
    b :| 0 <= b < |keuze| && keuze[b] == j;
  }

  lemma NietTweemaal(keuze: seq<nat>, b: nat, a: nat)
    requires Verschillend(keuze) && b < a < |keuze|
    ensures keuze[b] != keuze[a]
  {
  }

  // ---------- one batch ----------

  lemma GekozenRechtuit<P>(outbox: seq<Rij<P>>, m: nat, k: nat)
    requires m + k <= |outbox|
    ensures Gekozen(outbox, Rechtuit(m, k)) == Regels(outbox)[m..m + k]
  {
  }

  lemma IdGekozen<P>(outbox: seq<Rij<P>>, m: nat, k: nat, i: nat)
    requires m + k <= |outbox| && i < |outbox| && UniekeIds(Regels(outbox))
    ensures outbox[i].regel.id in Ids(Regels(outbox)[m..m + k]) <==> m <= i < m + k
  {
    var ids := Ids(Regels(outbox)[m..m + k]);
    if m <= i < m + k {
      assert ids[i - m] == outbox[i].regel.id;
    }
    if outbox[i].regel.id in ids {
      var a :| 0 <= a < k && ids[a] == outbox[i].regel.id;
      assert Regels(outbox)[m + a].id == Regels(outbox)[i].id;
    }
  }

  lemma MarkeringRechtuit<P>(outbox: seq<Rij<P>>, m: nat, k: nat)
    requires m + k <= |outbox| && UniekeIds(Regels(outbox)) && forall i :: 0 <= i < |outbox| ==>
      (outbox[i].gepubliceerd <==> i < m)
    ensures var na := Gemarkeerd(outbox, Ids(Regels(outbox)[m..m + k]));
      forall i :: 0 <= i < |outbox| ==> (na[i].gepubliceerd <==> i < m + k)
  {
    forall i | 0 <= i < |outbox| ensures outbox[i].regel.id in Ids(Regels(outbox)[m..m + k]) <==> m <= i < m + k {
      IdGekozen(outbox, m, k, i);
    }
  }

  /** What an error-free batch leaves when the database answered in row order. */
  function NaRechtuit<P>(t: Toestand<P>, m: nat, k: nat): (r: Toestand<P>)
    requires m + k <= |t.outbox|
  {
    Toestand(Gemarkeerd(t.outbox, Ids(Regels(t.outbox)[m..m + k])), t.draad + Regels(t.outbox)[m..m + k])
  }

  lemma BatchRechtuit<P(!new)>(t: Toestand<P>, m: nat, k: nat)
    requires m + k <= |t.outbox|
    ensures NaBatch(t, Rechtuit(m, k), None).0 == NaRechtuit(t, m, k)
  {
    var keuze := Rechtuit(m, k);
    GekozenRechtuit(t.outbox, m, k);
    assert keuze[..k] == keuze;
    if k == 0 {
      assert Ids(Regels(t.outbox)[m..m]) == [];
      assert Gemarkeerd(t.outbox, []) == t.outbox;
      assert t.draad + Regels(t.outbox)[m..m] == t.draad;
    }
  }

  /** Answered in row order, an error-free batch leaves an orderly state again. */
  lemma RechtuitBlijftOrdelijk<P(!new)>(t: Toestand<P>, m: nat, k: nat)
    requires Ordelijk(t, m) && m + k <= |t.outbox|
    ensures Ordelijk(NaRechtuit(t, m, k), m + k)
    ensures Regels(NaRechtuit(t, m, k).outbox) == Regels(t.outbox)
  {
    var ids := Ids(Regels(t.outbox)[m..m + k]);
    RegelsGemarkeerd(t.outbox, ids);
    MarkeringRechtuit(t.outbox, m, k);
    assert Regels(t.outbox)[..m] + Regels(t.outbox)[m..m + k] == Regels(t.outbox)[..m + k];
  }

  lemma {:induction false} EerstenVerschillend<T(!new)>(s: seq<T>)
    requires Verschillend(s)
    ensures Eersten(s) == s
    decreases |s|
  {
    if s != [] {
      var voor := s[..|s| - 1];
      EerstenVerschillend(voor);
      assert forall j :: 0 <= j < |voor| ==> s[j] != s[|s| - 1];
    }
  }

  lemma RegelsVerschillend<P(!new)>(outbox: seq<Rij<P>>)
    requires UniekeIds(Regels(outbox))
    ensures Verschillend(Regels(outbox))
  {
    var r := Regels(outbox);
    forall i, j | 0 <= i < j < |r| ensures r[i] != r[j] {
      assert r[i].id != r[j].id;
    }
  }

  lemma OrdelijkInVolgorde<P(!new)>(t: Toestand<P>, m: nat)
    requires Ordelijk(t, m)
    ensures DraadInVolgorde(t)
  {
    RegelsVerschillend(t.outbox);
    EerstenVerschillend(t.draad);
  }

  /** A wire that starts with rows 0 up to `i` and then row `i + 1` is out of order, whatever follows. */
  lemma OverslaanBreekt<P(!new)>(t: Toestand<P>, i: nat)
    requires UniekeIds(Regels(t.outbox)) && i + 1 < |t.outbox| && i < |t.draad|
    requires t.draad[..i] == Regels(t.outbox)[..i] && t.draad[i] == Regels(t.outbox)[i + 1]
    ensures !DraadInVolgorde(t)
  {
    var r, kop := Regels(t.outbox), t.draad[..i + 1];
    RegelsVerschillend(t.outbox);
    forall a, b | 0 <= a < b < |kop| ensures kop[a] != kop[b] {
      assert kop[a] == t.draad[..i][a] == r[a];
    }
    EerstenVerschillend(kop);
    assert t.draad == kop + t.draad[i + 1..];
    EerstenPrefix(kop, t.draad[i + 1..]);
    assert Eersten(t.draad)[i] == kop[i] == r[i + 1];
  }

  lemma VerwisseldBreekt<P(!new)>(t: Toestand<P>, m: nat, limiet: nat, i: nat)
    requires Ordelijk(t, m) && m <= i < m + limiet && i + 1 < |t.outbox|
    ensures !DraadInVolgorde(NaBatch(t, Verwisseld(m, Aantal(|t.outbox|, m, limiet), i), None).0)
  {
    var k := Aantal(|t.outbox|, m, limiet);
    var keuze := Verwisseld(m, k, i);
    var na, r := NaBatch(t, keuze, None).0, Regels(t.outbox);
    RegelsGemarkeerd(t.outbox, Ids(Gekozen(t.outbox, keuze)));
    assert keuze[..k] == keuze;
    var g := Gekozen(t.outbox, keuze);
    assert na.draad == r[..m] + g;
    assert forall a :: 0 <= a < i - m ==> g[a] == r[m + a];
    assert na.draad[..i] == r[..i];
    OverslaanBreekt(na, i);
  }

  lemma StrikteBatch<P(!new)>(t: Toestand<P>, m: nat, limiet: nat, keuze: seq<nat>)
    requires Ordelijk(t, m) && StriktTussen(t.outbox, m, limiet) && IsAntwoord(t.outbox, limiet, keuze)
    ensures DraadInVolgorde(NaBatch(t, keuze, None).0)
  {
    var k := Aantal(|t.outbox|, m, limiet);
    AntwoordIsRechtuit(t, m, limiet, keuze);
    BatchRechtuit(t, m, k);
    RechtuitBlijftOrdelijk(t, m, k);
    OrdelijkInVolgorde(NaRechtuit(t, m, k), m + k);
  }

  lemma GelijkePlek<P>(outbox: seq<Rij<P>>, m: nat, limiet: nat) returns (i: nat)
    requires Oplopend(outbox) && !StriktTussen(outbox, m, limiet)
    ensures m <= i < m + limiet && i + 1 < |outbox| && outbox[i].aangemaaktOp == outbox[i + 1].aangemaaktOp
  {
    i :| m <= i < m + limiet && i + 1 < |outbox| && outbox[i].aangemaaktOp >= outbox[i + 1].aangemaaktOp;
    TijdOplopend(outbox, i, i + 1);
  }

  lemma GelijkeBatch<P(!new)>(t: Toestand<P>, m: nat, limiet: nat) returns (keuze: seq<nat>)
    requires Ordelijk(t, m) && !StriktTussen(t.outbox, m, limiet)
    ensures IsAntwoord(t.outbox, limiet, keuze) && !DraadInVolgorde(NaBatch(t, keuze, None).0)
  {
    var i := GelijkePlek(t.outbox, m, limiet);
    keuze := Verwisseld(m, Aantal(|t.outbox|, m, limiet), i);
    VerwisseldIsAntwoord(t, m, limiet, i);
    VerwisseldBreekt(t, m, limiet, i);
  }

  /** An error-free batch keeps the wire in order, whatever the database answers. */
  ghost predicate BatchInVolgorde<P(!new)>(t: Toestand<P>, limiet: nat) {
    forall keuze :: IsAntwoord(t.outbox, limiet, keuze) ==> DraadInVolgorde(NaBatch(t, keuze, None).0)
  }

  /** One error-free batch from an orderly state: the wire stays in order for every answer that the database may
      give exactly when each row of the batch is strictly older than its successor. */
  lemma BatchPrecies<P(!new)>(t: Toestand<P>, m: nat, limiet: nat)
    requires Ordelijk(t, m)
    ensures BatchInVolgorde(t, limiet) <==> StriktTussen(t.outbox, m, limiet)
  {
    if StriktTussen(t.outbox, m, limiet) {
      forall keuze | IsAntwoord(t.outbox, limiet, keuze) ensures DraadInVolgorde(NaBatch(t, keuze, None).0) {
        StrikteBatch(t, m, limiet, keuze);
      }
    } else {
      var keuze := GelijkeBatch(t, m, limiet);
    }
  }

  // ---------- whole runs ----------

  /** `ts` goes on from `t` by batches of at most `limiet` rows, with failures anywhere. */
  ghost predicate IsVervolg<P>(t: Toestand<P>, ts: seq<Toestand<P>>, stappen: seq<Stap<P>>, limiet: nat) {
    && |ts| == |stappen| + 1 && ts[0] == t
    && forall n :: 0 <= n < |stappen| ==>
         stappen[n].Batch? && stappen[n].limiet == limiet && Mogelijk(ts[n], stappen[n])
           && ts[n + 1] == Na(ts[n], stappen[n])
  }

  /** Only appends so far. */
  ghost predicate Vers<P>(t: Toestand<P>) {
    Veilig(t) && t.draad == [] && forall i :: 0 <= i < |t.outbox| ==> !t.outbox[i].gepubliceerd
  }

  ghost predicate BlijftInVolgorde<P(!new)>(t: Toestand<P>, limiet: nat) {
    forall ts, stappen :: IsVervolg(t, ts, stappen, limiet) ==> DraadInVolgorde(ts[|stappen|])
  }

  lemma {:induction false} VervolgGoed<P(!new)>(t: Toestand<P>, ts: seq<Toestand<P>>, stappen: seq<Stap<P>>,
      limiet: nat, n: nat)
    requires IsVervolg(t, ts, stappen, limiet) && n <= |stappen| && Goed(t) && StriktOplopend(t.outbox)
    ensures Goed(ts[n]) && StriktOplopend(ts[n].outbox)
  {
    if n > 0 {
      VervolgGoed(t, ts, stappen, limiet, n - 1);
      StapGoed(ts[n - 1], stappen[n - 1]);
      BatchTijden(ts[n - 1], stappen[n - 1].keuze, stappen[n - 1].fout);
    }
  }

  lemma BatchTijden<P>(t: Toestand<P>, keuze: seq<nat>, fout: Option<nat>)
    requires StriktOplopend(t.outbox) && forall a :: 0 <= a < |keuze| ==> keuze[a] < |t.outbox|
    ensures StriktOplopend(NaBatch(t, keuze, fout).0.outbox)
  {
  }

  /** With two neighbours of equal age at `i`, straight batches lead up to the one in which they change places. */
  lemma {:induction false} NaarGelijke<P(!new)>(t: Toestand<P>, m: nat, limiet: nat, i: nat)
      returns (ts: seq<Toestand<P>>, stappen: seq<Stap<P>>)
    requires Ordelijk(t, m) && limiet > 0 && m <= i && i + 1 < |t.outbox|
    requires t.outbox[i].aangemaaktOp == t.outbox[i + 1].aangemaaktOp
    ensures IsVervolg(t, ts, stappen, limiet) && !DraadInVolgorde(ts[|stappen|])
    decreases i - m
  {
    var k := Aantal(|t.outbox|, m, limiet);
    if i < m + limiet {
      VerwisseldIsAntwoord(t, m, limiet, i);
      VerwisseldBreekt(t, m, limiet, i);
      var stap := Batch(limiet, Verwisseld(m, k, i), None);
      ts, stappen := [t, Na(t, stap)], [stap];
    } else {
      var stap := Batch(limiet, Rechtuit(m, k), None);
      RechtuitIsAntwoord(t, m, limiet);
      BatchRechtuit(t, m, k);
      RechtuitBlijftOrdelijk(t, m, k);
      RegelsGemarkeerd(t.outbox, Ids(Regels(t.outbox)[m..m + k]));
      var rest, reststappen := NaarGelijke(NaRechtuit(t, m, k), m + k, limiet, i);
      ts, stappen := [t] + rest, [stap] + reststappen;
      VoorafStap(t, stap, rest, reststappen, limiet);
    }
  }

  lemma VoorafStap<P>(t: Toestand<P>, stap: Stap<P>, rest: seq<Toestand<P>>, stappen: seq<Stap<P>>, limiet: nat)
    requires stap.Batch? && stap.limiet == limiet && Mogelijk(t, stap) && IsVervolg(Na(t, stap), rest, stappen, limiet)
    ensures IsVervolg(t, [t] + rest, [stap] + stappen, limiet) && ([t] + rest)[|stappen| + 1] == rest[|stappen|]
  {
  }

  /** Whatever the batch limit: every continuation of an outbox that was only appended to keeps the wire in outbox
      order if and only if no two rows share a timestamp. */
  lemma VolgordePrecies<P(!new)>(t: Toestand<P>, limiet: nat)
    requires Vers(t) && limiet > 0
    ensures BlijftInVolgorde(t, limiet) <==> StriktOplopend(t.outbox)
  {
    assert Eersten(t.draad) == [];
    if StriktOplopend(t.outbox) {
      forall ts, stappen | IsVervolg(t, ts, stappen, limiet) ensures DraadInVolgorde(ts[|stappen|]) {
        VervolgGoed(t, ts, stappen, limiet, |stappen|);
        WireIsPrefix(ts[|stappen|]);
      }
    } else {
      var i := GelijkeBuren(t.outbox);
      var ts, stappen := NaarGelijke(t, 0, limiet, i);
    }
  }

  lemma GelijkeBuren<P>(outbox: seq<Rij<P>>) returns (i: nat)
    requires Oplopend(outbox) && !StriktOplopend(outbox)
    ensures i + 1 < |outbox| && outbox[i].aangemaaktOp == outbox[i + 1].aangemaaktOp
  {
    var a, b :| 0 <= a < b < |outbox| && outbox[a].aangemaaktOp >= outbox[b].aangemaaktOp;
    i := a;
    TijdOplopend(outbox, a, a + 1);
    TijdOplopend(outbox, a + 1, b);
  }
}
