/** Monitoring's outbox relay: publish the whole batch, then mark the whole batch; an exception
    anywhere in between leaves the batch unmarked. */
module MonitoringRelay {
  import opened Gedeeld
  import opened Outbox

  /** What one batch does. `fout` is the number of the channel or mark call that throws, counting
      from 0; numbers past the mark mean that nothing throws. A publish that throws after the
      broker took the message counts as a failure of the call after it. */
  function NaBatch<P>(t: Toestand<P>, keuze: seq<nat>, fout: Option<nat>): (r: (Toestand<P>, Result<nat>))
    requires forall a :: 0 <= a < |keuze| ==> keuze[a] < |t.outbox|
  {
    if keuze == [] then (t, Ok(0))
    else if fout.Some? && fout.value <= |keuze| then (Verstuurd(t, keuze, fout.value), Err(Technisch))
    else
      var verstuurd := Verstuurd(t, keuze, |keuze|);
      (verstuurd.(outbox := Gemarkeerd(t.outbox, Ids(Gekozen(t.outbox, keuze)))), Ok(|keuze|))
  }

  class OutboxRelayWerker<P(==, !new)> {
    var outbox: seq<Rij<P>>
    var draad: seq<Regel<P>>

    function Waarde(): (t: Toestand<P>)
      reads this
    {
      Toestand(outbox, draad)
    }

    constructor ()
      ensures Waarde() == Toestand([], [])
    {
      outbox, draad := [], [];
    }

    method VoegToe(regels: seq<Regel<P>>, nu: int)
      modifies this
      ensures Waarde() == Toestand(Toegevoegd(old(outbox), nu, regels), old(draad))
    {
      var i := 0;
      while i < |regels|
        invariant i <= |regels|
        invariant outbox == Toegevoegd(old(outbox), nu, regels[..i]) && draad == old(draad)
      {
        outbox := outbox + [Rij(regels[i], nu, false)];
        i := i + 1;
      }
      assert regels[..i] == regels;
    }

    /** `keuze` is the database's answer to the oldest-unsent query. */
    method VerwerkBatch(batch: nat, keuze: seq<nat>, fout: Option<nat>) returns (r: Result<nat>)
      requires IsAntwoord(outbox, batch, keuze)
      modifies this
      ensures (Waarde(), r) == NaBatch(old(Waarde()), keuze, fout)
    {
      if |keuze| == 0 {
        return Ok(0);
      }
      var verzonden: seq<string> := [];
      var i := 0;
      while i < |keuze|
        invariant i <= |keuze| && outbox == old(outbox)
        invariant fout.Some? ==> i <= fout.value
        invariant Waarde() == Verstuurd(old(Waarde()), keuze, i)
        invariant verzonden == Ids(Gekozen(outbox, keuze[..i]))
      {
        if fout == Some(i) {
          return Err(Technisch);
        }
        draad := draad + [outbox[keuze[i]].regel];
        verzonden := verzonden + [outbox[keuze[i]].regel.id];
        assert draad == Verstuurd(old(Waarde()), keuze, i + 1).draad by { VerstuurdPlus(old(Waarde()), keuze, i); }
        i := i + 1;
      }
      if fout == Some(i) {
        return Err(Technisch);
      }
      assert keuze[..i] == keuze;
      outbox := Gemarkeerd(outbox, verzonden);
      return Ok(|verzonden|);
    }
  }

  // ---------- runs ----------

  datatype Stap<P> =
    | Voeg(nu: int, regels: seq<Regel<P>>)
    | Batch(limiet: nat, keuze: seq<nat>, fout: Option<nat>)

  ghost predicate Mogelijk<P>(t: Toestand<P>, stap: Stap<P>) {
    match stap
    case Voeg(nu, regels) => MagToevoegen(t.outbox, nu, regels)
    case Batch(limiet, keuze, _) => IsAntwoord(t.outbox, limiet, keuze)
  }

  function Na<P>(t: Toestand<P>, stap: Stap<P>): (r: Toestand<P>)
    requires stap.Batch? ==> forall a :: 0 <= a < |stap.keuze| ==> stap.keuze[a] < |t.outbox|
  {
    match stap
    case Voeg(nu, regels) => Toestand(Toegevoegd(t.outbox, nu, regels), t.draad)
    case Batch(_, keuze, fout) => NaBatch(t, keuze, fout).0
  }

  /** `ts` is a run from the empty outbox by the steps `stappen`. */
  ghost predicate IsRun<P>(ts: seq<Toestand<P>>, stappen: seq<Stap<P>>) {
    && |ts| == |stappen| + 1
    && ts[0] == Toestand([], [])
    && forall n :: 0 <= n < |stappen| ==> Mogelijk(ts[n], stappen[n]) && ts[n + 1] == Na(ts[n], stappen[n])
  }

  /** A marked row is no younger than an unmarked one. */
  ghost predicate MarkeringGesloten<P>(outbox: seq<Rij<P>>) {
    forall i, j :: 0 <= i < |outbox| && 0 <= j < |outbox| && outbox[i].gepubliceerd && !outbox[j].gepubliceerd ==>
      outbox[i].aangemaaktOp <= outbox[j].aangemaaktOp
  }

  ghost predicate Goed<P(!new)>(t: Toestand<P>) {
    Veilig(t) && Geordend(t) && MarkeringGesloten(t.outbox)
  }

  lemma MarkeringBlijftGesloten<P(!new)>(outbox: seq<Rij<P>>, limiet: nat, keuze: seq<nat>)
    requires UniekeIds(Regels(outbox)) && MarkeringGesloten(outbox) && IsAntwoord(outbox, limiet, keuze)
    ensures MarkeringGesloten(Gemarkeerd(outbox, Ids(Gekozen(outbox, keuze))))
  {
    var na := Gemarkeerd(outbox, Ids(Gekozen(outbox, keuze)));
    OpenKrimpt(outbox, limiet, keuze);
    forall i: nat, j: nat | i < |na| && j < |na| && na[i].gepubliceerd && !na[j].gepubliceerd
      ensures na[i].aangemaaktOp <= na[j].aangemaaktOp
    {
      assert j in Open(na) && j !in keuze;
      if !outbox[i].gepubliceerd {
        assert i in Open(outbox) && i !in Open(na) && i in keuze;
        var a :| 0 <= a < |keuze| && keuze[a] == i;
      }
    }
  }

  lemma BatchGoed<P(!new)>(t: Toestand<P>, limiet: nat, keuze: seq<nat>, fout: Option<nat>)
    requires Goed(t) && IsAntwoord(t.outbox, limiet, keuze)
    ensures Goed(NaBatch(t, keuze, fout).0)
  {
    if keuze != [] {
      if fout.Some? && fout.value <= |keuze| {
        KeuzeGeordend(t, limiet, keuze, fout.value);
      } else {
        KeuzeGeordend(t, limiet, keuze, |keuze|);
        assert keuze[..|keuze|] == keuze;
        MarkeerVeilig(Verstuurd(t, keuze, |keuze|), Gekozen(t.outbox, keuze));
        MarkeringBlijftGesloten(t.outbox, limiet, keuze);
      }
    }
  }

  lemma StapGoed<P(!new)>(t: Toestand<P>, stap: Stap<P>)
    requires Goed(t) && Mogelijk(t, stap)
    ensures Goed(Na(t, stap))
  {
    match stap
    case Voeg(nu, regels) =>
      ToevoegenVeilig(t, nu, regels);
      ToevoegenGeordend(t, nu, regels);
    case Batch(limiet, keuze, fout) =>
      BatchGoed(t, limiet, keuze, fout);
  }

  /** In every run, with failures at any point of any batch and any order among rows of equal age:
      only outbox rows are sent, every marked row was sent, marking and sending go from old to new. */
  lemma {:induction false} RelayVeilig<P(!new)>(ts: seq<Toestand<P>>, stappen: seq<Stap<P>>, n: nat)
    requires IsRun(ts, stappen) && n <= |stappen|
    ensures Veilig(ts[n]) && Geordend(ts[n]) && MarkeringGesloten(ts[n].outbox)
  {
    if n == 0 {
      assert Eersten(ts[0].draad) == [];
    } else {
      RelayVeilig(ts, stappen, n - 1);
      StapGoed(ts[n - 1], stappen[n - 1]);
    }
  }

  lemma GemarkeerdePrefix<P(!new)>(outbox: seq<Rij<P>>) returns (m: nat)
    requires StriktOplopend(outbox) && MarkeringGesloten(outbox)
    ensures m <= |outbox| && forall i :: 0 <= i < |outbox| ==> (outbox[i].gepubliceerd <==> i < m)
  {
    m := 0;
    while m < |outbox| && outbox[m].gepubliceerd
      invariant m <= |outbox| && forall i :: 0 <= i < m ==> outbox[i].gepubliceerd
    {
      m := m + 1;
    }
  }

  lemma OpDraadTotHier<P(!new)>(t: Toestand<P>, i: nat)
    requires UniekeIds(Regels(t.outbox)) && Eersten(t.draad) <= Regels(t.outbox)
    requires i < |t.outbox| && t.outbox[i].regel in t.draad
    ensures i < |Eersten(t.draad)|
  {
    var e := Eersten(t.draad);
    assert t.outbox[i].regel in e;
    var b :| 0 <= b < |e| && e[b] == t.outbox[i].regel;
    assert Regels(t.outbox)[b].id == Regels(t.outbox)[i].id;
  }

  /** When no two rows share a timestamp, the marked rows are an initial part of the outbox, and the
      first occurrences on the wire are an initial part of it, in outbox order and not shorter. */
  lemma RelayVolgorde<P(!new)>(ts: seq<Toestand<P>>, stappen: seq<Stap<P>>, n: nat) returns (m: nat)
    requires IsRun(ts, stappen) && n <= |stappen| && StriktOplopend(ts[n].outbox)
    ensures forall i :: 0 <= i < |ts[n].outbox| ==> (ts[n].outbox[i].gepubliceerd <==> i < m)
    ensures Eersten(ts[n].draad) <= Regels(ts[n].outbox)
    ensures m <= |Eersten(ts[n].draad)|
  {
    var t := ts[n];
    RelayVeilig(ts, stappen, n);
    m := GemarkeerdePrefix(t.outbox);
    WireIsPrefix(t);
    if m > 0 {
      OpDraadTotHier(t, m - 1);
    }
  }

  /** An error-free batch takes exactly its return value off the unsent rows, as many as the limit allows. */
  lemma FoutloosKrimpt<P(!new)>(t: Toestand<P>, limiet: nat, keuze: seq<nat>, fout: Option<nat>)
    requires Veilig(t) && IsAntwoord(t.outbox, limiet, keuze)
    requires NaBatch(t, keuze, fout).1.Ok?
    ensures |Open(NaBatch(t, keuze, fout).0.outbox)| == |Open(t.outbox)| - NaBatch(t, keuze, fout).1.value
    ensures NaBatch(t, keuze, fout).1.value == if |Open(t.outbox)| < limiet then |Open(t.outbox)| else limiet
  {
    OpenKrimpt(t.outbox, limiet, keuze);
  }

  /** A failed batch marks nothing. */
  lemma FoutMarkeertNiets<P>(t: Toestand<P>, keuze: seq<nat>, fout: Option<nat>)
    requires forall a :: 0 <= a < |keuze| ==> keuze[a] < |t.outbox|
    requires NaBatch(t, keuze, fout).1.Err?
    ensures NaBatch(t, keuze, fout).0.outbox == t.outbox && t.draad <= NaBatch(t, keuze, fout).0.draad
  {
  }

  /** `k` error-free batches in a row, with nothing appended, drain up to `k * limiet` rows. */
  lemma {:induction false} Leegloop<P(!new)>(ts: seq<Toestand<P>>, stappen: seq<Stap<P>>, van: nat, k: nat, limiet: nat)
    requires IsRun(ts, stappen) && van + k <= |stappen|
    requires forall n :: van <= n < van + k ==>
      stappen[n].Batch? && stappen[n].limiet == limiet && NaBatch(ts[n], stappen[n].keuze, stappen[n].fout).1.Ok?
    ensures |Open(ts[van + k].outbox)| == if |Open(ts[van].outbox)| < k * limiet then 0
      else |Open(ts[van].outbox)| - k * limiet
  {
    if k > 0 {
      Leegloop(ts, stappen, van, k - 1, limiet);
      RelayVeilig(ts, stappen, van + k - 1);
      var stap := stappen[van + k - 1];
      FoutloosKrimpt(ts[van + k - 1], limiet, stap.keuze, stap.fout);
      assert k * limiet == (k - 1) * limiet + limiet;
    }
  }

  lemma TweeEersten(a: Regel<int>, b: Regel<int>)
    requires a.id != b.id
    ensures Eersten([b, a]) == [b, a]
  {
    EerstenPlus([], b);
    EerstenPlus([b], a);
    assert [] + [b] == [b] && [b] + [a] == [b, a];
  }

  lemma RunPlus<P>(ts: seq<Toestand<P>>, stappen: seq<Stap<P>>, stap: Stap<P>)
    requires IsRun(ts, stappen) && Mogelijk(ts[|stappen|], stap)
    ensures IsRun(ts + [Na(ts[|stappen|], stap)], stappen + [stap])
  {
    var ts', stappen' := ts + [Na(ts[|stappen|], stap)], stappen + [stap];
    forall n | 0 <= n < |stappen'| ensures Mogelijk(ts'[n], stappen'[n]) && ts'[n + 1] == Na(ts'[n], stappen'[n]) {
      if n < |stappen| {
        assert stappen'[n] == stappen[n] && ts'[n] == ts[n] && ts'[n + 1] == ts[n + 1];
      }
    }
  }

  lemma TweeGelijk(a: Regel<int>, b: Regel<int>)
    requires a.id != b.id
    ensures var t := Toestand([Rij(a, 0, false), Rij(b, 0, false)], []);
      && Mogelijk(t, Batch(50, [1, 0], None))
      && Na(t, Batch(50, [1, 0], None)) == Toestand([Rij(a, 0, true), Rij(b, 0, true)], [b, a])
  {
    var t := Toestand([Rij(a, 0, false), Rij(b, 0, false)], []);
    assert Open(t.outbox) == {0, 1};
    assert Ids(Gekozen(t.outbox, [1, 0])) == [b.id, a.id];
    assert [1, 0][..2] == [1, 0];
    assert Verstuurd(t, [1, 0], 2).draad == [b, a];
  }

  /** Two events of one publish call share a timestamp, and then the database may answer with the later row first:
      the relay's own batch of fifty sends them in that order. */
  lemma GelijkeTijdBreektVolgorde(a: Regel<int>, b: Regel<int>)
      returns (ts: seq<Toestand<int>>, stappen: seq<Stap<int>>)
    requires a.id != b.id
    ensures IsRun(ts, stappen) && |ts| == 3 && stappen[1] == Batch(50, [1, 0], None)
    ensures Regels(ts[2].outbox) == [a, b] && Eersten(ts[2].draad) == [b, a]
  {
    var s0: Stap<int>, s1: Stap<int> := Voeg(0, [a, b]), Batch(50, [1, 0], None);
    var t0: Toestand<int>, t1 := Toestand([], []), Toestand([Rij(a, 0, false), Rij(b, 0, false)], []);
    var t2 := Toestand([Rij(a, 0, true), Rij(b, 0, true)], [b, a]);
    TweeGelijk(a, b);
    TweeEersten(a, b);
    assert Mogelijk(t0, s0) && Na(t0, s0) == t1;
    ts, stappen := [t0, t1, t2], [s0, s1];
    RunPlus([t0], [], s0);
    RunPlus([t0, t1], [s0], s1);
  }
}
