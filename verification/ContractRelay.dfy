/** Contract's outbox relay: it marks only the rows whose publish call returned true. */
module ContractRelay {
  import opened Gedeeld
  import opened Outbox

  /** `Gebufferd` is a publish that returned false although the message still leaves the write buffer;
      `Geweigerd` is one whose message never reaches the broker. */
  datatype Publicatie = Aanvaard | Gebufferd | Geweigerd

  /** What the first `n` publish calls put on the wire. */
  function OpDraad<P>(outbox: seq<Rij<P>>, keuze: seq<nat>, uitkomst: seq<Publicatie>, n: nat): (r: seq<Regel<P>>)
    requires n <= |keuze| == |uitkomst| && forall a :: 0 <= a < |keuze| ==> keuze[a] < |outbox|
  {
    if n == 0 then []
    else if uitkomst[n - 1].Geweigerd? then OpDraad(outbox, keuze, uitkomst, n - 1)
    else OpDraad(outbox, keuze, uitkomst, n - 1) + [outbox[keuze[n - 1]].regel]
  }

  /** The rows among the first `n` whose publish call returned true. */
  function Verzonden<P>(outbox: seq<Rij<P>>, keuze: seq<nat>, uitkomst: seq<Publicatie>, n: nat): (r: seq<Regel<P>>)
    requires n <= |keuze| == |uitkomst| && forall a :: 0 <= a < |keuze| ==> keuze[a] < |outbox|
  {
    if n == 0 then []
    else if uitkomst[n - 1].Aanvaard? then Verzonden(outbox, keuze, uitkomst, n - 1) + [outbox[keuze[n - 1]].regel]
    else Verzonden(outbox, keuze, uitkomst, n - 1)
  }

  /** What one batch does; `fout` counts the channel and mark calls as in Monitoring's relay. */
  function NaBatch<P>(t: Toestand<P>, keuze: seq<nat>, uitkomst: seq<Publicatie>, fout: Option<nat>):
      (r: (Toestand<P>, Result<nat>))
    requires |keuze| == |uitkomst| && forall a :: 0 <= a < |keuze| ==> keuze[a] < |t.outbox|
  {
    var n := |keuze|;
    var gelukt := Verzonden(t.outbox, keuze, uitkomst, n);
    if fout.Some? && fout.value < n then
      (t.(draad := t.draad + OpDraad(t.outbox, keuze, uitkomst, fout.value)), Err(Technisch))
    else if gelukt != [] && fout == Some(n) then
      (t.(draad := t.draad + OpDraad(t.outbox, keuze, uitkomst, n)), Err(Technisch))
    else
      (Toestand(Gemarkeerd(t.outbox, Ids(gelukt)), t.draad + OpDraad(t.outbox, keuze, uitkomst, n)), Ok(|gelukt|))
  }

  class OutboxRelay<P(==, !new)> {
    var outbox: seq<Rij<P>>
    var draad: seq<Regel<P>>

    function Waarde(): (t: Toestand<P>)
      reads this
    {
      Toestand(outbox, draad)
    }

    constructor ()
      ensures Waarde() == Toestand([], [])
    {
      outbox, draad := [], [];
    }

    /** `regels` is the database's answer to the oldest-unsent query; the channel decides `uitkomst`. */
    method VerwerkBatch(batch: nat, regels: seq<nat>, uitkomst: seq<Publicatie>, fout: Option<nat>)
        returns (r: Result<nat>)
      requires IsAntwoord(outbox, batch, regels) && |uitkomst| == |regels|
      modifies this
      ensures (Waarde(), r) == NaBatch(old(Waarde()), regels, uitkomst, fout)
    {
      if |regels| == 0 {
        assert Gemarkeerd(outbox, Ids<P>([])) == outbox && draad + [] == draad;
        return Ok(0);
      }
      var verzonden: seq<string> := [];
      var i := 0;
      while i < |regels|
        invariant i <= |regels| && outbox == old(outbox)
        invariant fout.Some? ==> i <= fout.value
        invariant draad == old(draad) + OpDraad(outbox, regels, uitkomst, i)
        invariant verzonden == Ids(Verzonden(outbox, regels, uitkomst, i))
      {
        if fout == Some(i) {
          return Err(Technisch);
        }
        var regel := outbox[regels[i]].regel;
        if !uitkomst[i].Geweigerd? {
          draad := draad + [regel];
        }
        if uitkomst[i].Aanvaard? {
          verzonden := verzonden + [regel.id];
        }
        i := i + 1;
      }
      if |verzonden| > 0 {
        if fout == Some(i) {
          return Err(Technisch);
        }
        outbox := Gemarkeerd(outbox, verzonden);
      } else {
        assert Gemarkeerd(outbox, Ids<P>([])) == outbox;
      }
      return Ok(|verzonden|);
    }
  }

  // ---------- what a batch keeps ----------

  lemma {:induction false} OpDraadVeilig<P(!new)>(t: Toestand<P>, keuze: seq<nat>, uitkomst: seq<Publicatie>, n: nat)
    requires n <= |keuze| == |uitkomst| && forall a :: 0 <= a < |keuze| ==> keuze[a] < |t.outbox|
    requires Veilig(t)
    ensures Veilig(t.(draad := t.draad + OpDraad(t.outbox, keuze, uitkomst, n)))
    ensures forall m :: m in Verzonden(t.outbox, keuze, uitkomst, n) ==>
      m in t.draad + OpDraad(t.outbox, keuze, uitkomst, n)
  {
    if n == 0 {
      assert t.draad + [] == t.draad;
    } else {
      OpDraadVeilig(t, keuze, uitkomst, n - 1);
      if !uitkomst[n - 1].Geweigerd? {
        var tussen := t.(draad := t.draad + OpDraad(t.outbox, keuze, uitkomst, n - 1));
        PubliceerVeilig(tussen, keuze[n - 1]);
        assert tussen.draad + [t.outbox[keuze[n - 1]].regel] == t.draad + OpDraad(t.outbox, keuze, uitkomst, n);
      }
    }
  }

  lemma BatchVeilig<P(!new)>(t: Toestand<P>, keuze: seq<nat>, uitkomst: seq<Publicatie>, fout: Option<nat>)
    requires |keuze| == |uitkomst| && forall a :: 0 <= a < |keuze| ==> keuze[a] < |t.outbox|
    requires Veilig(t)
    ensures Veilig(NaBatch(t, keuze, uitkomst, fout).0)
  {
    var n := |keuze|;
    OpDraadVeilig(t, keuze, uitkomst, n);
    if fout.Some? && fout.value < n {
      OpDraadVeilig(t, keuze, uitkomst, fout.value);
    } else {
      MarkeerVeilig(t.(draad := t.draad + OpDraad(t.outbox, keuze, uitkomst, n)),
        Verzonden(t.outbox, keuze, uitkomst, n));
    }
  }

  lemma {:induction false} VerzondenIsAanvaard<P(!new)>(outbox: seq<Rij<P>>, keuze: seq<nat>,
      uitkomst: seq<Publicatie>, n: nat, m: Regel<P>)
    requires n <= |keuze| == |uitkomst| && forall a :: 0 <= a < |keuze| ==> keuze[a] < |outbox|
    ensures m in Verzonden(outbox, keuze, uitkomst, n) <==>
      exists a :: 0 <= a < n && uitkomst[a].Aanvaard? && outbox[keuze[a]].regel == m
  {
    if n > 0 {
      VerzondenIsAanvaard(outbox, keuze, uitkomst, n - 1, m);
      if m in Verzonden(outbox, keuze, uitkomst, n) && m !in Verzonden(outbox, keuze, uitkomst, n - 1) {
        assert uitkomst[n - 1].Aanvaard? && outbox[keuze[n - 1]].regel == m;
      }
    }
  }

  /** The id of a row is among the accepted ones exactly when its own publish call returned true. */
  lemma GeluktPrecies<P(!new)>(t: Toestand<P>, keuze: seq<nat>, uitkomst: seq<Publicatie>, i: nat)
    requires Veilig(t) && |uitkomst| == |keuze| && i < |t.outbox|
    requires forall a :: 0 <= a < |keuze| ==> keuze[a] < |t.outbox|
    ensures t.outbox[i].regel.id in Ids(Verzonden(t.outbox, keuze, uitkomst, |keuze|)) <==>
      exists a :: 0 <= a < |keuze| && keuze[a] == i && uitkomst[a].Aanvaard?
  {
    var gelukt, m := Verzonden(t.outbox, keuze, uitkomst, |keuze|), t.outbox[i].regel;
    VerzondenIsAanvaard(t.outbox, keuze, uitkomst, |keuze|, m);
    if m.id in Ids(gelukt) {
      var k :| 0 <= k < |gelukt| && gelukt[k].id == m.id;
      VerzondenIsAanvaard(t.outbox, keuze, uitkomst, |keuze|, gelukt[k]);
      var a :| 0 <= a < |keuze| && uitkomst[a].Aanvaard? && t.outbox[keuze[a]].regel == gelukt[k];
      assert Regels(t.outbox)[keuze[a]].id == Regels(t.outbox)[i].id;
      assert keuze[a] == i;
    }
    if a :| 0 <= a < |keuze| && keuze[a] == i && uitkomst[a].Aanvaard? {
      assert m in gelukt;
      var k :| 0 <= k < |gelukt| && gelukt[k] == m;
      assert Ids(gelukt)[k] == m.id;
    }
  }

  lemma {:induction false} AantalVerzonden<P>(outbox: seq<Rij<P>>, keuze: seq<nat>, uitkomst: seq<Publicatie>, n: nat)
    requires n <= |keuze| == |uitkomst| && forall a :: 0 <= a < |keuze| ==> keuze[a] < |outbox|
    ensures |Verzonden(outbox, keuze, uitkomst, n)| == |set a: nat | a < n && uitkomst[a].Aanvaard?|
  {
    if n > 0 {
      AantalVerzonden(outbox, keuze, uitkomst, n - 1);
      var voor, na := set a: nat | a < n - 1 && uitkomst[a].Aanvaard?, set a: nat | a < n && uitkomst[a].Aanvaard?;
      assert na == if uitkomst[n - 1].Aanvaard? then voor + {n - 1} else voor;
    }
  }

  /** A finished batch returns the number of its publish calls that returned true. */
  lemma BatchTelt<P>(t: Toestand<P>, keuze: seq<nat>, uitkomst: seq<Publicatie>, fout: Option<nat>)
    requires |uitkomst| == |keuze| && forall a :: 0 <= a < |keuze| ==> keuze[a] < |t.outbox|
    ensures var r := NaBatch(t, keuze, uitkomst, fout).1;
      && (r.Ok? ==> r.value == |set a: nat | a < |keuze| && uitkomst[a].Aanvaard?|)
      && (fout == None ==> r.Ok?)
  {
    AantalVerzonden(t.outbox, keuze, uitkomst, |keuze|);
  }

  /** A finished batch marks a row exactly when the row was marked already or its publish call
      returned true; a batch that throws marks nothing. */
  lemma MarkeertPrecies<P(!new)>(t: Toestand<P>, limiet: nat, keuze: seq<nat>, uitkomst: seq<Publicatie>,
      fout: Option<nat>, i: nat)
    requires Veilig(t) && IsAntwoord(t.outbox, limiet, keuze) && |uitkomst| == |keuze| && i < |t.outbox|
    ensures var (na, r) := NaBatch(t, keuze, uitkomst, fout);
      na.outbox[i].gepubliceerd <==>
        t.outbox[i].gepubliceerd || (r.Ok? && exists a :: 0 <= a < |keuze| && keuze[a] == i && uitkomst[a].Aanvaard?)
  {
    GeluktPrecies(t, keuze, uitkomst, i);
  }

  // ---------- runs ----------

  datatype Stap<P> =
    | Voeg(nu: int, regels: seq<Regel<P>>)
    | Batch(limiet: nat, keuze: seq<nat>, uitkomst: seq<Publicatie>, fout: Option<nat>)

  ghost predicate Mogelijk<P>(t: Toestand<P>, stap: Stap<P>) {
    match stap
    case Voeg(nu, regels) => MagToevoegen(t.outbox, nu, regels)
    case Batch(limiet, keuze, uitkomst, _) => IsAntwoord(t.outbox, limiet, keuze) && |uitkomst| == |keuze|
  }

  function Na<P>(t: Toestand<P>, stap: Stap<P>): (r: Toestand<P>)
    requires stap.Batch? ==> |stap.uitkomst| == |stap.keuze| && forall a :: 0 <= a < |stap.keuze| ==>
      stap.keuze[a] < |t.outbox|
  {
    match stap
    case Voeg(nu, regels) => Toestand(Toegevoegd(t.outbox, nu, regels), t.draad)
    case Batch(_, keuze, uitkomst, fout) => NaBatch(t, keuze, uitkomst, fout).0
  }

  ghost predicate IsRun<P>(ts: seq<Toestand<P>>, stappen: seq<Stap<P>>) {
    && |ts| == |stappen| + 1
    && ts[0] == Toestand([], [])
    && forall n :: 0 <= n < |stappen| ==> Mogelijk(ts[n], stappen[n]) && ts[n + 1] == Na(ts[n], stappen[n])
  }

  ghost predicate NietsGeweigerd<P>(stappen: seq<Stap<P>>) {
    forall n :: 0 <= n < |stappen| && stappen[n].Batch? ==> Geweigerd !in stappen[n].uitkomst
  }

  /** In every run, refusals and exceptions included, every marked row is on the wire. */
  lemma {:induction false} RelayVeilig<P(!new)>(ts: seq<Toestand<P>>, stappen: seq<Stap<P>>, n: nat)
    requires IsRun(ts, stappen) && n <= |stappen|
    ensures Veilig(ts[n])
  {
    if n > 0 {
      RelayVeilig(ts, stappen, n - 1);
      var t := ts[n - 1];
      assert Mogelijk(t, stappen[n - 1]);
      match stappen[n - 1]
      case Voeg(nu, regels) => ToevoegenVeilig(t, nu, regels);
      case Batch(_, keuze, uitkomst, fout) => BatchVeilig(t, keuze, uitkomst, fout);
    }
  }

  lemma {:induction false} ZonderWeigering<P(!new)>(t: Toestand<P>, keuze: seq<nat>, uitkomst: seq<Publicatie>, n: nat)
    requires n <= |keuze| == |uitkomst| && forall a :: 0 <= a < |keuze| ==> keuze[a] < |t.outbox|
    requires Geweigerd !in uitkomst
    ensures t.(draad := t.draad + OpDraad(t.outbox, keuze, uitkomst, n)) == Verstuurd(t, keuze, n)
  {
    if n > 0 {
      ZonderWeigering(t, keuze, uitkomst, n - 1);
      VerstuurdPlus(t, keuze, n - 1);
      assert uitkomst[n - 1] in uitkomst;
    } else {
      assert Gekozen(t.outbox, keuze[..0]) == [];
    }
  }

  lemma BatchGeordend<P(!new)>(t: Toestand<P>, limiet: nat, keuze: seq<nat>, uitkomst: seq<Publicatie>,
      fout: Option<nat>)
    requires Veilig(t) && Geordend(t) && IsAntwoord(t.outbox, limiet, keuze)
    requires |keuze| == |uitkomst| && Geweigerd !in uitkomst
    ensures Geordend(NaBatch(t, keuze, uitkomst, fout).0)
  {
    var n := if fout.Some? && fout.value < |keuze| then fout.value else |keuze|;
    ZonderWeigering(t, keuze, uitkomst, n);
    KeuzeGeordend(t, limiet, keuze, n);
    if n == |keuze| {
      OpDraadVeilig(t, keuze, uitkomst, n);
      MarkeerVeilig(Verstuurd(t, keuze, n), Verzonden(t.outbox, keuze, uitkomst, n));
    }
  }

  /** If no message is really refused, rows that stay unmarked are sent again but never overtaken:
      the first occurrences on the wire still run from old to new without gaps. */
  lemma {:induction false} RelayGeordend<P(!new)>(ts: seq<Toestand<P>>, stappen: seq<Stap<P>>, n: nat)
    requires IsRun(ts, stappen) && n <= |stappen| && NietsGeweigerd(stappen)
    ensures Geordend(ts[n])
  {
    if n == 0 {
      assert Eersten(ts[0].draad) == [];
    } else {
      RelayGeordend(ts, stappen, n - 1);
      RelayVeilig(ts, stappen, n - 1);
      var t := ts[n - 1];
      assert Mogelijk(t, stappen[n - 1]);
      match stappen[n - 1]
      case Voeg(nu, regels) => ToevoegenGeordend(t, nu, regels);
      case Batch(limiet, keuze, uitkomst, fout) => BatchGeordend(t, limiet, keuze, uitkomst, fout);
    }
  }

  lemma RunPlus<P>(ts: seq<Toestand<P>>, stappen: seq<Stap<P>>, stap: Stap<P>)
    requires IsRun(ts, stappen) && Mogelijk(ts[|stappen|], stap)
    ensures IsRun(ts + [Na(ts[|stappen|], stap)], stappen + [stap])
  {
    var ts', stappen' := ts + [Na(ts[|stappen|], stap)], stappen + [stap];
    forall n | 0 <= n < |stappen'| ensures Mogelijk(ts'[n], stappen'[n]) && ts'[n + 1] == Na(ts'[n], stappen'[n]) {
      if n < |stappen| {
        assert stappen'[n] == stappen[n] && ts'[n] == ts[n] && ts'[n + 1] == ts[n + 1];
      }
    }
  }

  lemma TweedeAanvaard(a: Regel<int>, b: Regel<int>)
    requires a.id != b.id
    ensures var t := Toestand([Rij(a, 0, false), Rij(b, 1, false)], []);
      var stap := Batch(2, [0, 1], [Geweigerd, Aanvaard], None);
      Mogelijk(t, stap) && Na(t, stap) == Toestand([Rij(a, 0, false), Rij(b, 1, true)], [b])
  {
    var t := Toestand([Rij(a, 0, false), Rij(b, 1, false)], []);
    assert Open(t.outbox) == {0, 1};
    assert OpDraad(t.outbox, [0, 1], [Geweigerd, Aanvaard], 1) == [];
    assert Verzonden(t.outbox, [0, 1], [Geweigerd, Aanvaard], 1) == [];
    assert Verzonden(t.outbox, [0, 1], [Geweigerd, Aanvaard], 2) == [b];
    assert Ids([b]) == [b.id];
  }

  lemma TweeRijen(a: Regel<int>, b: Regel<int>)
    requires a.id != b.id
    ensures IsRun(
      [Toestand([], []), Toestand([Rij(a, 0, false)], []), Toestand([Rij(a, 0, false), Rij(b, 1, false)], [])],
      [Voeg(0, [a]), Voeg(1, [b])])
  {
    var t0: Toestand<int>, t1 := Toestand([], []), Toestand([Rij(a, 0, false)], []);
    var s0: Stap<int>, s1: Stap<int> := Voeg(0, [a]), Voeg(1, [b]);
    RunPlus([t0], [], s0);
    assert Regels(t1.outbox) + [b] == [a, b];
    RunPlus([t0, t1], [s0], s1);
  }

  /** A really refused row is overtaken by the rows behind it. */
  lemma WeigeringBreektVolgorde(a: Regel<int>, b: Regel<int>) returns (ts: seq<Toestand<int>>, stappen: seq<Stap<int>>)
    requires a.id != b.id
    ensures IsRun(ts, stappen) && |ts| == 4
    ensures Regels(ts[3].outbox) == [a, b] && StriktOplopend(ts[3].outbox) && ts[3].draad == [b]
  {
    var t0: Toestand<int>, t1 := Toestand([], []), Toestand([Rij(a, 0, false)], []);
    var t2, t3 := Toestand([Rij(a, 0, false), Rij(b, 1, false)], []),
      Toestand([Rij(a, 0, false), Rij(b, 1, true)], [b]);
    var s0: Stap<int>, s1: Stap<int>, s2: Stap<int> :=
      Voeg(0, [a]), Voeg(1, [b]), Batch(2, [0, 1], [Geweigerd, Aanvaard], None);
    ts, stappen := [t0, t1, t2, t3], [s0, s1, s2];
    TweeRijen(a, b);
    TweedeAanvaard(a, b);
    RunPlus([t0, t1, t2], [s0, s1], s2);
  }
}
