/** The outbox table that Monitoring and Contract share in form: rows, the oldest-unsent query,
    the mark, and what a relay over it keeps in every run. */
module Outbox {
  import opened Gedeeld

  /** What the relay reads of a row and puts on the wire; `id` is the envelope's eventId. */
  datatype Regel<P> = Regel(id: string, routingKey: string, payload: P)
  datatype Rij<P> = Rij(regel: Regel<P>, aangemaaktOp: int, gepubliceerd: bool)

  /** `draad` lists everything the broker accepted, in order. */
  datatype Toestand<P> = Toestand(outbox: seq<Rij<P>>, draad: seq<Regel<P>>)

  function Regels<P>(outbox: seq<Rij<P>>): (r: seq<Regel<P>>)
  {
    seq(|outbox|, i requires 0 <= i < |outbox| => outbox[i].regel)
  }

  function Gekozen<P>(outbox: seq<Rij<P>>, keuze: seq<nat>): (r: seq<Regel<P>>)
    requires forall a :: 0 <= a < |keuze| ==> keuze[a] < |outbox|
  {
    seq(|keuze|, i requires 0 <= i < |keuze| => outbox[keuze[i]].regel)
  }

  ghost function Open<P>(outbox: seq<Rij<P>>): set<nat> {
    set i: nat | i < |outbox| && !outbox[i].gepubliceerd
  }

  /** The rows (by position) the database may answer with: at most `limiet` unsent rows, oldest
      first, none left out while there is room. Equal timestamps leave the order to the database. */
  ghost predicate IsAntwoord<P>(outbox: seq<Rij<P>>, limiet: nat, keuze: seq<nat>) {
    && (forall a :: 0 <= a < |keuze| ==> keuze[a] < |outbox| && !outbox[keuze[a]].gepubliceerd)
    && Verschillend(keuze)
    && |keuze| == (if |Open(outbox)| < limiet then |Open(outbox)| else limiet)
    && (forall a, b :: 0 <= a < b < |keuze| ==> outbox[keuze[a]].aangemaaktOp <= outbox[keuze[b]].aangemaaktOp)
    && (forall a, j :: 0 <= a < |keuze| && 0 <= j < |outbox| && !outbox[j].gepubliceerd && j !in keuze ==>
          outbox[keuze[a]].aangemaaktOp <= outbox[j].aangemaaktOp)
  }

  /** The update that flags every row whose id is listed. */
  function Gemarkeerd<P>(outbox: seq<Rij<P>>, ids: seq<string>): (r: seq<Rij<P>>)
    ensures |r| == |outbox|
  {
    seq(|outbox|, i requires 0 <= i < |outbox| =>
      if outbox[i].regel.id in ids then outbox[i].(gepubliceerd := true) else outbox[i])
  }

  function Ids<P>(regels: seq<Regel<P>>): (r: seq<string>) {
    seq(|regels|, i requires 0 <= i < |regels| => regels[i].id)
  }

  /** One publish call appends rows that share the timestamp `nu`. */
  function Toegevoegd<P>(outbox: seq<Rij<P>>, nu: int, regels: seq<Regel<P>>): (r: seq<Rij<P>>) {
    outbox + seq(|regels|, i requires 0 <= i < |regels| => Rij(regels[i], nu, false))
  }

  ghost predicate UniekeIds<P>(regels: seq<Regel<P>>) {
    forall i, j :: 0 <= i < j < |regels| ==> regels[i].id != regels[j].id
  }

  ghost predicate Oplopend<P>(outbox: seq<Rij<P>>) {
    forall i, j :: 0 <= i < j < |outbox| ==> outbox[i].aangemaaktOp <= outbox[j].aangemaaktOp
  }

  ghost predicate StriktOplopend<P>(outbox: seq<Rij<P>>) {
    forall i, j :: 0 <= i < j < |outbox| ==> outbox[i].aangemaaktOp < outbox[j].aangemaaktOp
  }

  /** What the clock and the id generator promise of an append. */
  ghost predicate MagToevoegen<P>(outbox: seq<Rij<P>>, nu: int, regels: seq<Regel<P>>) {
    && (forall i :: 0 <= i < |outbox| ==> outbox[i].aangemaaktOp <= nu)
    && UniekeIds(Regels(outbox) + regels)
  }

  // ---------- what every relay keeps ----------

  /** Only outbox rows reach the wire, and a marked row did. */
  ghost predicate Veilig<P>(t: Toestand<P>) {
    && UniekeIds(Regels(t.outbox))
    && Oplopend(t.outbox)
    && (forall m :: m in t.draad ==> m in Regels(t.outbox))
    && (forall i :: 0 <= i < |t.outbox| && t.outbox[i].gepubliceerd ==> t.outbox[i].regel in t.draad)
  }

  ghost predicate NietJonger<P>(outbox: seq<Rij<P>>, a: Regel<P>, b: Regel<P>) {
    forall i, j :: 0 <= i < |outbox| && 0 <= j < |outbox| && outbox[i].regel == a && outbox[j].regel == b ==>
      outbox[i].aangemaaktOp <= outbox[j].aangemaaktOp
  }

  /** A row on the wire is no younger than a row that is not. */
  ghost predicate Gesloten<P>(t: Toestand<P>) {
    forall i, j ::
      0 <= i < |t.outbox| && 0 <= j < |t.outbox| && t.outbox[i].regel in t.draad && t.outbox[j].regel !in t.draad ==>
        t.outbox[i].aangemaaktOp <= t.outbox[j].aangemaaktOp
  }

  ghost predicate Gesorteerd<P>(outbox: seq<Rij<P>>, e: seq<Regel<P>>) {
    forall a, b :: 0 <= a < b < |e| ==> NietJonger(outbox, e[a], e[b])
  }

  /** First occurrences on the wire run from old to new, and nothing missing from it is older. */
  ghost predicate Geordend<P(!new)>(t: Toestand<P>) {
    Gesloten(t) && Gesorteerd(t.outbox, Eersten(t.draad))
  }

  /** First occurrences on the wire are a prefix of the outbox. */
  ghost predicate DraadInVolgorde<P(!new)>(t: Toestand<P>) {
    Eersten(t.draad) <= Regels(t.outbox)
  }

  lemma RijIsRegel<P(!new)>(outbox: seq<Rij<P>>, i: nat)
    requires i < |outbox|
    ensures Regels(outbox)[i] == outbox[i].regel && outbox[i].regel in Regels(outbox)
  {
  }

  lemma ToevoegenVeilig<P(!new)>(t: Toestand<P>, nu: int, regels: seq<Regel<P>>)
    requires Veilig(t) && MagToevoegen(t.outbox, nu, regels)
    ensures Veilig(Toestand(Toegevoegd(t.outbox, nu, regels), t.draad))
  {
    assert Regels(Toegevoegd(t.outbox, nu, regels)) == Regels(t.outbox) + regels;
  }

  lemma NieuweRijNietOpDraad<P(!new)>(t: Toestand<P>, nu: int, regels: seq<Regel<P>>, i: nat)
    requires Veilig(t) && MagToevoegen(t.outbox, nu, regels)
    requires |t.outbox| <= i < |t.outbox| + |regels|
    ensures Toegevoegd(t.outbox, nu, regels)[i].regel !in t.draad
    ensures Toegevoegd(t.outbox, nu, regels)[i].regel !in Regels(t.outbox)
  {
    var alle := Regels(t.outbox) + regels;
    assert Toegevoegd(t.outbox, nu, regels)[i].regel == alle[i];
    assert forall j :: 0 <= j < |t.outbox| ==> Regels(t.outbox)[j] == alle[j] && alle[j].id != alle[i].id;
  }

  lemma ToevoegenGeordend<P(!new)>(t: Toestand<P>, nu: int, regels: seq<Regel<P>>)
    requires Veilig(t) && Geordend(t) && MagToevoegen(t.outbox, nu, regels)
    ensures Geordend(Toestand(Toegevoegd(t.outbox, nu, regels), t.draad))
  {
    var na := Toegevoegd(t.outbox, nu, regels);
    forall i: nat | |t.outbox| <= i < |na|
      ensures na[i].regel !in t.draad && na[i].regel !in Regels(t.outbox)
    {
      NieuweRijNietOpDraad(t, nu, regels, i);
    }
    var e := Eersten(t.draad);
    forall a, b | 0 <= a < b < |e|
      ensures NietJonger(na, e[a], e[b])
    {
      assert e[a] in Regels(t.outbox) && e[b] in Regels(t.outbox);
      assert NietJonger(t.outbox, e[a], e[b]);
    }
  }

  lemma SorteerPlus<P(!new)>(t: Toestand<P>, e: seq<Regel<P>>, m: Regel<P>)
    requires Gesloten(t) && Gesorteerd(t.outbox, e)
    requires (forall x :: x in e ==> x in t.draad) && m !in t.draad
    ensures Gesorteerd(t.outbox, e + [m])
  {
    var e' := e + [m];
    forall a, b | 0 <= a < b < |e'|
      ensures NietJonger(t.outbox, e'[a], e'[b])
    {
      if b < |e| {
        assert NietJonger(t.outbox, e[a], e[b]);
      } else {
        assert e[a] in t.draad;
      }
    }
  }

  /** The one step that grows the wire: publishing a row no older than any row still missing from it. */
  lemma PubliceerGeordend<P(!new)>(t: Toestand<P>, r: nat)
    requires Veilig(t) && Geordend(t) && r < |t.outbox|
    requires forall j :: 0 <= j < |t.outbox| && t.outbox[j].regel !in t.draad ==>
      t.outbox[r].aangemaaktOp <= t.outbox[j].aangemaaktOp
    ensures Veilig(t.(draad := t.draad + [t.outbox[r].regel]))
    ensures Geordend(t.(draad := t.draad + [t.outbox[r].regel]))
  {
    var m := t.outbox[r].regel;
    PubliceerVeilig(t, r);
    EerstenPlus(t.draad, m);
    assert Gesloten(t.(draad := t.draad + [m])) by {
      forall i, j | 0 <= i < |t.outbox| && 0 <= j < |t.outbox| && t.outbox[i].regel in t.draad + [m]
        && t.outbox[j].regel !in t.draad + [m]
        ensures t.outbox[i].aangemaaktOp <= t.outbox[j].aangemaaktOp
      {
        if t.outbox[i].regel !in t.draad {
          assert Regels(t.outbox)[i].id == Regels(t.outbox)[r].id;
          assert i == r;
        }
      }
    }
    if m !in t.draad {
      SorteerPlus(t, Eersten(t.draad), m);
    }
  }

  lemma PubliceerVeilig<P(!new)>(t: Toestand<P>, r: nat)
    requires Veilig(t) && r < |t.outbox|
    ensures Veilig(t.(draad := t.draad + [t.outbox[r].regel]))
  {
    RijIsRegel(t.outbox, r);
  }

  lemma RegelsGemarkeerd<P>(outbox: seq<Rij<P>>, ids: seq<string>)
    ensures Regels(Gemarkeerd(outbox, ids)) == Regels(outbox)
    ensures forall i :: 0 <= i < |outbox| ==> Gemarkeerd(outbox, ids)[i].aangemaaktOp == outbox[i].aangemaaktOp
  {
  }

  /** A row whose id is among those of sent messages was sent itself. */
  lemma GemarkeerdIsVerzonden<P(!new)>(t: Toestand<P>, verzonden: seq<Regel<P>>, i: nat)
    requires Veilig(t) && i < |t.outbox| && t.outbox[i].regel.id in Ids(verzonden)
    requires forall m :: m in verzonden ==> m in t.draad
    ensures t.outbox[i].regel in t.draad
  {
    var k :| 0 <= k < |Ids(verzonden)| && Ids(verzonden)[k] == t.outbox[i].regel.id;
    assert verzonden[k] in t.draad;
    var j :| 0 <= j < |t.outbox| && Regels(t.outbox)[j] == verzonden[k];
    assert Regels(t.outbox)[i].id == Regels(t.outbox)[j].id;
  }

  lemma NietJongerGemarkeerd<P(!new)>(outbox: seq<Rij<P>>, ids: seq<string>, a: Regel<P>, b: Regel<P>)
    requires NietJonger(outbox, a, b)
    ensures NietJonger(Gemarkeerd(outbox, ids), a, b)
  {
    var na := Gemarkeerd(outbox, ids);
    assert forall i :: 0 <= i < |na| ==> na[i].regel == outbox[i].regel && na[i].aangemaaktOp == outbox[i].aangemaaktOp;
  }

  lemma GeordendGemarkeerd<P(!new)>(t: Toestand<P>, ids: seq<string>)
    requires Geordend(t)
    ensures Geordend(t.(outbox := Gemarkeerd(t.outbox, ids)))
  {
    var e := Eersten(t.draad);
    forall a, b | 0 <= a < b < |e| ensures NietJonger(Gemarkeerd(t.outbox, ids), e[a], e[b]) {
      assert NietJonger(t.outbox, e[a], e[b]);
      NietJongerGemarkeerd(t.outbox, ids, e[a], e[b]);
    }
  }

  /** Marking rows that are on the wire changes neither the rows nor their order. */
  lemma MarkeerVeilig<P(!new)>(t: Toestand<P>, verzonden: seq<Regel<P>>)
    requires Veilig(t)
    requires forall m :: m in verzonden ==> m in t.draad
    ensures Veilig(t.(outbox := Gemarkeerd(t.outbox, Ids(verzonden))))
    ensures Geordend(t) ==> Geordend(t.(outbox := Gemarkeerd(t.outbox, Ids(verzonden))))
  {
    var na := Gemarkeerd(t.outbox, Ids(verzonden));
    RegelsGemarkeerd(t.outbox, Ids(verzonden));
    forall i | 0 <= i < |na| && na[i].gepubliceerd
      ensures na[i].regel in t.draad
    {
      if !t.outbox[i].gepubliceerd {
        GemarkeerdIsVerzonden(t, verzonden, i);
      }
    }
    if Geordend(t) {
      GeordendGemarkeerd(t, Ids(verzonden));
    }
  }

  /** While a batch is sent in order, its next row is no younger than any row still missing. */
  lemma VolgendeIsOudste<P(!new)>(t: Toestand<P>, limiet: nat, keuze: seq<nat>, k: nat)
    requires Veilig(t) && IsAntwoord(t.outbox, limiet, keuze) && k < |keuze|
    requires forall a :: 0 <= a < k ==> t.outbox[keuze[a]].regel in t.draad
    ensures forall j :: 0 <= j < |t.outbox| && t.outbox[j].regel !in t.draad ==>
      t.outbox[keuze[k]].aangemaaktOp <= t.outbox[j].aangemaaktOp
  {
    forall j | 0 <= j < |t.outbox| && t.outbox[j].regel !in t.draad
      ensures t.outbox[keuze[k]].aangemaaktOp <= t.outbox[j].aangemaaktOp
    {
      if j in keuze {
        var a :| 0 <= a < |keuze| && keuze[a] == j;
        assert a >= k;
      }
    }
  }

  /** The state after the first `n` chosen rows were sent. */
  function Verstuurd<P>(t: Toestand<P>, keuze: seq<nat>, n: nat): (r: Toestand<P>)
    requires n <= |keuze| && forall a :: 0 <= a < |keuze| ==> keuze[a] < |t.outbox|
  {
    t.(draad := t.draad + Gekozen(t.outbox, keuze[..n]))
  }

  lemma VerstuurdPlus<P(!new)>(t: Toestand<P>, keuze: seq<nat>, n: nat)
    requires n < |keuze| && forall a :: 0 <= a < |keuze| ==> keuze[a] < |t.outbox|
    ensures Verstuurd(t, keuze, n + 1).draad == Verstuurd(t, keuze, n).draad + [t.outbox[keuze[n]].regel]
    ensures forall a :: 0 <= a < n ==> t.outbox[keuze[a]].regel in Verstuurd(t, keuze, n).draad
  {
    var gestuurd := Gekozen(t.outbox, keuze[..n]);
    forall a | 0 <= a < n
      ensures t.outbox[keuze[a]].regel in Verstuurd(t, keuze, n).draad
    {
      assert gestuurd[a] == t.outbox[keuze[a]].regel;
    }
    assert Gekozen(t.outbox, keuze[..n + 1]) == gestuurd + [t.outbox[keuze[n]].regel];
  }

  /** Publishing the chosen rows one after the other keeps the wire in order. */
  lemma {:induction false} KeuzeGeordend<P(!new)>(t: Toestand<P>, limiet: nat, keuze: seq<nat>, n: nat)
    requires IsAntwoord(t.outbox, limiet, keuze) && n <= |keuze|
    requires Veilig(t) && Geordend(t)
    ensures Veilig(Verstuurd(t, keuze, n)) && Geordend(Verstuurd(t, keuze, n))
  {
    if n == 0 {
      assert Verstuurd(t, keuze, 0) == t;
    } else {
      KeuzeGeordend(t, limiet, keuze, n - 1);
      var tussen := Verstuurd(t, keuze, n - 1);
      VerstuurdPlus(t, keuze, n - 1);
      VolgendeIsOudste(tussen, limiet, keuze, n - 1);
      PubliceerGeordend(tussen, keuze[n - 1]);
    }
  }

  /** With growing timestamps the wire's first occurrences are an initial part of the outbox. */
  lemma WireIsPrefix<P(!new)>(t: Toestand<P>)
    requires Veilig(t) && Geordend(t) && StriktOplopend(t.outbox)
    ensures Eersten(t.draad) <= Regels(t.outbox)
  {
    var bron, e := Regels(t.outbox), Eersten(t.draad);
    forall i, j | 0 <= i < j < |bron|
      ensures bron[i] != bron[j]
    {
      assert bron[i].id != bron[j].id;
    }
    forall a, b, i, j | 0 <= a < b < |e| && 0 <= i < |bron| && 0 <= j < |bron| && bron[i] == e[a] && bron[j] == e[b]
      ensures i <= j
    {
      assert NietJonger(t.outbox, e[a], e[b]);
      assert t.outbox[i].aangemaaktOp <= t.outbox[j].aangemaaktOp;
    }
    forall i, j | 0 <= i < j < |bron| && bron[j] in e
      ensures bron[i] in e
    {
      assert t.outbox[j].regel in t.draad;
    }
    PrefixUitOrde(bron, e);
  }

  /** A mark on `keuze` takes exactly those rows out of the unsent set. */
  lemma OpenKrimpt<P(!new)>(outbox: seq<Rij<P>>, limiet: nat, keuze: seq<nat>)
    requires UniekeIds(Regels(outbox)) && IsAntwoord(outbox, limiet, keuze)
    ensures Open(Gemarkeerd(outbox, Ids(Gekozen(outbox, keuze)))) == Open(outbox) - Verzameling(keuze)
    ensures |Open(Gemarkeerd(outbox, Ids(Gekozen(outbox, keuze))))| == |Open(outbox)| - |keuze|
  {
    var ids := Ids(Gekozen(outbox, keuze));
    var na := Gemarkeerd(outbox, ids);
    forall i: nat | i < |outbox|
      ensures outbox[i].regel.id in ids <==> i in keuze
    {
      if i in keuze {
        var a :| 0 <= a < |keuze| && keuze[a] == i;
        assert ids[a] == outbox[i].regel.id;
      }
      if outbox[i].regel.id in ids {
        var a :| 0 <= a < |ids| && ids[a] == outbox[i].regel.id;
        assert Regels(outbox)[keuze[a]].id == Regels(outbox)[i].id;
      }
    }
    assert Open(na) == Open(outbox) - Verzameling(keuze);
    AantalVerschillend(keuze);
    assert Verzameling(keuze) <= Open(outbox);
  }
}
