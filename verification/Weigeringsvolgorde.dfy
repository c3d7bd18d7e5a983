/** When exactly Contract's relay keeps the order of its outbox although the broker refuses messages. */
module Weigeringsvolgorde {
  import opened Gedeeld
  import opened Outbox
  import opened ContractRelay

  /** The chosen row has not been on the wire. */
  ghost predicate Nieuw<P>(t: Toestand<P>, keuze: seq<nat>, a: nat)
    requires a < |keuze| && keuze[a] < |t.outbox|
  {
    t.outbox[keuze[a]].regel !in t.draad
  }

  ghost predicate Past<P>(t: Toestand<P>, keuze: seq<nat>, uitkomst: seq<Publicatie>, n: nat) {
    n <= |keuze| == |uitkomst| && forall a :: 0 <= a < |keuze| ==> keuze[a] < |t.outbox|
  }

  /** Among the first `n` publish calls a new row is refused and a later new row is not. */
  ghost predicate Ingehaald<P>(t: Toestand<P>, keuze: seq<nat>, uitkomst: seq<Publicatie>, n: nat)
    requires Past(t, keuze, uitkomst, n)
  {
    exists a, b :: 0 <= a < b < n && Nieuw(t, keuze, a) && Nieuw(t, keuze, b) && uitkomst[a].Geweigerd?
      && !uitkomst[b].Geweigerd?
  }

  /** After the first `n` publish calls. */
  function Tot<P>(t: Toestand<P>, keuze: seq<nat>, uitkomst: seq<Publicatie>, n: nat): (r: Toestand<P>)
    requires Past(t, keuze, uitkomst, n)
  {
    t.(draad := t.draad + OpDraad(t.outbox, keuze, uitkomst, n))
  }

  lemma {:induction false} OpDraadLeden<P(!new)>(t: Toestand<P>, keuze: seq<nat>, uitkomst: seq<Publicatie>, n: nat,
      m: Regel<P>)
    requires Past(t, keuze, uitkomst, n)
    ensures m in OpDraad(t.outbox, keuze, uitkomst, n) <==>
      exists a :: 0 <= a < n && !uitkomst[a].Geweigerd? && t.outbox[keuze[a]].regel == m
  {
    if n > 0 {
      OpDraadLeden(t, keuze, uitkomst, n - 1, m);
      if m in OpDraad(t.outbox, keuze, uitkomst, n) && m !in OpDraad(t.outbox, keuze, uitkomst, n - 1) {
        assert !uitkomst[n - 1].Geweigerd? && t.outbox[keuze[n - 1]].regel == m;
      }
    }
  }

  lemma TotPlus<P(!new)>(t: Toestand<P>, keuze: seq<nat>, uitkomst: seq<Publicatie>, n: nat)
    requires Past(t, keuze, uitkomst, n + 1)
    ensures Tot(t, keuze, uitkomst, n + 1) ==
      if uitkomst[n].Geweigerd? then Tot(t, keuze, uitkomst, n)
      else Tot(t, keuze, uitkomst, n).(draad := Tot(t, keuze, uitkomst, n).draad + [t.outbox[keuze[n]].regel])
  {
  }

  // ---------- one batch ----------

  /** Without overtaking every row before a new accepted one is on the wire when its turn comes. */
  lemma EerdereOpDraad<P(!new)>(t: Toestand<P>, keuze: seq<nat>, uitkomst: seq<Publicatie>, n: nat)
    requires Past(t, keuze, uitkomst, n + 1) && !Ingehaald(t, keuze, uitkomst, n + 1)
    requires !uitkomst[n].Geweigerd? && Nieuw(t, keuze, n)
    ensures forall a :: 0 <= a < n ==> t.outbox[keuze[a]].regel in Tot(t, keuze, uitkomst, n).draad
  {
    forall a | 0 <= a < n ensures t.outbox[keuze[a]].regel in Tot(t, keuze, uitkomst, n).draad {
      if Nieuw(t, keuze, a) {
        assert !uitkomst[a].Geweigerd?;
        OpDraadLeden(t, keuze, uitkomst, n, t.outbox[keuze[a]].regel);
      }
    }
  }

  lemma VolgendePast<P(!new)>(t: Toestand<P>, limiet: nat, keuze: seq<nat>, uitkomst: seq<Publicatie>, n: nat)
    requires Past(t, keuze, uitkomst, n + 1) && IsAntwoord(t.outbox, limiet, keuze)
    requires !Ingehaald(t, keuze, uitkomst, n + 1)
    requires Veilig(Tot(t, keuze, uitkomst, n)) && Geordend(Tot(t, keuze, uitkomst, n)) && !uitkomst[n].Geweigerd?
    ensures Veilig(Tot(t, keuze, uitkomst, n + 1)) && Geordend(Tot(t, keuze, uitkomst, n + 1))
  {
    var s := Tot(t, keuze, uitkomst, n);
    TotPlus(t, keuze, uitkomst, n);
    if t.outbox[keuze[n]].regel !in s.draad {
      EerdereOpDraad(t, keuze, uitkomst, n);
      VolgendeIsOudste(s, limiet, keuze, n);
    }
    PubliceerGeordend(s, keuze[n]);
  }

  lemma {:induction false} ZonderInhalen<P(!new)>(t: Toestand<P>, limiet: nat, keuze: seq<nat>,
      uitkomst: seq<Publicatie>, n: nat)
    requires Past(t, keuze, uitkomst, n) && IsAntwoord(t.outbox, limiet, keuze) && Veilig(t) && Geordend(t)
    requires !Ingehaald(t, keuze, uitkomst, n)
    ensures Veilig(Tot(t, keuze, uitkomst, n)) && Geordend(Tot(t, keuze, uitkomst, n))
  {
    if n == 0 {
      assert Tot(t, keuze, uitkomst, 0) == t;
    } else {
      ZonderInhalen(t, limiet, keuze, uitkomst, n - 1);
      TotPlus(t, keuze, uitkomst, n - 1);
      if !uitkomst[n - 1].Geweigerd? {
        VolgendePast(t, limiet, keuze, uitkomst, n - 1);
      }
    }
  }

  /** A refused new row stays off the wire. */
  lemma GeweigerdBlijftWeg<P(!new)>(t: Toestand<P>, keuze: seq<nat>, uitkomst: seq<Publicatie>, n: nat, a: nat)
    requires Past(t, keuze, uitkomst, n) && Verschillend(keuze) && Veilig(t)
    requires a < n && Nieuw(t, keuze, a) && uitkomst[a].Geweigerd?
    ensures t.outbox[keuze[a]].regel !in Tot(t, keuze, uitkomst, n).draad
  {
    var r := Regels(t.outbox);
    OpDraadLeden(t, keuze, uitkomst, n, r[keuze[a]]);
    forall c | 0 <= c < n && r[keuze[c]] == r[keuze[a]] ensures c == a {
      GelijkeRegel(t.outbox, keuze[c], keuze[a]);
    }
  }

  lemma AanvaardOpDraad<P(!new)>(t: Toestand<P>, keuze: seq<nat>, uitkomst: seq<Publicatie>, n: nat, b: nat)
    requires Past(t, keuze, uitkomst, n) && b < n && !uitkomst[b].Geweigerd?
    ensures t.outbox[keuze[b]].regel in Tot(t, keuze, uitkomst, n).draad
  {
    OpDraadLeden(t, keuze, uitkomst, n, t.outbox[keuze[b]].regel);
  }

  lemma KeuzeOplopend<P>(outbox: seq<Rij<P>>, limiet: nat, keuze: seq<nat>, a: nat, b: nat)
    requires IsAntwoord(outbox, limiet, keuze) && StriktOplopend(outbox) && a < b < |keuze|
    ensures keuze[a] < keuze[b] < |outbox|
  {
  }

  /** A refused new row stays off the wire, and the row that overtook it is younger. */
  lemma InhalenBreekt<P(!new)>(t: Toestand<P>, limiet: nat, keuze: seq<nat>, uitkomst: seq<Publicatie>, n: nat)
    requires Past(t, keuze, uitkomst, n) && IsAntwoord(t.outbox, limiet, keuze) && Veilig(t) && StriktOplopend(t.outbox)
    requires Ingehaald(t, keuze, uitkomst, n)
    ensures !DraadInVolgorde(Tot(t, keuze, uitkomst, n))
  {
    var a, b :| 0 <= a < b < n && Nieuw(t, keuze, a) && Nieuw(t, keuze, b) && uitkomst[a].Geweigerd?
      && !uitkomst[b].Geweigerd?;
    GeweigerdBlijftWeg(t, keuze, uitkomst, n, a);
    AanvaardOpDraad(t, keuze, uitkomst, n, b);
    KeuzeOplopend(t.outbox, limiet, keuze, a, b);
    GatBreekt(Tot(t, keuze, uitkomst, n), keuze[a], keuze[b]);
  }

  lemma GelijkeRegel<P>(outbox: seq<Rij<P>>, i: nat, j: nat)
    requires UniekeIds(Regels(outbox)) && i < |outbox| && j < |outbox| && Regels(outbox)[i] == Regels(outbox)[j]
    ensures i == j
  {
    assert Regels(outbox)[i].id == Regels(outbox)[j].id;
  }

  lemma GatBreekt<P(!new)>(t: Toestand<P>, i: nat, j: nat)
    requires UniekeIds(Regels(t.outbox)) && i < j < |t.outbox|
    requires Regels(t.outbox)[i] !in t.draad && Regels(t.outbox)[j] in t.draad
    ensures !DraadInVolgorde(t)
  {
    var e, r := Eersten(t.draad), Regels(t.outbox);
    assert r[j] in e && r[i] !in e;
    var x :| 0 <= x < |e| && e[x] == r[j];
    assert forall y :: 0 <= y < |r| && r[y] == r[j] ==> y == j by {
      forall y | 0 <= y < |r| && r[y] == r[j] ensures y == j {
        GelijkeRegel(t.outbox, y, j);
      }
    }
  }

  function Gedaan(keuze: seq<nat>, fout: Option<nat>): (n: nat) {
    if fout.Some? && fout.value < |keuze| then fout.value else |keuze|
  }

  lemma BatchDraad<P(!new)>(t: Toestand<P>, keuze: seq<nat>, uitkomst: seq<Publicatie>, fout: Option<nat>)
    requires Past(t, keuze, uitkomst, |keuze|)
    ensures var na := NaBatch(t, keuze, uitkomst, fout).0;
      na.draad == Tot(t, keuze, uitkomst, Gedaan(keuze, fout)).draad && Regels(na.outbox) == Regels(t.outbox)
    ensures forall i :: 0 <= i < |t.outbox| ==>
      NaBatch(t, keuze, uitkomst, fout).0.outbox[i].aangemaaktOp == t.outbox[i].aangemaaktOp
  {
  }

  /** One batch from an ordered state keeps the wire in outbox order exactly when no new row is accepted after a
      refused new one, wherever the batch is cut short. */
  lemma BatchOrdePrecies<P(!new)>(t: Toestand<P>, limiet: nat, keuze: seq<nat>, uitkomst: seq<Publicatie>,
      fout: Option<nat>)
    requires Past(t, keuze, uitkomst, |keuze|) && IsAntwoord(t.outbox, limiet, keuze)
    requires Veilig(t) && Geordend(t) && StriktOplopend(t.outbox)
    ensures DraadInVolgorde(NaBatch(t, keuze, uitkomst, fout).0) <==>
      !Ingehaald(t, keuze, uitkomst, Gedaan(keuze, fout))
  {
    var n := Gedaan(keuze, fout);
    BatchDraad(t, keuze, uitkomst, fout);
    if Ingehaald(t, keuze, uitkomst, n) {
      InhalenBreekt(t, limiet, keuze, uitkomst, n);
    } else {
      ZonderInhalen(t, limiet, keuze, uitkomst, n);
      WireIsPrefix(Tot(t, keuze, uitkomst, n));
    }
  }

  // ---------- whole runs ----------

  /** Step `m` is a batch in which a new row overtakes a refused one. */
  ghost predicate HaaltIn<P>(ts: seq<Toestand<P>>, stappen: seq<Stap<P>>, m: nat)
    requires m < |stappen| && m < |ts|
  {
    Mogelijk(ts[m], stappen[m]) && HaaltInBatch(ts[m], stappen[m])
  }

  lemma StapGroeit<P(!new)>(t: Toestand<P>, stap: Stap<P>)
    requires Mogelijk(t, stap)
    ensures var t' := Na(t, stap);
      Regels(t.outbox) <= Regels(t'.outbox) && t.draad <= t'.draad && forall i :: 0 <= i < |t.outbox| ==>
        t'.outbox[i].aangemaaktOp == t.outbox[i].aangemaaktOp
  {
    if stap.Batch? {
      BatchDraad(t, stap.keuze, stap.uitkomst, stap.fout);
    } else {
      assert Regels(Na(t, stap).outbox) == Regels(t.outbox) + stap.regels;
    }
  }

  lemma StriktEerder<P(!new)>(t: Toestand<P>, stap: Stap<P>)
    requires Mogelijk(t, stap) && StriktOplopend(Na(t, stap).outbox)
    ensures StriktOplopend(t.outbox)
  {
    StapGroeit(t, stap);
    assert |t.outbox| == |Regels(t.outbox)| <= |Regels(Na(t, stap).outbox)|;
  }

  lemma NietErin<T>(s: seq<T>, i: nat, x: T)
    requires x !in s
    ensures i < |s| ==> s[i] != x
  {
  }

  lemma NietLanger<P(!new)>(e: seq<Regel<P>>, r: seq<Regel<P>>, outbox: seq<Rij<P>>)
    requires UniekeIds(Regels(outbox)) && e <= Regels(outbox) && r <= Regels(outbox) && forall x :: x in e ==> x in r
    ensures e <= r
  {
    var n := |r|;
    if n < |outbox| {
      forall i | 0 <= i < n ensures r[i] != Regels(outbox)[n] {
        assert Regels(outbox)[i].id != Regels(outbox)[n].id;
      }
      NietErin(e, n, Regels(outbox)[n]);
    }
  }

  /** A wire that is out of order stays so. */
  lemma WanordeBlijft<P(!new)>(t: Toestand<P>, stap: Stap<P>)
    requires Mogelijk(t, stap) && Veilig(t) && Veilig(Na(t, stap)) && DraadInVolgorde(Na(t, stap))
    ensures DraadInVolgorde(t)
  {
    var t' := Na(t, stap);
    StapGroeit(t, stap);
    assert t'.draad == t.draad + t'.draad[|t.draad|..];
    EerstenPrefix(t.draad, t'.draad[|t.draad|..]);
    NietLanger(Eersten(t.draad), Regels(t.outbox), t'.outbox);
  }

  lemma VoegGeordend<P(!new)>(t: Toestand<P>, stap: Stap<P>)
    requires Mogelijk(t, stap) && stap.Voeg? && Veilig(t) && Geordend(t)
    ensures Geordend(Na(t, stap))
  {
    ToevoegenGeordend(t, stap.nu, stap.regels);
  }

  lemma BatchBlijftGeordend<P(!new)>(t: Toestand<P>, stap: Stap<P>)
    requires Mogelijk(t, stap) && stap.Batch? && Veilig(t) && Geordend(t)
    requires !Ingehaald(t, stap.keuze, stap.uitkomst, Gedaan(stap.keuze, stap.fout))
    ensures Geordend(Na(t, stap))
  {
    var n := Gedaan(stap.keuze, stap.fout);
    ZonderInhalen(t, stap.limiet, stap.keuze, stap.uitkomst, n);
    if n == |stap.keuze| {
      OpDraadVeilig(t, stap.keuze, stap.uitkomst, n);
      MarkeerVeilig(Tot(t, stap.keuze, stap.uitkomst, n), Verzonden(t.outbox, stap.keuze, stap.uitkomst, n));
    }
  }

  /** With strictly growing times, over every run with refusals, exceptions and crashes: the wire is in outbox order
      exactly when no batch so far let a new row overtake a refused one. */
  lemma {:induction false} RelayOrdePrecies<P(!new)>(ts: seq<Toestand<P>>, stappen: seq<Stap<P>>, n: nat)
    requires IsRun(ts, stappen) && n <= |stappen| && StriktOplopend(ts[n].outbox)
    ensures DraadInVolgorde(ts[n]) <==> forall m :: 0 <= m < n ==> !HaaltIn(ts, stappen, m)
    ensures DraadInVolgorde(ts[n]) ==> Geordend(ts[n])
  {
    if n == 0 {
      assert Eersten(ts[0].draad) == [];
    } else {
      var t, stap := ts[n - 1], stappen[n - 1];
      RunStap(ts, stappen, n - 1);
      StriktEerder(t, stap);
      RelayOrdePrecies(ts, stappen, n - 1);
      RelayVeilig(ts, stappen, n - 1);
      RelayVeilig(ts, stappen, n);
      StapOrde(t, stap);
      HaaltInLaatst(ts, stappen, n - 1);
    }
  }

  lemma RunStap<P(!new)>(ts: seq<Toestand<P>>, stappen: seq<Stap<P>>, m: nat)
    requires IsRun(ts, stappen) && m < |stappen|
    ensures Mogelijk(ts[m], stappen[m]) && ts[m + 1] == Na(ts[m], stappen[m])
  {
  }

  lemma HaaltInLaatst<P(!new)>(ts: seq<Toestand<P>>, stappen: seq<Stap<P>>, m: nat)
    requires IsRun(ts, stappen) && m < |stappen|
    ensures Mogelijk(ts[m], stappen[m])
    ensures HaaltIn(ts, stappen, m) <==> HaaltInBatch(ts[m], stappen[m])
  {
  }

  /** The step is a batch in which a new row overtakes a refused one. */
  ghost predicate HaaltInBatch<P>(t: Toestand<P>, stap: Stap<P>)
    requires Mogelijk(t, stap)
  {
    stap.Batch? && Ingehaald(t, stap.keuze, stap.uitkomst, Gedaan(stap.keuze, stap.fout))
  }

  lemma StapOrde<P(!new)>(t: Toestand<P>, stap: Stap<P>)
    requires Mogelijk(t, stap) && Veilig(t) && (DraadInVolgorde(t) ==> Geordend(t))
    requires Veilig(Na(t, stap)) && StriktOplopend(Na(t, stap).outbox)
    ensures DraadInVolgorde(Na(t, stap)) <==> DraadInVolgorde(t) && !HaaltInBatch(t, stap)
    ensures DraadInVolgorde(Na(t, stap)) ==> Geordend(Na(t, stap))
  {
    StriktEerder(t, stap);
    if !DraadInVolgorde(t) {
      if DraadInVolgorde(Na(t, stap)) {
        WanordeBlijft(t, stap);
      }
    } else if stap.Voeg? {
      VoegGeordend(t, stap);
      WireIsPrefix(Na(t, stap));
    } else {
      BatchOrdePrecies(t, stap.limiet, stap.keuze, stap.uitkomst, stap.fout);
      if !Ingehaald(t, stap.keuze, stap.uitkomst, Gedaan(stap.keuze, stap.fout)) {
        BatchBlijftGeordend(t, stap);
      }
    }
  }
}
