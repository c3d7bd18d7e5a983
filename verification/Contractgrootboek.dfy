/** The contract's value as a ledger, over every run of commands, refusals, saves and reloads. */
module Contractgrootboek {
  import opened Gedeeld
  import opened Contractwaarden
  import opened Onderhoudscontract
  import MonitoringRapport
  import Kpi

  datatype Stand = Stand(c: ContractWaarde, events: seq<ContractEvent>)

  datatype Stap =
    | Doe(o: Opdracht)
    | Herlaad(rij: ContractRij)

  /** The saved row, with its child rows in any order: neither query asks for one. */
  ghost predicate Opgeslagen(c: ContractWaarde, rij: ContractRij) {
    && rij == NaarRij(c).(wijzigingen := rij.wijzigingen, prestaties := rij.prestaties)
    && multiset(rij.wijzigingen) == multiset(NaarRij(c).wijzigingen)
    && multiset(rij.prestaties) == multiset(NaarRij(c).prestaties)
  }

  /** Amounts and periods exist only through their checking constructors. */
  ghost predicate Mogelijk(s: Stand, stap: Stap) {
    match stap
    case Herlaad(rij) => Opgeslagen(s.c, rij)
    case Doe(Wijzig(w)) => w.mutatie.centen >= 0
    case Doe(Verklaar(p)) => p.periode.start < p.periode.eind && p.bedrag.centen >= 0
    case Doe(RondAf(_)) => true
  }

  function NaStap(s: Stand, stap: Stap): (r: Stand) {
    match stap
    case Herlaad(rij) => if VanRij(rij).Ok? then s.(c := VanRij(rij).value) else s
    case Doe(o) => if Na(s.c, o).Ok? then Stand(Na(s.c, o).value, s.events + [EventVan(s.c, o)]) else s
  }

  /** A run starts at the award: no changes yet, one event. */
  ghost predicate Begin(s: Stand) {
    && Welgevormd(s.c) && s.c.status == Actief && s.c.wijzigingen == [] && s.c.prestaties == []
    && s.events == [ContractGegund(s.c.id, s.c.kunstwerkId, s.c.opdrachtnemer, s.c.looptijd)]
  }

  ghost predicate IsRun(standen: seq<Stand>, stappen: seq<Stap>) {
    && |standen| == |stappen| + 1 && Begin(standen[0])
    && forall n :: 0 <= n < |stappen| ==>
      Mogelijk(standen[n], stappen[n]) && standen[n + 1] == NaStap(standen[n], stappen[n])
  }

  function Erbij(s: Stand, stap: Stap): (r: seq<Wijziging>) {
    if stap.Doe? && stap.o.Wijzig? && Na(s.c, stap.o).Ok? then [stap.o.w] else []
  }

  /** The changes that the run accepted, in order. */
  function Aanvaard(standen: seq<Stand>, stappen: seq<Stap>): (r: seq<Wijziging>)
    requires |standen| == |stappen| + 1
  {
    if stappen == [] then []
    else
      var n := |stappen| - 1;
      Aanvaard(standen[..n + 1], stappen[..n]) + Erbij(standen[n], stappen[n])
  }

  /** The sum of the amounts in the change events, in euro. */
  function EventSom(events: seq<ContractEvent>): (r: real) {
    if events == [] then 0.0
    else
      var e := events[|events| - 1];
      EventSom(events[..|events| - 1]) + if e.WijzigingGoedgekeurd? then e.bedrag else 0.0
  }

  // ---------- reload ----------

  lemma RijEruit(rs: seq<WijzigingRij>, i: nat)
    requires i < |rs| && RijenNaarWijzigingen(rs).Ok?
    ensures RijenNaarWijzigingen(rs[..i] + rs[i + 1..]).Ok?
    ensures multiset(RijenNaarWijzigingen(rs[..i] + rs[i + 1..]).value) ==
      multiset(RijenNaarWijzigingen(rs).value) - multiset{RijNaarWijziging(rs[i]).value}
  {
    var v, rest := RijenNaarWijzigingen(rs).value, rs[..i] + rs[i + 1..];
    forall k | 0 <= k < |rest| ensures RijNaarWijziging(rest[k]) == Ok((v[..i] + v[i + 1..])[k]) {
      assert rest[k] == rs[if k < i then k else k + 1];
    }
    assert RijenNaarWijzigingen(rest).value == v[..i] + v[i + 1..];
    Eruit(v, i);
  }

  /** The loaded changes are the same whatever the order of their rows. */
  lemma {:induction false} RijenVolgorde(a: seq<WijzigingRij>, b: seq<WijzigingRij>)
    requires multiset(a) == multiset(b) && RijenNaarWijzigingen(a).Ok? && RijenNaarWijzigingen(b).Ok?
    ensures multiset(RijenNaarWijzigingen(a).value) == multiset(RijenNaarWijzigingen(b).value)
    decreases |a|
  {
    if a == [] {
      assert |multiset(b)| == 0;
    } else {
      var n := |a| - 1;
      assert a[n] in multiset(b);
      var i :| 0 <= i < |b| && b[i] == a[n];
      Eruit(a, n);
      Eruit(b, i);
      RijEruit(a, n);
      RijEruit(b, i);
      RijenVolgorde(a[..n] + a[n + 1..], b[..i] + b[i + 1..]);
      Terugleggen(RijenNaarWijzigingen(a).value, RijenNaarWijzigingen(b).value, n, i);
    }
  }

  lemma RijenLezen(a: seq<WijzigingRij>, b: seq<WijzigingRij>)
    requires multiset(a) == multiset(b) && RijenNaarWijzigingen(a).Ok?
    ensures RijenNaarWijzigingen(b).Ok?
  {
    forall i | 0 <= i < |b| ensures RijNaarWijziging(b[i]).Ok? {
      assert b[i] in multiset(a);
    }
  }

  lemma PrestatiesLezen(a: seq<PrestatieRij>, b: seq<PrestatieRij>)
    requires multiset(a) == multiset(b) && RijenNaarPrestaties(a).Ok?
    ensures RijenNaarPrestaties(b).Ok?
  {
    forall i | 0 <= i < |b| ensures RijNaarPrestatie(b[i]).Ok? {
      assert b[i] in multiset(a);
    }
  }

  lemma PrestatieEruit(rs: seq<PrestatieRij>, i: nat)
    requires i < |rs| && RijenNaarPrestaties(rs).Ok?
    ensures RijenNaarPrestaties(rs[..i] + rs[i + 1..]).Ok?
    ensures multiset(RijenNaarPrestaties(rs[..i] + rs[i + 1..]).value) ==
      multiset(RijenNaarPrestaties(rs).value) - multiset{RijNaarPrestatie(rs[i]).value}
  {
    var v, rest := RijenNaarPrestaties(rs).value, rs[..i] + rs[i + 1..];
    forall k | 0 <= k < |rest| ensures RijNaarPrestatie(rest[k]) == Ok((v[..i] + v[i + 1..])[k]) {
      assert rest[k] == rs[if k < i then k else k + 1];
    }
    assert RijenNaarPrestaties(rest).value == v[..i] + v[i + 1..];
    Eruit(v, i);
  }

  /** The loaded performance statements are the same whatever the order of their rows. */
  lemma {:induction false} PrestatiesVolgorde(a: seq<PrestatieRij>, b: seq<PrestatieRij>)
    requires multiset(a) == multiset(b) && RijenNaarPrestaties(a).Ok? && RijenNaarPrestaties(b).Ok?
    ensures multiset(RijenNaarPrestaties(a).value) == multiset(RijenNaarPrestaties(b).value)
    decreases |a|
  {
    if a == [] {
      assert |multiset(b)| == 0;
    } else {
      var n := |a| - 1;
      assert a[n] in multiset(b);
      var i :| 0 <= i < |b| && b[i] == a[n];
      Eruit(a, n);
      Eruit(b, i);
      PrestatieEruit(a, n);
      PrestatieEruit(b, i);
      PrestatiesVolgorde(a[..n] + a[n + 1..], b[..i] + b[i + 1..]);
      Terugleggen(RijenNaarPrestaties(a).value, RijenNaarPrestaties(b).value, n, i);
    }
  }

  lemma Terugleggen<T>(a: seq<T>, b: seq<T>, n: nat, i: nat)
    requires n < |a| && i < |b| && a[n] == b[i]
    requires multiset(a) - multiset{a[n]} == multiset(b) - multiset{b[i]}
    ensures multiset(a) == multiset(b)
  {
    assert multiset(a) == (multiset(a) - multiset{a[n]}) + multiset{a[n]};
    assert multiset(b) == (multiset(b) - multiset{b[i]}) + multiset{b[i]};
  }

  lemma GeladenIsWelgevormd(rij: ContractRij)
    requires VanRij(rij).Ok?
    ensures Welgevormd(VanRij(rij).value) && AllesInEuro(VanRij(rij).value)
  {
    var c := VanRij(rij).value;
    forall i | 0 <= i < |c.wijzigingen|
      ensures c.wijzigingen[i].mutatie.centen >= 0 && c.wijzigingen[i].mutatie.valuta == "EUR" {
      assert c.wijzigingen[i] == RijNaarWijziging(rij.wijzigingen[i]).value;
    }
    forall i | 0 <= i < |c.prestaties|
      ensures c.prestaties[i].periode.start < c.prestaties[i].periode.eind && c.prestaties[i].bedrag.centen >= 0
      && c.prestaties[i].bedrag.valuta == "EUR" {
      assert c.prestaties[i] == RijNaarPrestatie(rij.prestaties[i]).value;
    }
  }

  lemma HerlaadWijzigingen(c: ContractWaarde, rij: ContractRij)
    requires Welgevormd(c) && Opgeslagen(c, rij)
    ensures RijenNaarWijzigingen(rij.wijzigingen).Ok?
    ensures multiset(RijenNaarWijzigingen(rij.wijzigingen).value) == multiset(WijzigingenInEuro(c.wijzigingen))
  {
    WijzigingenRondreis(c);
    RijenLezen(NaarRij(c).wijzigingen, rij.wijzigingen);
    RijenVolgorde(NaarRij(c).wijzigingen, rij.wijzigingen);
  }

  lemma HerlaadPrestaties(c: ContractWaarde, rij: ContractRij)
    requires Welgevormd(c) && Opgeslagen(c, rij)
    ensures RijenNaarPrestaties(rij.prestaties).Ok?
    ensures multiset(RijenNaarPrestaties(rij.prestaties).value) == multiset(PrestatiesInEuro(c.prestaties))
  {
    PrestatiesRondreis(c);
    PrestatiesLezen(NaarRij(c).prestaties, rij.prestaties);
    PrestatiesVolgorde(NaarRij(c).prestaties, rij.prestaties);
  }

  /** A reload in any row order never fails, keeps cents, status and the changes, and drops every currency. */
  lemma HerlaadBehoudt(c: ContractWaarde, rij: ContractRij)
    requires Welgevormd(c) && Opgeslagen(c, rij)
    ensures VanRij(rij).Ok? && Welgevormd(VanRij(rij).value) && AllesInEuro(VanRij(rij).value)
    ensures VanRij(rij).value.waarde == InEuro(c.waarde) && VanRij(rij).value.status == c.status
    ensures multiset(VanRij(rij).value.wijzigingen) == multiset(WijzigingenInEuro(c.wijzigingen))
    ensures multiset(VanRij(rij).value.prestaties) == multiset(PrestatiesInEuro(c.prestaties))
  {
    HerlaadWijzigingen(c, rij);
    HerlaadPrestaties(c, rij);
    GeladenIsWelgevormd(rij);
  }

  // ---------- one step ----------

  lemma {:induction false} SomInEuro(ws: seq<Wijziging>)
    ensures Som(WijzigingenInEuro(ws)) == Som(ws)
    decreases |ws|
  {
    if ws != [] {
      SomInEuro(ws[..|ws| - 1]);
      assert WijzigingenInEuro(ws)[..|ws| - 1] == WijzigingenInEuro(ws[..|ws| - 1]);
    }
  }

  lemma EventSomPlus(events: seq<ContractEvent>, e: ContractEvent)
    ensures EventSom(events + [e]) == EventSom(events) + if e.WijzigingGoedgekeurd? then e.bedrag else 0.0
  {
    assert (events + [e])[..|events|] == events;
  }

  /** `in0` is the award price in cents, `ws` what was accepted so far. */
  ghost predicate Sluit(s: Stand, in0: int, ws: seq<Wijziging>) {
    && Welgevormd(s.c)
    && multiset(WijzigingenInEuro(s.c.wijzigingen)) == multiset(WijzigingenInEuro(ws))
    && s.c.waarde.centen == in0 + Som(ws)
    && s.c.waarde.centen as real == in0 as real + 100.0 * EventSom(s.events)
  }

  lemma StapWijzig(s: Stand, w: Wijziging, in0: int, ws: seq<Wijziging>)
    requires Sluit(s, in0, ws) && w.mutatie.centen >= 0 && Na(s.c, Wijzig(w)).Ok?
    ensures Sluit(NaStap(s, Doe(Wijzig(w))), in0, ws + [w])
  {
    var s' := NaStap(s, Doe(Wijzig(w)));
    EventSomPlus(s.events, EventVan(s.c, Wijzig(w)));
    assert (ws + [w])[..|ws|] == ws;
    var e := [w.(mutatie := InEuro(w.mutatie))];
    assert WijzigingenInEuro(s'.c.wijzigingen) == WijzigingenInEuro(s.c.wijzigingen) + e;
    assert WijzigingenInEuro(ws + [w]) == WijzigingenInEuro(ws) + e;
  }

  lemma StapAnders(s: Stand, o: Opdracht, in0: int, ws: seq<Wijziging>)
    requires Sluit(s, in0, ws) && Mogelijk(s, Doe(o)) && !o.Wijzig?
    ensures Sluit(NaStap(s, Doe(o)), in0, ws)
  {
    EventSomPlus(s.events, EventVan(s.c, o));
  }

  lemma StapHerlaad(s: Stand, rij: ContractRij, in0: int, ws: seq<Wijziging>)
    requires Sluit(s, in0, ws) && Opgeslagen(s.c, rij)
    ensures Sluit(NaStap(s, Herlaad(rij)), in0, ws)
  {
    HerlaadBehoudt(s.c, rij);
    WijzigingenZelfde(VanRij(rij).value.wijzigingen);
  }

  lemma StapSluit(s: Stand, stap: Stap, in0: int, ws: seq<Wijziging>)
    requires Sluit(s, in0, ws) && Mogelijk(s, stap)
    ensures Sluit(NaStap(s, stap), in0, ws + Erbij(s, stap))
  {
    assert ws + [] == ws;
    match stap {
      case Herlaad(rij) => StapHerlaad(s, rij, in0, ws);
      case Doe(o) =>
        if !o.Wijzig? { StapAnders(s, o, in0, ws); }
        else if Na(s.c, o).Ok? { StapWijzig(s, o.w, in0, ws); }
    }
  }

  // ---------- over runs ----------

  lemma KorterIsRun(standen: seq<Stand>, stappen: seq<Stap>, n: nat)
    requires IsRun(standen, stappen) && n <= |stappen|
    ensures IsRun(standen[..n + 1], stappen[..n])
  {
  }

  lemma RunStap(standen: seq<Stand>, stappen: seq<Stap>, n: nat)
    requires IsRun(standen, stappen) && n < |stappen|
    ensures Mogelijk(standen[n], stappen[n]) && standen[n + 1] == NaStap(standen[n], stappen[n])
  {
  }

  /** At every point of every run: the changes on the contract are those accepted, the value is the award price
      plus increases minus decreases and equals what the events add up to, and it is not negative. */
  lemma {:induction false} WaardeBehouden(standen: seq<Stand>, stappen: seq<Stap>)
    requires IsRun(standen, stappen)
    ensures var c, in0 := standen[|stappen|].c, standen[0].c.waarde.centen;
      && multiset(WijzigingenInEuro(c.wijzigingen)) == multiset(WijzigingenInEuro(Aanvaard(standen, stappen)))
      && c.waarde.centen == in0 + Som(Aanvaard(standen, stappen)) == in0 + Som(c.wijzigingen)
      && c.waarde.centen as real == in0 as real + 100.0 * EventSom(standen[|stappen|].events)
      && c.waarde.centen >= 0
  {
    SluitOveral(standen, stappen);
    var c, ws := standen[|stappen|].c, Aanvaard(standen, stappen);
    SomVolgorde(WijzigingenInEuro(c.wijzigingen), WijzigingenInEuro(ws));
    SomInEuro(c.wijzigingen);
    SomInEuro(ws);
  }

  lemma {:induction false} SluitOveral(standen: seq<Stand>, stappen: seq<Stap>)
    requires IsRun(standen, stappen)
    ensures Sluit(standen[|stappen|], standen[0].c.waarde.centen, Aanvaard(standen, stappen))
    decreases |stappen|
  {
    if stappen == [] {
      assert EventSom(standen[0].events[..0]) == 0.0;
    } else {
      var n := |stappen| - 1;
      KorterIsRun(standen, stappen, n);
      RunStap(standen, stappen, n);
      SluitOveral(standen[..n + 1], stappen[..n]);
      StapSluit(standen[n], stappen[n], standen[0].c.waarde.centen, Aanvaard(standen[..n + 1], stappen[..n]));
    }
  }

  /** Once rounded off, a contract keeps its value, its changes and its status, and emits nothing more. */
  lemma {:induction false} AfgerondBlijft(standen: seq<Stand>, stappen: seq<Stap>, n: nat, m: nat)
    requires IsRun(standen, stappen) && n <= m <= |stappen| && standen[n].c.status == Afgerond
    ensures standen[m].c.status == Afgerond && standen[m].events == standen[n].events
    ensures standen[m].c.waarde.centen == standen[n].c.waarde.centen
    ensures multiset(WijzigingenInEuro(standen[m].c.wijzigingen)) ==
      multiset(WijzigingenInEuro(standen[n].c.wijzigingen))
    decreases m
  {
    if n < m {
      AfgerondBlijft(standen, stappen, n, m - 1);
      KorterIsRun(standen, stappen, m - 1);
      SluitOveral(standen[..m], stappen[..m - 1]);
      RunStap(standen, stappen, m - 1);
      if stappen[m - 1].Herlaad? {
        HerlaadBehoudt(standen[m - 1].c, stappen[m - 1].rij);
        WijzigingenZelfde(standen[m].c.wijzigingen);
      }
    }
  }

  ghost predicate MetHerlaad(stappen: seq<Stap>) {
    exists n :: 0 <= n < |stappen| && stappen[n].Herlaad?
  }

  lemma MetHerlaadPlus(stappen: seq<Stap>)
    requires stappen != []
    ensures MetHerlaad(stappen) <==> MetHerlaad(stappen[..|stappen| - 1]) || stappen[|stappen| - 1].Herlaad?
  {
    assert forall k :: 0 <= k < |stappen| - 1 ==> stappen[k] == stappen[..|stappen| - 1][k];
  }

  lemma StapValuta(s: Stand, stap: Stap)
    requires Welgevormd(s.c) && Mogelijk(s, stap)
    ensures NaStap(s, stap).c.waarde.valuta == if stap.Herlaad? then "EUR" else s.c.waarde.valuta
  {
    if stap.Herlaad? {
      HerlaadBehoudt(s.c, stap.rij);
    }
  }

  /** The value keeps the currency of the award exactly when that is EUR or nothing was reloaded. */
  lemma {:induction false} ValutaBehouden(standen: seq<Stand>, stappen: seq<Stap>)
    requires IsRun(standen, stappen)
    ensures standen[|stappen|].c.waarde.valuta == if MetHerlaad(stappen) then "EUR" else standen[0].c.waarde.valuta
    ensures standen[|stappen|].c.waarde.valuta == standen[0].c.waarde.valuta <==>
      standen[0].c.waarde.valuta == "EUR" || !MetHerlaad(stappen)
    decreases |stappen|
  {
    if stappen != [] {
      var n := |stappen| - 1;
      KorterIsRun(standen, stappen, n);
      RunStap(standen, stappen, n);
      ValutaBehouden(standen[..n + 1], stappen[..n]);
      SluitOveral(standen[..n + 1], stappen[..n]);
      MetHerlaadPlus(stappen);
      StapValuta(standen[n], stappen[n]);
    }
  }

  /** A change in EUR that is refused on an award in another currency is accepted after a reload. */
  lemma HerladenMengtValuta(c: ContractWaarde, w: Wijziging)
    requires Welgevormd(c) && c.status == Actief && c.waarde.valuta != "EUR"
    requires w.soort == Verhoging && w.mutatie.centen > 0 && w.mutatie.valuta == "EUR"
    ensures Na(c, Wijzig(w)).Err?
    ensures VanRij(NaarRij(c)).Ok? && Na(VanRij(NaarRij(c)).value, Wijzig(w)).Ok?
    ensures Na(VanRij(NaarRij(c)).value, Wijzig(w)).value.waarde == Bedrag(c.waarde.centen + w.mutatie.centen, "EUR")
  {
    ContractRondreis(c);
  }

  // ---------- performance statements, and what the events say ----------

  function Verklaard(s: Stand, stap: Stap): (r: seq<Prestatie>) {
    if stap.Doe? && stap.o.Verklaar? && Na(s.c, stap.o).Ok? then [stap.o.p] else []
  }

  /** The performance statements that the run accepted, in order. */
  function Verklaringen(standen: seq<Stand>, stappen: seq<Stap>, n: nat): (r: seq<Prestatie>)
    requires n <= |stappen| && n <= |standen|
  {
    if n == 0 then [] else Verklaringen(standen, stappen, n - 1) + Verklaard(standen[n - 1], stappen[n - 1])
  }

  lemma PrestatiesInEuroPlus(ps: seq<Prestatie>, qs: seq<Prestatie>)
    ensures PrestatiesInEuro(ps + qs) == PrestatiesInEuro(ps) + PrestatiesInEuro(qs)
  {
  }

  lemma StapPrestaties(s: Stand, stap: Stap)
    requires Welgevormd(s.c) && Mogelijk(s, stap)
    ensures multiset(PrestatiesInEuro(NaStap(s, stap).c.prestaties)) ==
      multiset(PrestatiesInEuro(s.c.prestaties)) + multiset(PrestatiesInEuro(Verklaard(s, stap)))
  {
    if stap.Herlaad? {
      HerlaadBehoudt(s.c, stap.rij);
      PrestatiesZelfde(VanRij(stap.rij).value.prestaties);
    } else {
      PrestatiesInEuroPlus(s.c.prestaties, Verklaard(s, stap));
      assert NaStap(s, stap).c.prestaties == s.c.prestaties + Verklaard(s, stap);
    }
  }

  /** In every run, with reloads in any row order, the contract holds exactly the performance statements that were
      accepted, up to the currency of their amounts. */
  lemma {:induction false} PrestatiesBehouden(standen: seq<Stand>, stappen: seq<Stap>, n: nat)
    requires IsRun(standen, stappen) && n <= |stappen|
    ensures multiset(PrestatiesInEuro(standen[n].c.prestaties)) ==
      multiset(PrestatiesInEuro(Verklaringen(standen, stappen, n)))
  {
    if n > 0 {
      PrestatiesBehouden(standen, stappen, n - 1);
      KorterIsRun(standen, stappen, n - 1);
      SluitOveral(standen[..n], stappen[..n - 1]);
      RunStap(standen, stappen, n - 1);
      StapPrestaties(standen[n - 1], stappen[n - 1]);
      PrestatiesInEuroPlus(Verklaringen(standen, stappen, n - 1), Verklaard(standen[n - 1], stappen[n - 1]));
    }
  }

  /** The event of an accepted command says what the contract now holds: the last change with its sign, reason and day,
      or the last performance statement, or the end. */
  lemma EventZegtWatErStaat(c: ContractWaarde, o: Opdracht)
    requires Na(c, o).Ok?
    ensures var c', e := Na(c, o).value, EventVan(c, o);
      && e.contractId == c'.id == c.id
      && (e.WijzigingGoedgekeurd? <==> |c'.wijzigingen| == |c.wijzigingen| + 1)
      && (e.PrestatieOpgesteld? <==> |c'.prestaties| == |c.prestaties| + 1)
      && (e.ContractAfgerond? <==> c'.status == Afgerond)
      && (e.WijzigingGoedgekeurd? ==> var w := c'.wijzigingen[|c.wijzigingen|];
           100.0 * e.bedrag == Teken(w) as real && e.reden == w.reden && e.datum == w.datum)
      && (e.PrestatieOpgesteld? ==> var p := c'.prestaties[|c.prestaties|];
           100.0 * e.bedrag == p.bedrag.centen as real && e.periode == p.periode && e.score == p.score)
      && (e.ContractAfgerond? ==> e.kunstwerkId == c'.kunstwerkId && o == RondAf(e.datum))
  {
  }

  // ---------- the score Monitoring feeds ----------

  /** A performance statement without a score takes the report's KPI; then only the status and the period can refuse
      it. */
  lemma KpiWordtNooitGeweigerd(c: ContractWaarde, id: string, periode: Periode, bedrag: Bedrag,
                               metingen: seq<MonitoringRapport.Meting>, incidenten: seq<MonitoringRapport.Incident>)
    ensures Kpi.Score(metingen, incidenten).Some?
    ensures Na(c, Verklaar(Prestatie(id, periode, Kpi.Score(metingen, incidenten).value as real, bedrag))).Ok? <==>
      c.status == Actief && c.looptijd.start <= periode.start <= c.looptijd.eind
        && c.looptijd.start <= periode.eind <= c.looptijd.eind
  {
    Kpi.ScoreIsAandeel(metingen, incidenten);
  }
}
