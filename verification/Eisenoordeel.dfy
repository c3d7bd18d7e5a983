/** Beheer's judgement of report values against a requirement package. */
module Eisenoordeel {
  import opened Gedeeld

  datatype Operator = KleinerDan | KleinerOfGelijk | GroterDan | GroterOfGelijk | GelijkAan

  datatype Eis = Eis(code: string, omschrijving: string, meetwaarde: string, operator: Operator, grenswaarde: real,
      eenheid: string)

  datatype Resultaat = VoldoetNiet | NietTeBeoordelen | Voldoet

  datatype Toelichting = GeenPakket | Ontbreekt(meetwaarde: string) | VoldoetAanEis | VoldoetNietAanEis

  datatype Bevinding = Bevinding(
    eisCode: Option<string>, meetwaarde: Option<real>, operator: Option<Operator>, grenswaarde: Option<real>,
    eenheid: Option<string>, resultaat: Resultaat, toelichting: Toelichting)

  type Waarden = map<string, real>

  /** The value under the measured quantity's name, else under the requirement's code. */
  function WaardeVoorEis(eis: Eis, waarden: Waarden): (r: Option<real>)
    ensures r == None <==> eis.meetwaarde !in waarden && eis.code !in waarden
    ensures eis.meetwaarde in waarden ==> r == Some(waarden[eis.meetwaarde])
    ensures r.Some? && eis.meetwaarde !in waarden ==> eis.code in waarden && r.value == waarden[eis.code]
  {
    if eis.meetwaarde in waarden then Some(waarden[eis.meetwaarde])
    else if eis.code in waarden then Some(waarden[eis.code])
    else None
  }

  predicate Vergelijk(waarde: real, eis: Eis) {
    match eis.operator
    case KleinerDan => waarde < eis.grenswaarde
    case KleinerOfGelijk => waarde <= eis.grenswaarde
    case GroterDan => waarde > eis.grenswaarde
    case GroterOfGelijk => waarde >= eis.grenswaarde
    case GelijkAan => waarde == eis.grenswaarde
  }

  /** The result for one requirement on its own. */
  function ResultaatVoor(eis: Eis, waarden: Waarden): (r: Resultaat) {
    match WaardeVoorEis(eis, waarden)
    case None => NietTeBeoordelen
    case Some(w) => if Vergelijk(w, eis) then Voldoet else VoldoetNiet
  }

  function BevindingVoor(eis: Eis, waarden: Waarden): (r: Bevinding) {
    var resultaat := ResultaatVoor(eis, waarden);
    Bevinding(Some(eis.code), WaardeVoorEis(eis, waarden), Some(eis.operator), Some(eis.grenswaarde),
      Some(eis.eenheid), resultaat,
      match resultaat
      case NietTeBeoordelen => Ontbreekt(eis.meetwaarde)
      case Voldoet => VoldoetAanEis
      case VoldoetNiet => VoldoetNietAanEis)
  }

  function Rang(r: Resultaat): (n: nat) {
    match r
    case VoldoetNiet => 0
    case NietTeBeoordelen => 1
    case Voldoet => 2
  }

  function Min(a: Resultaat, b: Resultaat): (r: Resultaat)
    ensures r == a || r == b
    ensures Rang(r) <= Rang(a) && Rang(r) <= Rang(b)
  {
    if Rang(a) <= Rang(b) then a else b
  }

  /** The minimum of the per-requirement results under VoldoetNiet < NietTeBeoordelen < Voldoet. */
  function Minimum(eisen: seq<Eis>, waarden: Waarden): (r: Resultaat) {
    if eisen == [] then Voldoet
    else Min(Minimum(eisen[..|eisen| - 1], waarden), ResultaatVoor(eisen[|eisen| - 1], waarden))
  }

  lemma {:induction false} Ondergrens(eisen: seq<Eis>, waarden: Waarden, i: nat)
    requires i < |eisen|
    ensures Rang(Minimum(eisen, waarden)) <= Rang(ResultaatVoor(eisen[i], waarden))
    decreases |eisen|
  {
    if i < |eisen| - 1 {
      Ondergrens(eisen[..|eisen| - 1], waarden, i);
    }
  }

  lemma {:induction false} Bereikt(eisen: seq<Eis>, waarden: Waarden) returns (i: nat)
    requires eisen != []
    ensures i < |eisen| && Minimum(eisen, waarden) == ResultaatVoor(eisen[i], waarden)
    decreases |eisen|
  {
    var n := |eisen| - 1;
    i := n;
    assert eisen[..n] == [] ==> Minimum(eisen[..n], waarden) == Voldoet;
    if n > 0 && Rang(Minimum(eisen[..n], waarden)) <= Rang(ResultaatVoor(eisen[n], waarden)) {
      i := Bereikt(eisen[..n], waarden);
    }
  }

  lemma MinimumIsMinimum(eisen: seq<Eis>, waarden: Waarden)
    requires eisen != []
    ensures forall e :: e in eisen ==> Rang(Minimum(eisen, waarden)) <= Rang(ResultaatVoor(e, waarden))
    ensures exists e :: e in eisen && Minimum(eisen, waarden) == ResultaatVoor(e, waarden)
  {
    forall e | e in eisen ensures Rang(Minimum(eisen, waarden)) <= Rang(ResultaatVoor(e, waarden)) {
      var i :| 0 <= i < |eisen| && eisen[i] == e;
      Ondergrens(eisen, waarden, i);
    }
    var i := Bereikt(eisen, waarden);
    assert eisen[i] in eisen;
  }

  lemma MinimumStap(eisen: seq<Eis>, waarden: Waarden, n: nat)
    requires n < |eisen|
    ensures Minimum(eisen[..n + 1], waarden) == Min(Minimum(eisen[..n], waarden), ResultaatVoor(eisen[n], waarden))
    ensures Bevindingen(eisen[..n + 1], waarden) == Bevindingen(eisen[..n], waarden) +
      [BevindingVoor(eisen[n], waarden)]
  {
    assert eisen[..n + 1][..n] == eisen[..n];
  }

  function Bevindingen(eisen: seq<Eis>, waarden: Waarden): (r: seq<Bevinding>)
    ensures |r| == |eisen|
  {
    seq(|eisen|, i requires 0 <= i < |eisen| => BevindingVoor(eisen[i], waarden))
  }

  /** What the judgement amounts to. An empty package cannot be established, but would be unjudgeable. */
  function Oordeel(pakket: Option<seq<Eis>>, waarden: Waarden): (r: (Resultaat, seq<Bevinding>)) {
    match pakket
    case None => (NietTeBeoordelen, [Bevinding(None, None, None, None, None, NietTeBeoordelen, GeenPakket)])
    case Some(eisen) => (if eisen == [] then NietTeBeoordelen else Minimum(eisen, waarden), Bevindingen(eisen, waarden))
  }

  /** The flag loop of the validator. */
  method Beoordeel(pakket: Option<seq<Eis>>, waarden: Waarden)
      returns (resultaat: Resultaat, bevindingen: seq<Bevinding>)
    ensures (resultaat, bevindingen) == Oordeel(pakket, waarden)
  {
    if pakket == None {
      return NietTeBeoordelen, [Bevinding(None, None, None, None, None, NietTeBeoordelen, GeenPakket)];
    }
    var eisen := pakket.value;
    bevindingen := [];
    var heeftBruikbareWaarde, heeftFout, heeftOnbeoordeelbaar := false, false, false;
    for n := 0 to |eisen|
      invariant bevindingen == Bevindingen(eisen[..n], waarden)
      invariant Minimum(eisen[..n], waarden) == if heeftFout then VoldoetNiet else if heeftOnbeoordeelbaar
        then NietTeBeoordelen else Voldoet
      invariant heeftFout ==> heeftBruikbareWaarde
      invariant n > 0 ==> heeftBruikbareWaarde || heeftOnbeoordeelbaar
      invariant n == 0 ==> !heeftBruikbareWaarde && !heeftOnbeoordeelbaar
    {
      var eis := eisen[n];
      MinimumStap(eisen, waarden, n);
      var waarde := WaardeVoorEis(eis, waarden);
      if waarde == None {
        heeftOnbeoordeelbaar := true;
        bevindingen := bevindingen +
          [Bevinding(Some(eis.code), None, Some(eis.operator), Some(eis.grenswaarde), Some(eis.eenheid),
          NietTeBeoordelen, Ontbreekt(eis.meetwaarde))];
        continue;
      }
      heeftBruikbareWaarde := true;
      var voldoet := Vergelijk(waarde.value, eis);
      if !voldoet {
        heeftFout := true;
      }
      bevindingen := bevindingen +
        [Bevinding(Some(eis.code), waarde, Some(eis.operator), Some(eis.grenswaarde), Some(eis.eenheid),
        if voldoet then Voldoet else VoldoetNiet, if voldoet then VoldoetAanEis else VoldoetNietAanEis)];
    }
    assert eisen[..|eisen|] == eisen;
    if !heeftBruikbareWaarde {
      return NietTeBeoordelen, bevindingen;
    }
    if heeftFout {
      return VoldoetNiet, bevindingen;
    }
    if heeftOnbeoordeelbaar {
      return NietTeBeoordelen, bevindingen;
    }
    return Voldoet, bevindingen;
  }

  /** What each verdict says of the requirements, in both directions. */
  lemma OordeelBetekent(eisen: seq<Eis>, waarden: Waarden)
    requires eisen != []
    ensures var r := Oordeel(Some(eisen), waarden).0;
      && (r == Voldoet <==> forall e :: e in eisen ==> ResultaatVoor(e, waarden) == Voldoet)
      && (r == VoldoetNiet <==> exists e :: e in eisen && ResultaatVoor(e, waarden) == VoldoetNiet)
  {
    MinimumIsMinimum(eisen, waarden);
  }

  /** The verdict depends on which requirements there are, not on their order or repetition. */
  lemma VolgordeMaaktNietUit(a: seq<Eis>, b: seq<Eis>, waarden: Waarden)
    requires forall e :: e in a <==> e in b
    ensures Oordeel(Some(a), waarden).0 == Oordeel(Some(b), waarden).0
  {
    assert a != [] ==> a[0] in a;
    assert b != [] ==> b[0] in b;
    if a != [] {
      OordeelBetekent(a, waarden);
      OordeelBetekent(b, waarden);
    }
  }

  lemma {:induction false} MinimumPlus(a: seq<Eis>, b: seq<Eis>, waarden: Waarden)
    ensures Minimum(a + b, waarden) == Min(Minimum(a, waarden), Minimum(b, waarden))
    decreases |b|
  {
    if b == [] {
      assert a + b == a;
    } else {
      var voor := b[..|b| - 1];
      MinimumPlus(a, voor, waarden);
      assert (a + b)[..|a + b| - 1] == a + voor;
      assert (a + b)[|a + b| - 1] == b[|b| - 1];
    }
  }

  /** The verdict of two packages taken together is the lower of their verdicts, and the findings follow
      each other. An empty package is excluded: it would count as NietTeBeoordelen and drag a satisfied one down. */
  lemma Samengevoegd(a: seq<Eis>, b: seq<Eis>, waarden: Waarden)
    requires a != [] && b != []
    ensures Oordeel(Some(a + b), waarden).0 == Min(Oordeel(Some(a), waarden).0, Oordeel(Some(b), waarden).0)
    ensures Oordeel(Some(a + b), waarden).1 == Oordeel(Some(a), waarden).1 + Oordeel(Some(b), waarden).1
  {
    MinimumPlus(a, b, waarden);
  }

  /** Every requirement gets exactly one finding, in order, carrying the requirement, the value found and what that
      value alone would be judged as. */
  lemma EenBevindingPerEis(eisen: seq<Eis>, waarden: Waarden, i: nat)
    requires i < |eisen|
    ensures var b := Oordeel(Some(eisen), waarden).1;
      && |b| == |eisen|
      && b[i].eisCode == Some(eisen[i].code)
      && b[i].operator == Some(eisen[i].operator) && b[i].grenswaarde == Some(eisen[i].grenswaarde)
      && b[i].eenheid == Some(eisen[i].eenheid) && b[i].meetwaarde == WaardeVoorEis(eisen[i], waarden)
      && b[i].resultaat == Oordeel(Some([eisen[i]]), waarden).0
      && (b[i].toelichting == Ontbreekt(eisen[i].meetwaarde) <==> b[i].meetwaarde == None)
      && (b[i].toelichting == VoldoetAanEis <==> b[i].resultaat == Voldoet)
      && (b[i].toelichting == VoldoetNietAanEis <==> b[i].resultaat == VoldoetNiet)
  {
    OordeelBetekent([eisen[i]], waarden);
    assert [eisen[i]][0] == eisen[i];
  }

  // ---------- what the operators mean ----------

  /** The verdict on a package of one requirement when its quantity is reported as `w`. */
  function Uitspraak(eis: Eis, w: real): (r: Resultaat) {
    Oordeel(Some([eis]), map[eis.meetwaarde := w]).0
  }

  /** Nothing else in a report matters to the requirement. */
  lemma UitspraakAlgemeen(eis: Eis, waarden: Waarden)
    ensures Oordeel(Some([eis]), waarden).0 ==
      match WaardeVoorEis(eis, waarden) case None => NietTeBeoordelen case Some(w) => Uitspraak(eis, w)
  {
    OordeelBetekent([eis], waarden);
    if WaardeVoorEis(eis, waarden).Some? {
      OordeelBetekent([eis], map[eis.meetwaarde := WaardeVoorEis(eis, waarden).value]);
    }
    assert [eis][0] == eis;
  }

  lemma UitspraakVergelijkt(eis: Eis, w: real)
    ensures Uitspraak(eis, w) == if Vergelijk(w, eis) then Voldoet else VoldoetNiet
  {
    OordeelBetekent([eis], map[eis.meetwaarde := w]);
    assert [eis][0] == eis;
  }

  predicate Voldaan(eis: Eis, op: Operator, w: real) {
    Uitspraak(eis.(operator := op), w) == Voldoet
  }

  /** For a requirement on an upper bound lower is as good, for one on a lower bound higher is. */
  lemma UitspraakMonotoon(eis: Eis, v: real, w: real)
    requires v <= w
    ensures eis.operator == KleinerDan || eis.operator == KleinerOfGelijk ==>
      (Uitspraak(eis, w) == Voldoet ==> Uitspraak(eis, v) == Voldoet)
    ensures eis.operator == GroterDan || eis.operator == GroterOfGelijk ==>
      (Uitspraak(eis, v) == Voldoet ==> Uitspraak(eis, w) == Voldoet)
  {
    UitspraakVergelijkt(eis, v);
    UitspraakVergelijkt(eis, w);
  }

  /** Of `<`, `=` and `>` every value meets exactly one, and `=` only at the bound; the other two operators are the
      unions; and looking from the other side of zero swaps `<` and `>`. */
  lemma OperatorenSplitsen(eis: Eis, w: real)
    ensures Voldaan(eis, KleinerDan, w) ==> !Voldaan(eis, GelijkAan, w) && !Voldaan(eis, GroterDan, w)
    ensures Voldaan(eis, GroterDan, w) ==> !Voldaan(eis, GelijkAan, w)
    ensures Voldaan(eis, KleinerDan, w) || Voldaan(eis, GelijkAan, w) || Voldaan(eis, GroterDan, w)
    ensures Voldaan(eis, GelijkAan, w) <==> w == eis.grenswaarde
    ensures Voldaan(eis, KleinerOfGelijk, w) <==> Voldaan(eis, KleinerDan, w) || Voldaan(eis, GelijkAan, w)
    ensures Voldaan(eis, GroterOfGelijk, w) <==> Voldaan(eis, GroterDan, w) || Voldaan(eis, GelijkAan, w)
    ensures Voldaan(eis, KleinerDan, w) <==> Voldaan(eis.(grenswaarde := -eis.grenswaarde), GroterDan, -w)
    ensures Uitspraak(eis, w) != NietTeBeoordelen
  {
    UitspraakVergelijkt(eis, w);
    UitspraakVergelijkt(eis.(operator := KleinerDan), w);
    UitspraakVergelijkt(eis.(operator := KleinerOfGelijk), w);
    UitspraakVergelijkt(eis.(operator := GroterDan), w);
    UitspraakVergelijkt(eis.(operator := GroterOfGelijk), w);
    UitspraakVergelijkt(eis.(operator := GelijkAan), w);
    UitspraakVergelijkt(eis.(grenswaarde := -eis.grenswaarde, operator := GroterDan), -w);
  }
}
