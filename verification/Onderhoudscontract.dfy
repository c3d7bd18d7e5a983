/** The maintenance contract: a running value in cents, its changes and performance statements, and the rows it is
    stored in. */
module Onderhoudscontract {
  import opened Gedeeld
  import opened Contractwaarden

  datatype ContractStatus = Actief | Afgerond

  datatype Prestatie = Prestatie(id: string, periode: Periode, score: real, bedrag: Bedrag)

  datatype ContractWaarde = ContractWaarde(
    id: string, kunstwerkId: string, opdrachtnemer: string, looptijd: Periode, waarde: Bedrag,
    aanbestedingId: Option<string>, status: ContractStatus, wijzigingen: seq<Wijziging>, prestaties: seq<Prestatie>)

  datatype ContractEvent =
    | ContractGegund(contractId: string, kunstwerkId: string, opdrachtnemer: string, looptijd: Periode)
    | WijzigingGoedgekeurd(contractId: string, bedrag: real, reden: string, datum: int)
    | PrestatieOpgesteld(contractId: string, periode: Periode, score: real, bedrag: real)
    | ContractAfgerond(contractId: string, kunstwerkId: string, datum: int)

  // ---------- the commands ----------

  datatype Opdracht =
    | Wijzig(w: Wijziging)
    | Verklaar(p: Prestatie)
    | RondAf(datum: int)

  function NieuweWaarde(waarde: Bedrag, w: Wijziging): (r: Result<Bedrag>) {
    if w.soort == Verhoging then Plus(waarde, w.mutatie) else Min(waarde, w.mutatie)
  }

  /** The contract after a command, or why it is refused. */
  function Na(c: ContractWaarde, o: Opdracht): (r: Result<ContractWaarde>) {
    if c.status != Actief then Err(DomeinFout)
    else match o
      case Wijzig(w) =>
        var nieuw := NieuweWaarde(c.waarde, w);
        if nieuw.Err? then Err(nieuw.fout) else Ok(c.(waarde := nieuw.value, wijzigingen := c.wijzigingen + [w]))
      case Verklaar(p) =>
        if !Omvat(c.looptijd, p.periode) || p.score < 0.0 || p.score > 100.0 then Err(DomeinFout)
        else Ok(c.(prestaties := c.prestaties + [p]))
      case RondAf(_) => Ok(c.(status := Afgerond))
  }

  function FoutVan(r: Result<ContractWaarde>): (f: Option<Fout>) {
    if r.Err? then Some(r.fout) else None
  }

  function EventVan(c: ContractWaarde, o: Opdracht): (e: ContractEvent) {
    match o
    case Wijzig(w) => WijzigingGoedgekeurd(c.id, if w.soort == Verhoging then Euro(w.mutatie)
      else -Euro(w.mutatie), w.reden, w.datum)
    case Verklaar(p) => PrestatieOpgesteld(c.id, p.periode, p.score, Euro(p.bedrag))
    case RondAf(datum) => ContractAfgerond(c.id, c.kunstwerkId, datum)
  }

  class Contract {
    const id: string
    const kunstwerkId: string
    const opdrachtnemer: string
    const looptijd: Periode
    const aanbestedingId: Option<string>
    var waarde: Bedrag
    var status: ContractStatus
    var wijzigingen: seq<Wijziging>
    var prestaties: seq<Prestatie>
    var events: seq<ContractEvent>

    function Waarde(): (w: ContractWaarde)
      reads this
    {
      ContractWaarde(id, kunstwerkId, opdrachtnemer, looptijd, waarde, aanbestedingId, status, wijzigingen, prestaties)
    }

    constructor Gun(id: string, kunstwerkId: string, opdrachtnemer: string, looptijd: Periode, waarde: Bedrag,
        aanbestedingId: Option<string>)
      ensures Waarde() ==
        ContractWaarde(id, kunstwerkId, opdrachtnemer, looptijd, waarde, aanbestedingId, Actief, [], [])
      ensures events == [ContractGegund(id, kunstwerkId, opdrachtnemer, looptijd)]
    {
      this.id, this.kunstwerkId, this.opdrachtnemer, this.looptijd, this.aanbestedingId :=
        id, kunstwerkId, opdrachtnemer, looptijd, aanbestedingId;
      this.waarde, status, wijzigingen, prestaties := waarde, Actief, [], [];
      events := [ContractGegund(id, kunstwerkId, opdrachtnemer, looptijd)];
    }

    constructor Herstel(c: ContractWaarde)
      ensures Waarde() == c && events == []
    {
      id, kunstwerkId, opdrachtnemer, looptijd, aanbestedingId :=
        c.id, c.kunstwerkId, c.opdrachtnemer, c.looptijd, c.aanbestedingId;
      waarde, status, wijzigingen, prestaties, events := c.waarde, c.status, c.wijzigingen, c.prestaties, [];
    }

    method KeurWijzigingGoed(w: Wijziging) returns (fout: Option<Fout>)
      modifies this
      ensures fout == FoutVan(Na(old(Waarde()), Wijzig(w)))
      ensures Waarde() == if fout.Some? then old(Waarde()) else Na(old(Waarde()), Wijzig(w)).value
      ensures events == old(events) + if fout.Some? then [] else [EventVan(old(Waarde()), Wijzig(w))]
    {
      if status != Actief {
        return Some(DomeinFout);
      }
      var nieuweWaarde := if w.soort == Verhoging then Plus(waarde, w.mutatie) else Min(waarde, w.mutatie);
      if nieuweWaarde.Err? {
        return Some(nieuweWaarde.fout);
      }
      waarde := nieuweWaarde.value;
      wijzigingen := wijzigingen + [w];
      var gesigneerd := if w.soort == Verhoging then Euro(w.mutatie) else -Euro(w.mutatie);
      events := events + [WijzigingGoedgekeurd(id, gesigneerd, w.reden, w.datum)];
      return None;
    }

    method StelPrestatieverklaringOp(p: Prestatie) returns (fout: Option<Fout>)
      modifies this
      ensures fout == FoutVan(Na(old(Waarde()), Verklaar(p)))
      ensures Waarde() == if fout.Some? then old(Waarde()) else Na(old(Waarde()), Verklaar(p)).value
      ensures events == old(events) + if fout.Some? then [] else [EventVan(old(Waarde()), Verklaar(p))]
    {
      if status != Actief {
        return Some(DomeinFout);
      }
      if !Omvat(looptijd, p.periode) {
        return Some(DomeinFout);
      }
      if p.score < 0.0 || p.score > 100.0 {
        return Some(DomeinFout);
      }
      prestaties := prestaties + [p];
      events := events + [PrestatieOpgesteld(id, p.periode, p.score, Euro(p.bedrag))];
      return None;
    }

    method RondContractAf(datum: int) returns (fout: Option<Fout>)
      modifies this
      ensures fout == FoutVan(Na(old(Waarde()), RondAf(datum)))
      ensures Waarde() == if fout.Some? then old(Waarde()) else Na(old(Waarde()), RondAf(datum)).value
      ensures events == old(events) + if fout.Some? then [] else [EventVan(old(Waarde()), RondAf(datum))]
    {
      if status != Actief {
        return Some(DomeinFout);
      }
      status := Afgerond;
      events := events + [ContractAfgerond(id, kunstwerkId, datum)];
      return None;
    }
  }

  // ---------- the rows ----------

  datatype WijzigingRij = WijzigingRij(id: string, mutatieCenten: int, soort: Soort, reden: string, datum: int)

  datatype PrestatieRij = PrestatieRij(id: string, periodeStart: int, periodeEind: int, score: real, bedragCenten: int)

  datatype ContractRij = ContractRij(
    id: string, kunstwerkId: string, opdrachtnemer: string, looptijdStart: int, looptijdEind: int, waardeCenten: int,
    aanbestedingId: Option<string>, status: ContractStatus, wijzigingen: seq<WijzigingRij>,
      prestaties: seq<PrestatieRij>)

  function WijzigingNaarRij(w: Wijziging): (r: WijzigingRij) {
    WijzigingRij(w.id, w.mutatie.centen, w.soort, w.reden, w.datum)
  }

  function PrestatieNaarRij(p: Prestatie): (r: PrestatieRij) {
    PrestatieRij(p.id, p.periode.start, p.periode.eind, p.score, p.bedrag.centen)
  }

  function NaarRij(c: ContractWaarde): (r: ContractRij) {
    ContractRij(c.id, c.kunstwerkId, c.opdrachtnemer, c.looptijd.start, c.looptijd.eind, c.waarde.centen,
      c.aanbestedingId, c.status,
      seq(|c.wijzigingen|, i requires 0 <= i < |c.wijzigingen| => WijzigingNaarRij(c.wijzigingen[i])),
      seq(|c.prestaties|, i requires 0 <= i < |c.prestaties| => PrestatieNaarRij(c.prestaties[i])))
  }

  function RijNaarWijziging(r: WijzigingRij): (w: Result<Wijziging>) {
    var b := VanCenten(r.mutatieCenten, "EUR");
    if b.Err? then Err(b.fout) else Ok(Wijziging(r.id, b.value, r.soort, r.reden, r.datum))
  }

  function RijNaarPrestatie(r: PrestatieRij): (p: Result<Prestatie>) {
    var periode, bedrag := PeriodeVan(r.periodeStart, r.periodeEind), VanCenten(r.bedragCenten, "EUR");
    if periode.Err? then Err(periode.fout)
    else if bedrag.Err? then Err(bedrag.fout)
    else Ok(Prestatie(r.id, periode.value, r.score, bedrag.value))
  }

  function RijenNaarWijzigingen(rs: seq<WijzigingRij>): (r: Result<seq<Wijziging>>)
    ensures r.Ok? <==> forall i :: 0 <= i < |rs| ==> RijNaarWijziging(rs[i]).Ok?
    ensures r.Ok? ==> |r.value| == |rs| && forall i :: 0 <= i < |rs| ==> r.value[i] == RijNaarWijziging(rs[i]).value
  {
    if rs == [] then Ok([])
    else
      var eerste, rest := RijNaarWijziging(rs[0]), RijenNaarWijzigingen(rs[1..]);
      assert forall i :: 1 <= i < |rs| ==> rs[i] == rs[1..][i - 1];
      if eerste.Err? then Err(eerste.fout) else if rest.Err? then Err(rest.fout) else Ok([eerste.value] + rest.value)
  }

  function RijenNaarPrestaties(rs: seq<PrestatieRij>): (r: Result<seq<Prestatie>>)
    ensures r.Ok? <==> forall i :: 0 <= i < |rs| ==> RijNaarPrestatie(rs[i]).Ok?
    ensures r.Ok? ==> |r.value| == |rs| && forall i :: 0 <= i < |rs| ==> r.value[i] == RijNaarPrestatie(rs[i]).value
  {
    if rs == [] then Ok([])
    else
      var eerste, rest := RijNaarPrestatie(rs[0]), RijenNaarPrestaties(rs[1..]);
      assert forall i :: 1 <= i < |rs| ==> rs[i] == rs[1..][i - 1];
      if eerste.Err? then Err(eerste.fout) else if rest.Err? then Err(rest.fout) else Ok([eerste.value] + rest.value)
  }

  /** Loading goes through the same value objects again, and an amount comes back without its currency. */
  function VanRij(r: ContractRij): (c: Result<ContractWaarde>) {
    var ws, ps := RijenNaarWijzigingen(r.wijzigingen), RijenNaarPrestaties(r.prestaties);
    var looptijd, waarde := PeriodeVan(r.looptijdStart, r.looptijdEind), VanCenten(r.waardeCenten, "EUR");
    if ws.Err? then Err(ws.fout)
    else if ps.Err? then Err(ps.fout)
    else if Blanco(r.id) || Blanco(r.kunstwerkId) || Blanco(r.opdrachtnemer) then Err(DomeinFout)
    else if looptijd.Err? then Err(looptijd.fout)
    else if waarde.Err? then Err(waarde.fout)
    else if r.aanbestedingId.Some? && r.aanbestedingId.value != "" && Blanco(r.aanbestedingId.value)
      then Err(DomeinFout)
    else Ok(ContractWaarde(r.id, r.kunstwerkId, r.opdrachtnemer, looptijd.value, waarde.value,
      if r.aanbestedingId == Some("") then None else r.aanbestedingId, r.status, ws.value, ps.value))
  }

  // ---------- save and reload ----------

  /** What the constructors of the value objects have checked. */
  ghost predicate Welgevormd(c: ContractWaarde) {
    && !Blanco(c.id) && !Blanco(c.kunstwerkId) && !Blanco(c.opdrachtnemer)
    && c.looptijd.start < c.looptijd.eind && c.waarde.centen >= 0
    && (c.aanbestedingId.Some? ==> !Blanco(c.aanbestedingId.value))
    && (forall w :: w in c.wijzigingen ==> w.mutatie.centen >= 0)
    && (forall p :: p in c.prestaties ==> p.periode.start < p.periode.eind && p.bedrag.centen >= 0)
  }

  function InEuro(b: Bedrag): (r: Bedrag) {
    b.(valuta := "EUR")
  }

  function WijzigingenInEuro(ws: seq<Wijziging>): (r: seq<Wijziging>)
    ensures |r| == |ws| && forall i :: 0 <= i < |ws| ==> r[i] == ws[i].(mutatie := InEuro(ws[i].mutatie))
  {
    seq(|ws|, i requires 0 <= i < |ws| => ws[i].(mutatie := InEuro(ws[i].mutatie)))
  }

  function PrestatiesInEuro(ps: seq<Prestatie>): (r: seq<Prestatie>)
    ensures |r| == |ps| && forall i :: 0 <= i < |ps| ==> r[i] == ps[i].(bedrag := InEuro(ps[i].bedrag))
  {
    seq(|ps|, i requires 0 <= i < |ps| => ps[i].(bedrag := InEuro(ps[i].bedrag)))
  }

  function ZonderValuta(c: ContractWaarde): (r: ContractWaarde) {
    c.(waarde := InEuro(c.waarde), wijzigingen := WijzigingenInEuro(c.wijzigingen), prestaties :=
      PrestatiesInEuro(c.prestaties))
  }

  ghost predicate AllesInEuro(c: ContractWaarde) {
    && c.waarde.valuta == "EUR"
    && (forall w :: w in c.wijzigingen ==> w.mutatie.valuta == "EUR")
    && (forall p :: p in c.prestaties ==> p.bedrag.valuta == "EUR")
  }

  lemma WijzigingenRondreis(c: ContractWaarde)
    requires Welgevormd(c)
    ensures RijenNaarWijzigingen(NaarRij(c).wijzigingen) == Ok(WijzigingenInEuro(c.wijzigingen))
  {
    var rs := NaarRij(c).wijzigingen;
    forall i | 0 <= i < |rs| ensures RijNaarWijziging(rs[i]) == Ok(WijzigingenInEuro(c.wijzigingen)[i]) {
      assert c.wijzigingen[i] in c.wijzigingen;
    }
    assert RijenNaarWijzigingen(rs).value == WijzigingenInEuro(c.wijzigingen);
  }

  lemma PrestatiesRondreis(c: ContractWaarde)
    requires Welgevormd(c)
    ensures RijenNaarPrestaties(NaarRij(c).prestaties) == Ok(PrestatiesInEuro(c.prestaties))
  {
    var rs := NaarRij(c).prestaties;
    forall i | 0 <= i < |rs| ensures RijNaarPrestatie(rs[i]) == Ok(PrestatiesInEuro(c.prestaties)[i]) {
      assert c.prestaties[i] in c.prestaties;
    }
    assert RijenNaarPrestaties(rs).value == PrestatiesInEuro(c.prestaties);
  }

  /** Save and reload gives back the contract with every amount in EUR: the same contract exactly when all were. */
  lemma ContractRondreis(c: ContractWaarde)
    requires Welgevormd(c)
    ensures VanRij(NaarRij(c)) == Ok(ZonderValuta(c))
    ensures VanRij(NaarRij(c)) == Ok(c) <==> AllesInEuro(c)
  {
    WijzigingenRondreis(c);
    PrestatiesRondreis(c);
    assert c.aanbestedingId != Some("");
    WijzigingenZelfde(c.wijzigingen);
    PrestatiesZelfde(c.prestaties);
  }

  lemma WijzigingenZelfde(ws: seq<Wijziging>)
    ensures WijzigingenInEuro(ws) == ws <==> forall w :: w in ws ==> w.mutatie.valuta == "EUR"
  {
    forall i | 0 <= i < |ws| ensures WijzigingenInEuro(ws)[i] == ws[i] <==> ws[i].mutatie.valuta == "EUR" {
    }
  }

  lemma PrestatiesZelfde(ps: seq<Prestatie>)
    ensures PrestatiesInEuro(ps) == ps <==> forall p :: p in ps ==> p.bedrag.valuta == "EUR"
  {
    forall i | 0 <= i < |ps| ensures PrestatiesInEuro(ps)[i] == ps[i] <==> ps[i].bedrag.valuta == "EUR" {
    }
  }

  /** A change is accepted exactly on an active contract, in its currency, and when it does not make the value
      negative. */
  lemma WijzigingGeaccepteerd(c: ContractWaarde, w: Wijziging)
    requires c.waarde.centen >= 0 && w.mutatie.centen >= 0
    ensures Na(c, Wijzig(w)).Ok? <==>
      c.status == Actief && w.mutatie.valuta == c.waarde.valuta && c.waarde.centen + Teken(w) >= 0
  {
  }

  /** A performance statement is accepted exactly on an active contract, for a period within its own from day to day and
      with a score in 0..100; a rounding off exactly on an active contract. */
  lemma PrestatieGeaccepteerd(c: ContractWaarde, p: Prestatie, datum: int)
    ensures Na(c, Verklaar(p)).Ok? <==>
      c.status == Actief && c.looptijd.start <= p.periode.start <= c.looptijd.eind
        && c.looptijd.start <= p.periode.eind <= c.looptijd.eind && 0.0 <= p.score <= 100.0
    ensures Na(c, RondAf(datum)).Ok? <==> c.status == Actief
  {
  }

  /** An empty tender id reads as none, and only a row whose amounts, periods and ids are possible reads at all. */
  lemma RijLeest(r: ContractRij)
    ensures VanRij(r).Ok? <==>
      && !Blanco(r.id) && !Blanco(r.kunstwerkId) && !Blanco(r.opdrachtnemer)
      && r.looptijdStart < r.looptijdEind && r.waardeCenten >= 0
      && (r.aanbestedingId.Some? && r.aanbestedingId.value != "" ==> !Blanco(r.aanbestedingId.value))
      && (forall i :: 0 <= i < |r.wijzigingen| ==> r.wijzigingen[i].mutatieCenten >= 0)
      && (forall i :: 0 <= i < |r.prestaties| ==>
            r.prestaties[i].periodeStart < r.prestaties[i].periodeEind && r.prestaties[i].bedragCenten >= 0)
    ensures VanRij(r).Ok? && r.aanbestedingId == Some("") ==> VanRij(r).value.aanbestedingId == None
  {
  }
}
