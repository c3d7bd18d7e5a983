/** Onderhoud's two aggregates, storing and traject, and the rows they are stored as. */
module Onderhoud {
  import opened Gedeeld

  datatype Ernst = Laag | Middel | Hoog | Kritiek

  /** Severities travel as text. */
  function ErnstVan(waarde: string): (r: Result<Ernst>) {
    if waarde == "Laag" then Ok(Laag)
    else if waarde == "Middel" then Ok(Middel)
    else if waarde == "Hoog" then Ok(Hoog)
    else if waarde == "Kritiek" then Ok(Kritiek)
    else Err(DomeinFout)
  }

  function ErnstTekst(e: Ernst): (r: string)
    ensures ErnstVan(r) == Ok(e)
  {
    match e
    case Laag => "Laag"
    case Middel => "Middel"
    case Hoog => "Hoog"
    case Kritiek => "Kritiek"
  }

  predicate VereistOnderhoud(e: Ernst) {
    e == Hoog || e == Kritiek
  }

  datatype OnderhoudEvent =
    | StoringGemeld(storingId: string, kunstwerkId: string, omschrijving: string)
    | OnderhoudGestart(onderhoudId: string, kunstwerkId: string, datum: int)
    | OnderhoudAfgerond(onderhoudId: string, kunstwerkId: string, resultaat: string, datum: int)

  // ---------- storing ----------

  datatype StoringStatus = Gemeld | InBehandeling | Afgehandeld

  datatype StoringWaarde = StoringWaarde(id: string, kunstwerkId: string, omschrijving: string, ernst: Ernst,
      status: StoringStatus, onderhoudId: Option<string>)

  function NaKoppeling(s: StoringWaarde, onderhoudId: string): (r: (StoringWaarde, Option<Fout>)) {
    if s.status == Afgehandeld then (s, Some(DomeinFout))
    else (s.(onderhoudId := Some(onderhoudId), status := InBehandeling), None)
  }

  function NaAfhandeling(s: StoringWaarde): (r: (StoringWaarde, Option<Fout>)) {
    if s.status == Afgehandeld then (s, Some(DomeinFout)) else (s.(status := Afgehandeld), None)
  }

  /** A storing that is not settled can be linked, again too, and can be settled, linked or not; a settled one stays as
      it is. */
  lemma StoringOvergangen(s: StoringWaarde, o: string)
    ensures NaKoppeling(s, o) == if s.status == Afgehandeld then (s, Some(DomeinFout))
      else (StoringWaarde(s.id, s.kunstwerkId, s.omschrijving, s.ernst, InBehandeling, Some(o)), None)
    ensures var (s', fout) := NaAfhandeling(s);
      s'.status == Afgehandeld && s' == s.(status := Afgehandeld) && (fout == None <==> s.status != Afgehandeld)
    ensures NaAfhandeling(NaAfhandeling(s).0) == (NaAfhandeling(s).0, Some(DomeinFout))
    ensures NaKoppeling(NaAfhandeling(s).0, o).1 == Some(DomeinFout)
  {
  }

  class Storing {
    const id: string
    const kunstwerkId: string
    const omschrijving: string
    const ernst: Ernst
    var status: StoringStatus
    var onderhoudId: Option<string>
    var events: seq<OnderhoudEvent>

    function Waarde(): (w: StoringWaarde)
      reads this
    {
      StoringWaarde(id, kunstwerkId, omschrijving, ernst, status, onderhoudId)
    }

    /** A new storing announces itself; the description was checked by the caller of this constructor. */
    constructor Meld(id: string, kunstwerkId: string, omschrijving: string, ernst: Ernst)
      ensures Waarde() == StoringWaarde(id, kunstwerkId, omschrijving, ernst, Gemeld, None)
      ensures events == [StoringGemeld(id, kunstwerkId, omschrijving)]
    {
      this.id, this.kunstwerkId, this.omschrijving, this.ernst := id, kunstwerkId, omschrijving, ernst;
      status, onderhoudId, events := Gemeld, None, [StoringGemeld(id, kunstwerkId, omschrijving)];
    }

    constructor Herstel(w: StoringWaarde)
      ensures Waarde() == w && events == []
    {
      id, kunstwerkId, omschrijving, ernst, status, onderhoudId :=
        w.id, w.kunstwerkId, w.omschrijving, w.ernst, w.status, w.onderhoudId;
      events := [];
    }

    method KoppelAanOnderhoud(onderhoudId: string) returns (fout: Option<Fout>)
      modifies this`status, this`onderhoudId
      ensures (Waarde(), fout) == NaKoppeling(old(Waarde()), onderhoudId)
    {
      if status == Afgehandeld {
        return Some(DomeinFout);
      }
      this.onderhoudId := Some(onderhoudId);
      status := InBehandeling;
      return None;
    }

    method HandelAf() returns (fout: Option<Fout>)
      modifies this`status
      ensures (Waarde(), fout) == NaAfhandeling(old(Waarde()))
    {
      if status == Afgehandeld {
        return Some(DomeinFout);
      }
      status := Afgehandeld;
      return None;
    }
  }

  // ---------- traject ----------

  datatype Aanleiding = VanStoring(storingId: string) | VanDiagnose(incidentId: Option<string>, bevinding: string,
      ernst: Ernst)
  datatype TrajectStatus = Gepland | Gestart | Afgerond
  datatype InspectieOordeel = Goed | Slecht
  datatype Inspectie = Inspectie(id: string, datum: int, oordeel: InspectieOordeel, opmerkingen: Option<string>)
  datatype FactuurStatus = Ontvangen | Goedgekeurd | Afgekeurd
  datatype Factuur = Factuur(id: string, centen: int, valuta: string, status: FactuurStatus, ontvangenOp: int)

  datatype TrajectWaarde = TrajectWaarde(
    id: string, kunstwerkId: string, aanleiding: Aanleiding, status: TrajectStatus, contractId: Option<string>,
      aannemerId: Option<string>,
    gestartOp: Option<int>, afgerondOp: Option<int>, resultaat: Option<string>, inspecties: seq<Inspectie>,
      facturen: seq<Factuur>)

  function Plan(id: string, kunstwerkId: string, aanleiding: Aanleiding): (r: TrajectWaarde) {
    TrajectWaarde(id, kunstwerkId, aanleiding, Gepland, None, None, None, None, None, [], [])
  }

  function OfOud(nieuw: Option<string>, oud: Option<string>): (r: Option<string>) {
    if nieuw.Some? then nieuw else oud
  }

  function NaStart(t: TrajectWaarde, datum: int, contractId: Option<string>, aannemerId: Option<string>):
      (r: (TrajectWaarde, Option<Fout>)) {
    if t.status != Gepland then (t, Some(DomeinFout))
    else (t.(status := Gestart, gestartOp := Some(datum), contractId := OfOud(contractId, t.contractId), aannemerId :=
      OfOud(aannemerId, t.aannemerId)), None)
  }

  function NaInspectie(t: TrajectWaarde, i: Inspectie): (r: (TrajectWaarde, Option<Fout>)) {
    if t.status != Gestart then (t, Some(DomeinFout)) else (t.(inspecties := t.inspecties + [i]), None)
  }

  predicate HeeftGoedkeuring(inspecties: seq<Inspectie>) {
    exists i :: i in inspecties && i.oordeel == Goed
  }

  function NaRondAf(t: TrajectWaarde, resultaat: string, datum: int): (r: (TrajectWaarde, Option<Fout>)) {
    if t.status != Gestart || !HeeftGoedkeuring(t.inspecties) then (t, Some(DomeinFout))
    else (t.(status := Afgerond, afgerondOp := Some(datum), resultaat := Some(resultaat)), None)
  }

  function NaFactuur(t: TrajectWaarde, id: string, centen: int, valuta: string, ontvangenOp: int):
      (r: (TrajectWaarde, Option<Fout>)) {
    if t.status == Gepland then (t, Some(DomeinFout))
    else (t.(facturen := t.facturen + [Factuur(id, centen, valuta, Ontvangen, ontvangenOp)]), None)
  }

  /** The position of the first invoice with this id, or the length. */
  function Plaats(facturen: seq<Factuur>, id: string): (n: nat)
    ensures n <= |facturen| && (n < |facturen| ==> facturen[n].id == id)
    ensures forall i :: 0 <= i < n ==> facturen[i].id != id
  {
    if facturen == [] || facturen[0].id == id then 0 else 1 + Plaats(facturen[1..], id)
  }

  function NaGoedkeuring(t: TrajectWaarde, factuurId: string): (r: (TrajectWaarde, Option<Fout>)) {
    var n := Plaats(t.facturen, factuurId);
    if n == |t.facturen| || t.status != Afgerond then (t, Some(DomeinFout))
    else (t.(facturen := t.facturen[n := t.facturen[n].(status := Goedgekeurd)]), None)
  }

  class Traject {
    const id: string
    const kunstwerkId: string
    const aanleiding: Aanleiding
    var status: TrajectStatus
    var contractId: Option<string>
    var aannemerId: Option<string>
    var gestartOp: Option<int>
    var afgerondOp: Option<int>
    var resultaat: Option<string>
    var inspecties: seq<Inspectie>
    var facturen: seq<Factuur>
    var events: seq<OnderhoudEvent>

    function Waarde(): (w: TrajectWaarde)
      reads this
    {
      TrajectWaarde(id, kunstwerkId, aanleiding, status, contractId, aannemerId, gestartOp, afgerondOp, resultaat,
        inspecties, facturen)
    }

    constructor Herstel(w: TrajectWaarde)
      ensures Waarde() == w && events == []
    {
      id, kunstwerkId, aanleiding, status, contractId, aannemerId :=
        w.id, w.kunstwerkId, w.aanleiding, w.status, w.contractId, w.aannemerId;
      gestartOp, afgerondOp, resultaat, inspecties, facturen :=
        w.gestartOp, w.afgerondOp, w.resultaat, w.inspecties, w.facturen;
      events := [];
    }

    method Start(datum: int, contractId: Option<string>, aannemerId: Option<string>) returns (fout: Option<Fout>)
      modifies this
      ensures (Waarde(), fout) == NaStart(old(Waarde()), datum, contractId, aannemerId)
      ensures events == old(events) + if fout == None then [OnderhoudGestart(id, kunstwerkId, datum)] else []
    {
      if status != Gepland {
        return Some(DomeinFout);
      }
      status := Gestart;
      gestartOp := Some(datum);
      this.contractId := OfOud(contractId, this.contractId);
      this.aannemerId := OfOud(aannemerId, this.aannemerId);
      events := events + [OnderhoudGestart(id, kunstwerkId, datum)];
      return None;
    }

    method RegistreerInspectie(i: Inspectie) returns (fout: Option<Fout>)
      modifies this
      ensures (Waarde(), fout) == NaInspectie(old(Waarde()), i) && events == old(events)
    {
      if status != Gestart {
        return Some(DomeinFout);
      }
      inspecties := inspecties + [i];
      return None;
    }

    method RondAf(resultaat: string, datum: int) returns (fout: Option<Fout>)
      modifies this
      ensures (Waarde(), fout) == NaRondAf(old(Waarde()), resultaat, datum)
      ensures events == old(events) +
        if fout == None then [OnderhoudAfgerond(id, kunstwerkId, resultaat, datum)] else []
    {
      if status != Gestart {
        return Some(DomeinFout);
      }
      if !HeeftGoedkeuring(inspecties) {
        return Some(DomeinFout);
      }
      status := Afgerond;
      afgerondOp := Some(datum);
      this.resultaat := Some(resultaat);
      events := events + [OnderhoudAfgerond(id, kunstwerkId, resultaat, datum)];
      return None;
    }

    method OntvangFactuur(id: string, centen: int, valuta: string, ontvangenOp: int) returns (fout: Option<Fout>)
      modifies this
      ensures (Waarde(), fout) == NaFactuur(old(Waarde()), id, centen, valuta, ontvangenOp) && events == old(events)
    {
      if status == Gepland {
        return Some(DomeinFout);
      }
      facturen := facturen + [Factuur(id, centen, valuta, Ontvangen, ontvangenOp)];
      return None;
    }

    method KeurFactuurGoed(factuurId: string) returns (fout: Option<Fout>)
      modifies this
      ensures (Waarde(), fout) == NaGoedkeuring(old(Waarde()), factuurId) && events == old(events)
    {
      var n := Plaats(facturen, factuurId);
      if n == |facturen| {
        return Some(DomeinFout);
      }
      if status != Afgerond {
        return Some(DomeinFout);
      }
      facturen := facturen[n := facturen[n].(status := Goedgekeurd)];
      return None;
    }
  }

  // ---------- rows ----------

  datatype Soort = SoortStoring | SoortDiagnose

  datatype OnderhoudRij = OnderhoudRij(
    onderhoudId: string, kunstwerkId: string, status: TrajectStatus, aanleidingSoort: Soort, storingId: Option<string>,
      incidentId: Option<string>,
    bevinding: Option<string>, ernst: Option<string>, contractId: Option<string>, aannemerId: Option<string>,
    gestartOp: Option<int>, afgerondOp: Option<int>, resultaat: Option<string>, inspecties: seq<Inspectie>,
      facturen: seq<Factuur>)

  function OnderhoudNaarEntity(t: TrajectWaarde): (e: OnderhoudRij) {
    var diagnose := t.aanleiding.VanDiagnose?;
    OnderhoudRij(
      t.id, t.kunstwerkId, t.status, if diagnose then SoortDiagnose else SoortStoring,
      if diagnose then None else Some(t.aanleiding.storingId),
      if diagnose then t.aanleiding.incidentId else None,
      if diagnose then Some(t.aanleiding.bevinding) else None,
      if diagnose then Some(ErnstTekst(t.aanleiding.ernst)) else None,
      t.contractId, t.aannemerId, t.gestartOp, t.afgerondOp, t.resultaat, t.inspecties, t.facturen)
  }

  /** A null or empty column reads as absent; white space would be refused by the id type. */
  function OptioneelId(kolom: Option<string>): (r: Result<Option<string>>) {
    if kolom == None || kolom.value == "" then Ok(None)
    else if Blanco(kolom.value) then Err(DomeinFout)
    else Ok(kolom)
  }

  function AanleidingVan(e: OnderhoudRij): (r: Result<Aanleiding>) {
    if e.aanleidingSoort == SoortStoring then
      var storingId := if e.storingId.Some? then e.storingId.value else "";
      if Blanco(storingId) then Err(DomeinFout) else Ok(VanStoring(storingId))
    else
      var incident := OptioneelId(e.incidentId);
      var ernst := ErnstVan(if e.ernst.Some? then e.ernst.value else "Laag");
      if incident.Err? || ernst.Err? then Err(DomeinFout)
      else Ok(VanDiagnose(incident.value, if e.bevinding.Some? then e.bevinding.value else "", ernst.value))
  }

  predicate InspectiesGeldig(inspecties: seq<Inspectie>) {
    forall i :: i in inspecties ==> !Blanco(i.id)
  }

  predicate FacturenGeldig(facturen: seq<Factuur>) {
    forall f :: f in facturen ==> !Blanco(f.id) && f.centen >= 0
  }

  function EntityNaarOnderhoud(e: OnderhoudRij): (r: Result<TrajectWaarde>) {
    var aanleiding, contractId, aannemerId := AanleidingVan(e), OptioneelId(e.contractId), OptioneelId(e.aannemerId);
    if aanleiding.Err? || contractId.Err? || aannemerId.Err? || Blanco(e.onderhoudId) || Blanco(e.kunstwerkId)
       || !InspectiesGeldig(e.inspecties) || !FacturenGeldig(e.facturen) then Err(DomeinFout)
    else Ok(TrajectWaarde(e.onderhoudId, e.kunstwerkId, aanleiding.value, e.status, contractId.value, aannemerId.value,
                          e.gestartOp, e.afgerondOp, e.resultaat, e.inspecties, e.facturen))
  }

  /** What the id and amount types of the domain guarantee of every aggregate. */
  predicate Welgevormd(t: TrajectWaarde) {
    && !Blanco(t.id) && !Blanco(t.kunstwerkId)
    && (t.contractId.Some? ==> !Blanco(t.contractId.value))
    && (t.aannemerId.Some? ==> !Blanco(t.aannemerId.value))
    && (match t.aanleiding
        case VanStoring(s) => !Blanco(s)
        case VanDiagnose(i, _, _) => i.Some? ==> !Blanco(i.value))
    && InspectiesGeldig(t.inspecties) && FacturenGeldig(t.facturen)
  }

  /** Save and reload gives back the same traject. */
  lemma TrajectRondreis(t: TrajectWaarde)
    requires Welgevormd(t)
    ensures EntityNaarOnderhoud(OnderhoudNaarEntity(t)) == Ok(t)
  {
  }

  /** Whatever reloads is well formed. */
  lemma GeladenIsWelgevormd(e: OnderhoudRij)
    requires EntityNaarOnderhoud(e).Ok?
    ensures Welgevormd(EntityNaarOnderhoud(e).value)
  {
  }

  /** Columns that a row leaves out: a diagnosis without severity reads as Laag, one without finding as empty, and an
      empty id as none. */
  lemma OntbrekendeKolommen(e: OnderhoudRij)
    requires EntityNaarOnderhoud(e).Ok? && e.aanleidingSoort == SoortDiagnose
    ensures var t := EntityNaarOnderhoud(e).value;
      && t.aanleiding.VanDiagnose?
      && (e.ernst == None ==> t.aanleiding.ernst == Laag) && (e.bevinding == None ==> t.aanleiding.bevinding == "")
      && (t.aanleiding.incidentId == None <==> e.incidentId == None || e.incidentId == Some(""))
      && (t.contractId == None <==> e.contractId == None || e.contractId == Some(""))
      && (t.aannemerId == None <==> e.aannemerId == None || e.aannemerId == Some(""))
  {
  }

  datatype StoringRij = StoringRij(storingId: string, kunstwerkId: string, omschrijving: string, ernst: string,
      status: StoringStatus, onderhoudId: Option<string>)

  function StoringNaarEntity(s: StoringWaarde): (e: StoringRij) {
    StoringRij(s.id, s.kunstwerkId, s.omschrijving, ErnstTekst(s.ernst), s.status, s.onderhoudId)
  }

  function EntityNaarStoring(e: StoringRij): (r: Result<StoringWaarde>) {
    var ernst, onderhoudId := ErnstVan(e.ernst), OptioneelId(e.onderhoudId);
    if ernst.Err? || onderhoudId.Err? || Blanco(e.storingId) || Blanco(e.kunstwerkId) then Err(DomeinFout)
    else Ok(StoringWaarde(e.storingId, e.kunstwerkId, e.omschrijving, ernst.value, e.status, onderhoudId.value))
  }

  lemma StoringRondreis(s: StoringWaarde)
    requires !Blanco(s.id) && !Blanco(s.kunstwerkId) && (s.onderhoudId.Some? ==> !Blanco(s.onderhoudId.value))
    ensures EntityNaarStoring(StoringNaarEntity(s)) == Ok(s)
  {
  }
}
