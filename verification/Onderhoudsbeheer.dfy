/** Onderhoud's use cases over the two tables, and the link between storing and traject. */
module Onderhoudsbeheer {
  import opened Gedeeld
  import opened Onderhoud

  datatype Db = Db(storingen: map<string, StoringRij>, trajecten: map<string, OnderhoudRij>)

  function ZoekTraject(db: Db, id: string): (r: Result<TrajectWaarde>) {
    if Blanco(id) || id !in db.trajecten then Err(DomeinFout) else EntityNaarOnderhoud(db.trajecten[id])
  }

  function MetTraject(db: Db, t: TrajectWaarde): (r: Db) {
    db.(trajecten := db.trajecten[t.id := OnderhoudNaarEntity(t)])
  }

  function MetStoring(db: Db, s: StoringWaarde): (r: Db) {
    db.(storingen := db.storingen[s.id := StoringNaarEntity(s)])
  }

  // ---------- what the use cases do ----------

  datatype Melding = Melding(kunstwerkId: string, omschrijving: string, ernst: string)

  /** `toegestaan` is the outcome of the read-model check under the configured strictness. */
  function NaMelding(db: Db, m: Melding, toegestaan: bool, storingId: string, onderhoudId: string):
      (r: (Db, Result<Option<string>>)) {
    if Blanco(m.kunstwerkId) || ErnstVan(m.ernst).Err? || !toegestaan || Blanco(storingId) || Blanco(m.omschrijving)
      then (db, Err(DomeinFout))
    else
      var ernst := ErnstVan(m.ernst).value;
      var s := StoringWaarde(storingId, m.kunstwerkId, m.omschrijving, ernst, Gemeld, None);
      if !VereistOnderhoud(ernst) then (MetStoring(db, s), Ok(None))
      else if Blanco(onderhoudId) then (db, Err(DomeinFout))
      else (MetStoring(MetTraject(db, Plan(onderhoudId, m.kunstwerkId, VanStoring(storingId))),
        NaKoppeling(s, onderhoudId).0), Ok(Some(onderhoudId)))
  }

  datatype DiagnoseCommand = DiagnoseCommand(kunstwerkId: string, incidentId: Option<string>, bevinding: string,
      ernst: string)

  function NaDiagnose(db: Db, c: DiagnoseCommand, onderhoudId: string): (r: (Db, Result<Option<string>>)) {
    var ernst, incidentId := ErnstVan(c.ernst), OptioneelId(c.incidentId);
    if ernst.Err? then (db, Err(DomeinFout))
    else if !VereistOnderhoud(ernst.value) then (db, Ok(None))
    else if Blanco(onderhoudId) || Blanco(c.kunstwerkId) || incidentId.Err? then (db, Err(DomeinFout))
    else (MetTraject(db, Plan(onderhoudId, c.kunstwerkId, VanDiagnose(incidentId.value, c.bevinding, ernst.value))),
      Ok(Some(onderhoudId)))
  }

  /** The commands that load one traject, change it and save it. `contractId` is the current contract found, if any,
      and `streng` the configured strictness, under which a start needs one. */
  datatype Actie =
    | Starten(datum: int, contractId: Option<string>, streng: bool)
    | Inspecteren(inspectie: Inspectie)
    | Factureren(factuurId: string, centen: int, ontvangenOp: int)
    | Goedkeuren(factuurId: string)

  function NaActie(t: TrajectWaarde, a: Actie): (r: (TrajectWaarde, Option<Fout>)) {
    match a
    case Starten(datum, contractId, streng) =>
      if contractId == None && streng then (t, Some(DomeinFout))
      else if contractId.Some? && Blanco(contractId.value) then (t, Some(DomeinFout))
      else NaStart(t, datum, contractId, None)
    case Inspecteren(i) => if Blanco(i.id) then (t, Some(DomeinFout)) else NaInspectie(t, i)
    case Factureren(id, centen, op) => if Blanco(id) || centen < 0 then (t, Some(DomeinFout))
      else NaFactuur(t, id, centen, "EUR", op)
    case Goedkeuren(id) => if Blanco(id) then (t, Some(DomeinFout)) else NaGoedkeuring(t, id)
  }

  function NaTrajectActie(db: Db, id: string, a: Actie): (r: (Db, Option<Fout>)) {
    var t := ZoekTraject(db, id);
    if t.Err? then (db, Some(DomeinFout))
    else
      var (t', fout) := NaActie(t.value, a);
      if fout.Some? then (db, fout) else (MetTraject(db, t'), None)
  }

  function NaAfronding(db: Db, id: string, resultaat: string, datum: int): (r: (Db, Option<Fout>)) {
    var t := ZoekTraject(db, id);
    if t.Err? then (db, Some(DomeinFout))
    else
      var (t', fout) := NaRondAf(t.value, resultaat, datum);
      if fout.Some? then (db, fout)
      else
        var db' := MetTraject(db, t');
        if t'.aanleiding.VanStoring? && t'.aanleiding.storingId in db'.storingen then
          var s := EntityNaarStoring(db'.storingen[t'.aanleiding.storingId]);
          if s.Err? then (db', Some(DomeinFout))
          else if s.value.status != Afgehandeld then (MetStoring(db', NaAfhandeling(s.value).0), None)
          else (db', None)
        else (db', None)
  }

  // ---------- what the use cases publish ----------

  function MeldingEvents(db: Db, m: Melding, toegestaan: bool, storingId: string, onderhoudId: string):
      (r: seq<OnderhoudEvent>) {
    if NaMelding(db, m, toegestaan, storingId, onderhoudId).1.Ok?
      then [StoringGemeld(storingId, m.kunstwerkId, m.omschrijving)] else []
  }

  /** Of these commands only a start publishes. */
  function ActieEvents(db: Db, id: string, a: Actie): (r: seq<OnderhoudEvent>) {
    if a.Starten? && NaTrajectActie(db, id, a).1 == None then
      var t := ZoekTraject(db, id).value;
      [OnderhoudGestart(t.id, t.kunstwerkId, a.datum)]
    else []
  }

  function AfrondingEvents(db: Db, id: string, resultaat: string, datum: int): (r: seq<OnderhoudEvent>) {
    if NaAfronding(db, id, resultaat, datum).1 == None then
      var t := ZoekTraject(db, id).value;
      [OnderhoudAfgerond(t.id, t.kunstwerkId, resultaat, datum)]
    else []
  }

  class OnderhoudService {
    var storingen: map<string, StoringRij>
    var trajecten: map<string, OnderhoudRij>
    var gepubliceerd: seq<OnderhoudEvent>

    function Waarde(): (w: Db)
      reads this
    {
      Db(storingen, trajecten)
    }

    constructor ()
      ensures Waarde() == Db(map[], map[]) && gepubliceerd == []
    {
      storingen, trajecten, gepubliceerd := map[], map[], [];
    }

    method BewaarStoring(s: Storing)
      modifies this`storingen
      ensures Waarde() == MetStoring(old(Waarde()), s.Waarde())
    {
      storingen := storingen[s.id := StoringNaarEntity(s.Waarde())];
    }

    method BewaarTraject(t: Traject)
      modifies this`trajecten
      ensures Waarde() == MetTraject(old(Waarde()), t.Waarde())
    {
      trajecten := trajecten[t.id := OnderhoudNaarEntity(t.Waarde())];
    }

    method MeldStoring(m: Melding, bekend: bool, streng: bool, storingId: string, onderhoudId: string)
        returns (r: Result<Option<string>>)
      modifies this
      ensures (Waarde(), r) == NaMelding(old(Waarde()), m, bekend || !streng, storingId, onderhoudId)
      ensures gepubliceerd == old(gepubliceerd) +
        MeldingEvents(old(Waarde()), m, bekend || !streng, storingId, onderhoudId)
    {
      if Blanco(m.kunstwerkId) {
        return Err(DomeinFout);
      }
      var ernst := ErnstVan(m.ernst);
      if ernst.Err? {
        return Err(DomeinFout);
      }
      if !bekend {
        if streng {
          return Err(DomeinFout);
        }
      }
      if Blanco(storingId) || Blanco(m.omschrijving) {
        return Err(DomeinFout);
      }
      var storing := new Storing.Meld(storingId, m.kunstwerkId, m.omschrijving, ernst.value);
      r := Ok(None);
      if VereistOnderhoud(ernst.value) {
        if Blanco(onderhoudId) {
          return Err(DomeinFout);
        }
        var traject := new Traject.Herstel(Plan(onderhoudId, m.kunstwerkId, VanStoring(storingId)));
        var _ := storing.KoppelAanOnderhoud(onderhoudId);
        BewaarTraject(traject);
        r := Ok(Some(onderhoudId));
      }
      BewaarStoring(storing);
      gepubliceerd := gepubliceerd + storing.events;
    }

    method StelDiagnose(c: DiagnoseCommand, onderhoudId: string) returns (r: Result<Option<string>>)
      modifies this`trajecten
      ensures (Waarde(), r) == NaDiagnose(old(Waarde()), c, onderhoudId)
    {
      var ernst := ErnstVan(c.ernst);
      if ernst.Err? {
        return Err(DomeinFout);
      }
      if !VereistOnderhoud(ernst.value) {
        return Ok(None);
      }
      var incidentId := OptioneelId(c.incidentId);
      if Blanco(onderhoudId) || Blanco(c.kunstwerkId) || incidentId.Err? {
        return Err(DomeinFout);
      }
      var traject := new Traject.Herstel(Plan(onderhoudId, c.kunstwerkId,
        VanDiagnose(incidentId.value, c.bevinding, ernst.value)));
      BewaarTraject(traject);
      return Ok(Some(onderhoudId));
    }

    /** Start, inspection, invoice and approval: load, change, save. */
    method VoerUit(id: string, a: Actie) returns (fout: Option<Fout>)
      modifies this
      ensures (Waarde(), fout) == NaTrajectActie(old(Waarde()), id, a)
      ensures gepubliceerd == old(gepubliceerd) + ActieEvents(old(Waarde()), id, a)
    {
      var geladen := ZoekTraject(Waarde(), id);
      if geladen.Err? {
        return Some(DomeinFout);
      }
      var traject := new Traject.Herstel(geladen.value);
      match a {
        case Starten(datum, contractId, streng) =>
          if contractId == None && streng {
            return Some(DomeinFout);
          }
          if contractId.Some? && Blanco(contractId.value) {
            return Some(DomeinFout);
          }
          fout := traject.Start(datum, contractId, None);
        case Inspecteren(i) =>
          if Blanco(i.id) {
            return Some(DomeinFout);
          }
          fout := traject.RegistreerInspectie(i);
        case Factureren(factuurId, centen, op) =>
          if Blanco(factuurId) || centen < 0 {
            return Some(DomeinFout);
          }
          fout := traject.OntvangFactuur(factuurId, centen, "EUR", op);
        case Goedkeuren(factuurId) =>
          if Blanco(factuurId) {
            return Some(DomeinFout);
          }
          fout := traject.KeurFactuurGoed(factuurId);
      }
      if fout == None {
        BewaarTraject(traject);
        gepubliceerd := gepubliceerd + traject.events;
      }
    }

    method RondOnderhoudAf(id: string, resultaat: string, datum: int) returns (fout: Option<Fout>)
      modifies this
      ensures (Waarde(), fout) == NaAfronding(old(Waarde()), id, resultaat, datum)
      ensures gepubliceerd == old(gepubliceerd) + AfrondingEvents(old(Waarde()), id, resultaat, datum)
    {
      var geladen := ZoekTraject(Waarde(), id);
      if geladen.Err? {
        return Some(DomeinFout);
      }
      var traject := new Traject.Herstel(geladen.value);
      fout := traject.RondAf(resultaat, datum);
      if fout.Some? {
        return;
      }
      BewaarTraject(traject);
      if traject.aanleiding.VanStoring? && traject.aanleiding.storingId in storingen {
        var gevonden := EntityNaarStoring(storingen[traject.aanleiding.storingId]);
        if gevonden.Err? {
          return Some(DomeinFout);
        }
        if gevonden.value.status != Afgehandeld {
          var storing := new Storing.Herstel(gevonden.value);
          var _ := storing.HandelAf();
          BewaarStoring(storing);
        }
      }
      gepubliceerd := gepubliceerd + traject.events;
    }
  }
}
