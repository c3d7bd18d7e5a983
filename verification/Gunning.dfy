/** Contract's use cases over tenders and contracts, and what they write to the outbox. */
module Gunning {
  import opened Gedeeld
  import opened Contractwaarden
  import opened Aanbesteding
  import opened Onderhoudscontract

  datatype Gebeurtenis =
    | VanTender(id: string, t: TenderEvent)
    | VanContract(c: ContractEvent)

  /** Tenders, contract rows, and the events written to the outbox so far. */
  datatype Db = Db(tenders: map<string, TenderWaarde>, contracten: map<string, ContractRij>, log: seq<Gebeurtenis>)

  // ---------- what the use cases do ----------

  function NaPublicatie(db: Db, id: string, kunstwerkId: string, sluitingsdatum: int, prijsgewicht: real,
      kwaliteitsgewicht: real):
      (r: (Db, Result<string>))
  {
    var criteria := CriteriaVan(prijsgewicht, kwaliteitsgewicht);
    if Blanco(id) || Blanco(kunstwerkId) || criteria.Err? then (db, Err(DomeinFout))
    else
      var t := TenderWaarde(id, kunstwerkId, sluitingsdatum, criteria.value, Gepubliceerd, []);
      (db.(tenders := db.tenders[id := t],
           log := db.log + [VanTender(id, AanbestedingGepubliceerd(id, kunstwerkId, sluitingsdatum, criteria.value))]),
             Ok(id))
  }

  /** The bid as it arrives, with its price in euro. */
  datatype Bod = Bod(id: string, aannemer: string, prijs: real, kwaliteit: real)

  function InschrijvingVan(b: Bod): (r: Result<Inschrijving>) {
    var prijs := VanEuro(b.prijs);
    if Blanco(b.aannemer) || prijs.Err? then Err(DomeinFout)
      else Ok(Inschrijving(b.id, b.aannemer, prijs.value, b.kwaliteit))
  }

  function NaBod(db: Db, id: string, b: Bod): (r: (Db, Option<Fout>)) {
    if Blanco(id) || id !in db.tenders then (db, Some(DomeinFout))
    else
      var i := InschrijvingVan(b);
      if i.Err? then (db, Some(DomeinFout))
      else
        var (t, fout) := NaInschrijving(db.tenders[id], i.value);
        if fout.Some? then (db, fout)
        else (db.(tenders := db.tenders[id := t], log :=
          db.log + [VanTender(id, InschrijvingOntvangen(b.aannemer, Euro(i.value.prijs), b.kwaliteit))]), None)
  }

  /** `toegestaan` is the read-model check under the configured strictness. */
  datatype GunCommand = GunCommand(id: string, start: int, eind: int, toegestaan: bool, contractId: string, elders: nat)

  function NieuwContract(t: TenderWaarde, u: Uitslag, c: GunCommand): (r: ContractWaarde) {
    ContractWaarde(c.contractId, t.kunstwerkId, u.winnaar, Periode(c.start, c.eind), u.prijs, Some(t.id), Actief,
      [], [])
  }

  /** The tender is saved as awarded before the period is checked; a refusal after that leaves it awarded, without a
      contract or an event. */
  function NaGunning(db: Db, c: GunCommand): (r: (Db, Result<string>)) {
    if Blanco(c.id) || c.id !in db.tenders || !c.toegestaan then (db, Err(DomeinFout))
    else
      var (t, u) := NaGun(db.tenders[c.id], c.elders);
      if u.Err? then (db, Err(u.fout))
      else
        var db' := db.(tenders := db.tenders[c.id := t]);
        if Blanco(c.contractId) || PeriodeVan(c.start, c.eind).Err? then (db', Err(DomeinFout))
        else
          var nieuw := NieuwContract(t, u.value, c);
          var events := [VanTender(c.id, AanbestedingGegund(u.value.winnaar, u.value.emvi)),
                         VanContract(ContractGegund(nieuw.id, nieuw.kunstwerkId, nieuw.opdrachtnemer, nieuw.looptijd))];
          (db'.(contracten := db.contracten[c.contractId := NaarRij(nieuw)], log := db.log + events), Ok(c.contractId))
  }

  function NaContractopdracht(db: Db, id: string, o: Opdracht): (r: (Db, Option<Fout>)) {
    if Blanco(id) || id !in db.contracten then (db, Some(DomeinFout))
    else
      var c := VanRij(db.contracten[id]);
      if c.Err? then (db, Some(c.fout))
      else
        var na := Na(c.value, o);
        if na.Err? then (db, Some(na.fout))
        else (db.(contracten := db.contracten[id := NaarRij(na.value)], log :=
          db.log + [VanContract(EventVan(c.value, o))]), None)
  }

  class ContractService {
    var tenders: map<string, TenderWaarde>
    var contracten: map<string, ContractRij>
    var log: seq<Gebeurtenis>

    function Waarde(): (w: Db)
      reads this
    {
      Db(tenders, contracten, log)
    }

    constructor ()
      ensures Waarde() == Db(map[], map[], [])
    {
      tenders, contracten, log := map[], map[], [];
    }

    method PubliceerAanbesteding(id: string, kunstwerkId: string, sluitingsdatum: int, prijsgewicht: real,
        kwaliteitsgewicht: real)
        returns (r: Result<string>)
      modifies this
      ensures (Waarde(), r) ==
        NaPublicatie(old(Waarde()), id, kunstwerkId, sluitingsdatum, prijsgewicht, kwaliteitsgewicht)
    {
      if Blanco(id) || Blanco(kunstwerkId) {
        return Err(DomeinFout);
      }
      var criteria := CriteriaVan(prijsgewicht, kwaliteitsgewicht);
      if criteria.Err? {
        return Err(DomeinFout);
      }
      var tender := new Tender.Publiceer(id, kunstwerkId, sluitingsdatum, criteria.value);
      tenders := tenders[id := tender.Waarde()];
      log := log + [VanTender(id, tender.events[0])];
      return Ok(id);
    }

    method OntvangInschrijving(id: string, b: Bod) returns (fout: Option<Fout>)
      modifies this
      ensures (Waarde(), fout) == NaBod(old(Waarde()), id, b)
    {
      if Blanco(id) || id !in tenders {
        return Some(DomeinFout);
      }
      var inschrijving := InschrijvingVan(b);
      if inschrijving.Err? {
        return Some(DomeinFout);
      }
      var tender := new Tender.Herstel(tenders[id]);
      fout := tender.OntvangInschrijving(inschrijving.value);
      if fout == None {
        tenders := tenders[id := tender.Waarde()];
        log := log + [VanTender(id, tender.events[0])];
      }
    }

    method GunAanbesteding(c: GunCommand) returns (r: Result<string>)
      modifies this
      ensures (Waarde(), r) == NaGunning(old(Waarde()), c)
    {
      if Blanco(c.id) || c.id !in tenders || !c.toegestaan {
        return Err(DomeinFout);
      }
      var tender := new Tender.Herstel(tenders[c.id]);
      var uitslag := tender.Gun(c.elders);
      if uitslag.Err? {
        return Err(uitslag.fout);
      }
      tenders := tenders[c.id := tender.Waarde()];
      var looptijd := PeriodeVan(c.start, c.eind);
      if Blanco(c.contractId) || looptijd.Err? {
        return Err(DomeinFout);
      }
      var contract :=
        new Contract.Gun(c.contractId, tender.kunstwerkId, uitslag.value.winnaar, looptijd.value, uitslag.value.prijs,
        Some(tender.id));
      contracten := contracten[c.contractId := NaarRij(contract.Waarde())];
      log := log + [VanTender(c.id, tender.events[0]), VanContract(contract.events[0])];
      return Ok(c.contractId);
    }

    /** Approve a change, draw up a performance statement, round off: load, act, save, publish. */
    method VoerContractopdrachtUit(id: string, o: Opdracht) returns (fout: Option<Fout>)
      modifies this
      ensures (Waarde(), fout) == NaContractopdracht(old(Waarde()), id, o)
    {
      if Blanco(id) || id !in contracten {
        return Some(DomeinFout);
      }
      var geladen := VanRij(contracten[id]);
      if geladen.Err? {
        return Some(geladen.fout);
      }
      var contract := new Contract.Herstel(geladen.value);
      match o {
        case Wijzig(w) => fout := contract.KeurWijzigingGoed(w);
        case Verklaar(p) => fout := contract.StelPrestatieverklaringOp(p);
        case RondAf(datum) => fout := contract.RondContractAf(datum);
      }
      if fout == None {
        contracten := contracten[id := NaarRij(contract.Waarde())];
        log := log + [VanContract(contract.events[0])];
      }
    }
  }
}
