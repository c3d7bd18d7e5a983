/** Beheer's requirement packages and report judgements under one unit of work. */
module Beheer {
  import opened Gedeeld
  import opened Eisenoordeel

  datatype EisenSoort = Onderhoudseisen | Ontwerpeisen
  datatype PakketStatus = Vastgesteld | Vervangen

  datatype Pakket = Pakket(
    id: string, kunstwerkId: string, soort: EisenSoort, versie: int, status: PakketStatus, eisen: seq<Eis>,
    strategie: Option<string>, vastgesteldOp: int, gewijzigdOp: int)

  datatype RapportageType = Netwerkrapportage | Onderhoudsrapport

  datatype Beoordeling = Beoordeling(
    id: string, externRapportId: string, bronEventId: string, kunstwerkId: string, type_: RapportageType,
      ontvangenOp: int,
    pakketId: Option<string>, resultaat: Resultaat, bevindingen: seq<Bevinding>, aangemaaktOp: int)

  datatype EisenCommand = EisenCommand(kunstwerkId: string, soort: EisenSoort, eisen: seq<Eis>,
      strategie: Option<string>)

  datatype RapportCommand = RapportCommand(
    bronEventId: string, externRapportId: string, kunstwerkId: string, waarden: Waarden, type_: RapportageType,
      soort: EisenSoort, ontvangenOp: int)

  /** The columns of a kunstwerk that registration fills from checked input. */
  datatype Kunstwerk = Kunstwerk(naam: string, type_: string, locatie: string, status: string)

  datatype RegistreerCommand = RegistreerCommand(id: Option<string>, naam: string, type_: string, locatie: string,
      status: string)

  datatype Gegevens = Gegevens(kunstwerken: map<string, Kunstwerk>, pakketten: seq<Pakket>,
      beoordelingen: seq<Beoordeling>, verwerkt: set<string>)

  // ---------- queries ----------

  function Van(pakketten: seq<Pakket>, k: string, s: EisenSoort): (r: seq<Pakket>) {
    Filter((p: Pakket) => p.kunstwerkId == k && p.soort == s, pakketten)
  }

  /** The established package with the highest version. */
  function Hoogste(v: seq<Pakket>): (r: Option<Pakket>)
    ensures r == None <==> forall p :: p in v ==> p.status != Vastgesteld
    ensures r.Some? ==>
      r.value in v && r.value.status == Vastgesteld && forall p :: p in v && p.status == Vastgesteld ==>
      p.versie <= r.value.versie
  {
    if v == [] then None
    else
      var laatste, rest := v[|v| - 1], Hoogste(v[..|v| - 1]);
      assert v == v[..|v| - 1] + [laatste];
      if laatste.status == Vastgesteld && (rest == None || laatste.versie >= rest.value.versie) then Some(laatste)
        else rest
  }

  function GetCurrent(g: Gegevens, k: string, s: EisenSoort): (r: Option<Pakket>) {
    Hoogste(Van(g.pakketten, k, s))
  }

  function MaxVersie(v: seq<Pakket>): (r: int) {
    if v == [] then 0
    else
      var rest := MaxVersie(v[..|v| - 1]);
      if v[|v| - 1].versie > rest then v[|v| - 1].versie else rest
  }

  function NextVersion(g: Gegevens, k: string, s: EisenSoort): (r: int) {
    MaxVersie(Van(g.pakketten, k, s)) + 1
  }

  function GetByBron(beoordelingen: seq<Beoordeling>, id: string): (r: Option<Beoordeling>)
    ensures r.Some? ==> r.value in beoordelingen && r.value.bronEventId == id
    ensures r == None ==> forall b :: b in beoordelingen ==> b.bronEventId != id
  {
    if beoordelingen == [] then None
    else if beoordelingen[0].bronEventId == id then Some(beoordelingen[0])
    else GetByBron(beoordelingen[1..], id)
  }

  /** Saving a package writes the row with its id. */
  function Opgeslagen(pakketten: seq<Pakket>, p: Pakket): (r: seq<Pakket>)
    ensures |r| == |pakketten|
  {
    seq(|pakketten|, i requires 0 <= i < |pakketten| => if pakketten[i].id == p.id then p else pakketten[i])
  }

  function Gemarkeerd(p: Pakket, nu: int): (r: Pakket) {
    if p.status == Vervangen then p else p.(status := Vervangen, gewijzigdOp := nu)
  }

  // ---------- what the use cases do to the committed data ----------

  predicate Wit(c: char) {
    c in " \t\n\r"
  }

  function ZonderKop(s: string): (r: string)
    ensures |r| <= |s| && r == s[|s| - |r|..] && Blanco(s[..|s| - |r|])
    ensures r != "" ==> !Wit(r[0])
  {
    if s == "" || !Wit(s[0]) then s else ZonderKop(s[1..])
  }

  function ZonderStaart(s: string): (r: string)
    ensures |r| <= |s| && r == s[..|r|] && Blanco(s[|r|..])
    ensures r != "" ==> !Wit(r[|r| - 1])
  {
    if s == "" || !Wit(s[|s| - 1]) then s else ZonderStaart(s[..|s| - 1])
  }

  /** strip(): the white space at both ends is gone. */
  function Gestript(s: string): (r: string) {
    ZonderStaart(ZonderKop(s))
  }

  /** An absent or empty id is replaced by a generated one. */
  function NaRegistratie(g: Gegevens, c: RegistreerCommand, nieuwId: string): (r: (Gegevens, Result<string>)) {
    var id := if c.id == None || c.id == Some("") then nieuwId else c.id.value;
    if Blanco(id) then (g, Err(DomeinFout))
    else if id in g.kunstwerken then (g, Err(Conflict))
    else if Blanco(c.locatie) || Blanco(c.naam) then (g, Err(DomeinFout))
    else (g.(kunstwerken := g.kunstwerken[id := Kunstwerk(Gestript(c.naam), c.type_, c.locatie, c.status)]), Ok(id))
  }

  function MetVervangen(g: Gegevens, k: string, s: EisenSoort, nu: int): (r: Gegevens) {
    match GetCurrent(g, k, s)
    case None => g
    case Some(p) => g.(pakketten := Opgeslagen(g.pakketten, Gemarkeerd(p, nu)))
  }

  function NieuwPakket(g: Gegevens, c: EisenCommand, nieuwId: string, nu: int): (r: Pakket) {
    Pakket(nieuwId, c.kunstwerkId, c.soort,
      NextVersion(MetVervangen(g, c.kunstwerkId, c.soort, nu), c.kunstwerkId, c.soort),
           Vastgesteld, c.eisen, c.strategie, nu, nu)
  }

  function NaStelEisenVast(g: Gegevens, c: EisenCommand, nieuwId: string, nu: int): (r: (Gegevens, Result<Pakket>)) {
    if Blanco(c.kunstwerkId) then (g, Err(DomeinFout))
    else if c.kunstwerkId !in g.kunstwerken then (g, Err(NietGevonden))
    else
      var p := NieuwPakket(g, c, nieuwId, nu);
      if Blanco(nieuwId) || p.versie < 1 || c.eisen == [] then (g, Err(DomeinFout))
      else
        var g' := MetVervangen(g, c.kunstwerkId, c.soort, nu);
        (g'.(pakketten := g'.pakketten + [p]), Ok(p))
  }

  function NieuweBeoordeling(g: Gegevens, c: RapportCommand, nieuwId: string, nu: int): (r: Beoordeling) {
    var pakket := GetCurrent(g, c.kunstwerkId, c.soort);
    var (resultaat, bevindingen) := Oordeel(if pakket.Some? then Some(pakket.value.eisen) else None, c.waarden);
    Beoordeling(nieuwId, c.externRapportId, c.bronEventId, c.kunstwerkId, c.type_, c.ontvangenOp,
                if pakket.Some? then Some(pakket.value.id) else None, resultaat, bevindingen, nu)
  }

  function NaVerwerkRapport(g: Gegevens, c: RapportCommand, nieuwId: string, nu: int):
      (r: (Gegevens, Result<Beoordeling>)) {
    if Blanco(c.kunstwerkId) then (g, Err(DomeinFout))
    else
      var bestaand := GetByBron(g.beoordelingen, c.bronEventId);
      if bestaand.Some? then (g, Ok(bestaand.value))
      else if c.bronEventId in g.verwerkt then (g, Err(Conflict))
      else if c.kunstwerkId !in g.kunstwerken then (g, Err(NietGevonden))
      else if Blanco(nieuwId) || Blanco(c.externRapportId) || Blanco(c.bronEventId) then (g, Err(DomeinFout))
      else
        var b := NieuweBeoordeling(g, c, nieuwId, nu);
        (g.(beoordelingen := g.beoordelingen + [b], verwerkt := g.verwerkt + {c.bronEventId}), Ok(b))
  }

  // ---------- the unit of work and the use cases on it ----------

  class UnitOfWork {
    var db: Gegevens
    var sessie: Gegevens

    constructor ()
      ensures db == Gegevens(map[], [], [], {})
    {
      db := Gegevens(map[], [], [], {});
      sessie := Gegevens(map[], [], [], {});
    }

    method Begin()
      modifies this`sessie
      ensures sessie == db
    {
      sessie := db;
    }

    method Commit()
      modifies this`db
      ensures db == sessie
    {
      db := sessie;
    }

    method Rollback()
      modifies this`sessie
      ensures sessie == db
    {
      sessie := db;
    }

    method RegistreerKunstwerk(c: RegistreerCommand, nieuwId: string) returns (r: Result<string>)
      modifies this
      ensures (db, r) == NaRegistratie(old(db), c, nieuwId)
    {
      var id := if c.id == None || c.id == Some("") then nieuwId else c.id.value;
      if Blanco(id) {
        return Err(DomeinFout);
      }
      Begin();
      if id in sessie.kunstwerken {
        Rollback();
        return Err(Conflict);
      }
      if Blanco(c.locatie) {
        Rollback();
        return Err(DomeinFout);
      }
      if Blanco(c.naam) {
        Rollback();
        return Err(DomeinFout);
      }
      sessie := sessie.(kunstwerken :=
        sessie.kunstwerken[id := Kunstwerk(Gestript(c.naam), c.type_, c.locatie, c.status)]);
      Commit();
      return Ok(id);
    }

    /** A refusal after the old package was already marked leaves the committed data as they were. */
    method StelEisenVast(c: EisenCommand, nieuwId: string, nu: int) returns (r: Result<Pakket>)
      modifies this
      ensures (db, r) == NaStelEisenVast(old(db), c, nieuwId, nu)
      ensures r.Err? ==> db == old(db)
    {
      if Blanco(c.kunstwerkId) {
        return Err(DomeinFout);
      }
      Begin();
      if c.kunstwerkId !in sessie.kunstwerken {
        Rollback();
        return Err(NietGevonden);
      }
      var current := GetCurrent(sessie, c.kunstwerkId, c.soort);
      if current.Some? {
        var vervangen := Gemarkeerd(current.value, nu);
        sessie := sessie.(pakketten := Opgeslagen(sessie.pakketten, vervangen));
      }
      var versie := NextVersion(sessie, c.kunstwerkId, c.soort);
      if Blanco(nieuwId) || versie < 1 || |c.eisen| == 0 {
        Rollback();
        return Err(DomeinFout);
      }
      var p := Pakket(nieuwId, c.kunstwerkId, c.soort, versie, Vastgesteld, c.eisen, c.strategie, nu, nu);
      sessie := sessie.(pakketten := sessie.pakketten + [p]);
      Commit();
      return Ok(p);
    }

    /** Judgement and processed-event row are committed together. */
    method VerwerkRapport(c: RapportCommand, nieuwId: string, nu: int) returns (r: Result<Beoordeling>)
      modifies this
      ensures (db, r) == NaVerwerkRapport(old(db), c, nieuwId, nu)
    {
      if Blanco(c.kunstwerkId) {
        return Err(DomeinFout);
      }
      Begin();
      var bestaand := GetByBron(sessie.beoordelingen, c.bronEventId);
      if bestaand.Some? {
        return Ok(bestaand.value);
      }
      if c.bronEventId in sessie.verwerkt {
        // the code looks once more; the same session gives the same answer
        bestaand := GetByBron(sessie.beoordelingen, c.bronEventId);
        assert bestaand == None;
        Rollback();
        return Err(Conflict);
      }
      if c.kunstwerkId !in sessie.kunstwerken {
        Rollback();
        return Err(NietGevonden);
      }
      var pakket := GetCurrent(sessie, c.kunstwerkId, c.soort);
      var resultaat, bevindingen := Beoordeel(if pakket.Some? then Some(pakket.value.eisen) else None, c.waarden);
      if Blanco(nieuwId) || Blanco(c.externRapportId) || Blanco(c.bronEventId) {
        Rollback();
        return Err(DomeinFout);
      }
      var b := Beoordeling(nieuwId, c.externRapportId, c.bronEventId, c.kunstwerkId, c.type_, c.ontvangenOp,
                           if pakket.Some? then Some(pakket.value.id) else None, resultaat, bevindingen, nu);
      sessie := sessie.(beoordelingen := sessie.beoordelingen + [b]);
      sessie := sessie.(verwerkt := sessie.verwerkt + {c.bronEventId});
      Commit();
      return Ok(b);
    }
  }
}
