/** Requirement packages over runs: every version carries what its own command asked for, and reports are judged by
    the last command. */
module Pakketruns {
  import opened Gedeeld
  import opened Eisenoordeel
  import opened Beheer
  import opened Beheerruns

  predicate Geaccepteerd(g: Gegevens, c: EisenCommand, nieuwId: string) {
    !Blanco(c.kunstwerkId) && c.kunstwerkId in g.kunstwerken && !Blanco(nieuwId) && c.eisen != []
  }

  /** A command is accepted exactly for a registered kunstwerk and at least one requirement; otherwise nothing
      changes. */
  lemma StelVastAanvaard(g: Gegevens, c: EisenCommand, id: string, nu: int)
    requires VersiesKloppen(g.pakketten)
    ensures NaStelEisenVast(g, c, id, nu).1.Ok? <==> Geaccepteerd(g, c, id)
    ensures NaStelEisenVast(g, c, id, nu).1 == Err(NietGevonden) <==>
      !Blanco(c.kunstwerkId) && c.kunstwerkId !in g.kunstwerken
    ensures !Geaccepteerd(g, c, id) ==> NaStelEisenVast(g, c, id, nu).0 == g
  {
    VolgendeVersie(g, c, id, nu);
  }

  /** What the current package says after an accepted command. */
  predicate Draagt(p: Pakket, id: string, c: EisenCommand) {
    p.id == id && p.kunstwerkId == c.kunstwerkId && p.soort == c.soort && p.eisen == c.eisen
      && p.strategie == c.strategie
  }

  /** After an accepted command the current package of its key is that command's, established now, and the one before
      it is the old one, replaced now. */
  lemma HuidigIsOpdracht(g: Gegevens, c: EisenCommand, id: string, nu: int)
    requires VersiesKloppen(g.pakketten) && Geaccepteerd(g, c, id)
    ensures var na := GetCurrent(NaStelEisenVast(g, c, id, nu).0, c.kunstwerkId, c.soort);
      na.Some? && Draagt(na.value, id, c) && na.value.vastgesteldOp == na.value.gewijzigdOp == nu
        && NaStelEisenVast(g, c, id, nu).1 == Ok(na.value)
    ensures var v, v' := Van(g.pakketten, c.kunstwerkId, c.soort),
        Van(NaStelEisenVast(g, c, id, nu).0.pakketten, c.kunstwerkId, c.soort);
      && |v'| == |v| + 1 && (forall i :: 0 <= i < |v| - 1 ==> v'[i] == v[i])
      && (v != [] ==> v'[|v| - 1] == v[|v| - 1].(status := Vervangen, gewijzigdOp := nu))
  {
    StelVastAanvaard(g, c, id, nu);
    StelVastReeks(g, c, id, nu, c.kunstwerkId, c.soort);
    ReeksQueries(Van(NaStelEisenVast(g, c, id, nu).0.pakketten, c.kunstwerkId, c.soort));
  }

  // ---------- over runs ----------

  datatype Opdracht = Opdracht(id: string, c: EisenCommand)

  function Erbij(s: Systeem, stap: Stap, k: string, soort: EisenSoort): (r: seq<Opdracht>) {
    if stap.StelVast? && stap.eisen.kunstwerkId == k && stap.eisen.soort == soort
      && Geaccepteerd(s.db, stap.eisen, stap.nieuwId)
    then [Opdracht(stap.nieuwId, stap.eisen)] else []
  }

  /** The commands for one key that the run accepted, in order. */
  function Opdrachten(ss: seq<Systeem>, stappen: seq<Stap>, n: nat, k: string, soort: EisenSoort): (r: seq<Opdracht>)
    requires n <= |stappen| && n <= |ss|
  {
    if n == 0 then [] else Opdrachten(ss, stappen, n - 1, k, soort) + Erbij(ss[n - 1], stappen[n - 1], k, soort)
  }

  ghost predicate Volgt(v: seq<Pakket>, os: seq<Opdracht>) {
    |v| == |os| && forall i :: 0 <= i < |v| ==> Draagt(v[i], os[i].id, os[i].c)
  }

  lemma VolgtNog(v: seq<Pakket>, v': seq<Pakket>, os: seq<Opdracht>, erbij: seq<Opdracht>)
    requires Volgt(v, os) && Voortgezet(v, v') && |v'| == |v| + |erbij| && |erbij| <= 1
    requires erbij != [] ==> Draagt(v'[|v|], erbij[0].id, erbij[0].c)
    ensures Volgt(v', os + erbij)
  {
    forall i | 0 <= i < |v| ensures Draagt(v'[i], os[i].id, os[i].c) {
      assert Zelfde(v[i], v'[i]);
    }
  }

  lemma StapVolgt(s: Systeem, stap: Stap, k: string, soort: EisenSoort, os: seq<Opdracht>)
    requires VersiesKloppen(s.db.pakketten) && Mogelijk(s, stap) && Volgt(Van(s.db.pakketten, k, soort), os)
    ensures Volgt(Van(Na(s, stap).db.pakketten, k, soort), os + Erbij(s, stap, k, soort))
  {
    var v, v' := Van(s.db.pakketten, k, soort), Van(Na(s, stap).db.pakketten, k, soort);
    if stap.StelVast? && Geaccepteerd(s.db, stap.eisen, stap.nieuwId) {
      OpdrachtErbij(s.db, stap.eisen, stap.nieuwId, stap.nu, k, soort);
    } else {
      AndersGeenPakket(s, stap);
    }
    VolgtNog(v, v', os, Erbij(s, stap, k, soort));
  }

  /** An accepted command adds one package to the series of its own key. */
  lemma OpdrachtErbij(g: Gegevens, c: EisenCommand, id: string, nu: int, k: string, soort: EisenSoort)
    requires VersiesKloppen(g.pakketten) && Geaccepteerd(g, c, id)
    ensures var v, v' := Van(g.pakketten, k, soort), Van(NaStelEisenVast(g, c, id, nu).0.pakketten, k, soort);
      if k == c.kunstwerkId && soort == c.soort
        then Voortgezet(v, v') && |v'| == |v| + 1 && Draagt(v'[|v|], id, c)
      else v' == v
  {
    StelVastAanvaard(g, c, id, nu);
    StelVastReeks(g, c, id, nu, k, soort);
  }

  lemma AndersGeenPakket(s: Systeem, stap: Stap)
    requires VersiesKloppen(s.db.pakketten) && Mogelijk(s, stap)
    requires stap.StelVast? ==> !Geaccepteerd(s.db, stap.eisen, stap.nieuwId)
    ensures Na(s, stap).db.pakketten == s.db.pakketten
  {
    if stap.StelVast? {
      StelVastAanvaard(s.db, stap.eisen, stap.nieuwId, stap.nu);
    }
  }

  /** In every run version `i` of a series carries the id, the requirements and the strategy of the `i`-th command
      accepted for its key, and there are no other versions. */
  lemma {:induction false} VersiesVolgenOpdrachten(ss: seq<Systeem>, stappen: seq<Stap>, n: nat, k: string,
      soort: EisenSoort)
    requires IsRun(ss, stappen) && n <= |stappen|
    ensures Volgt(Van(ss[n].db.pakketten, k, soort), Opdrachten(ss, stappen, n, k, soort))
  {
    if n > 0 {
      VersiesVolgenOpdrachten(ss, stappen, n - 1, k, soort);
      RunVersies(ss, stappen, n - 1);
      RunStap(ss, stappen, n - 1);
      StapVolgt(ss[n - 1], stappen[n - 1], k, soort, Opdrachten(ss, stappen, n - 1, k, soort));
    }
  }

  /** A fresh judgement is the verdict on the requirements of the last command accepted for the report's key, and
      carries that command's package and the report's own data. */
  lemma BeoordelingVolgtOpdracht(ss: seq<Systeem>, stappen: seq<Stap>, n: nat, c: RapportCommand, id: string, nu: int)
    requires IsRun(ss, stappen) && n <= |stappen|
    requires NaVerwerkRapport(ss[n].db, c, id, nu).1.Ok? && NaVerwerkRapport(ss[n].db, c, id, nu).0 != ss[n].db
    ensures var b, os := NaVerwerkRapport(ss[n].db, c, id, nu).1.value,
        Opdrachten(ss, stappen, n, c.kunstwerkId, c.soort);
      && b.pakketId == (if os == [] then None else Some(os[|os| - 1].id))
      && (b.resultaat, b.bevindingen) == Oordeel(if os == [] then None else Some(os[|os| - 1].c.eisen), c.waarden)
      && b == Beoordeling(id, c.externRapportId, c.bronEventId, c.kunstwerkId, c.type_, c.ontvangenOp, b.pakketId,
        b.resultaat, b.bevindingen, nu)
  {
    VersiesVolgenOpdrachten(ss, stappen, n, c.kunstwerkId, c.soort);
    PakketVersies(ss, stappen, n, c.kunstwerkId, c.soort);
  }

  predicate Volledig(g: Gegevens, c: RapportCommand, id: string) {
    c.kunstwerkId in g.kunstwerken && !Blanco(id) && !Blanco(c.externRapportId) && !Blanco(c.bronEventId)
  }

  /** A report is accepted exactly when its event was judged before, or when it is complete and about a registered
      kunstwerk; an unregistered one is not found; a refusal changes nothing. */
  lemma RapportAanvaard(g: Gegevens, c: RapportCommand, id: string, nu: int)
    requires BeoordelingenKloppen(g)
    ensures var (g', r) := NaVerwerkRapport(g, c, id, nu);
      && (r.Ok? <==> !Blanco(c.kunstwerkId) && (c.bronEventId in g.verwerkt || Volledig(g, c, id)))
      && (r == Err(NietGevonden) <==>
           !Blanco(c.kunstwerkId) && c.bronEventId !in g.verwerkt && c.kunstwerkId !in g.kunstwerken)
      && (r.Err? ==> g' == g)
  {
    VerwerkKlopt(g, c, id, nu);
    if GetByBron(g.beoordelingen, c.bronEventId).Some? {
      assert GetByBron(g.beoordelingen, c.bronEventId).value in g.beoordelingen;
    }
  }

  // ---------- registration ----------

  predicate Witruimte(s: string) {
    forall i :: 0 <= i < |s| ==> s[i] == ' ' || s[i] == '\t' || s[i] == '\n' || s[i] == '\r'
  }

  lemma KopBetekent(s: string)
    requires !Blanco(s)
    ensures var kop := ZonderKop(s); kop != "" && !Wit(kop[0]) && Witruimte(s[..|s| - |kop|])
  {
    BlancoIsWitruimte(s[..|s| - |ZonderKop(s)|]);
    assert s[..|s|] == s;
  }

  lemma StaartBetekent(s: string)
    requires s != "" && !Wit(s[0])
    ensures var x := ZonderStaart(s); x != "" && x[0] == s[0] && !Wit(x[|x| - 1]) && Witruimte(s[|x|..])
  {
    BlancoIsWitruimte(s[|ZonderStaart(s)|..]);
    assert s[0..] == s && s[0] in s;
  }

  /** What strip() leaves: the text without the white space around it. */
  lemma StripBetekent(s: string)
    requires !Blanco(s)
    ensures IsKern(Gestript(s), s)
  {
    KopBetekent(s);
    KopDaarnaStaart(s, ZonderKop(s));
  }

  /** `x` is what is left of `s` without the white space around it. */
  ghost predicate IsKern(x: string, s: string) {
    && x != "" && !Wit(x[0]) && !Wit(x[|x| - 1])
    && exists voor, na :: Witruimte(voor) && Witruimte(na) && s == voor + x + na
  }

  lemma KopDaarnaStaart(s: string, kop: string)
    requires |kop| <= |s| && kop == s[|s| - |kop|..] && kop != "" && !Wit(kop[0]) && Witruimte(s[..|s| - |kop|])
    ensures IsKern(ZonderStaart(kop), s)
  {
    StaartBetekent(kop);
    StripDelen(s, kop, ZonderStaart(kop));
  }

  lemma StripDelen(s: string, kop: string, x: string)
    requires |x| <= |kop| <= |s| && kop == s[|s| - |kop|..] && x == kop[..|x|]
    requires Witruimte(s[..|s| - |kop|]) && Witruimte(kop[|x|..])
    ensures exists voor, na :: Witruimte(voor) && Witruimte(na) && s == voor + x + na
  {
    assert s == s[..|s| - |kop|] + x + kop[|x|..];
  }

  function IdVoor(c: RegistreerCommand, nieuwId: string): (r: string) {
    if c.id.Some? && c.id.value != "" then c.id.value else nieuwId
  }

  /** A registration is accepted exactly for a new, non-blank id with a name and a location; then the name is stored
      without the white space around it, the other columns as given, and other kunstwerken stay as they are. */
  lemma RegistratieLegtVast(g: Gegevens, c: RegistreerCommand, nieuwId: string)
    ensures NaRegistratie(g, c, nieuwId).1.Ok? <==>
      !Blanco(IdVoor(c, nieuwId)) && IdVoor(c, nieuwId) !in g.kunstwerken && !Blanco(c.naam) && !Blanco(c.locatie)
    ensures NaRegistratie(g, c, nieuwId).1 == Err(Conflict) <==>
      !Blanco(IdVoor(c, nieuwId)) && IdVoor(c, nieuwId) in g.kunstwerken
    ensures NaRegistratie(g, c, nieuwId).0 ==
      if NaRegistratie(g, c, nieuwId).1.Err? then g
      else g.(kunstwerken :=
        g.kunstwerken[IdVoor(c, nieuwId) := Kunstwerk(Gestript(c.naam), c.type_, c.locatie, c.status)])
  {
  }

  lemma BlancoIsWitruimte(s: string)
    ensures Blanco(s) <==> Witruimte(s)
  {
    forall i | 0 <= i < |s| ensures s[i] in s {
    }
  }
}
