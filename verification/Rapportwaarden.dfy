/** Beheer's flattening of a report's JSON into named numbers. */
module Rapportwaarden {
  import opened Gedeeld
  import opened MonitoringRapport

  type Waarden = map<string, real>

  /** Python's truth value. */
  predicate Waar(j: Json) {
    match j
    case Null => false
    case Bool(b) => b
    case Getal(w) => w != 0.0
    case Tekst(s) => s != ""
    case Lijst(items) => items != []
    case Object(velden) => velden != []
  }

  /** dict.get: a missing key reads as null. */
  function Get(velden: seq<(string, Json)>, sleutel: string): (r: Json) {
    if velden == [] then Null
    else if velden[0].0 == sleutel then velden[0].1
    else Get(velden[1..], sleutel)
  }

  lemma {:induction false} GetVeld(velden: seq<(string, Json)>, sleutel: string, i: nat)
    requires i <= |velden| && forall j :: 0 <= j < i ==> velden[j].0 != sleutel
    requires i < |velden| ==> velden[i].0 == sleutel
    ensures Get(velden, sleutel) == if i < |velden| then velden[i].1 else Null
    decreases i
  {
    if i > 0 {
      GetVeld(velden[1..], sleutel, i - 1);
    }
  }

  function Of(a: Json, b: Json): (r: Json) {
    if Waar(a) then a else b
  }

  function NumericValue(j: Json): (r: Option<real>) {
    if j.Getal? then Some(j.waarde) else None
  }

  function NumericFromMapping(velden: seq<(string, Json)>): (r: Option<real>) {
    var waarde := Get(velden, "waarde");
    var of_value := if waarde == Null then Get(velden, "value") else waarde;
    NumericValue(if of_value == Null then Get(velden, "gemiddelde") else of_value)
  }

  function KleinTeken(c: char): (r: char) {
    if 'A' <= c <= 'Z' then (c as int + 32) as char else c
  }

  /** lower() on ASCII. */
  function Klein(s: string): (r: string)
    ensures |r| == |s|
  {
    seq(|s|, i requires 0 <= i < |s| => KleinTeken(s[i]))
  }

  /** How str() writes a value that is not a string is left open. */
  function AlsTekst(j: Json, str: Json -> string): (r: string) {
    if j.Tekst? then j.s else str(j)
  }

  function MetItem(waarden: Waarden, item: Json, str: Json -> string): (r: Waarden) {
    if !item.Object? then waarden
    else
      var v := item.velden;
      var naam := Of(Get(v, "meetwaarde"), Of(Get(v, "code"), Of(Get(v, "naam"), Get(v, "sensorType"))));
      var getal := NumericFromMapping(v);
      if !Waar(naam) || getal == None then waarden
      else
        var tekst := AlsTekst(naam, str);
        var met := waarden[tekst := getal.value];
        if Waar(Get(v, "sensorType")) && Klein(tekst) != tekst then met[Klein(tekst) := getal.value] else met
  }

  function LijstWaarden(items: seq<Json>, str: Json -> string): (r: Waarden) {
    if items == [] then map[]
    else MetItem(LijstWaarden(items[..|items| - 1], str), items[|items| - 1], str)
  }

  function MetVeld(waarden: Waarden, sleutel: string, waarde: Json, str: Json -> string): (r: Waarden) {
    match waarde
    case Getal(w) => waarden[sleutel := w]
    case Object(v) =>
      var naam := Of(Get(v, "meetwaarde"), Of(Get(v, "code"), Tekst(sleutel)));
      var getal := NumericFromMapping(v);
      if Waar(naam) && getal.Some? then waarden[AlsTekst(naam, str) := getal.value] else waarden
    case Lijst(items) => waarden + LijstWaarden(items, str)
    case _ => waarden
  }

  function ObjectWaarden(velden: seq<(string, Json)>, str: Json -> string): (r: Waarden) {
    if velden == [] then map[]
    else MetVeld(ObjectWaarden(velden[..|velden| - 1], str), velden[|velden| - 1].0, velden[|velden| - 1].1, str)
  }

  function AlleWaarden(bron: Json, str: Json -> string): (r: Waarden) {
    match bron
    case Object(velden) => ObjectWaarden(velden, str)
    case Lijst(items) => LijstWaarden(items, str)
    case _ => map[]
  }

  // ---------- which field decides ----------

  predicate Heeft(velden: seq<(string, Json)>, sleutel: string) {
    Get(velden, sleutel) != Null
  }

  /** The value under this key is there and not false, zero or empty. */
  predicate IsWaar(velden: seq<(string, Json)>, sleutel: string) {
    IsGevuld(Get(velden, sleutel))
  }

  predicate IsGevuld(j: Json) {
    j != Null && j != Bool(false) && j != Getal(0.0) && j != Tekst("") && j != Lijst([]) && j != Object([])
  }

  lemma WaarIsGevuld(j: Json)
    ensures Waar(j) <==> IsGevuld(j)
  {
  }

  /** The entry goes by the first of four fields that is true in Python's sense, if that is a text. */
  predicate HeetIn(v: seq<(string, Json)>, naam: string) {
    naam != "" &&
    if IsWaar(v, "meetwaarde") then Get(v, "meetwaarde") == Tekst(naam)
    else if IsWaar(v, "code") then Get(v, "code") == Tekst(naam)
    else if IsWaar(v, "naam") then Get(v, "naam") == Tekst(naam)
    else Get(v, "sensorType") == Tekst(naam)
  }

  /** Its number is that of the first of three fields that is not null. */
  predicate IsGetalIn(v: seq<(string, Json)>, x: real) {
    if Heeft(v, "waarde") then Get(v, "waarde") == Getal(x)
    else if Heeft(v, "value") then Get(v, "value") == Getal(x)
    else Get(v, "gemiddelde") == Getal(x)
  }

  lemma NaamGevonden(v: seq<(string, Json)>, naam: string)
    requires HeetIn(v, naam)
    ensures Of(Get(v, "meetwaarde"), Of(Get(v, "code"), Of(Get(v, "naam"), Get(v, "sensorType")))) == Tekst(naam)
  {
    WaarIsGevuld(Get(v, "meetwaarde"));
    WaarIsGevuld(Get(v, "code"));
    WaarIsGevuld(Get(v, "naam"));
  }

  lemma GetalGevonden(v: seq<(string, Json)>, x: real)
    requires IsGetalIn(v, x)
    ensures NumericFromMapping(v) == Some(x)
  {
  }

  /** The last named number of a list wins under its name, for a sensor also in lower case, and leaves all other names
      alone. */
  lemma LaatsteWint(items: seq<Json>, item: Json, naam: string, x: real, str: Json -> string, ander: string)
    requires item.Object? && HeetIn(item.velden, naam) && IsGetalIn(item.velden, x)
    ensures var oud, w := LijstWaarden(items, str), LijstWaarden(items + [item], str);
      && naam in w && w[naam] == x
      && (IsWaar(item.velden, "sensorType") ==> Klein(naam) in w && w[Klein(naam)] == x)
      && (ander != naam && (ander != Klein(naam) || !IsWaar(item.velden, "sensorType")) ==>
           (ander in w <==> ander in oud) && (ander in oud ==> w[ander] == oud[ander]))
  {
    assert (items + [item])[..|items|] == items;
    NaamGevonden(item.velden, naam);
    GetalGevonden(item.velden, x);
    WaarIsGevuld(Get(item.velden, "sensorType"));
  }

  predicate HeetInVeld(v: seq<(string, Json)>, sleutel: string, naam: string) {
    naam != "" &&
    if IsWaar(v, "meetwaarde") then Get(v, "meetwaarde") == Tekst(naam)
    else if IsWaar(v, "code") then Get(v, "code") == Tekst(naam)
    else sleutel == naam
  }

  lemma VeldnaamGevonden(v: seq<(string, Json)>, sleutel: string, naam: string)
    requires HeetInVeld(v, sleutel, naam)
    ensures Of(Get(v, "meetwaarde"), Of(Get(v, "code"), Tekst(sleutel))) == Tekst(naam)
  {
    WaarIsGevuld(Get(v, "meetwaarde"));
    WaarIsGevuld(Get(v, "code"));
  }

  /** The last field of a report wins: a number under its key, a named number under its name, and of a list every name
      in it; all other names stay. Fields of any other kind, truth values among them, add nothing. */
  lemma LaatsteVeldWint(velden: seq<(string, Json)>, sleutel: string, j: Json, naam: string, x: real,
      str: Json -> string)
    ensures var oud, w := ObjectWaarden(velden, str), ObjectWaarden(velden + [(sleutel, j)], str);
      && (j == Getal(x) ==> w == oud[sleutel := x])
      && (j.Object? && HeetInVeld(j.velden, sleutel, naam) && IsGetalIn(j.velden, x) ==> w == oud[naam := x])
      && (j.Lijst? ==> w.Keys == oud.Keys + LijstWaarden(j.items, str).Keys)
      && (j.Lijst? ==> forall n :: n in w ==>
           w[n] == if n in LijstWaarden(j.items, str) then LijstWaarden(j.items, str)[n] else oud[n])
      && (j.Null? || j.Bool? || j.Tekst? ==> w == oud)
  {
    assert (velden + [(sleutel, j)])[..|velden|] == velden;
    if j.Object? && HeetInVeld(j.velden, sleutel, naam) && IsGetalIn(j.velden, x) {
      VeldnaamGevonden(j.velden, sleutel, naam);
      GetalGevonden(j.velden, x);
    }
  }

  /** Lower case changes the letters A to Z only, and doing it twice changes nothing more. */
  lemma KleinBetekent(s: string, i: nat)
    requires i < |s|
    ensures Klein(Klein(s)) == Klein(s)
    ensures if 'A' <= s[i] <= 'Z' then Klein(s)[i] as int - 'a' as int == s[i] as int - 'A' as int
      else Klein(s)[i] == s[i]
  {
  }

  method ExtractLijst(items: seq<Json>, str: Json -> string) returns (waarden: Waarden)
    ensures waarden == LijstWaarden(items, str)
  {
    waarden := map[];
    for n := 0 to |items|
      invariant waarden == LijstWaarden(items[..n], str)
    {
      assert items[..n + 1][..n] == items[..n];
      var item := items[n];
      if !item.Object? {
        continue;
      }
      var v := item.velden;
      var naam := Of(Get(v, "meetwaarde"), Of(Get(v, "code"), Of(Get(v, "naam"), Get(v, "sensorType"))));
      var getal := NumericFromMapping(v);
      if Waar(naam) && getal.Some? {
        var tekst := AlsTekst(naam, str);
        waarden := waarden[tekst := getal.value];
        if Waar(Get(v, "sensorType")) && Klein(tekst) != tekst {
          waarden := waarden[Klein(tekst) := getal.value];
        }
      }
    }
    assert items[..|items|] == items;
  }

  /** Numbers, named numbers and lists of named numbers, later entries over earlier ones. */
  method ExtractNumericValues(bron: Json, str: Json -> string) returns (waarden: Waarden)
    ensures waarden == AlleWaarden(bron, str)
  {
    waarden := map[];
    if bron.Object? {
      var velden := bron.velden;
      for n := 0 to |velden|
        invariant waarden == ObjectWaarden(velden[..n], str)
      {
        assert velden[..n + 1][..n] == velden[..n];
        var (sleutel, waarde) := velden[n];
        var getal := NumericValue(waarde);
        if getal.Some? {
          waarden := waarden[sleutel := getal.value];
        } else if waarde.Object? {
          var naam := Of(Get(waarde.velden, "meetwaarde"), Of(Get(waarde.velden, "code"), Tekst(sleutel)));
          getal := NumericFromMapping(waarde.velden);
          if Waar(naam) && getal.Some? {
            waarden := waarden[AlsTekst(naam, str) := getal.value];
          }
        } else if waarde.Lijst? {
          var genest := ExtractLijst(waarde.items, str);
          waarden := waarden + genest;
        }
      }
      assert velden[..|velden|] == velden;
    } else if bron.Lijst? {
      waarden := ExtractLijst(bron.items, str);
    }
  }
}
