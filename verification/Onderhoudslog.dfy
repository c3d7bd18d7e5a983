/** What Onderhoud publishes against its own tables, over every sequential run. */
module Onderhoudslog {
  import opened Gedeeld
  import opened Onderhoud
  import opened Onderhoudsbeheer
  import opened Onderhoudsruns
  import R = Onderhoudsruns
  import Trajectboek

  /** What the use case of one step publishes. */
  function StapEvents(db: Db, stap: Stap): (r: seq<OnderhoudEvent>) {
    match stap
    case Meld(m, toegestaan, s, o) => MeldingEvents(db, m, toegestaan, s, o)
    case VoerUit(id, a) => ActieEvents(db, id, a)
    case RondAf(id, resultaat, datum) => AfrondingEvents(db, id, resultaat, datum)
    case _ => []
  }

  /** Everything published before state `n`. */
  function Log(dbs: seq<Db>, stappen: seq<Stap>, n: nat): (r: seq<OnderhoudEvent>)
    requires n <= |stappen| && n <= |dbs|
  {
    if n == 0 then [] else Log(dbs, stappen, n - 1) + StapEvents(dbs[n - 1], stappen[n - 1])
  }

  // ---------- events per aggregate ----------

  predicate IsGemeld(e: OnderhoudEvent, s: string) {
    e.StoringGemeld? && e.storingId == s
  }

  predicate IsGestart(e: OnderhoudEvent, o: string) {
    e.OnderhoudGestart? && e.onderhoudId == o
  }

  predicate IsAfgerond(e: OnderhoudEvent, o: string) {
    e.OnderhoudAfgerond? && e.onderhoudId == o
  }

  function Aantal(log: seq<OnderhoudEvent>, p: OnderhoudEvent -> bool): (n: nat) {
    |Filter(p, log)|
  }

  lemma AantalPlus(log: seq<OnderhoudEvent>, es: seq<OnderhoudEvent>, p: OnderhoudEvent -> bool)
    requires |es| <= 1
    ensures Aantal(log + es, p) == Aantal(log, p) + if es != [] && p(es[0]) then 1 else 0
  {
    if es == [] {
      assert log + es == log;
    } else {
      assert es == [es[0]];
      FilterPlus(p, log, es[0]);
    }
  }

  // ---------- the table says the same ----------

  function Een(b: bool): (n: nat) {
    if b then 1 else 0
  }

  predicate Begonnen(db: Db, o: string) {
    o in db.trajecten && db.trajecten[o].status != Gepland
  }

  predicate Klaar(db: Db, o: string) {
    o in db.trajecten && db.trajecten[o].status == Afgerond
  }

  predicate Meldt(es: seq<OnderhoudEvent>, p: OnderhoudEvent -> bool) {
    es != [] && p(es[0])
  }

  /** Without a report no storing comes or goes. */
  lemma AndersGeenStoring(db: Db, stap: Stap)
    requires Gekoppeld(db) && Mogelijk(db, stap) && !stap.Meld?
    ensures Na(db, stap).storingen.Keys == db.storingen.Keys
    ensures |StapEvents(db, stap)| <= 1 && (StapEvents(db, stap) != [] ==> !StapEvents(db, stap)[0].StoringGemeld?)
  {
  }

  /** A step announces a storing exactly when it stores a new one. */
  lemma StapMeldt(db: Db, stap: Stap, s: string)
    requires Gekoppeld(db) && Mogelijk(db, stap)
    ensures |StapEvents(db, stap)| <= 1
    ensures Een(s in Na(db, stap).storingen) == Een(s in db.storingen) +
      Een(Meldt(StapEvents(db, stap), e => IsGemeld(e, s)))
  {
    if !stap.Meld? {
      AndersGeenStoring(db, stap);
    }
  }

  lemma RijStatus(rij: OnderhoudRij)
    requires EntityNaarOnderhoud(rij).Ok?
    ensures EntityNaarOnderhoud(rij).value.status == rij.status
  {
  }

  lemma ActieStart(db: Db, id: string, a: Actie, o: string)
    requires id in db.trajecten ==> TrajectLeest(db, id)
    ensures var db', es := NaTrajectActie(db, id, a).0, ActieEvents(db, id, a);
      && Een(Begonnen(db', o)) == Een(Begonnen(db, o)) + Een(Meldt(es, e => IsGestart(e, o)))
      && Klaar(db', o) == Klaar(db, o) && !Meldt(es, e => IsAfgerond(e, o))
  {
    if id in db.trajecten {
      RijStatus(db.trajecten[id]);
    }
  }

  lemma AfrondingEinde(db: Db, id: string, resultaat: string, datum: int, o: string)
    requires Gekoppeld(db)
    ensures var db', es := NaAfronding(db, id, resultaat, datum).0, AfrondingEvents(db, id, resultaat, datum);
      && Een(Klaar(db', o)) == Een(Klaar(db, o)) + Een(Meldt(es, e => IsAfgerond(e, o)))
      && Begonnen(db', o) == Begonnen(db, o) && !Meldt(es, e => IsGestart(e, o))
  {
    if !Blanco(id) && id in db.trajecten {
      assert TrajectGoed(db, id);
      RijStatus(db.trajecten[id]);
      AfrondingSlaagt(db, id, resultaat, datum);
    }
  }

  /** A step announces the start or the end of a traject exactly when it brings that about. */
  lemma StapBrengtAan(db: Db, stap: Stap, o: string)
    requires Gekoppeld(db) && Mogelijk(db, stap)
    ensures Een(Begonnen(Na(db, stap), o)) == Een(Begonnen(db, o)) +
      Een(Meldt(StapEvents(db, stap), e => IsGestart(e, o)))
    ensures Een(Klaar(Na(db, stap), o)) == Een(Klaar(db, o)) + Een(Meldt(StapEvents(db, stap), e => IsAfgerond(e, o)))
  {
    match stap {
      case VoerUit(id, a) =>
        assert id in db.trajecten ==> TrajectGoed(db, id);
        ActieStart(db, id, a, o);
      case RondAf(id, resultaat, datum) => AfrondingEinde(db, id, resultaat, datum, o);
      case _ => AndersNiets(db, stap, o);
    }
  }

  /** New and reordered trajecten are neither started nor rounded off by it. */
  lemma AndersNiets(db: Db, stap: Stap, o: string)
    requires Mogelijk(db, stap) && (stap.Meld? || stap.Diagnose? || stap.Herorden?)
    ensures Begonnen(Na(db, stap), o) == Begonnen(db, o) && Klaar(Na(db, stap), o) == Klaar(db, o)
    ensures !Meldt(StapEvents(db, stap), e => IsGestart(e, o)) && !Meldt(StapEvents(db, stap), e => IsAfgerond(e, o))
  {
  }

  // ---------- over runs ----------

  /** Each stored storing was announced exactly once and no other was; the start and the end of a traject were
      announced exactly once if they came about, and not otherwise. */
  ghost predicate LogKlopt(db: Db, log: seq<OnderhoudEvent>, id: string) {
    && Aantal(log, e => IsGemeld(e, id)) == Een(id in db.storingen)
    && Aantal(log, e => IsGestart(e, id)) == Een(Begonnen(db, id))
    && Aantal(log, e => IsAfgerond(e, id)) == Een(Klaar(db, id))
  }

  /** In every run the published events match the tables. */
  lemma {:induction false} LogIsTabel(dbs: seq<Db>, stappen: seq<Stap>, n: nat, id: string)
    requires IsRun(dbs, stappen) && n <= |stappen|
    ensures LogKlopt(dbs[n], Log(dbs, stappen, n), id)
  {
    if n == 0 {
      BeginKlopt(id);
    } else {
      LogIsTabel(dbs, stappen, n - 1, id);
      RunGekoppeld(dbs, stappen, n - 1);
      RunStap(dbs, stappen, n - 1);
      LogStap(dbs[n - 1], stappen[n - 1], Log(dbs, stappen, n - 1), id);
    }
  }

  lemma BeginKlopt(id: string)
    ensures LogKlopt(Db(map[], map[]), [], id)
  {
  }

  lemma LogStap(db: Db, stap: Stap, log: seq<OnderhoudEvent>, id: string)
    requires Gekoppeld(db) && Mogelijk(db, stap) && LogKlopt(db, log, id)
    ensures LogKlopt(Na(db, stap), log + StapEvents(db, stap), id)
  {
    var es := StapEvents(db, stap);
    StapMeldt(db, stap, id);
    StapBrengtAan(db, stap, id);
    AantalPlus(log, es, e => IsGemeld(e, id));
    AantalPlus(log, es, e => IsGestart(e, id));
    AantalPlus(log, es, e => IsAfgerond(e, id));
  }

  // ---------- the events still describe what is stored ----------

  /** What an event said when it was published is what the tables say now. */
  ghost predicate EventKlopt(db: Db, e: OnderhoudEvent) {
    match e
    case StoringGemeld(s, k, omschrijving) =>
      s in db.storingen && db.storingen[s].kunstwerkId == k && db.storingen[s].omschrijving == omschrijving
    case OnderhoudGestart(o, k, datum) =>
      o in db.trajecten && TrajectLeest(db, o) && R.Traject(db, o).kunstwerkId == k
        && R.Traject(db, o).status != Gepland && R.Traject(db, o).gestartOp == Some(datum)
    case OnderhoudAfgerond(o, k, resultaat, datum) =>
      o in db.trajecten && TrajectLeest(db, o) && R.Traject(db, o).kunstwerkId == k
        && R.Traject(db, o).status == Afgerond && R.Traject(db, o).resultaat == Some(resultaat)
        && R.Traject(db, o).afgerondOp == Some(datum)
  }

  /** A stored storing keeps its kunstwerk, its description and its severity. */
  lemma StoringBlijft(db: Db, stap: Stap, s: string)
    requires Gekoppeld(db) && Mogelijk(db, stap) && s in db.storingen
    ensures s in Na(db, stap).storingen
    ensures Na(db, stap).storingen[s] ==
      db.storingen[s].(status := Na(db, stap).storingen[s].status, onderhoudId := Na(db, stap).storingen[s].onderhoudId)
  {
    if stap.RondAf? {
      AfgehandeldBlijft(db, stap.id, stap.resultaat, stap.datum, s);
    } else {
      AndersBlijft(db, stap, s);
    }
  }

  lemma AndersBlijft(db: Db, stap: Stap, s: string)
    requires Mogelijk(db, stap) && s in db.storingen && !stap.RondAf?
    ensures s in Na(db, stap).storingen && Na(db, stap).storingen[s] == db.storingen[s]
  {
  }

  lemma AfgehandeldBlijft(db: Db, id: string, resultaat: string, datum: int, s: string)
    requires Gekoppeld(db) && s in db.storingen
    ensures var db' := NaAfronding(db, id, resultaat, datum).0;
      s in db'.storingen && db'.storingen[s] ==
        db.storingen[s].(status := db'.storingen[s].status, onderhoudId := db'.storingen[s].onderhoudId)
  {
    assert id in db.trajecten ==> TrajectGoed(db, id);
    assert StoringGoed(db, s);
    RijHeen(db.storingen[s]);
  }

  lemma RijHeen(rij: StoringRij)
    requires EntityNaarStoring(rij).Ok?
    ensures var w := EntityNaarStoring(rij).value;
      StoringNaarEntity(w.(status := Afgehandeld)) == rij.(status := Afgehandeld, onderhoudId := w.onderhoudId)
  {
  }

  lemma EventBlijft(db: Db, stap: Stap, e: OnderhoudEvent)
    requires Gekoppeld(db) && Mogelijk(db, stap) && EventKlopt(db, e)
    ensures EventKlopt(Na(db, stap), e)
  {
    match e
    case StoringGemeld(s, _, _) => StoringBlijft(db, stap, s);
    case OnderhoudGestart(o, _, _) => Trajectboek.StapVerder(db, stap, o);
    case OnderhoudAfgerond(o, _, _, _) => Trajectboek.StapVerder(db, stap, o);
  }

  lemma NieuwEventKlopt(db: Db, stap: Stap)
    requires Gekoppeld(db) && Mogelijk(db, stap)
    ensures |StapEvents(db, stap)| <= 1
    ensures StapEvents(db, stap) != [] ==> EventKlopt(Na(db, stap), StapEvents(db, stap)[0])
  {
    if (stap.VoerUit? || stap.RondAf?) && StapEvents(db, stap) != [] {
      assert TrajectGoed(db, stap.id);
      Trajectboek.StapVerder(db, stap, stap.id);
    }
  }

  /** In every run every event ever published still says what is stored: the kunstwerk and the description of a
      storing, the start date of a traject, its result and the date of its end. */
  lemma {:induction false} LogBlijftKloppen(dbs: seq<Db>, stappen: seq<Stap>, n: nat, e: OnderhoudEvent)
    requires IsRun(dbs, stappen) && n <= |stappen| && e in Log(dbs, stappen, n)
    ensures EventKlopt(dbs[n], e)
  {
    if n > 0 {
      RunGekoppeld(dbs, stappen, n - 1);
      RunStap(dbs, stappen, n - 1);
      NieuwEventKlopt(dbs[n - 1], stappen[n - 1]);
      if e in Log(dbs, stappen, n - 1) {
        LogBlijftKloppen(dbs, stappen, n - 1, e);
        EventBlijft(dbs[n - 1], stappen[n - 1], e);
      }
    }
  }

  // ---------- reports and diagnoses, read back ----------

  predicate IsErnst(tekst: string) {
    tekst == "Laag" || tekst == "Middel" || tekst == "Hoog" || tekst == "Kritiek"
  }

  predicate IsGemeldAls(rij: StoringRij, m: Melding) {
    rij.kunstwerkId == m.kunstwerkId && rij.omschrijving == m.omschrijving && rij.ernst == m.ernst
  }

  /** A report is accepted exactly when it is allowed and complete; then the storing is read back with what was
      reported, and for the two higher severities with a planned traject on the same kunstwerk that names it. */
  lemma MeldingGelezen(db: Db, m: Melding, toegestaan: bool, s: string, o: string)
    requires s !in db.storingen && o !in db.trajecten && !Blanco(s) && !Blanco(o)
    ensures var (db', r) := NaMelding(db, m, toegestaan, s, o);
      && (r.Ok? <==> toegestaan && !Blanco(m.kunstwerkId) && !Blanco(m.omschrijving) && IsErnst(m.ernst))
      && (r.Err? ==> db' == db)
      && (r.Ok? ==> s in db'.storingen && IsGemeldAls(db'.storingen[s], m))
      && (r.Ok? && (m.ernst == "Laag" || m.ernst == "Middel") ==> r.value == None && db'.trajecten == db.trajecten)
      && (r.Ok? && (m.ernst == "Hoog" || m.ernst == "Kritiek") ==>
           r.value == Some(o) && db'.storingen[s].onderhoudId == Some(o)
             && ZoekTraject(db', o) == Ok(Plan(o, m.kunstwerkId, VanStoring(s))))
  {
    if NaMelding(db, m, toegestaan, s, o).1.Ok? {
      TrajectRondreis(Plan(o, m.kunstwerkId, VanStoring(s)));
    }
  }

  /** A diagnosis by hand plans a traject exactly for the two higher severities, with the kunstwerk, the incident and
      the finding it names. */
  lemma DiagnoseGelezen(db: Db, c: DiagnoseCommand, o: string)
    requires o !in db.trajecten && !Blanco(o) && !Blanco(c.kunstwerkId) && OptioneelId(c.incidentId).Ok?
    ensures var (db', r) := NaDiagnose(db, c, o);
      && (r.Ok? <==> IsErnst(c.ernst)) && (o in db'.trajecten <==> c.ernst == "Hoog" || c.ernst == "Kritiek")
      && (o !in db'.trajecten ==> db' == db)
      && (o in db'.trajecten ==> r == Ok(Some(o)) && ZoekTraject(db', o).Ok? && var t := ZoekTraject(db', o).value;
        t.kunstwerkId == c.kunstwerkId && t.status == Gepland && t.aanleiding.VanDiagnose?
        && t.aanleiding.bevinding == c.bevinding && ErnstTekst(t.aanleiding.ernst) == c.ernst
        && t.aanleiding.incidentId == (if c.incidentId == Some("") then None else c.incidentId))
  {
    if o in NaDiagnose(db, c, o).0.trajecten {
      TrajectRondreis(Plan(o, c.kunstwerkId,
        VanDiagnose(OptioneelId(c.incidentId).value, c.bevinding, ErnstVan(c.ernst).value)));
    }
  }
}
