/** From Contract's outbox over relay, broker and queue to Onderhoud's index of current contracts. */
module ContractKeten {
  import opened Gedeeld
  import opened Outbox
  import Relay = ContractRelay
  import Index = ContractIndex

  type Bericht = Regel<Index.Envelop>

  const BINDING := "contract.onderhoudscontract."

  /** The queue's binding: the prefix above followed by one more word. */
  predicate Gebonden(m: Bericht) {
    && |m.routingKey| > |BINDING|
    && m.routingKey[..|BINDING|] == BINDING
    && '.' !in m.routingKey[|BINDING|..]
  }

  function Inhoud(s: seq<Bericht>): (r: seq<Index.Envelop>) {
    seq(|s|, i requires 0 <= i < |s| => s[i].payload)
  }

  /** The bound events of an outbox, oldest first: what the index should follow. */
  ghost function Bron(outbox: seq<Rij<Index.Envelop>>): (r: seq<Bericht>) {
    Filter(Gebonden, Regels(outbox))
  }

  /** Row id and envelope id are the same, and no two bound rows share a timestamp: a contract's grant
      and its rounding off come from different publish calls. */
  ghost predicate Envelopregels(outbox: seq<Rij<Index.Envelop>>) {
    && (forall i :: 0 <= i < |outbox| ==> outbox[i].regel.payload.eventId == outbox[i].regel.id)
    && (forall i, j :: 0 <= i < j < |outbox| && Gebonden(outbox[i].regel) && Gebonden(outbox[j].regel) ==>
          outbox[i].aangemaaktOp != outbox[j].aangemaaktOp)
  }

  lemma {:induction false} FilterVolgorde<T(!new)>(p: T -> bool, s: seq<T>, a: nat, b: nat) returns (i: nat, j: nat)
    requires a < b < |Filter(p, s)|
    ensures i < j < |s| && s[i] == Filter(p, s)[a] && s[j] == Filter(p, s)[b]
    decreases |s|
  {
    var voor, x := s[..|s| - 1], s[|s| - 1];
    if b < |Filter(p, voor)| {
      i, j := FilterVolgorde(p, voor, a, b);
    } else {
      assert Filter(p, s) == Filter(p, voor) + [x];
      assert Filter(p, voor)[a] in voor;
      i :| 0 <= i < |voor| && voor[i] == Filter(p, voor)[a];
      j := |voor|;
    }
  }

  lemma {:induction false} FilterVerschillend<T(!new)>(p: T -> bool, s: seq<T>)
    requires Verschillend(s)
    ensures Verschillend(Filter(p, s))
    decreases |s|
  {
    var f := Filter(p, s);
    forall a, b | 0 <= a < b < |f|
      ensures f[a] != f[b]
    {
      var i, j := FilterVolgorde(p, s, a, b);
    }
  }

  lemma RegelsVerschillend(outbox: seq<Rij<Index.Envelop>>)
    requires UniekeIds(Regels(outbox))
    ensures Verschillend(Regels(outbox))
  {
    var r := Regels(outbox);
    forall i, j | 0 <= i < j < |r|
      ensures r[i] != r[j]
    {
      assert r[i].id != r[j].id;
    }
  }

  /** The first occurrences of bound messages on the wire are an initial part of the bound events. */
  lemma GebondenDraadIsPrefix(t: Toestand<Index.Envelop>)
    requires Veilig(t) && Geordend(t) && Envelopregels(t.outbox)
    ensures Eersten(Filter(Gebonden, t.draad)) <= Bron(t.outbox)
  {
    var regels, alle := Regels(t.outbox), Eersten(t.draad);
    var bron, e := Bron(t.outbox), Filter(Gebonden, alle);
    EerstenFilter(Gebonden, t.draad);
    RegelsVerschillend(t.outbox);
    FilterVerschillend(Gebonden, regels);
    FilterVerschillend(Gebonden, alle);
    forall a, b, i, j | 0 <= a < b < |e| && 0 <= i < |bron| && 0 <= j < |bron| && bron[i] == e[a] && bron[j] == e[b]
      ensures i <= j
    {
      var x, y := FilterVolgorde(Gebonden, alle, a, b);
      assert NietJonger(t.outbox, alle[x], alle[y]);
      if j < i {
        OuderEerst(t, i, j);
      }
    }
    forall i, j | 0 <= i < j < |bron| && bron[j] in e
      ensures bron[i] in e
    {
      OuderEerst(t, j, i);
    }
    PrefixUitOrde(bron, e);
  }

  /** Of two bound events the earlier one is strictly older, and on the wire if the later one is. */
  lemma OuderEerst(t: Toestand<Index.Envelop>, i: nat, j: nat)
    requires Veilig(t) && Geordend(t) && Envelopregels(t.outbox)
    requires j < i < |Bron(t.outbox)|
    ensures !NietJonger(t.outbox, Bron(t.outbox)[i], Bron(t.outbox)[j])
    ensures Bron(t.outbox)[i] in t.draad ==> Bron(t.outbox)[j] in t.draad
  {
    var x, y := FilterVolgorde(Gebonden, Regels(t.outbox), j, i);
    var bron := Bron(t.outbox);
    assert bron[j] in bron && bron[i] in bron;
    assert t.outbox[x].aangemaaktOp < t.outbox[y].aangemaaktOp;
  }

  lemma InhoudHeeft(s: seq<Bericht>, x: Bericht)
    requires forall m :: m in s && m.payload == x.payload ==> m == x
    ensures x.payload in Inhoud(s) <==> x in s
  {
    if x in s {
      var i :| 0 <= i < |s| && s[i] == x;
      assert Inhoud(s)[i] == x.payload;
    }
  }

  lemma {:induction false} InhoudEersten(s: seq<Bericht>)
    requires forall m, m' :: m in s && m' in s && m.payload == m'.payload ==> m == m'
    ensures Eersten(Inhoud(s)) == Inhoud(Eersten(s))
    decreases |s|
  {
    if s == [] {
      assert Inhoud(s) == [];
    } else {
      var voor, x := s[..|s| - 1], s[|s| - 1];
      InhoudEersten(voor);
      InhoudHeeft(voor, x);
      assert Inhoud(s)[..|s| - 1] == Inhoud(voor);
      assert Inhoud(Eersten(voor) + [x]) == Inhoud(Eersten(voor)) + [x.payload];
    }
  }

  /** What the queue received, first occurrences only, is an initial part of the source's bound events. */
  lemma AanvoerIsPrefix(t: Toestand<Index.Envelop>, aanvoer: seq<Index.Envelop>)
    requires Veilig(t) && Geordend(t) && Envelopregels(t.outbox)
    requires aanvoer <= Inhoud(Filter(Gebonden, t.draad))
    ensures Eersten(aanvoer) <= Inhoud(Bron(t.outbox))
    ensures aanvoer == Inhoud(Filter(Gebonden, t.draad)) ==>
      Eersten(aanvoer) == Inhoud(Eersten(Filter(Gebonden, t.draad)))
  {
    var f := Filter(Gebonden, t.draad);
    forall m, m' | m in f && m' in f && m.payload == m'.payload
      ensures m == m'
    {
      var i, j :| 0 <= i < |t.outbox| && 0 <= j < |t.outbox| && Regels(t.outbox)[i] == m && Regels(t.outbox)[j] == m';
      assert t.outbox[i].regel.payload.eventId == t.outbox[i].regel.id;
      assert t.outbox[j].regel.payload.eventId == t.outbox[j].regel.id;
    }
    GebondenDraadIsPrefix(t);
    InhoudEersten(f);
    assert Inhoud(f) == aanvoer + Inhoud(f)[|aanvoer|..];
    EerstenPrefix(aanvoer, Inhoud(f)[|aanvoer|..]);
  }

  lemma VolgendeNietInPrefix<T>(e: seq<T>, bron: seq<T>)
    requires e < bron && Verschillend(bron)
    ensures bron[|e|] !in e
  {
    assert forall b :: 0 <= b < |e| ==> e[b] == bron[b];
  }

  lemma AllesGemarkeerd(t: Toestand<Index.Envelop>)
    requires Veilig(t) && Geordend(t) && Envelopregels(t.outbox)
    requires forall i :: 0 <= i < |t.outbox| ==> t.outbox[i].gepubliceerd
    ensures Eersten(Filter(Gebonden, t.draad)) == Bron(t.outbox)
  {
    GebondenDraadIsPrefix(t);
    var e, bron := Eersten(Filter(Gebonden, t.draad)), Bron(t.outbox);
    RegelsVerschillend(t.outbox);
    FilterVerschillend(Gebonden, Regels(t.outbox));
    assert forall i :: 0 <= i < |bron| ==> bron[i] in bron && bron[i] in e;
    if e != bron {
      VolgendeNietInPrefix(e, bron);
    }
  }

  /** Every row is marked and the consumer has worked off the whole wire. */
  ghost predicate Afgewerkt(t: Toestand<Index.Envelop>, s: Index.Systeem) {
    && (forall i :: 0 <= i < |t.outbox| ==> t.outbox[i].gepubliceerd)
    && s.gedaan == Inhoud(Filter(Gebonden, t.draad))
  }

  /** End to end, for every run of the relay without real refusals (buffered publishes, exceptions and
      repeated batches included) and every run of the consumer (redelivery and crashes included): once
      the consumer has worked off what it received, the index answers as an initial part of the outbox;
      once the relay has marked every row and the consumer has worked off the whole wire, it answers as
      the whole outbox. */
  lemma KetenKlopt(ts: seq<Toestand<Index.Envelop>>, stappen: seq<Relay.Stap<Index.Envelop>>, n: nat,
                   ss: seq<Index.Systeem>, istappen: seq<Index.Stap>, k: string, r: Option<(string, string)>)
    requires Relay.IsRun(ts, stappen) && n <= |stappen| && Relay.NietsGeweigerd(stappen)
    requires Envelopregels(ts[n].outbox) && Index.Wettig(Inhoud(Bron(ts[n].outbox)))
    requires Index.IsRun(ss, istappen, Inhoud(Bron(ts[n].outbox)))
    requires var s := ss[|istappen|];
      s.rij == [] && s.gedaan <= Inhoud(Filter(Gebonden, ts[n].draad)) && Index.IsAntwoord(s.index.rijen, k, r)
    ensures var gezien := Eersten(ss[|istappen|].gedaan);
      gezien <= Inhoud(Bron(ts[n].outbox)) && r == Index.GeldendVolgensBron(gezien, k)
    ensures Afgewerkt(ts[n], ss[|istappen|]) ==> r == Index.GeldendVolgensBron(Inhoud(Bron(ts[n].outbox)), k)
  {
    Relay.RelayVeilig(ts, stappen, n);
    Relay.RelayGeordend(ts, stappen, n);
    AanvoerIsPrefix(ts[n], ss[|istappen|].gedaan);
    Index.IndexKlopt(ss, istappen, Inhoud(Bron(ts[n].outbox)), k, r);
    if forall i :: 0 <= i < |ts[n].outbox| ==> ts[n].outbox[i].gepubliceerd {
      AllesGemarkeerd(ts[n]);
    }
  }
}
