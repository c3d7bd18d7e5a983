/** External invoices: whole cents become euro and whole cents again, in binary64 arithmetic. */
module Facturen {
  import opened Gedeeld
  import opened Onderhoud
  import opened Onderhoudsbeheer

  // ---------- rounding ----------

  /** 2^51 and 2^53. */
  const GRENS := 0x8_0000_0000_0000
  const EENHEID := 0x20_0000_0000_0000

  /** `x` is what a binary64 operation may return for the exact result `exact`: relative error at most
      2^-53 (IEEE 754-2019 section 4.3.1, normal range). */
  predicate Afgerond64(x: real, exact: real) {
    -Absoluut(exact) <= (x - exact) * EENHEID as real <= Absoluut(exact)
  }

  function Absoluut(x: real): (r: real) {
    if x < 0.0 then -x else x
  }

  /** One possible outcome of `(n / 100) * 100`, both operations rounded. */
  predicate Omweg(n: int, euro: real, product: real) {
    Afgerond64(euro, n as real / 100.0) && Afgerond64(product, euro * 100.0)
  }

  /** Whatever the two roundings do, rounding to whole cents gives `n` back. */
  ghost predicate CentenBehouden(n: int) {
    forall euro: real, product: real :: Omweg(n, euro, product) ==> Rond(product) == n
  }

  /** The two errors together stay below half a cent. */
  lemma FoutKlein(n: int, euro: real, product: real)
    requires -GRENS < n < GRENS && Omweg(n, euro, product)
    ensures n as real - 0.5 < product < n as real + 0.5
  {
    var u, e := EENHEID as real, euro * 100.0;
    var a := Absoluut(n as real);
    assert -a <= (e - n as real) * u <= a;
    assert a <= (GRENS - 1) as real;
    assert -Absoluut(e) <= (product - e) * u <= Absoluut(e);
    assert Absoluut(e) <= a + 1.0;
    assert -(2.0 * a + 1.0) <= (product - n as real) * u <= 2.0 * a + 1.0;
  }

  /** From 2^51 on, two roundings upwards in size reach the next cent. */
  lemma FoutGroot(n: int) returns (euro: real, product: real)
    requires n >= GRENS || n <= -GRENS
    ensures Omweg(n, euro, product) && Rond(product) != n
  {
    var f := 1.0 + 1.0 / EENHEID as real;
    euro := n as real / 100.0 * f;
    product := euro * 100.0 * f;
  }

  /** Within these error bounds, cents are sure to survive the detour over euro exactly below 2^51. */
  lemma CentenBehoudenPrecies(n: int)
    ensures CentenBehouden(n) <==> -GRENS < n < GRENS
  {
    if -GRENS < n < GRENS {
      forall euro: real, product: real | Omweg(n, euro, product) ensures Rond(product) == n {
        FoutKlein(n, euro, product);
      }
    } else {
      var euro, product := FoutGroot(n);
    }
  }

  // ---------- the invoice ----------

  datatype ExterneFactuur = ExterneFactuur(invoiceNumber: string, workOrderRef: string, totalExVatCents: int,
      vatCents: int, currency: string, issuedAt: int)

  datatype OntvangCommand = OntvangCommand(onderhoudId: string, bedragEuro: real, ontvangenOp: int)

  /** `euro` is the rounded quotient of net plus VAT and 100. */
  function VertaalExterneFactuur(f: ExterneFactuur, euro: real): (r: Result<OntvangCommand>) {
    if f.currency != "EUR" then Err(AclFout)
    else if Blanco(f.workOrderRef) then Err(AclFout)
    else Ok(OntvangCommand(f.workOrderRef, euro, f.issuedAt))
  }

  /** Receiving an invoice; `product` is the rounded product of the command's euro and 100. */
  function NaOntvangst(db: Db, c: OntvangCommand, product: real, factuurId: string): (r: (Db, Option<Fout>)) {
    NaTrajectActie(db, c.onderhoudId, Factureren(factuurId, Rond(product), c.ontvangenOp))
  }

  function NaExterneFactuur(db: Db, f: ExterneFactuur, euro: real, product: real, factuurId: string):
      (r: (Db, Option<Fout>)) {
    var c := VertaalExterneFactuur(f, euro);
    if c.Err? then (db, Some(c.fout)) else NaOntvangst(db, c.value, product, factuurId)
  }

  /** What an invoice needs to be booked. */
  predicate Boekbaar(db: Db, f: ExterneFactuur) {
    && f.currency == "EUR" && !Blanco(f.workOrderRef) && f.totalExVatCents + f.vatCents >= 0
    && ZoekTraject(db, f.workOrderRef).Ok? && ZoekTraject(db, f.workOrderRef).value.status != Gepland
  }

  /** An external invoice below 2^51 cents is booked exactly when it is in EUR, names a started traject and is not
      negative; then it is booked for exactly net plus VAT cents, and nothing else of the traject changes. */
  lemma FactuurOpDeCent(db: Db, f: ExterneFactuur, euro: real, product: real, factuurId: string)
    requires -GRENS < f.totalExVatCents + f.vatCents < GRENS && !Blanco(factuurId)
    requires Omweg(f.totalExVatCents + f.vatCents, euro, product)
    ensures NaExterneFactuur(db, f, euro, product, factuurId).1 == None <==> Boekbaar(db, f)
    ensures NaExterneFactuur(db, f, euro, product, factuurId).1 == Some(AclFout) <==>
      f.currency != "EUR" || Blanco(f.workOrderRef)
    ensures !Boekbaar(db, f) ==> NaExterneFactuur(db, f, euro, product, factuurId).0 == db
    ensures Boekbaar(db, f) ==>
      var t, centen := ZoekTraject(db, f.workOrderRef).value, f.totalExVatCents + f.vatCents;
      NaExterneFactuur(db, f, euro, product, factuurId).0 ==
        MetTraject(db, t.(facturen := t.facturen + [Factuur(factuurId, centen, "EUR", Ontvangen, f.issuedAt)]))
  {
    CentenBehoudenPrecies(f.totalExVatCents + f.vatCents);
    assert Rond(product) == f.totalExVatCents + f.vatCents;
  }

  /** The amount of the invoice booked last. */
  function Geboekt(db: Db, ref: string): (r: Option<int>) {
    var t := ZoekTraject(db, ref);
    if t.Ok? && t.value.facturen != [] then Some(t.value.facturen[|t.value.facturen| - 1].centen) else None
  }

  /** The traject is stored under its own id. */
  predicate TrajectRondt(db: Db, ref: string) {
    ZoekTraject(db, ref).Ok? ==> ZoekTraject(db, ref).value.id == ref
  }

  lemma GeboektIsLaatste(db: Db, f: ExterneFactuur, factuurId: string, centen: nat)
    requires Boekbaar(db, f) && !Blanco(factuurId) && TrajectRondt(db, f.workOrderRef)
    ensures var t := ZoekTraject(db, f.workOrderRef).value;
      Geboekt(MetTraject(db, t.(facturen := t.facturen + [Factuur(factuurId, centen, "EUR", Ontvangen, f.issuedAt)])),
        f.workOrderRef) == Some(centen)
  {
    var t := ZoekTraject(db, f.workOrderRef).value;
    GeladenIsWelgevormd(db.trajecten[f.workOrderRef]);
    TrajectRondreis(t.(facturen := t.facturen + [Factuur(factuurId, centen, "EUR", Ontvangen, f.issuedAt)]));
  }

  lemma GeboektBedrag(db: Db, f: ExterneFactuur, euro: real, product: real, factuurId: string)
    requires Boekbaar(db, f) && !Blanco(factuurId) && f.totalExVatCents + f.vatCents < GRENS
    requires Omweg(f.totalExVatCents + f.vatCents, euro, product) && TrajectRondt(db, f.workOrderRef)
    ensures Geboekt(NaExterneFactuur(db, f, euro, product, factuurId).0, f.workOrderRef) ==
      Some(f.totalExVatCents + f.vatCents)
  {
    FactuurOpDeCent(db, f, euro, product, factuurId);
    GeboektIsLaatste(db, f, factuurId, f.totalExVatCents + f.vatCents);
  }

  /** More VAT is booked to the cent: with `d` cents more on the same invoice the booking is `d` cents higher. */
  lemma BtwTeltMee(db: Db, f: ExterneFactuur, d: nat, euro: real, product: real, euro': real, product': real,
      factuurId: string)
    requires Boekbaar(db, f) && !Blanco(factuurId) && f.totalExVatCents + f.vatCents + d < GRENS
    requires Omweg(f.totalExVatCents + f.vatCents, euro, product)
    requires Omweg(f.totalExVatCents + f.vatCents + d, euro', product')
    requires TrajectRondt(db, f.workOrderRef)
    ensures var een := Geboekt(NaExterneFactuur(db, f, euro, product, factuurId).0, f.workOrderRef);
      var meer := Geboekt(
        NaExterneFactuur(db, f.(vatCents := f.vatCents + d), euro', product', factuurId).0, f.workOrderRef);
      een.Some? && meer == Some(een.value + d)
  {
    GeboektBedrag(db, f, euro, product, factuurId);
    GeboektBedrag(db, f.(vatCents := f.vatCents + d), euro', product', factuurId);
  }
}
