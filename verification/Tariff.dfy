/**
 Session cost, computed twice: the backend rounds every component, the portal's
 live preview rounds the total once. Quantities and quotients are exact reals.
 */
module Tariff {
  import opened Seqs
  import opened Rounding

  datatype Component = Component(kind: string, price: int, step: int, appliesAfter: Option<int>)

  datatype Session = Session(duration: real, kwh: real, idle: real)

  datatype Cost = Cost(minorUnits: int) | UnknownKind(kind: string) | BadStep

  predicate Known(c: Component) {
    c.kind == "energy" || c.kind == "time" || c.kind == "flat" || c.kind == "idle"
  }

  predicate StepOk(c: Component) {
    c.kind == "flat" || c.step > 0
  }

  /** Minutes over the grace period, or zero. */
  function BillableIdle(c: Component, s: Session): real {
    var over := s.idle - (if c.appliesAfter.Some? then c.appliesAfter.value else 0) as real;
    if over < 0.0 then 0.0 else over
  }

  function Quantity(c: Component, s: Session): real {
    if c.kind == "energy" then s.kwh else if c.kind == "time" then s.duration else BillableIdle(c, s)
  }

  function Proportional(quantity: real, step: int, price: int): real
    requires step > 0
  {
    quantity / step as real * price as real
  }

  /** What a component costs before any rounding. */
  function Exact(c: Component, s: Session): real
    requires StepOk(c)
  {
    if c.kind == "flat" then c.price as real else Proportional(Quantity(c, s), c.step, c.price)
  }

  ghost predicate Priced(cs: seq<Component>) {
    forall i | 0 <= i < |cs| :: Known(cs[i]) && StepOk(cs[i])
  }

  function ExactTotal(cs: seq<Component>, s: Session): real
    requires Priced(cs)
  {
    if cs == [] then 0.0 else ExactTotal(cs[..|cs| - 1], s) + Exact(cs[|cs| - 1], s)
  }

  function BackendTotal(cs: seq<Component>, s: Session): int
    requires Priced(cs)
  {
    if cs == [] then 0 else BackendTotal(cs[..|cs| - 1], s) + RoundHalfEven(Exact(cs[|cs| - 1], s))
  }

  function Metered(cs: seq<Component>): nat {
    Count(cs, (c: Component) => c.kind != "flat")
  }

  /** `calculate_session_cost`: stops at the first component it cannot price. */
  method CalculateSessionCost(cs: seq<Component>, s: Session) returns (r: Cost)
    ensures r.Cost? <==> Priced(cs)
    ensures r.Cost? ==> r.minorUnits == BackendTotal(cs, s)
    ensures !r.Cost? ==> exists i | 0 <= i < |cs| ::
              Priced(cs[..i]) && (if Known(cs[i]) then !StepOk(cs[i]) && r == BadStep else r == UnknownKind(cs[i].kind))
  {
    var total := 0;
    for i := 0 to |cs|
      invariant Priced(cs[..i]) && total == BackendTotal(cs[..i], s)
    {
      var c := cs[i];
      assert cs[..i + 1][..i] == cs[..i] && cs[..i + 1][i] == c;
      if c.kind == "flat" {
        HalfEvenOfWhole(c.price);
        total := total + c.price;
      } else if c.kind == "energy" || c.kind == "time" || c.kind == "idle" {
        if c.step <= 0 {
          return BadStep;
        }
        var quantity := if c.kind == "energy" then s.kwh else if c.kind == "time" then s.duration else BillableIdle(c, s);
        total := total + RoundHalfEven(Proportional(quantity, c.step, c.price));
      } else {
        return UnknownKind(c.kind);
      }
    }
    assert cs[..|cs|] == cs;
    r := Cost(total);
  }

  /** The quantity a metered component is charged for. */
  ghost predicate ChargedFor(c: Component, s: Session, q: real) {
    match c.kind
    case "energy" => q == s.kwh
    case "time" => q == s.duration
    case "idle" =>
      var grace := (if c.appliesAfter.Some? then c.appliesAfter.value else 0) as real;
      if s.idle > grace then q == s.idle - grace else q == 0.0
    case _ => false
  }

  /** A flat component costs its price; any other, its price per step of energy, minutes or idle minutes over the grace period. */
  lemma ExactIs(c: Component, s: Session, q: real)
    requires Known(c) && StepOk(c) && (c.kind == "flat" || ChargedFor(c, s, q))
    ensures if c.kind == "flat" then Exact(c, s) == c.price as real else Exact(c, s) * c.step as real == q * c.price as real
  {
    if c.kind == "flat" {
    } else {
      assert Quantity(c, s) == q;
      Undivided(q, c.step as real, c.price as real);
    }
  }

  lemma Undivided(q: real, step: real, price: real)
    requires step > 0.0
    ensures q / step * price * step == q * price
  {
    assert q / step * step == q;
  }

  // ----- the portal's preview -----

  /** A component as the portal's form holds it: step, price and grace period need not be whole. */
  datatype FormComponent = FormComponent(kind: string, price: real, step: real, appliesAfter: Option<real>)

  predicate Previewed(c: FormComponent) {
    c.kind == "energy" || c.kind == "time" || c.kind == "flat" || c.kind == "idle"
  }

  predicate FormOk(c: FormComponent) {
    c.kind == "flat" || c.step > 0.0
  }

  function FormQuantity(c: FormComponent, s: Session): real {
    if c.kind == "energy" then s.kwh
    else if c.kind == "time" then s.duration
    else
      var over := s.idle - if c.appliesAfter.Some? then c.appliesAfter.value else 0.0;
      if over > 0.0 then over else 0.0
  }

  function ProportionalCost(quantity: real, step: real, price: real): real
    requires step > 0.0
  {
    quantity / step * price
  }

  function FormCost(c: FormComponent, s: Session): real
    requires FormOk(c)
  {
    if c.kind == "flat" then c.price else ProportionalCost(FormQuantity(c, s), c.step, c.price)
  }

  ghost predicate Usable(fs: seq<FormComponent>) {
    forall i | 0 <= i < |fs| :: FormOk(fs[i])
  }

  function FormTotal(fs: seq<FormComponent>, s: Session): real
    requires Usable(fs)
  {
    if fs == [] then 0.0 else FormTotal(fs[..|fs| - 1], s) + FormCost(fs[|fs| - 1], s)
  }

  /** The components the portal does not pass over. */
  function KnownOnly(fs: seq<FormComponent>): seq<FormComponent> {
    if fs == [] then [] else KnownOnly(fs[..|fs| - 1]) + if Previewed(fs[|fs| - 1]) then [fs[|fs| - 1]] else []
  }

  lemma {:induction false} BadStepStays(fs: seq<FormComponent>, i: nat)
    requires i < |fs| && Previewed(fs[i]) && !FormOk(fs[i])
    ensures !Usable(KnownOnly(fs))
  {
    var front := KnownOnly(fs[..|fs| - 1]);
    if i == |fs| - 1 {
      assert KnownOnly(fs)[|front|] == fs[i];
    } else {
      BadStepStays(fs[..|fs| - 1], i);
      var k :| 0 <= k < |front| && !FormOk(front[k]);
      assert KnownOnly(fs)[k] == front[k];
    }
  }

  /** What one component more does to the sum the portal runs. */
  lemma PreviewStep(fs: seq<FormComponent>, i: nat, s: Session)
    requires i < |fs| && Usable(KnownOnly(fs[..i])) && (Previewed(fs[i]) ==> FormOk(fs[i]))
    ensures Usable(KnownOnly(fs[..i + 1]))
    ensures FormTotal(KnownOnly(fs[..i + 1]), s)
         == FormTotal(KnownOnly(fs[..i]), s) + if Previewed(fs[i]) then FormCost(fs[i], s) else 0.0
  {
    var known := KnownOnly(fs[..i]);
    assert fs[..i + 1][..i] == fs[..i];
    if Previewed(fs[i]) {
      assert (known + [fs[i]])[..|known|] == known;
    } else {
      assert KnownOnly(fs[..i + 1]) == known;
    }
  }

  /** The portal's `calculateSessionCost`: components of other kinds are passed over. */
  method PreviewSessionCost(fs: seq<FormComponent>, s: Session) returns (r: Cost)
    ensures r.Cost? <==> Usable(KnownOnly(fs))
    ensures r.Cost? ==> r.minorUnits == RoundHalfUp(FormTotal(KnownOnly(fs), s))
  {
    var total := 0.0;
    for i := 0 to |fs|
      invariant Usable(KnownOnly(fs[..i])) && total == FormTotal(KnownOnly(fs[..i]), s)
    {
      var c := fs[i];
      if Previewed(c) && c.kind != "flat" && c.step <= 0.0 {
        BadStepStays(fs, i);
        return BadStep;
      }
      PreviewStep(fs, i, s);
      if c.kind == "flat" {
        total := total + c.price;
      } else if c.kind == "energy" || c.kind == "time" || c.kind == "idle" {
        total := total + ProportionalCost(FormQuantity(c, s), c.step, c.price);
      }
    }
    assert fs[..|fs|] == fs;
    r := Cost(RoundHalfUp(total));
  }

  /** A saved component as the form shows it. */
  function Form(c: Component): FormComponent {
    FormComponent(c.kind, c.price as real, c.step as real,
                  if c.appliesAfter.Some? then Some(c.appliesAfter.value as real) else None)
  }

  function Forms(cs: seq<Component>): seq<FormComponent> {
    seq(|cs|, i requires 0 <= i < |cs| => Form(cs[i]))
  }

  /** What the portal previews for a saved tariff. */
  function PreviewTotal(cs: seq<Component>, s: Session): int
    requires Priced(cs)
  {
    RoundHalfUp(ExactTotal(cs, s))
  }

  /** The preview's cost of a component, whole steps and prices or not. */
  lemma FormCostIs(c: FormComponent, s: Session)
    requires Previewed(c) && FormOk(c)
    ensures c.kind == "flat" ==> FormCost(c, s) == c.price
    ensures c.kind == "energy" ==> FormCost(c, s) * c.step == s.kwh * c.price
    ensures c.kind == "time" ==> FormCost(c, s) * c.step == s.duration * c.price
    ensures c.kind == "idle" ==>
              var grace := if c.appliesAfter.Some? then c.appliesAfter.value else 0.0;
              FormCost(c, s) * c.step == (if s.idle > grace then s.idle - grace else 0.0) * c.price
  {
    if c.kind != "flat" {
      Undivided(FormQuantity(c, s), c.step, c.price);
    }
  }

  lemma FormCostIsExact(c: Component, s: Session)
    requires Known(c) && StepOk(c)
    ensures FormOk(Form(c)) && FormCost(Form(c), s) == Exact(c, s)
  {
  }

  lemma FormsSnoc(cs: seq<Component>)
    requires cs != []
    ensures Forms(cs) == Forms(cs[..|cs| - 1]) + [Form(cs[|cs| - 1])]
  {
  }

  lemma FormTotalSnoc(fs: seq<FormComponent>, c: FormComponent, s: Session)
    requires Usable(fs) && FormOk(c)
    ensures Usable(fs + [c]) && FormTotal(fs + [c], s) == FormTotal(fs, s) + FormCost(c, s)
  {
    assert (fs + [c])[..|fs|] == fs;
  }

  lemma KnownSnoc(fs: seq<FormComponent>, c: FormComponent)
    requires Previewed(c)
    ensures KnownOnly(fs + [c]) == KnownOnly(fs) + [c]
  {
    assert (fs + [c])[..|fs|] == fs;
  }

  /** In a tariff the backend can price the portal passes nothing over, and sums the exact costs. */
  lemma {:induction false} PreviewIsOfExactTotal(cs: seq<Component>, s: Session)
    requires Priced(cs)
    ensures KnownOnly(Forms(cs)) == Forms(cs) && Usable(Forms(cs)) && FormTotal(Forms(cs), s) == ExactTotal(cs, s)
  {
    if cs == [] {
    } else {
      var front, c := cs[..|cs| - 1], cs[|cs| - 1];
      PreviewIsOfExactTotal(front, s);
      FormCostIsExact(c, s);
      FormsSnoc(cs);
      FormTotalSnoc(Forms(front), Form(c), s);
      KnownSnoc(Forms(front), Form(c));
    }
  }

  // ----- how far the two can drift apart -----

  /** The backend is off the exact cost by at most half a unit per metered component. */
  lemma {:induction false} BackendNearExact(cs: seq<Component>, s: Session)
    requires Priced(cs)
    ensures -(Metered(cs) as real) / 2.0 <= BackendTotal(cs, s) as real - ExactTotal(cs, s) <= Metered(cs) as real / 2.0
  {
    if cs == [] {
    } else {
      var c := cs[|cs| - 1];
      BackendNearExact(cs[..|cs| - 1], s);
      if c.kind == "flat" {
        HalfEvenOfWhole(c.price);
      } else {
        HalfEvenIsNearest(Exact(c, s), RoundHalfEven(Exact(c, s)));
      }
    }
  }

  /** For m metered components the preview is at most m / 2 below the bill and at most (m + 1) / 2 above it. */
  lemma PreviewDriftBound(cs: seq<Component>, s: Session)
    requires Priced(cs)
    ensures 0 <= 2 * (PreviewTotal(cs, s) - BackendTotal(cs, s)) + Metered(cs)
    ensures 2 * (PreviewTotal(cs, s) - BackendTotal(cs, s)) <= Metered(cs) + 1
  {
    BackendNearExact(cs, s);
    HalfUpIsNearest(ExactTotal(cs, s), PreviewTotal(cs, s));
  }

  /** What rounding adds to a cost, read off its fraction and, at a half, the parity of its whole part. */
  function Residue(x: real): real {
    var d := x - x.Floor as real;
    if d < 0.5 || (d == 0.5 && x.Floor % 2 == 0) then -d else 1.0 - d
  }

  /** The residues of the metered components; a flat price has none. */
  function Residues(cs: seq<Component>, s: Session): real
    requires Priced(cs)
  {
    if cs == [] then 0.0 else
      var c := cs[|cs| - 1];
      Residues(cs[..|cs| - 1], s) + if c.kind == "flat" then 0.0 else Residue(Exact(c, s))
  }

  /** The bill is the exact cost and the residues of its components. */
  lemma {:induction false} BillIsExactPlusResidues(cs: seq<Component>, s: Session)
    requires Priced(cs)
    ensures BackendTotal(cs, s) as real == ExactTotal(cs, s) + Residues(cs, s)
  {
    if cs == [] {
    } else {
      var c := cs[|cs| - 1];
      BillIsExactPlusResidues(cs[..|cs| - 1], s);
      if c.kind == "flat" {
        HalfEvenOfWhole(c.price);
      }
    }
  }

  /** Preview and bill agree exactly when the residues of the components sum to more than -1/2 and at most 1/2. */
  lemma AgreeIffResiduesSmall(cs: seq<Component>, s: Session)
    requires Priced(cs)
    ensures PreviewTotal(cs, s) == BackendTotal(cs, s) <==> -0.5 < Residues(cs, s) <= 0.5
  {
    BillIsExactPlusResidues(cs, s);
    HalfUpIsNearest(ExactTotal(cs, s), BackendTotal(cs, s));
  }

  predicate Whole(x: real) {
    x == x.Floor as real
  }

  lemma {:induction false} WholeCostsAgree(cs: seq<Component>, s: Session)
    requires Priced(cs) && forall i | 0 <= i < |cs| :: Whole(Exact(cs[i], s))
    ensures BackendTotal(cs, s) as real == ExactTotal(cs, s)
    ensures PreviewTotal(cs, s) == BackendTotal(cs, s)
  {
    if cs == [] {
    } else {
      WholeCostsAgree(cs[..|cs| - 1], s);
      HalfEvenOfWhole(Exact(cs[|cs| - 1], s).Floor);
    }
    HalfEvenOfWhole(BackendTotal(cs, s));
  }

  /** A single metered component is previewed as billed unless its cost is a tie above an even amount. */
  lemma SingleComponentAgrees(c: Component, s: Session)
    requires Known(c) && StepOk(c)
    ensures PreviewTotal([c], s) == BackendTotal([c], s) <==>
              c.kind == "flat" || !(Tie(Exact(c, s)) && Exact(c, s).Floor % 2 == 0)
  {
    AgreeIffResiduesSmall([c], s);
    assert [c][..0] == [];
    assert Residues([c][..0], s) == 0.0;
  }

  /** Half a unit per component: the worst case of the bound. */
  function HalfUnits(m: nat): seq<Component> {
    seq(m, _ => Component("energy", 1, 1, None))
  }

  /** For every odd m the bound is reached, so the preview does drift from the bill. */
  lemma {:induction false} DriftIsReached(m: nat)
    ensures var s := Session(0.0, 0.5, 0.0);
            && Priced(HalfUnits(m)) && Metered(HalfUnits(m)) == m
            && BackendTotal(HalfUnits(m), s) == 0 && ExactTotal(HalfUnits(m), s) == m as real / 2.0
            && (m % 2 == 1 ==> 2 * (PreviewTotal(HalfUnits(m), s) - BackendTotal(HalfUnits(m), s)) == m + 1)
  {
    var s := Session(0.0, 0.5, 0.0);
    var cs := HalfUnits(m);
    if m == 0 {
    } else {
      DriftIsReached(m - 1);
      assert cs[..m - 1] == HalfUnits(m - 1);
      assert Exact(cs[m - 1], s) == 0.5;
      assert RoundHalfEven(0.5) == 0;
    }
    if m % 2 == 1 {
      HalfUpIsNearest(m as real / 2.0, (m + 1) / 2);
    }
  }

  /** For every even m the other bound is reached: one and a half units per component, each rounded up. */
  lemma {:induction false} DriftBelowIsReached(m: nat)
    ensures var s := Session(0.0, 1.5, 0.0);
            && Priced(HalfUnits(m)) && Metered(HalfUnits(m)) == m
            && BackendTotal(HalfUnits(m), s) == 2 * m && ExactTotal(HalfUnits(m), s) == m as real * 1.5
            && (m % 2 == 0 ==> 2 * (PreviewTotal(HalfUnits(m), s) - BackendTotal(HalfUnits(m), s)) + m == 0)
  {
    var s := Session(0.0, 1.5, 0.0);
    var cs := HalfUnits(m);
    if m == 0 {
    } else {
      DriftBelowIsReached(m - 1);
      assert cs[..m - 1] == HalfUnits(m - 1);
      assert Exact(cs[m - 1], s) == 1.5;
      assert RoundHalfEven(1.5) == 2;
    }
    if m % 2 == 0 {
      HalfUpIsNearest(m as real * 1.5, m + m / 2);
    }
  }

  // ----- a longer session never costs less -----

  lemma ProportionalMonotone(q1: real, q2: real, step: int, price: int)
    requires q1 <= q2 && step > 0 && price >= 0
    ensures Proportional(q1, step, price) <= Proportional(q2, step, price)
  {
    var a, b, p := q1 / step as real, q2 / step as real, price as real;
    assert a <= b;
    assert (b - a) * p >= 0.0;
  }

  /** With nonnegative prices the bill never falls as energy, duration or idle time grow. */
  lemma {:induction false} BillIsMonotone(cs: seq<Component>, s: Session, t: Session)
    requires Priced(cs) && forall i | 0 <= i < |cs| :: cs[i].price >= 0
    requires s.duration <= t.duration && s.kwh <= t.kwh && s.idle <= t.idle
    ensures BackendTotal(cs, s) <= BackendTotal(cs, t)
  {
    if cs == [] {
    } else {
      var c := cs[|cs| - 1];
      BillIsMonotone(cs[..|cs| - 1], s, t);
      if c.kind != "flat" {
        ProportionalMonotone(Quantity(c, s), Quantity(c, t), c.step, c.price);
        HalfEvenMonotone(Exact(c, s), Exact(c, t));
      }
    }
  }
}
