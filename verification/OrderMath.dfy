/** Step, tick and protection-price arithmetic of the testnet executor, and the wire format of a quantity. */
module OrderMath {
  import opened Numeric

  function Pow10(n: nat): (p: int)
    ensures p >= 1
  {
    if n == 0 then 1 else 10 * Pow10(n - 1)
  }

  /** `max(0, min(12, int(round(-log10(size)))))`, with the logarithm compared by squaring. */
  function Precision(size: real): nat
    requires size > 0.0
  {
    PrecisionFrom(size * size, 0)
  }

  /** The least k with `square > 10 ** -(2k + 1)`, at most 12. */
  function PrecisionFrom(square: real, k: nat): (p: nat)
    requires k <= 12
    ensures p <= 12
    decreases 12 - k
  {
    if k == 12 || DecimalsSuffice(square, k) then k else PrecisionFrom(square, k + 1)
  }

  predicate DecimalsSuffice(square: real, k: nat) { ExceedsInverse(square, Pow10(2 * k + 1) as real) }

  predicate ExceedsInverse(e: real, p: real) { e * p > 1.0 }

  function Scale(size: real): (scale: real)
    requires size > 0.0
    ensures scale >= 1.0
  {
    Pow10(Precision(size)) as real
  }

  /** m steps of the given size. */
  function Units(m: int, size: real): real { m as real * size }

  function FloorUnits(x: real, size: real): (m: int)
    requires size > 0.0
    ensures Units(m, size) <= x < Units(m, size) + size
  {
    FloorBounds(x, x / size, (x / size).Floor, size);
    (x / size).Floor
  }

  lemma {:induction false} FloorBounds(x: real, q: real, f: int, size: real)
    requires size > 0.0 && x == q * size && f as real <= q < f as real + 1.0
    ensures Units(f, size) <= x < Units(f, size) + size
  {
    ProductOrder(f as real, q, size);
    var d := f as real + 1.0 - q;
    ProductPositive(d, size);
    assert d * size == Units(f, size) + size - x;
  }

  function CeilUnits(x: real, size: real): (m: int)
    requires size > 0.0
    ensures x <= Units(m, size) < x + size
  {
    assert (-x) / size == -(x / size);
    var m := FloorUnits(-x, size);
    assert Units(-m, size) == -Units(m, size);
    -m
  }

  lemma {:induction false} UnitsOrder(m: int, n: int, size: real)
    requires size > 0.0
    ensures m < n <==> Units(m, size) < Units(n, size)
    ensures m < n ==> Units(m, size) + size <= Units(n, size)
  {
    assert Units(n, size) - Units(m, size) == (n - m) as real * size;
    if m < n {
      ProductOrder(1.0, (n - m) as real, size);
    } else {
      ProductOrder(0.0, (m - n) as real, size);
    }
  }

  function RoundToStep(quantity: real, step: real): real {
    if step <= 0.0 then quantity
    else RoundTo(Units(FloorUnits(quantity, step), step), Scale(step))
  }

  datatype RoundingMode = Down | Up | Nearest

  function RoundPriceToTick(price: real, tick: real, mode: RoundingMode): real {
    if tick <= 0.0 then price
    else
      var units := match mode
        case Down => FloorUnits(price, tick)
        case Up => CeilUnits(price, tick)
        case Nearest => RoundInt(price / tick);
      RoundTo(Units(units, tick), Scale(tick))
  }

  /** A size whose own decimal expansion fits the number of decimals derived for it. */
  predicate DecimalSize(size: real) {
    size > 0.0 && OnGrid(size, Scale(size))
  }

  lemma {:induction false} MultipleOnGrid(m: int, size: real, scale: real)
    requires OnGrid(size, scale)
    ensures OnGrid(Units(m, size), scale)
  {
    var n := (size * scale).Floor;
    assert (m as real * size) * scale == m as real * (size * scale) == (m * n) as real;
    OnGridFrom(m as real * size, scale, m * n);
  }

  lemma {:induction false} ExactMultiple(m: int, size: real)
    requires DecimalSize(size)
    ensures RoundTo(Units(m, size), Scale(size)) == Units(m, size)
  {
    MultipleOnGrid(m, size, Scale(size));
    RoundToExact(Units(m, size), Scale(size));
  }

  /** The second rounding is harmless for every quantity exactly when the step is a decimal size. */
  lemma {:induction false} StepExactIff(step: real)
    requires step > 0.0
    ensures (forall q: real :: RoundToStep(q, step) == Units(FloorUnits(q, step), step)) <==> DecimalSize(step)
  {
    if DecimalSize(step) {
      forall q: real ensures RoundToStep(q, step) == Units(FloorUnits(q, step), step) {
        ExactMultiple(FloorUnits(q, step), step);
      }
    } else {
      var m := FloorUnits(step, step);
      UnitsOrder(1, m, step);
      UnitsOrder(m, 1, step);
      assert Units(1, step) == step;
      RoundToExact(step, Scale(step));
      assert RoundToStep(step, step) != Units(m, step);
    }
  }

  /** The same for prices, rounded down or up to a tick. */
  lemma {:induction false} TickExactIff(tick: real)
    requires tick > 0.0
    ensures DecimalSize(tick) <==>
      forall p: real :: RoundPriceToTick(p, tick, Down) == Units(FloorUnits(p, tick), tick)
    ensures DecimalSize(tick) <==>
      forall p: real :: RoundPriceToTick(p, tick, Up) == Units(CeilUnits(p, tick), tick)
  {
    if DecimalSize(tick) {
      forall p: real
        ensures RoundPriceToTick(p, tick, Down) == Units(FloorUnits(p, tick), tick)
        ensures RoundPriceToTick(p, tick, Up) == Units(CeilUnits(p, tick), tick)
      {
        ExactMultiple(FloorUnits(p, tick), tick);
        ExactMultiple(CeilUnits(p, tick), tick);
      }
    } else {
      var m, n := FloorUnits(tick, tick), CeilUnits(tick, tick);
      OneUnit(m, tick);
      OneUnit(n, tick);
      RoundToExact(tick, Scale(tick));
      assert RoundPriceToTick(tick, tick, Down) != Units(m, tick);
      assert RoundPriceToTick(tick, tick, Up) != Units(n, tick);
    }
  }

  lemma {:induction false} OneUnit(m: int, size: real)
    requires size > 0.0 && -size < Units(m, size) - size < size
    ensures Units(m, size) == size
  {
    UnitsOrder(1, m, size);
    UnitsOrder(m, 1, size);
    assert Units(1, size) == size;
  }

  /** For decimal steps the sized quantity is the greatest step multiple that does not exceed the raw one. */
  lemma {:induction false} RoundToStepGreatest(q: real, step: real)
    requires DecimalSize(step)
    ensures RoundToStep(q, step) <= q < RoundToStep(q, step) + step
    ensures exists m: int :: RoundToStep(q, step) == Units(m, step)
    ensures forall m: int :: Units(m, step) <= q ==> Units(m, step) <= RoundToStep(q, step)
  {
    var f := FloorUnits(q, step);
    ExactMultiple(f, step);
    forall m: int | Units(m, step) <= q ensures Units(m, step) <= Units(f, step) {
      UnitsOrder(f, m, step);
    }
  }

  /** A coarse step breaks the promise: 1.5 units at step 0.5 are sent as 2. */
  lemma {:induction false} CoarseStepOverspends()
    ensures !DecimalSize(0.5) && RoundToStep(1.5, 0.5) == 2.0
  {
    assert Pow10(0) == 1 && Pow10(1) == 10;
    assert Precision(0.5) == 0;
    assert FloorUnits(1.5, 0.5) == 3;
    assert RoundInt(1.5) == 2;
  }

  /** Rounding lifts x when its fraction passes one half, or is one half above an odd number. */
  lemma {:induction false} RoundsUp(x: real, n: int, rest: real)
    requires x == n as real + rest && (0.5 < rest < 1.0 || (rest == 0.5 && n % 2 != 0))
    ensures RoundInt(x) as real > x
  {
    assert x.Floor == n;
  }

  /** The first multiple of a fraction below one half that passes it. */
  lemma {:induction false} PassesHalf(f: real) returns (m: nat)
    requires 0.0 < f < 0.5
    ensures m > 0 && 0.5 < Units(m, f) < 1.0
  {
    var k := FloorUnits(0.5, f);
    assert Units(0, f) == 0.0 && Units(k + 1, f) == Units(k, f) + f;
    UnitsOrder(0, k + 1, f);
    hide FloorUnits, Units;
    m := k + 1;
  }

  lemma {:induction false} SplitUnits(m: nat, n: int, f: real)
    ensures Units(m, n as real + f) == (m * n) as real + Units(m, f)
  {
    var x, y := m as real, n as real;
    assert x * (y + f) == x * y + x * f;
    assert x * y == (m * n) as real;
  }

  lemma {:induction false} FewUnits(t: real)
    ensures Units(1, t) == t && Units(3, t) == t + t + t
  {
  }

  lemma {:induction false} SomeMultipleRoundsUp(t: real) returns (m: nat)
    requires t != t.Floor as real
    ensures m > 0 && RoundInt(Units(m, t)) as real > Units(m, t)
  {
    var n := t.Floor;
    var f := t - n as real;
    hide Units, RoundInt;
    FewUnits(t);
    if f < 0.5 {
      m := PassesHalf(f);
      SplitUnits(m, n, f);
      assert n as real + f == t;
      RoundsUp(Units(m, t), m * n, Units(m, f));
    } else if f > 0.5 || n % 2 != 0 {
      m := 1;
      RoundsUp(t, n, f);
    } else {
      m := 3;
      RoundsUp(t + t + t, 3 * n + 1, 0.5);
    }
  }

  /** Off the decimal grid some multiple of the step is sized and sent as more. */
  lemma {:induction false} OffGridOverspends(step: real) returns (q: real)
    requires step > 0.0 && !OnGrid(step, Scale(step))
    ensures q >= 0.0 && RoundToStep(q, step) > q
  {
    var t := step * Scale(step);
    var m := SomeMultipleRoundsUp(t);
    q := Units(m, step);
    hide Scale, Units, RoundTo, FloorUnits, RoundInt;
    MultipleRoundsUp(m, step, Scale(step));
    MultipleIsItsFloor(m, step);
  }

  /** Step rounding never sends more than was sized exactly when the step is a decimal size. */
  lemma {:induction false} NeverOverspendsExactly(step: real)
    requires step > 0.0
    ensures (forall q: real | q >= 0.0 :: RoundToStep(q, step) <= q) <==> DecimalSize(step)
  {
    hide Scale, Units, RoundTo, FloorUnits, RoundInt, OnGrid;
    if DecimalSize(step) {
      forall q: real | q >= 0.0 ensures RoundToStep(q, step) <= q {
        ExactMultiple(FloorUnits(q, step), step);
      }
    } else {
      var q := OffGridOverspends(step);
    }
  }

  lemma {:induction false} MultipleIsItsFloor(m: nat, size: real)
    requires size > 0.0
    ensures FloorUnits(Units(m, size), size) == m && Units(m, size) >= 0.0
  {
    var x := Units(m, size);
    var f := FloorUnits(x, size);
    ProductOrder(0.0, m as real, size);
    UnitsOrder(f, m, size);
    UnitsOrder(m, f, size);
    hide FloorUnits, Units;
  }

  lemma {:induction false} ScaledUnits(m: nat, size: real, scale: real)
    ensures Units(m, size) * scale == Units(m, size * scale)
  {
  }

  lemma {:induction false} RoundToTimes(x: real, scale: real)
    requires scale > 0.0
    ensures RoundTo(x, scale) * scale == RoundInt(x * scale) as real
  {
    hide RoundInt;
  }

  lemma {:induction false} MultipleRoundsUp(m: nat, size: real, scale: real)
    requires scale > 0.0 && RoundInt(Units(m, size * scale)) as real > Units(m, size * scale)
    ensures RoundTo(Units(m, size), scale) > Units(m, size)
  {
    ScaledUnits(m, size, scale);
    RoundToTimes(Units(m, size), scale);
    hide Units, RoundInt, RoundTo;
    if RoundTo(Units(m, size), scale) <= Units(m, size) {
      ProductOrder(RoundTo(Units(m, size), scale), Units(m, size), scale);
    }
  }

  lemma {:induction false} Pow10Add(m: nat, n: nat)
    ensures Pow10(m + n) == Pow10(m) * Pow10(n)
  {
    if m > 0 {
      Pow10Add(m - 1, n);
      assert Pow10(m + n) == 10 * Pow10(m - 1 + n);
    }
  }

  lemma {:induction false} Pow10Grows(m: nat, n: nat)
    requires m <= n
    ensures Pow10(m) <= Pow10(n)
    decreases n
  {
    if m < n {
      Pow10Grows(m, n - 1);
    }
  }

  /** Every power of ten from 1e-12 on is a decimal size. */
  lemma {:induction false} PowerOfTenIsDecimal(k: nat)
    ensures k <= 12 ==> DecimalSize(1.0 / Pow10(k) as real)
    ensures DecimalSize(Pow10(k) as real)
  {
    hide *;
    if k <= 12 {
      SmallPowerIsDecimal(1.0 / Pow10(k) as real, k, Pow10(k));
    }
    LargeIsDecimal(Pow10(k));
  }

  lemma {:induction false} SmallPowerIsDecimal(t: real, k: nat, p: int)
    requires k <= 12 && p == Pow10(k) && t > 0.0 && t * p as real == 1.0
    ensures DecimalSize(t)
  {
    hide Pow10, DecimalsSuffice, PrecisionFrom, IsProduct, OnGrid;
    Pow10Add(k, k);
    assert Pow10(2 * k) == p * p;
    SquareOfInverse(t, p, p * p);
    PrecisionOfPower(t * t, k, 0);
    OnGridFrom(t, p as real, 1);
  }

  lemma {:induction false} LargeIsDecimal(p: int)
    requires p >= 1
    ensures DecimalSize(p as real)
  {
    ProductOrder(1.0, p as real, p as real);
    assert Pow10(0) == 1;
    assert Pow10(1) == 10;
    OnGridFrom(p as real, 1.0, p);
  }

  lemma {:induction false} SquareOfInverse(t: real, p: int, square: int)
    requires t > 0.0 && t * p as real == 1.0 && square == p * p
    ensures IsProduct(t * t, square as real, 1.0)
  {
    assert square as real == p as real * p as real;
    assert t * t * (p as real * p as real) == (t * p as real) * (t * p as real);
  }

  predicate IsProduct(x: real, y: real, z: real) { x * y == z }

  lemma {:induction false} InversePositive(e: real, s: real)
    requires s > 0.0 && e * s == 1.0
    ensures e > 0.0
  {
    if e <= 0.0 {
      ProductOrder(e, 0.0, s);
    }
  }

  lemma {:induction false} BelowInverse(e: real, u: real, s: real)
    requires s > 0.0 && IsProduct(e, s, 1.0) && u <= s
    ensures IsProduct(e, u, e * u) && e * u <= 1.0
  {
    InversePositive(e, s);
    ProductOrder(u, s, e);
  }

  lemma {:induction false} TenTimesInverse(e: real, u: real, s: real)
    requires IsProduct(e, s, 1.0) && u == 10.0 * s
    ensures IsProduct(e, u, 10.0)
  {
    assert e * u == 10.0 * (e * s) == 10.0;
  }

  lemma {:induction false} ExceedsFrom(e: real, u: real, z: real)
    requires IsProduct(e, u, z)
    ensures ExceedsInverse(e, u) <==> z > 1.0
  {
  }

  lemma {:induction false} DecimalsOfPower(e: real, k: nat, j: nat)
    requires j <= k && IsProduct(e, Pow10(2 * k) as real, 1.0)
    ensures DecimalsSuffice(e, j) <==> j == k
  {
    assert Pow10(2 * k + 1) == 10 * Pow10(2 * k);
    hide Pow10, IsProduct, ExceedsInverse;
    var u, s := Pow10(2 * j + 1) as real, Pow10(2 * k) as real;
    if j < k {
      Pow10Grows(2 * j + 1, 2 * k);
      BelowInverse(e, u, s);
      ExceedsFrom(e, u, e * u);
    } else {
      TenTimesInverse(e, u, s);
      ExceedsFrom(e, u, 10.0);
    }
  }

  lemma {:induction false} PrecisionOfPower(e: real, k: nat, j: nat)
    requires j <= k <= 12 && IsProduct(e, Pow10(2 * k) as real, 1.0)
    ensures PrecisionFrom(e, j) == k
    decreases k - j
  {
    hide Pow10, IsProduct, DecimalsSuffice;
    DecimalsOfPower(e, k, j);
    if j < k {
      PrecisionOfPower(e, k, j + 1);
    }
  }

  // ----- Protection prices -----

  /** Unrounded stop and take-profit around the fill price and the reference mark. */
  function DeriveProtectionPrices(side: string, entry: real, stopLoss: real, takeProfit: real,
                                  exchangePrice: real, markPrice: real): (real, real)
  {
    var mark := ReferenceMark(exchangePrice, markPrice);
    var stopDistance := Max(Abs(entry - stopLoss), SafetyBuffer(mark));
    var profitDistance := Max(Abs(takeProfit - entry), SafetyBuffer(mark));
    if side == "long" then
      (Min(exchangePrice, mark) - stopDistance, Max(exchangePrice, mark) + profitDistance)
    else
      (Max(exchangePrice, mark) + stopDistance, Min(exchangePrice, mark) - profitDistance)
  }

  function ReferenceMark(exchangePrice: real, markPrice: real): real {
    if markPrice > 0.0 then markPrice else exchangePrice
  }

  function SafetyBuffer(mark: real): real { Max(Abs(mark) * 0.001, 0.00000001) }

  /** The levels actually sent: rounded away from the market on both sides. */
  function ProtectionLevels(side: string, entry: real, stopLoss: real, takeProfit: real,
                            exchangePrice: real, markPrice: real, tick: real): (real, real)
  {
    var (stop, profit) := DeriveProtectionPrices(side, entry, stopLoss, takeProfit, exchangePrice, markPrice);
    if side == "long" then (RoundPriceToTick(stop, tick, Down), RoundPriceToTick(profit, tick, Up))
    else (RoundPriceToTick(stop, tick, Up), RoundPriceToTick(profit, tick, Down))
  }

  datatype Trigger = NoTrigger | StopMarket | TakeProfitMarket

  /** Which synthetic exit, if any, the mark price calls for. */
  function DetectLocalExit(side: string, mark: real, stopLoss: real, takeProfit: real): Trigger {
    if mark <= 0.0 then NoTrigger
    else if side == "long" then
      if mark <= stopLoss then StopMarket else if mark >= takeProfit then TakeProfitMarket else NoTrigger
    else
      if mark >= stopLoss then StopMarket else if mark <= takeProfit then TakeProfitMarket else NoTrigger
  }

  predicate UsableTick(tick: real) { tick <= 0.0 || DecimalSize(tick) }

  /** How far the second rounding can move a tick multiple: half a unit of the last decimal kept, or not at all. */
  function Shift(tick: real): (e: real)
    ensures e >= 0.0
  {
    if UsableTick(tick) then 0.0 else 0.5 / Scale(tick)
  }

  lemma {:induction false} ShiftBounds(m: int, tick: real)
    requires tick > 0.0
    ensures -Shift(tick) <= RoundTo(Units(m, tick), Scale(tick)) - Units(m, tick) <= Shift(tick)
  {
    hide RoundTo, Scale, Units, DecimalSize;
    if DecimalSize(tick) {
      ExactMultiple(m, tick);
    } else {
      RoundToError(Units(m, tick), Scale(tick));
      NegatedQuotient(Scale(tick));
    }
  }

  lemma {:induction false} NegatedQuotient(scale: real)
    requires scale > 0.0
    ensures -0.5 / scale == -(0.5 / scale)
  {
  }

  lemma {:induction false} TickDown(price: real, tick: real)
    ensures price - Max(tick, 0.0) - Shift(tick) <= RoundPriceToTick(price, tick, Down) <= price + Shift(tick)
    ensures tick > 0.0 ==> price - tick - Shift(tick) < RoundPriceToTick(price, tick, Down)
  {
    if tick > 0.0 {
      ShiftBounds(FloorUnits(price, tick), tick);
      hide Shift, RoundTo, Units;
    }
  }

  lemma {:induction false} TickUp(price: real, tick: real)
    ensures price - Shift(tick) <= RoundPriceToTick(price, tick, Up) <= price + Max(tick, 0.0) + Shift(tick)
    ensures tick > 0.0 ==> RoundPriceToTick(price, tick, Up) < price + tick + Shift(tick)
  {
    if tick > 0.0 {
      ShiftBounds(CeilUnits(price, tick), tick);
      hide Shift, RoundTo, Units;
    }
  }

  /** The distance a level is meant to keep from fill and mark. */
  function Gap(planned: real, entry: real, mark: real): (gap: real)
    ensures gap > 0.0
  {
    Max(Abs(planned - entry), SafetyBuffer(mark))
  }

  /** For every tick: both levels keep the planned distance from fill and mark and less than one tick more, up to the
      shift of the second rounding, which is zero for usable ticks. */
  lemma {:induction false} ProtectionBrackets(side: string, entry: real, stopLoss: real, takeProfit: real,
                           exchangePrice: real, markPrice: real, tick: real)
    ensures
      var (stop, profit) := ProtectionLevels(side, entry, stopLoss, takeProfit, exchangePrice, markPrice, tick);
      var mark := ReferenceMark(exchangePrice, markPrice);
      var low, high := Min(exchangePrice, mark), Max(exchangePrice, mark);
      var below := if side == "long" then low - stop else low - profit;
      var above := if side == "long" then profit - high else stop - high;
      var gapBelow := Gap(if side == "long" then stopLoss else takeProfit, entry, mark);
      var gapAbove := Gap(if side == "long" then takeProfit else stopLoss, entry, mark);
      && below >= gapBelow - Shift(tick) && above >= gapAbove - Shift(tick)
      && below <= gapBelow + Max(tick, 0.0) + Shift(tick) && above <= gapAbove + Max(tick, 0.0) + Shift(tick)
      && (tick > 0.0 ==> below < gapBelow + tick + Shift(tick) && above < gapAbove + tick + Shift(tick))
      && (UsableTick(tick) ==> Shift(tick) == 0.0 && below > 0.0 && above > 0.0)
  {
    var (stop, profit) := DeriveProtectionPrices(side, entry, stopLoss, takeProfit, exchangePrice, markPrice);
    TickDown(if side == "long" then stop else profit, tick);
    TickUp(if side == "long" then profit else stop, tick);
    assert UsableTick(tick) ==> Shift(tick) == 0.0;
    hide RoundPriceToTick, Shift, UsableTick, SafetyBuffer;
  }

  /** Both planned distances, or the buffer where it is larger, exceed what the second rounding can take away. */
  predicate ClearOfRounding(entry: real, stopLoss: real, takeProfit: real,
                            exchangePrice: real, markPrice: real, tick: real)
  {
    var mark := ReferenceMark(exchangePrice, markPrice);
    Gap(stopLoss, entry, mark) > Shift(tick) && Gap(takeProfit, entry, mark) > Shift(tick)
  }

  /** The second rounding takes the mth multiple of the tick less than the buffer away; or, where it takes it to zero or
      below, the multiple was no more than the least buffer. */
  predicate Spared(m: int, tick: real)
    requires tick > 0.0
  {
    var x, r := Units(m, tick), RoundTo(Units(m, tick), Scale(tick));
    if r > 0.0 then Abs(r - x) < SafetyBuffer(r) else x <= 0.00000001
  }

  /** From this multiple on the buffer exceeds whatever the second rounding can take. */
  function LastDoubt(tick: real): int
    requires tick > 0.0
  {
    FloorUnits(501.0 / Scale(tick), tick)
  }

  /** A tick none of whose multiples is moved as far as the market: finitely many are in doubt. */
  predicate HoldsOff(tick: real) {
    tick <= 0.0 || forall m :: 0 <= m <= LastDoubt(tick) ==> Spared(m, tick)
  }

  lemma {:induction false} BufferGrows(x: real, y: real)
    requires 0.0 < x <= y
    ensures SafetyBuffer(x) <= SafetyBuffer(y) && x - SafetyBuffer(x) <= y - SafetyBuffer(y)
  {
  }

  lemma {:induction false} FarMultiplesAreSpared(m: int, tick: real)
    requires tick > 0.0 && Units(m, tick) > 501.0 / Scale(tick)
    ensures Spared(m, tick)
  {
    hide Units, RoundTo, Scale;
    var scale := Scale(tick);
    RoundToError(Units(m, tick), scale);
    NegatedQuotient(scale);
    HalfUnits(scale);
    FarIsSafe(Units(m, tick), RoundTo(Units(m, tick), scale), 0.5 / scale);
  }

  lemma {:induction false} HalfUnits(scale: real)
    requires scale > 0.0
    ensures 501.0 / scale == 1002.0 * (0.5 / scale) && 0.5 / scale > 0.0
  {
  }

  lemma {:induction false} FarIsSafe(x: real, r: real, e: real)
    requires e > 0.0 && x > 1002.0 * e && -e <= r - x <= e
    ensures r > 0.0 && Abs(r - x) < SafetyBuffer(r)
  {
  }

  lemma {:induction false} NegativeMultiplesAreSpared(m: int, tick: real)
    requires tick > 0.0 && m < 0
    ensures Spared(m, tick)
  {
    UnitsOrder(m, 0, tick);
    assert Units(0, tick) == 0.0;
    RoundToMonotone(Units(m, tick), 0.0, Scale(tick));
    assert RoundInt(0.0) == 0;
    assert RoundTo(0.0, Scale(tick)) == 0.0;
    hide Units, RoundTo, Scale;
  }

  lemma {:induction false} BeyondTheFloor(m: int, bound: real, tick: real)
    requires tick > 0.0 && m > FloorUnits(bound, tick)
    ensures Units(m, tick) > bound
  {
    var k := FloorUnits(bound, tick);
    NextUnit(k, tick);
    hide Units, FloorUnits;
    if m > k + 1 {
      UnitsOrder(k + 1, m, tick);
    }
  }

  lemma {:induction false} NextUnit(k: int, size: real)
    ensures Units(k + 1, size) == Units(k, size) + size
  {
  }

  lemma {:induction false} AllAreSpared(tick: real, m: int)
    requires tick > 0.0 && HoldsOff(tick)
    ensures Spared(m, tick)
  {
    hide Spared, Units, Scale, FloorUnits;
    if m < 0 {
      NegativeMultiplesAreSpared(m, tick);
    } else if m > LastDoubt(tick) {
      BeyondTheFloor(m, 501.0 / Scale(tick), tick);
      FarMultiplesAreSpared(m, tick);
    }
  }

  lemma {:induction false} UsableTicksHoldOff(tick: real)
    requires UsableTick(tick)
    ensures HoldsOff(tick)
  {
    if tick > 0.0 {
      hide Units, RoundTo, Scale, LastDoubt;
      forall m | 0 <= m <= LastDoubt(tick) ensures Spared(m, tick) {
        ExactMultiple(m, tick);
      }
    }
  }

  lemma {:induction false} LowLevelHolds(level: real, mark: real, tick: real)
    requires HoldsOff(tick) && mark > 0.0 && level <= mark - SafetyBuffer(mark)
    ensures RoundPriceToTick(level, tick, Down) < mark
  {
    if tick > 0.0 {
      var m := FloorUnits(level, tick);
      AllAreSpared(tick, m);
      var r := RoundTo(Units(m, tick), Scale(tick));
      hide Units, RoundTo, Scale, FloorUnits, HoldsOff;
      if r >= mark {
        BufferGrows(mark, r);
      }
    }
  }

  lemma {:induction false} HighLevelHolds(level: real, mark: real, tick: real)
    requires HoldsOff(tick) && mark > 0.0 && level >= mark + SafetyBuffer(mark)
    ensures RoundPriceToTick(level, tick, Up) > mark
  {
    if tick > 0.0 {
      var m := CeilUnits(level, tick);
      AllAreSpared(tick, m);
      var r := RoundTo(Units(m, tick), Scale(tick));
      hide Units, RoundTo, Scale, CeilUnits, HoldsOff;
      if 0.0 < r <= mark {
        BufferGrows(r, mark);
      }
    }
  }

  /** The saved levels never fire at the very mark price they were derived from, whatever the plan, when the tick holds
      off; and for any other tick whenever both distances exceed half a unit of the last decimal kept. */
  lemma {:induction false} FreshLevelsDoNotFire(side: string, entry: real, stopLoss: real, takeProfit: real,
                             exchangePrice: real, markPrice: real, tick: real)
    requires HoldsOff(tick) || ClearOfRounding(entry, stopLoss, takeProfit, exchangePrice, markPrice, tick)
    ensures
      var (stop, profit) := ProtectionLevels(side, entry, stopLoss, takeProfit, exchangePrice, markPrice, tick);
      DetectLocalExit(side, markPrice, stop, profit) == NoTrigger
  {
    if markPrice > 0.0 && HoldsOff(tick) {
      var (stop, profit) := DeriveProtectionPrices(side, entry, stopLoss, takeProfit, exchangePrice, markPrice);
      hide RoundPriceToTick, SafetyBuffer, HoldsOff, UsableTick;
      if side == "long" {
        LowLevelHolds(stop, markPrice, tick);
        HighLevelHolds(profit, markPrice, tick);
      } else {
        LowLevelHolds(profit, markPrice, tick);
        HighLevelHolds(stop, markPrice, tick);
      }
    } else if markPrice > 0.0 {
      ProtectionBrackets(side, entry, stopLoss, takeProfit, exchangePrice, markPrice, tick);
      hide ProtectionLevels, Gap, Shift, UsableTick, HoldsOff;
    }
  }

  /** Prices as the request schema and the exchange give them. */
  predicate Prices(entry: real, stopLoss: real, takeProfit: real, exchangePrice: real, markPrice: real) {
    entry > 0.0 && stopLoss > 0.0 && takeProfit > 0.0 && exchangePrice > 0.0 && markPrice > 0.0
  }

  predicate Fires(side: string, entry: real, stopLoss: real, takeProfit: real, exchangePrice: real, markPrice: real,
                  tick: real)
  {
    var (stop, profit) := ProtectionLevels(side, entry, stopLoss, takeProfit, exchangePrice, markPrice, tick);
    DetectLocalExit(side, markPrice, stop, profit) != NoTrigger
  }

  /** A multiple that is not spared makes a long plan fire: with the mark where rounding takes the multiple, or
      below. */
  lemma {:induction false} UnsparedFires(m: int, tick: real)
    returns (entry: real, stopLoss: real, takeProfit: real, price: real)
    requires tick > 0.0 && !Spared(m, tick)
    ensures Prices(entry, stopLoss, takeProfit, price, price)
    ensures Fires("long", entry, stopLoss, takeProfit, price, price, tick)
  {
    var x, r := Units(m, tick), RoundTo(Units(m, tick), Scale(tick));
    MultipleRoundsToItself(m, tick);
    hide Units, RoundTo, Scale, FloorUnits, CeilUnits;
    if r > x {
      entry, stopLoss, takeProfit, price := 1.0 + (r - x), 1.0, 2.0 + (r - x), r;
    } else if r > 0.0 {
      entry, stopLoss, takeProfit, price := 1.0, 1.0, 1.0 + (x - r), r;
    } else {
      price := (x - 0.00000001) / 2.0;
      entry, stopLoss, takeProfit := 1.0, 1.0, 1.0 + (x - price);
    }
  }

  lemma {:induction false} MultipleRoundsToItself(m: int, tick: real)
    requires tick > 0.0
    ensures RoundPriceToTick(Units(m, tick), tick, Down) == RoundTo(Units(m, tick), Scale(tick))
    ensures RoundPriceToTick(Units(m, tick), tick, Up) == RoundTo(Units(m, tick), Scale(tick))
  {
    var x := Units(m, tick);
    var f, c := FloorUnits(x, tick), CeilUnits(x, tick);
    UnitsOrder(f, m, tick);
    UnitsOrder(m, f, tick);
    UnitsOrder(c, m, tick);
    UnitsOrder(m, c, tick);
    hide FloorUnits, CeilUnits, Units;
  }

  /** For a given tick, no plan, fill and mark make fresh levels fire if and only if the tick holds off. */
  lemma {:induction false} NeverFiresExactly(tick: real)
    ensures (forall side, entry, stopLoss, takeProfit, exchangePrice, markPrice ::
               Prices(entry, stopLoss, takeProfit, exchangePrice, markPrice) ==>
               !Fires(side, entry, stopLoss, takeProfit, exchangePrice, markPrice, tick))
            <==> HoldsOff(tick)
  {
    if HoldsOff(tick) {
      hide HoldsOff, ProtectionLevels, DetectLocalExit;
      forall side, entry, stopLoss, takeProfit, exchangePrice, markPrice |
        Prices(entry, stopLoss, takeProfit, exchangePrice, markPrice)
        ensures !Fires(side, entry, stopLoss, takeProfit, exchangePrice, markPrice, tick)
      {
        FreshLevelsDoNotFire(side, entry, stopLoss, takeProfit, exchangePrice, markPrice, tick);
      }
    } else {
      var m :| 0 <= m <= LastDoubt(tick) && !Spared(m, tick);
      hide Spared, Fires, LastDoubt;
      var entry, stopLoss, takeProfit, price := UnsparedFires(m, tick);
    }
  }

  /** With tick 0.05 the extra rounding lifts a long stop above the mark, and the detector fires at once. */
  lemma {:induction false} CoarseTickMisfires()
    ensures !DecimalSize(0.05)
    ensures
      var (stop, profit) := ProtectionLevels("long", 10.17, 10.169, 10.5, 10.17, 10.17, 0.05);
      stop == 10.2 && DetectLocalExit("long", 10.17, stop, profit) == StopMarket
  {
    assert Pow10(0) == 1 && Pow10(1) == 10 && Pow10(2) == 100 && Pow10(3) == 1000;
    assert Precision(0.05) == 1 by {
      assert PrecisionFrom(0.05 * 0.05, 1) == 1;
    }
    assert Scale(0.05) == 10.0;
    var (stop, profit) := DeriveProtectionPrices("long", 10.17, 10.169, 10.5, 10.17, 10.17);
    assert stop == 10.15983;
    assert FloorUnits(stop, 0.05) == 203;
    assert RoundInt(101.5) == 102;
  }

  // ----- Wire format -----

  datatype Wire = Text(digits: string) | Unserializable

  function DigitChar(d: nat): char
    requires d < 10
  {
    "0123456789"[d]
  }

  function DigitValue(c: char): nat {
    if '0' <= c <= '9' then c as nat - '0' as nat else 0
  }

  /** Decimal digits of n without leading zeros. */
  function Digits(n: nat): string {
    if n < 10 then [DigitChar(n)] else Digits(n / 10) + [DigitChar(n % 10)]
  }

  /** The last `width` decimal digits of n, zero padded. */
  function FixedDigits(n: nat, width: nat): string {
    if width == 0 then "" else FixedDigits(n / 10, width - 1) + [DigitChar(n % 10)]
  }

  function RStrip(s: string, c: char): string {
    if s != "" && s[|s| - 1] == c then RStrip(s[..|s| - 1], c) else s
  }

  const WIRE_DECIMALS := 12
  const WIRE_SCALE := 1000000000000

  /** n units of the last decimal, printed with all twelve decimals and then stripped. */
  function WireText(n: nat): string {
    RStrip(RStrip(Digits(n / WIRE_SCALE) + "." + FixedDigits(n % WIRE_SCALE, WIRE_DECIMALS), '0'), '.')
  }

  /** The quantity in units of the twelfth decimal. */
  function WireUnits(quantity: real): (n: int)
    ensures quantity > 0.0 ==> n >= 0
    ensures RoundTo(quantity, WIRE_SCALE as real) == n as real / WIRE_SCALE as real
  {
    RoundInt(quantity * WIRE_SCALE as real)
  }

  /** `f"{q:.12f}".rstrip("0").rstrip(".")`, refusing anything that prints as zero. */
  function SerializeQuantity(quantity: real): Wire {
    if quantity <= 0.0 then Unserializable
    else
      var text := WireText(WireUnits(quantity));
      if text == "" || text == "0" then Unserializable else Text(text)
  }

  function Natural(s: string): nat {
    if s == "" then 0 else 10 * Natural(s[..|s| - 1]) + DigitValue(s[|s| - 1])
  }

  predicate Plain(s: string) { forall i :: 0 <= i < |s| ==> '0' <= s[i] <= '9' }

  /** What a reader of the wire makes of an integer part and a fraction part. */
  function DecimalValue(whole: string, fraction: string): real {
    Natural(whole) as real + Natural(fraction) as real / Pow10(|fraction|) as real
  }

  function Dot(s: string): (k: nat)
    ensures k <= |s| && (k < |s| ==> s[k] == '.') && forall i :: 0 <= i < k ==> s[i] != '.'
  {
    if s == "" || s[0] == '.' then 0 else 1 + Dot(s[1..])
  }

  function ParseDecimal(s: string): real {
    var k := Dot(s);
    if k == |s| then DecimalValue(s, "") else DecimalValue(s[..k], s[k + 1..])
  }

  lemma {:induction false} Appended(s: string, d: nat)
    requires d < 10
    ensures Natural(s + [DigitChar(d)]) == 10 * Natural(s) + d
    ensures Plain(s) ==> Plain(s + [DigitChar(d)])
  {
    var t := s + [DigitChar(d)];
    assert t[..|t| - 1] == s;
  }

  lemma {:induction false} DigitsRead(n: nat)
    ensures Natural(Digits(n)) == n && Plain(Digits(n)) && |Digits(n)| >= 1
    ensures n > 0 ==> Digits(n)[0] != '0'
    ensures n == 0 ==> Digits(n) == "0"
  {
    if n >= 10 {
      hide Natural, Plain;
      DigitsRead(n / 10);
      Appended(Digits(n / 10), n % 10);
    }
  }

  lemma {:induction false} FixedDigitsRead(n: nat, width: nat)
    requires n < Pow10(width)
    ensures |FixedDigits(n, width)| == width && Plain(FixedDigits(n, width))
    ensures Natural(FixedDigits(n, width)) == n
  {
    if width > 0 {
      assert n / 10 < Pow10(width - 1);
      hide Pow10, Natural, Plain;
      FixedDigitsRead(n / 10, width - 1);
      Appended(FixedDigits(n / 10, width - 1), n % 10);
    }
  }

  /** Dropping trailing zeros of a fraction changes neither its value nor the digits before them. */
  lemma {:induction false} StripZeros(whole: string, fraction: string)
    requires Plain(fraction)
    ensures Plain(RStrip(fraction, '0'))
    ensures RStrip(fraction, '0') != "" ==> RStrip(fraction, '0')[|RStrip(fraction, '0')| - 1] != '0'
    ensures DecimalValue(whole, RStrip(fraction, '0')) == DecimalValue(whole, fraction)
    ensures RStrip(whole + "." + fraction, '0') == whole + "." + RStrip(fraction, '0')
  {
    var s := whole + "." + fraction;
    if fraction == "" {
    } else if fraction[|fraction| - 1] == '0' {
      var shorter := fraction[..|fraction| - 1];
      StripZeros(whole, shorter);
      assert s[..|s| - 1] == whole + "." + shorter;
      SameQuotient(Natural(shorter), Pow10(|shorter|));
    }
  }

  lemma {:induction false} SameQuotient(a: int, b: int)
    requires b > 0
    ensures (10 * a) as real / (10 * b) as real == a as real / b as real
  {
    var q := a as real / b as real;
    assert q * b as real == a as real;
    assert q * (10 * b) as real == (10 * a) as real;
  }

  lemma {:induction false} DotAfterPlain(whole: string, rest: string)
    requires Plain(whole)
    ensures Dot(whole + "." + rest) == |whole|
    ensures Dot(whole) == |whole|
  {
    if whole != "" {
      DotAfterPlain(whole[1..], rest);
      assert (whole + "." + rest)[1..] == whole[1..] + "." + rest;
    }
  }

  /** Tidy: no trailing dot, and no trailing zero behind a dot. */
  predicate Tidy(s: string) {
    s != "" && (Dot(s) < |s| ==> Dot(s) + 1 < |s| && s[|s| - 1] != '0')
  }

  lemma {:induction false} WholeText(whole: string)
    requires Plain(whole) && whole != ""
    ensures RStrip(whole + ".", '.') == whole
    ensures Tidy(whole) && ParseDecimal(whole) == DecimalValue(whole, "")
  {
    var s := whole + ".";
    assert s[..|s| - 1] == whole;
    DotAfterPlain(whole, "");
  }

  lemma {:induction false} FractionText(whole: string, kept: string)
    requires Plain(whole) && Plain(kept) && kept != "" && kept[|kept| - 1] != '0'
    ensures var s := whole + "." + kept;
      && RStrip(s, '.') == s && s != "0"
      && Tidy(s) && ParseDecimal(s) == DecimalValue(whole, kept)
  {
    hide DecimalValue;
    var s := whole + "." + kept;
    DotAfterPlain(whole, kept);
    assert s[..|whole|] == whole && s[|whole| + 1..] == kept;
    assert s[|whole|] == '.';
  }

  lemma {:induction false} WireScale()
    ensures Pow10(WIRE_DECIMALS) == WIRE_SCALE
  {
    assert Pow10(4) == 10000;
    Pow10Add(4, 4);
    Pow10Add(8, 4);
  }

  lemma {:induction false} WireTextReadsBack(n: nat)
    ensures WireText(n) == "0" <==> n == 0
    ensures Tidy(WireText(n)) && ParseDecimal(WireText(n)) == n as real / WIRE_SCALE as real
  {
    hide Digits, FixedDigits, Pow10, Tidy, ParseDecimal, DecimalValue, Natural;
    var whole, fraction := Digits(n / WIRE_SCALE), FixedDigits(n % WIRE_SCALE, WIRE_DECIMALS);
    WireScale();
    DigitsRead(n / WIRE_SCALE);
    FixedDigitsRead(n % WIRE_SCALE, WIRE_DECIMALS);
    FixedPointValue(whole, fraction, n);
    StripZeros(whole, fraction);
    var kept := RStrip(fraction, '0');
    if kept == "" {
      assert whole + "." + kept == whole + ".";
      WholeText(whole);
    } else {
      FractionText(whole, kept);
      PositiveFraction(kept);
    }
    NothingPrintsAsZero(whole, kept, n);
  }

  lemma {:induction false} FixedPointValue(whole: string, fraction: string, n: nat)
    requires |fraction| == WIRE_DECIMALS
    requires Natural(whole) == n / WIRE_SCALE && Natural(fraction) == n % WIRE_SCALE
    ensures DecimalValue(whole, fraction) == n as real / WIRE_SCALE as real
  {
    WireScale();
    hide Pow10, Natural;
    assert n as real == (n / WIRE_SCALE) as real * WIRE_SCALE as real + (n % WIRE_SCALE) as real;
  }

  lemma {:induction false} NothingPrintsAsZero(whole: string, kept: string, n: nat)
    requires DecimalValue(whole, kept) == n as real / WIRE_SCALE as real
    ensures kept == "" && whole == "0" ==> n == 0
    ensures n == 0 ==> Natural(kept) == 0
  {
    assert Natural("0") == 0;
    Scaled(0.0, Natural(kept) as real, Pow10(|kept|) as real);
    if Natural(kept) > 0 {
      ProductPositive(Natural(kept) as real, 1.0 / Pow10(|kept|) as real);
    }
  }

  lemma {:induction false} PositiveFraction(kept: string)
    requires Plain(kept) && kept != "" && kept[|kept| - 1] != '0'
    ensures Natural(kept) > 0
  {
  }

  /** Serialising succeeds exactly when the amount is at least half a unit of the last decimal kept,
      prints tidily, and reads back as the amount rounded to twelve decimals. */
  lemma {:induction false} SerializeReadsBack(q: real)
    ensures SerializeQuantity(q).Text? <==> q > 0.0 && WireUnits(q) > 0
    ensures SerializeQuantity(q).Text? ==>
      && Tidy(SerializeQuantity(q).digits)
      && ParseDecimal(SerializeQuantity(q).digits) == RoundTo(q, WIRE_SCALE as real)
  {
    if q > 0.0 {
      hide WireText, ParseDecimal, Tidy, WireUnits, RoundTo;
      WireTextReadsBack(WireUnits(q));
    }
  }

  /** On every decimal step the text on the wire denotes the sized quantity itself, and the loss at the planned stop
      never exceeds the approved share of the capital. */
  lemma {:induction false} SizingSurvivesTheWire(capital: real, riskPct: real, stopDistance: real, step: real)
    requires stopDistance > 0.0 && DecimalSize(step)
    requires RoundToStep(capital * (riskPct / 100.0) / stopDistance, step) > 0.0
    ensures
      var q := RoundToStep(capital * (riskPct / 100.0) / stopDistance, step);
      && SerializeQuantity(q).Text? && ParseDecimal(SerializeQuantity(q).digits) == q
      && q * stopDistance <= capital * (riskPct / 100.0)
  {
    hide *;
    var risked := capital * (riskPct / 100.0);
    QuotientTimes(risked, stopDistance);
    SizedSurvivesTheWire(risked / stopDistance, stopDistance, step);
  }

  lemma {:induction false} QuotientTimes(x: real, y: real)
    requires y != 0.0
    ensures x / y * y == x
  {
  }

  lemma {:induction false} SizedSurvivesTheWire(raw: real, stopDistance: real, step: real)
    requires stopDistance > 0.0 && DecimalSize(step) && RoundToStep(raw, step) > 0.0
    ensures var q := RoundToStep(raw, step);
      && SerializeQuantity(q).Text? && ParseDecimal(SerializeQuantity(q).digits) == q
      && q * stopDistance <= raw * stopDistance
  {
    DecimalIsPositive(step);
    hide *;
    var q := RoundToStep(raw, step);
    RoundToStepGreatest(raw, step);
    ProductOrder(q, raw, stopDistance);
    var m :| q == Units(m, step);
    DecimalFitsTheWire(step);
    MultipleOnGrid(m, step, WIRE_SCALE as real);
    ExactOnTheWire(q);
  }

  lemma {:induction false} DecimalIsPositive(step: real)
    requires DecimalSize(step)
    ensures step > 0.0
  {
  }

  lemma {:induction false} DecimalFitsTheWire(step: real)
    requires DecimalSize(step)
    ensures OnGrid(step, WIRE_SCALE as real)
  {
    var k := Precision(step);
    WireScale();
    Pow10Add(k, 12 - k);
    var p, unit, n := Pow10(k), Pow10(12 - k), (step * Scale(step)).Floor;
    assert step * p as real == n as real;
    hide Pow10, OnGrid, Precision, Scale, DecimalSize;
    FinerGrid(step, p, unit, n);
    OnGridFrom(step, WIRE_SCALE as real, n * unit);
  }

  lemma {:induction false} FinerGrid(x: real, p: int, unit: int, n: int)
    requires x * p as real == n as real
    ensures x * (p * unit) as real == (n * unit) as real
  {
    var a, b := p as real, unit as real;
    assert (p * unit) as real == a * b && (n * unit) as real == n as real * b;
    assert x * (a * b) == (x * a) * b;
  }

  lemma {:induction false} ExactOnTheWire(q: real)
    requires q > 0.0 && OnGrid(q, WIRE_SCALE as real)
    ensures SerializeQuantity(q).Text? && ParseDecimal(SerializeQuantity(q).digits) == q
  {
    hide SerializeQuantity, ParseDecimal, WireUnits, OnGrid, RoundTo;
    SerializeReadsBack(q);
    RoundToExact(q, WIRE_SCALE as real);
    assert q == WireUnits(q) as real / WIRE_SCALE as real;
  }
}
