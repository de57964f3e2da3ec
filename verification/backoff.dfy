// The retry delays of both reconnecting clients (nextTCPBackoff and nextBackoff).
module Backoffs {
  // A positive rational multiplier, without floating-point rounding.
  datatype Multiplier = Multiplier(num: nat, den: nat)

  // Durations are in nanoseconds; a configuration may hold a negative one.
  datatype Config = Config(initial: int, max: int, multiplier: Multiplier, maxRetries: int)

  ghost predicate ValidConfig(cfg: Config) {
    cfg.multiplier.num > 0 && cfg.multiplier.den > 0
  }

  // time.Duration of a product rounds toward zero.
  function Scaled(current: int, m: Multiplier): int
    requires m.den > 0
  {
    if current >= 0 then current * m.num / m.den else -(-current * m.num / m.den)
  }

  function Next(current: int, m: Multiplier, max: int): int
    requires m.den > 0
  {
    var scaled := Scaled(current, m);
    var next := if scaled <= 0 then current else scaled;
    if next > max then max else next
  }

  lemma DivideAtLeast(a: nat, b: nat, c: nat)
    requires b > 0
    ensures a / b >= c <==> a >= b * c
  {
    var q, r := a / b, a % b;
    assert a == b * q + r;
    if q >= c {
      assert b * q >= b * c;
    } else {
      assert b * (q + 1) <= b * c;
    }
  }

  lemma TimesMonotone(a: nat, b: nat, c: nat)
    requires a > 0
    ensures a * b >= a * c <==> b >= c
  {
    if b >= c {
      assert a * b == a * c + a * (b - c);
    } else {
      assert a * c == a * b + a * (c - b);
    }
  }

  lemma ScaledAtLeast(current: nat, m: Multiplier)
    requires current > 0 && m.den > 0
    ensures Scaled(current, m) >= current <==> m.num >= m.den
    ensures Scaled(current, m) <= 0 <==> current * m.num < m.den
  {
    var p := current * m.num;
    DivideAtLeast(p, m.den, current);
    DivideAtLeast(p, m.den, 1);
    assert m.den * current == current * m.den;
    TimesMonotone(current, m.num, m.den);
  }

  // A delay never shrinks exactly when it is within the maximum and the multiplier is at least
  // one, or so small that the product rounds to nothing and the delay is kept.
  lemma NextGrowsIff(current: int, m: Multiplier, max: int)
    requires current > 0 && m.den > 0
    ensures Next(current, m, max) >= current <==> current <= max && (m.num >= m.den || current * m.num < m.den)
    ensures Next(current, m, max) <= max
  {
    ScaledAtLeast(current, m);
    hide Scaled;
  }

  // The next delay is the product, rounded down to a whole number, unless that is zero; it
  // stays as it is otherwise, or when it is not positive, and never exceeds the maximum.
  lemma NextIsExact(current: int, m: Multiplier, max: int, product: nat)
    requires m.den > 0 && (current > 0 ==> product * m.den <= current * m.num < (product + 1) * m.den)
    ensures var next := if current > 0 && product > 0 then product else current;
      Next(current, m, max) == if next > max then max else next
  {
    if current > 0 {
      var p: nat := current * m.num;
      DivideAtLeast(p, m.den, product);
      DivideAtLeast(p, m.den, product + 1);
      assert m.den * product == product * m.den && m.den * (product + 1) == (product + 1) * m.den;
      assert Scaled(current, m) == product;
    } else {
      ScaledNegative(current, m);
    }
    hide Scaled;
  }

  lemma ScaledNegative(current: int, m: Multiplier)
    requires m.den > 0 && current <= 0
    ensures Scaled(current, m) <= 0
  {
    var p: nat := -current * m.num;
    DivideAtLeast(p, m.den, 0);
    if current == 0 {
      assert p == 0;
    }
  }

  // The delay before retry number k of a failure run.
  function Delay(cfg: Config, k: nat): int
    requires ValidConfig(cfg)
  {
    if k == 0 then cfg.initial else Next(Delay(cfg, k - 1), cfg.multiplier, cfg.max)
  }

  // No sleep is longer than the larger of the two limits.
  lemma DelayIsBounded(cfg: Config, k: nat)
    requires ValidConfig(cfg)
    ensures Delay(cfg, k) <= if cfg.initial > cfg.max then cfg.initial else cfg.max
  {}

  lemma {:induction false} DelaysGrow(cfg: Config, j: nat, k: nat)
    requires ValidConfig(cfg) && cfg.multiplier.num >= cfg.multiplier.den && 0 < cfg.initial <= cfg.max && j <= k
    ensures 0 < cfg.initial <= Delay(cfg, j) <= Delay(cfg, k) <= cfg.max
    decreases k
  {
    if k > 0 {
      DelaysGrow(cfg, if j < k then j else k - 1, k - 1);
      NextGrowsIff(Delay(cfg, k - 1), cfg.multiplier, cfg.max);
    }
  }

  function Power(b: nat, k: nat): nat {
    if k == 0 then 1 else b * Power(b, k - 1)
  }

  lemma WholeStep(d: int, m: Multiplier, max: int)
    requires d > 0 && m.den == 1 && m.num > 0
    ensures Next(d, m, max) == if d * m.num > max then max else d * m.num
    ensures d * m.num >= d
  {
    assert d * m.num >= d * 1;
  }

  lemma Reassociate(a: int, b: int, c: int)
    ensures a * (c * b) == (a * b) * c
  {}

  lemma Scales(a: int, b: int, m: int)
    requires 0 < a <= b && m > 0
    ensures 0 < a * m <= b * m
  {}

  // For a whole multiplier the delays are a geometric series cut off at the maximum.
  lemma {:induction false} DelayClosedForm(cfg: Config, k: nat)
    requires ValidConfig(cfg) && cfg.multiplier.den == 1 && 0 < cfg.initial <= cfg.max
    ensures var full := cfg.initial * Power(cfg.multiplier.num, k);
      full >= cfg.initial && Delay(cfg, k) == if full > cfg.max then cfg.max else full
  {
    if k > 0 {
      var m := cfg.multiplier.num;
      DelayClosedForm(cfg, k - 1);
      var full := cfg.initial * Power(m, k - 1);
      Reassociate(cfg.initial, Power(m, k - 1), m);
      assert cfg.initial * Power(m, k) == full * m;
      WholeStep(full, cfg.multiplier, cfg.max);
      WholeStep(Delay(cfg, k - 1), cfg.multiplier, cfg.max);
      hide Next, Power;
      if full > cfg.max {
        Scales(cfg.max, full, m);
      }
    }
  }
}
