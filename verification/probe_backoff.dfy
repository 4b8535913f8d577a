/** The backoff between failed generation probes of one seat (internal/health/genprobe.go). The
    original shifts a 64-bit signed duration, so large failure counts wrap around. */
module ProbeBackoffs {

  /** Durations are nanoseconds. */
  const PROBE_BACKOFF_BASE := 5_000_000_000
  const PROBE_BACKOFF_CAP := 60_000_000_000

  const TWO_63 := 0x8000_0000_0000_0000
  const TWO_64 := 0x1_0000_0000_0000_0000

  function Pow2(n: nat): nat {
    if n == 0 then 1 else 2 * Pow2(n - 1)
  }

  /** The value a signed 64-bit integer holds after an operation with this exact result. */
  function Wrap64(x: int): int {
    var r := x % TWO_64;
    if r < TWO_63 then r else r - TWO_64
  }

  /** Go's << on a signed 64-bit integer: shifts one bit at a time, dropping what leaves the word. */
  function ShiftLeft64(x: int, n: nat): int {
    if n == 0 then Wrap64(x) else Wrap64(2 * ShiftLeft64(x, n - 1))
  }

  function ProbeBackoff(fails: int): int {
    if fails <= 0 then 0
    else
      var d := ShiftLeft64(PROBE_BACKOFF_BASE, fails - 1);
      if d <= 0 || d > PROBE_BACKOFF_CAP then PROBE_BACKOFF_CAP else d
  }

  /** The delay the design asks for, with no machine word in sight. */
  function CappedDoubling(fails: nat): int
    requires fails >= 1
  {
    var exact := PROBE_BACKOFF_BASE * Pow2(fails - 1);
    if exact < PROBE_BACKOFF_CAP then exact else PROBE_BACKOFF_CAP
  }

  lemma {:induction false} ShiftIsWrappedProduct(x: int, n: nat)
    ensures ShiftLeft64(x, n) == Wrap64(x * Pow2(n))
  {
    if n > 0 {
      ShiftIsWrappedProduct(x, n - 1);
      var y := x * Pow2(n - 1);
      assert x * Pow2(n) == 2 * y;
      WrapDouble(y);
    } else {
      assert x * Pow2(0) == x;
    }
  }

  lemma WrapDouble(y: int)
    ensures Wrap64(2 * Wrap64(y)) == Wrap64(2 * y)
  {
    var q := y / TWO_64;
    var k := if y % TWO_64 < TWO_63 then q else q + 1;
    assert Wrap64(y) == y - k * TWO_64;
    assert 2 * Wrap64(y) == 2 * y - (2 * k) * TWO_64;
    WrapShift(2 * y, 2 * k);
  }

  lemma WrapShift(y: int, k: int)
    ensures Wrap64(y - k * TWO_64) == Wrap64(y)
  {
    var z := y - k * TWO_64;
    assert z == (y / TWO_64 - k) * TWO_64 + y % TWO_64;
    assert z % TWO_64 == y % TWO_64;
  }

  lemma {:induction false} Pow2Grows(m: nat, n: nat)
    requires m <= n
    ensures Pow2(m) <= Pow2(n)
    decreases n - m
  {
    if m < n {
      Pow2Grows(m + 1, n);
    }
  }

  lemma {:induction false} Pow2Add(m: nat, n: nat)
    ensures Pow2(m + n) == Pow2(m) * Pow2(n)
  {
    if n > 0 {
      Pow2Add(m, n - 1);
      assert Pow2(m) * (2 * Pow2(n - 1)) == 2 * (Pow2(m) * Pow2(n - 1));
    } else {
      assert Pow2(m) * 1 == Pow2(m);
    }
  }

  /** A multiple of 2^36 stays one when it wraps, so what is left of it exceeds the cap or is not
      positive. */
  lemma WrapOfMultiple(y: int)
    ensures var w := Wrap64(y * 0x10_0000_0000); w <= 0 || w >= 0x10_0000_0000
  {
    var x := y * 0x10_0000_0000;
    var k := if x % TWO_64 < TWO_63 then x / TWO_64 else x / TWO_64 + 1;
    assert Wrap64(x) == x - k * TWO_64;
    var m := y - k * 0x1000_0000;
    assert Wrap64(x) == m * 0x10_0000_0000;
  }

  /** For every failure count the delay is 5 s doubled once per failure after the first, capped at
      60 s, whether or not the shift wrapped. */
  lemma BackoffIsCappedDoubling(fails: int)
    ensures fails >= 1 ==> ProbeBackoff(fails) == CappedDoubling(fails)
    ensures fails <= 0 ==> ProbeBackoff(fails) == 0
  {
    if fails > 27 {
      LargeShift(fails - 1);
    } else if fails >= 1 {
      SmallShift(fails - 1);
    }
  }

  /** Below 2^63 nothing wraps. */
  lemma SmallShift(n: nat)
    requires n < 27
    ensures ShiftLeft64(PROBE_BACKOFF_BASE, n) == PROBE_BACKOFF_BASE * Pow2(n)
    ensures Pow2(n) >= 1
  {
    hide Wrap64, ShiftLeft64;
    ShiftIsWrappedProduct(PROBE_BACKOFF_BASE, n);
    Pow2Grows(0, n);
    Pow2Grows(n, 26);
    Pow2Of26();
    var t := Pow2(n);
    hide Pow2;
    assert PROBE_BACKOFF_BASE * t == 5_000_000_000 * t;
    WrapSmall(5_000_000_000 * t);
  }

  lemma WrapSmall(x: int)
    requires 0 <= x < TWO_63
    ensures Wrap64(x) == x
  {
  }

  /** From 27 doublings on, the exact delay is over the cap, and so is every positive wrapped one. */
  lemma LargeShift(n: nat)
    requires n >= 27
    ensures var d := ShiftLeft64(PROBE_BACKOFF_BASE, n); d <= 0 || d > PROBE_BACKOFF_CAP
    ensures PROBE_BACKOFF_BASE * Pow2(n) > PROBE_BACKOFF_CAP
  {
    ShiftIsWrappedProduct(PROBE_BACKOFF_BASE, n);
    Pow2Add(27, n - 27);
    Pow2Grows(0, n - 27);
    Pow2Of26();
    var t := Pow2(n - 27);
    assert PROBE_BACKOFF_BASE * Pow2(n) == (9765625 * t) * 0x10_0000_0000;
    WrapOfMultiple(9765625 * t);
  }

  lemma Pow2Of26()
    ensures Pow2(26) == 0x400_0000 && Pow2(27) == 0x800_0000
  {
    assert Pow2(8) == 0x100 by { assert Pow2(4) == 16; }
    Pow2Add(8, 8);
    Pow2Add(16, 8);
    assert Pow2(24) == 0x100_0000;
  }

  /** Never negative, never over the cap, and positive from the first failure on. */
  lemma BackoffRange(fails: int)
    ensures 0 <= ProbeBackoff(fails) <= PROBE_BACKOFF_CAP
    ensures fails >= 1 ==> PROBE_BACKOFF_BASE <= ProbeBackoff(fails)
  {
    BackoffIsCappedDoubling(fails);
    if fails >= 1 {
      Pow2Grows(0, fails - 1);
    }
  }
}
