/** The PyBadge button driver: eight buttons read through a parallel-in,
    serial-out shift register (an MC74HC165).  One `Update` clocks the eight
    register outputs in, most significant bit first, and keeps the previous
    byte; the queries test single bits of the current byte.

    A `u8` of the driver is a `bv8` here: `<<` and `|` on `bv8` behave as the
    driver's `u8` operators do (bits shifted past bit 7 are dropped). */
module Buttons {

  // Button masks, one bit per button.  The register delivers B first and
  // LEFT last, so B ends up in bit 7 and LEFT in bit 0.
  const B: bv8 := 1 << 7
  const A: bv8 := 1 << 6
  const START: bv8 := 1 << 5
  const SELECT: bv8 := 1 << 4
  const RIGHT: bv8 := 1 << 3
  const DOWN: bv8 := 1 << 2
  const UP: bv8 := 1 << 1
  const LEFT: bv8 := 1

  /** The mask of the i-th button the register shifts out: B, A, START,
      SELECT, RIGHT, DOWN, UP, LEFT. */
  function Mask(i: nat): bv8
    requires i < 8
  {
    if i == 0 then B else if i == 1 then A else if i == 2 then START
    else if i == 3 then SELECT else if i == 4 then RIGHT else if i == 5 then DOWN
    else if i == 6 then UP else LEFT
  }

  /** Number of data-line samples one `Update` takes. */
  const SampleCount: nat := 8

  /** A GPIO pin of the microcontroller, named by its port group and number
      (the latch is PB00, the data line PB30, the clock PB31). */
  datatype Pin = Pin(group: char, number: nat)

  // ---------------------------------------------------------------------------
  // Specification of the sampled byte

  function Pow2(n: nat): (r: nat)
    ensures r >= 1
  {
    if n == 0 then 1 else 2 * Pow2(n - 1)
  }

  function Bit(b: bool): nat
  {
    if b then 1 else 0
  }

  /** The value of a bit string read most significant bit first: the sum of
      Bit(s[i]) * 2^(|s| - 1 - i). */
  function Weighted(s: seq<bool>): nat
  {
    if s == [] then 0 else Bit(s[0]) * Pow2(|s| - 1) + Weighted(s[1..])
  }

  /** Bit k (k = 0 is the least significant) of a natural number, by halving. */
  predicate BitAt(x: nat, k: nat)
  {
    if k == 0 then x % 2 == 1 else BitAt(x / 2, k - 1)
  }

  /** The mask `m` if the sample is high, no bit otherwise. */
  function MaskIf(high: bool, m: bv8): bv8
  {
    if high then m else 0
  }

  /** The byte one `Update` stores for the samples `s`, described button by
      button: a high sample sets its button's mask, the first sample being B
      and the last LEFT. */
  function SampledByte(s: seq<bool>): (r: bv8)
    requires |s| == SampleCount
    ensures r & B != 0 <==> s[0]
    ensures r & A != 0 <==> s[1]
    ensures r & START != 0 <==> s[2]
    ensures r & SELECT != 0 <==> s[3]
    ensures r & RIGHT != 0 <==> s[4]
    ensures r & DOWN != 0 <==> s[5]
    ensures r & UP != 0 <==> s[6]
    ensures r & LEFT != 0 <==> s[7]
  {
    MaskIf(s[0], B) | MaskIf(s[1], A) | MaskIf(s[2], START) | MaskIf(s[3], SELECT) |
    MaskIf(s[4], RIGHT) | MaskIf(s[5], DOWN) | MaskIf(s[6], UP) | MaskIf(s[7], LEFT)
  }

  /** The same, over the masks in register order: mask i of the sampled byte is sample i. */
  lemma SampledByteMasks(s: seq<bool>)
    requires |s| == SampleCount
    ensures forall i :: 0 <= i < SampleCount ==> (SampledByte(s) & Mask(i) != 0 <==> s[i])
  {
    var r := SampledByte(s);
    forall i | 0 <= i < SampleCount
      ensures r & Mask(i) != 0 <==> s[i]
    {
      if i == 0 { assert Mask(i) == B; }
      else if i == 1 { assert Mask(i) == A; }
      else if i == 2 { assert Mask(i) == START; }
      else if i == 3 { assert Mask(i) == SELECT; }
      else if i == 4 { assert Mask(i) == RIGHT; }
      else if i == 5 { assert Mask(i) == DOWN; }
      else if i == 6 { assert Mask(i) == UP; }
      else { assert Mask(i) == LEFT; }
    }
  }

  /** The eight samples that reproduce a given byte: sample i is the i-th
      mask bit, and sampling them gives the byte back. */
  function SamplesOf(m: bv8): (s: seq<bool>)
    ensures |s| == SampleCount
    ensures SampledByte(s) == m
  {
    var s := seq(SampleCount, i requires 0 <= i < SampleCount => m & Mask(i) != 0);
    SampledByteMasks(s);
    SameMaskBits(SampledByte(s), m);
    s
  }

  // ---------------------------------------------------------------------------
  // Lemmas about the specification

  lemma {:induction false} Pow2Monotone(i: nat, j: nat)
    requires i <= j
    ensures Pow2(i) <= Pow2(j)
  {
    if i < j {
      Pow2Monotone(i, j - 1);
    }
  }

  /** k samples never make a value of 2^k or more: no sampled bit is shifted out of the byte. */
  lemma {:induction false} WeightedBound(s: seq<bool>)
    ensures Weighted(s) < Pow2(|s|)
  {
    if s != [] {
      WeightedBound(s[1..]);
      assert Bit(s[0]) * Pow2(|s| - 1) <= Pow2(|s| - 1) by {
        if s[0] {} else {}
      }
    }
  }

  /** Taking one more sample doubles the value and adds the new bit: the step
      `current <<= 1; if high { current |= 1 }` in terms of the weighted sum. */
  lemma {:induction false} WeightedAppend(s: seq<bool>, b: bool)
    ensures Weighted(s + [b]) == 2 * Weighted(s) + Bit(b)
  {
    if s == [] {
      assert [] + [b] == [b];
    } else {
      var t := s + [b];
      assert t[0] == s[0];
      assert t[1..] == s[1..] + [b];
      WeightedAppend(s[1..], b);
      var p := Pow2(|s| - 1);
      assert Pow2(|s|) == 2 * p;
      assert Bit(s[0]) * (2 * p) == 2 * (Bit(s[0]) * p) by {
        if s[0] {} else {}
      }
    }
  }

  /** Sample i of a bit string read MSB first is bit |s| - 1 - i of its value. */
  lemma {:induction false} WeightedBitAt(s: seq<bool>, i: nat)
    requires i < |s|
    ensures BitAt(Weighted(s), |s| - 1 - i) <==> s[i]
  {
    var n := |s|;
    var p, b := s[..n - 1], s[n - 1];
    assert s == p + [b];
    WeightedAppend(p, b);
    var w := Weighted(p);
    assert Weighted(s) == 2 * w + Bit(b);
    if i == n - 1 {
      assert (2 * w + Bit(b)) % 2 == Bit(b);
    } else {
      assert (2 * w + Bit(b)) / 2 == w;
      WeightedBitAt(p, i);
      assert p[i] == s[i];
    }
  }

  /** Shifting a byte right by one halves its value. */
  lemma ShiftRightHalves(v: bv8)
    ensures (v >> 1) as int == v as int / 2
  {
  }

  /** Bit 0 of a byte is its parity. */
  lemma LowBitParity(v: bv8)
    ensures (v & 1 != 0) <==> v as int % 2 == 1
  {
  }

  /** Bit k of a byte is bit k - 1 of the byte shifted right by one. */
  lemma MaskShift(v: bv8, k: nat)
    requires 0 < k < 8
    ensures (v & (1 << k) != 0) <==> ((v >> 1) & (1 << (k - 1)) != 0)
  {
  }

  /** Testing a single-bit mask of a byte is the same as reading that bit of its value. */
  lemma {:induction false} MaskBit(v: bv8, k: nat)
    requires k < 8
    ensures (v & (1 << k) != 0) <==> BitAt(v as int, k)
  {
    if k == 0 {
      LowBitParity(v);
    } else {
      ShiftRightHalves(v);
      MaskShift(v, k);
      MaskBit(v >> 1, k - 1);
    }
  }

  /** The i-th mask in register order is bit 7 - i. */
  lemma MaskAt(i: nat)
    requires i < SampleCount
    ensures Mask(i) == 1 << (7 - i)
  {
    if i == 0 {} else if i == 1 {} else if i == 2 {} else if i == 3 {}
    else if i == 4 {} else if i == 5 {} else if i == 6 {} else {}
  }

  /** A byte whose value is the weighted sum of eight samples has sample i in the i-th mask bit. */
  lemma SampledByteBits(s: seq<bool>, r: bv8)
    requires |s| == SampleCount && r as int == Weighted(s)
    ensures forall i :: 0 <= i < SampleCount ==> (r & Mask(i) != 0 <==> s[i])
  {
    forall i | 0 <= i < SampleCount
      ensures r & Mask(i) != 0 <==> s[i]
    {
      MaskAt(i);
      MaskBit(r, 7 - i);
      WeightedBitAt(s, i);
    }
  }

  /** The only byte whose value is the weighted sum of eight samples is the sampled byte. */
  lemma ValueDeterminesByte(s: seq<bool>, r: bv8)
    requires |s| == SampleCount && r as int == Weighted(s)
    ensures r == SampledByte(s)
  {
    SampledByteBits(s, r);
    SampledByteMasks(s);
    SameMaskBits(r, SampledByte(s));
  }

  /** Two bytes with the same eight mask bits are equal. */
  lemma SameMaskBits(x: bv8, y: bv8)
    requires forall i :: 0 <= i < SampleCount ==> (x & Mask(i) != 0 <==> y & Mask(i) != 0)
    ensures x == y
  {
    assert x & Mask(0) != 0 <==> y & Mask(0) != 0;
    assert x & Mask(1) != 0 <==> y & Mask(1) != 0;
    assert x & Mask(2) != 0 <==> y & Mask(2) != 0;
    assert x & Mask(3) != 0 <==> y & Mask(3) != 0;
    assert x & Mask(4) != 0 <==> y & Mask(4) != 0;
    assert x & Mask(5) != 0 <==> y & Mask(5) != 0;
    assert x & Mask(6) != 0 <==> y & Mask(6) != 0;
    assert x & Mask(7) != 0 <==> y & Mask(7) != 0;
  }

  /** The byte determines the samples it came from: no two sample strings give the same byte. */
  lemma SampleRoundTrip(s: seq<bool>)
    requires |s| == SampleCount
    ensures SamplesOf(SampledByte(s)) == s
  {
  }

  /** The masks are eight distinct single bits, in the register's order, and together cover the byte. */
  lemma MasksPartition()
    ensures forall i :: 0 <= i < SampleCount ==> Mask(i) == 1 << (7 - i)
    ensures forall i, j :: 0 <= i < j < SampleCount ==> Mask(i) & Mask(j) == 0
    ensures B | A | START | SELECT | RIGHT | DOWN | UP | LEFT == 0xFF
  {
  }

  // ---------------------------------------------------------------------------
  // The driver

  /** Hardware-level step of `Update`: shifting a byte below 128 left by one
      doubles it (bit 7 is free, so nothing is lost). */
  lemma ShiftLeftDoubles(c: bv8)
    requires c as int < 128
    ensures (c << 1) as int == 2 * c as int
  {
  }

  lemma Pow2Seven()
    ensures Pow2(7) == 128
  {
  }

  /** Setting bit 0 of an even byte adds one. */
  lemma SetLowBit(c: bv8)
    requires c as int % 2 == 0
    ensures (c | 1) as int == c as int + 1
  {
  }

  /** One iteration of the sampling loop: a partial byte holding the first k
      samples (k < 8) is below 2^k, so shifting it left and setting bit 0 for
      a high sample loses nothing and yields the value of k + 1 samples. */
  lemma ShiftIn(c: bv8, prefix: seq<bool>, b: bool)
    requires |prefix| < SampleCount
    requires c as int == Weighted(prefix) && c as int < Pow2(|prefix|)
    ensures !b ==> (c << 1) as int == Weighted(prefix + [b])
    ensures b ==> ((c << 1) | 1) as int == Weighted(prefix + [b])
    ensures Weighted(prefix + [b]) < Pow2(|prefix| + 1)
  {
    WeightedAppend(prefix, b);
    assert Weighted(prefix + [b]) < Pow2(|prefix| + 1) by {
      assert Pow2(|prefix| + 1) == 2 * Pow2(|prefix|);
    }
    assert c as int < 128 by {
      Pow2Monotone(|prefix|, 7);
      Pow2Seven();
    }
    ShiftLeftDoubles(c);
    if b {
      SetLowBit(c << 1);
    }
  }

  class Buttons {
    var currentState: bv8
    /** The byte `currentState` held before the latest `Update` (`laste_state` in the driver). */
    var lastState: bv8
    var latch: Pin
    /** Serial output of the shift register. */
    var dataIn: Pin
    var clock: Pin

    /** The driver as the board set-up builds it: both bytes zero. */
    constructor (latch: Pin, dataIn: Pin, clock: Pin)
      ensures currentState == 0 && lastState == 0
      ensures this.latch == latch && this.dataIn == dataIn && this.clock == clock
      ensures AnyPressed() && !NonePressed()
      ensures !BPressed() && !APressed() && !StartPressed() && !SelectPressed()
      ensures !RightPressed() && !DownPressed() && !UpPressed() && !LeftPressed()
    {
      currentState := 0;
      lastState := 0;
      this.latch := latch;
      this.dataIn := dataIn;
      this.clock := clock;
    }

    /** As written: true exactly when NO button is pressed. */
    function AnyPressed(): (r: bool)
      reads this
      ensures r <==> !(BPressed() || APressed() || StartPressed() || SelectPressed() ||
                       RightPressed() || DownPressed() || UpPressed() || LeftPressed())
    {
      currentState == 0
    }

    /** As written: true exactly when SOME button is pressed. */
    function NonePressed(): (r: bool)
      reads this
      ensures r <==> (BPressed() || APressed() || StartPressed() || SelectPressed() ||
                      RightPressed() || DownPressed() || UpPressed() || LeftPressed())
      ensures r <==> !AnyPressed()
    {
      currentState != 0
    }

    /** What the documentation of `any_pressed` promises: some button is pressed. */
    function AnyPressedAsDocumented(): (r: bool)
      reads this
      ensures r <==> (BPressed() || APressed() || StartPressed() || SelectPressed() ||
                      RightPressed() || DownPressed() || UpPressed() || LeftPressed())
      ensures r <==> NonePressed()
    {
      currentState != 0
    }

    /** What the documentation of `none_pressed` promises: no button is pressed. */
    function NonePressedAsDocumented(): (r: bool)
      reads this
      ensures r <==> !(BPressed() || APressed() || StartPressed() || SelectPressed() ||
                       RightPressed() || DownPressed() || UpPressed() || LeftPressed())
      ensures r <==> !AnyPressedAsDocumented()
    {
      currentState == 0
    }

    function APressed(): (r: bool)
      reads this
      ensures r <==> BitAt(currentState as int, 6)
    {
      MaskBit(currentState, 6);
      currentState & A != 0
    }

    function BPressed(): (r: bool)
      reads this
      ensures r <==> BitAt(currentState as int, 7)
    {
      MaskBit(currentState, 7);
      currentState & B != 0
    }

    function StartPressed(): (r: bool)
      reads this
      ensures r <==> BitAt(currentState as int, 5)
    {
      MaskBit(currentState, 5);
      currentState & START != 0
    }

    function SelectPressed(): (r: bool)
      reads this
      ensures r <==> BitAt(currentState as int, 4)
    {
      MaskBit(currentState, 4);
      currentState & SELECT != 0
    }

    function RightPressed(): (r: bool)
      reads this
      ensures r <==> BitAt(currentState as int, 3)
    {
      MaskBit(currentState, 3);
      currentState & RIGHT != 0
    }

    function DownPressed(): (r: bool)
      reads this
      ensures r <==> BitAt(currentState as int, 2)
    {
      MaskBit(currentState, 2);
      currentState & DOWN != 0
    }

    function UpPressed(): (r: bool)
      reads this
      ensures r <==> BitAt(currentState as int, 1)
    {
      MaskBit(currentState, 1);
      currentState & UP != 0
    }

    function LeftPressed(): (r: bool)
      reads this
      ensures r <==> BitAt(currentState as int, 0)
    {
      MaskBit(currentState, 0);
      currentState & LEFT != 0
    }

    /** Samples the eight buttons.  `samples[i]` is the level of the data line
        at the i-th clock pulse; the old byte moves to `lastState`. */
    method Update(samples: seq<bool>)
      requires |samples| == SampleCount
      modifies this`currentState, this`lastState
      ensures lastState == old(currentState)
      ensures currentState as int == Weighted(samples)
      ensures currentState == SampledByte(samples)
      ensures BPressed() == samples[0] && APressed() == samples[1]
      ensures StartPressed() == samples[2] && SelectPressed() == samples[3]
      ensures RightPressed() == samples[4] && DownPressed() == samples[5]
      ensures UpPressed() == samples[6] && LeftPressed() == samples[7]
    {
      var current: bv8 := 0;
      for i := 0 to SampleCount
        invariant current as int == Weighted(samples[..i])
        invariant current as int < Pow2(i)
        modifies {}
      {
        ghost var taken := samples[..i];
        assert samples[..i + 1] == taken + [samples[i]];
        ShiftIn(current, taken, samples[i]);
        current := current << 1;
        if samples[i] {
          current := current | 1;
        }
      }
      assert samples[..SampleCount] == samples;
      assert current == SampledByte(samples) by {
        ValueDeterminesByte(samples, current);
      }
      lastState := currentState;
      currentState := current;
      PressedMatchesSamples(this, samples);
    }
  }

  /** Each per-button query reports the sample taken for that button: the
      first sample is B, the last is LEFT. */
  lemma PressedMatchesSamples(b: Buttons, samples: seq<bool>)
    requires |samples| == SampleCount && b.currentState == SampledByte(samples)
    ensures b.BPressed() == samples[0] && b.APressed() == samples[1]
    ensures b.StartPressed() == samples[2] && b.SelectPressed() == samples[3]
    ensures b.RightPressed() == samples[4] && b.DownPressed() == samples[5]
    ensures b.UpPressed() == samples[6] && b.LeftPressed() == samples[7]
  {
  }

  /** Counterexample to the documented meaning of `any_pressed`: with only B
      held down, the driver reports that no key is pressed. */
  lemma AnyPressedInverted(b: Buttons)
    requires b.currentState == B
    ensures b.BPressed() && !b.AnyPressed() && b.NonePressed()
    ensures b.AnyPressedAsDocumented() && !b.NonePressedAsDocumented()
  {
  }

  /** A second `Update` with the same samples leaves the previous and the
      current byte equal: a held button shows no change. */
  /** Forcing the data line to the bits of any byte m, B first, makes one
      `Update` store exactly m and keep the previous byte. */
  method UpdateStoresByte(b: Buttons, m: bv8)
    modifies b
    ensures b.currentState == m && b.lastState == old(b.currentState)
  {
    b.Update(SamplesOf(m));
  }

  method UpdateTwiceSame(b: Buttons, samples: seq<bool>)
    requires |samples| == SampleCount
    modifies b
    ensures b.currentState == b.lastState == SampledByte(samples)
  {
    b.Update(samples);
    b.Update(samples);
  }
}
