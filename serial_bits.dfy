/** Serial-to-parallel conversion: the value of a run of sampled bits, read
    most significant first or least significant first, and the bridge from
    Rust's u8 shift/OR arithmetic (modelled as bv8) to those values. */
module SerialBits {

  /** A sampled line level as a bit: high is 1, low is 0 (Rust's `bool as u8`). */
  function Bit(b: bool): (r: nat)
    ensures r < 2
    ensures r == 1 <==> b
  {
    if b then 1 else 0
  }

  /** The same bit as a u8. */
  function BitByte(b: bool): (r: bv8)
    ensures r as int == Bit(b)
  {
    if b then 1 else 0
  }

  function Pow2(n: nat): (r: nat)
    ensures r >= 1
  {
    if n == 0 then 1 else 2 * Pow2(n - 1)
  }

  lemma {:induction false} Pow2Monotone(k: nat, n: nat)
    requires k <= n
    ensures Pow2(k) <= Pow2(n)
  {
    if k < n {
      Pow2Monotone(k, n - 1);
    }
  }

  lemma Pow2Byte()
    ensures Pow2(7) == 128 && Pow2(8) == 256
  {
    assert Pow2(2) == 4;
    assert Pow2(4) == 16;
    assert Pow2(6) == 64;
  }

  /** Bit j of a natural number. */
  function BitOf(v: nat, j: nat): (r: nat)
    ensures r < 2
  {
    if j == 0 then v % 2 else BitOf(v / 2, j - 1)
  }

  /** The value of bits received most significant first: shift the value
      received so far left by one and put the new bit in the low place. */
  function MsbFirst(s: seq<bool>): (v: nat)
    ensures v < Pow2(|s|)
  {
    if s == [] then 0 else 2 * MsbFirst(s[..|s| - 1]) + Bit(s[|s| - 1])
  }

  /** The value of bits received least significant first: the first bit is
      the units place, the rest count double. */
  function LsbFirst(s: seq<bool>): (v: nat)
    ensures v < Pow2(|s|)
  {
    if s == [] then 0 else Bit(s[0]) + 2 * LsbFirst(s[1..])
  }

  function Reverse<T>(s: seq<T>): (r: seq<T>)
    ensures |r| == |s|
  {
    if s == [] then [] else [s[|s| - 1]] + Reverse(s[..|s| - 1])
  }

  lemma {:induction false} ReverseAt<T>(s: seq<T>, k: nat)
    requires k < |s|
    ensures Reverse(s)[k] == s[|s| - 1 - k]
  {
    if k > 0 {
      ReverseAt(s[..|s| - 1], k - 1);
    }
  }

  /** Closed form of MsbFirst: the k-th bit received (k counted from 0)
      sits at place |s| - 1 - k, so for eight bits value = sum of r_k * 2^(7-k). */
  lemma {:induction false} MsbFirstBits(s: seq<bool>, j: nat)
    requires j < |s|
    ensures BitOf(MsbFirst(s), j) == Bit(s[|s| - 1 - j])
  {
    var p := s[..|s| - 1];
    assert MsbFirst(s) == 2 * MsbFirst(p) + Bit(s[|s| - 1]);
    if j > 0 {
      MsbFirstBits(p, j - 1);
      assert MsbFirst(s) / 2 == MsbFirst(p);
    }
  }

  /** Closed form of LsbFirst: the k-th bit received sits at place k,
      so for eight bits value = sum of r_k * 2^k. */
  lemma {:induction false} LsbFirstBits(s: seq<bool>, j: nat)
    requires j < |s|
    ensures BitOf(LsbFirst(s), j) == Bit(s[j])
  {
    assert LsbFirst(s) == Bit(s[0]) + 2 * LsbFirst(s[1..]);
    if j > 0 {
      LsbFirstBits(s[1..], j - 1);
      assert LsbFirst(s) / 2 == LsbFirst(s[1..]);
    }
  }

  /** Appending a bit to an LSB-first run adds it at the next place up:
      this is what `value2 |= bit << i` accumulates. */
  lemma {:induction false} LsbFirstAppend(s: seq<bool>, b: bool)
    ensures LsbFirst(s + [b]) == LsbFirst(s) + Bit(b) * Pow2(|s|)
  {
    if s != [] {
      assert (s + [b])[1..] == s[1..] + [b];
      LsbFirstAppend(s[1..], b);
    }
  }

  /** The same, for the last bit of a non-empty run. */
  lemma LsbFirstLast(s: seq<bool>)
    requires s != []
    ensures LsbFirst(s) == LsbFirst(s[..|s| - 1]) + Bit(s[|s| - 1]) * Pow2(|s| - 1)
  {
    var p, b := s[..|s| - 1], s[|s| - 1];
    assert s == p + [b];
    LsbFirstAppend(p, b);
  }

  /** Reading a run MSB-first gives the same number as reading the reversed
      run LSB-first. */
  lemma {:induction false} MsbFirstIsReversedLsbFirst(s: seq<bool>)
    ensures MsbFirst(s) == LsbFirst(Reverse(s))
  {
    if s != [] {
      var p := s[..|s| - 1];
      MsbFirstIsReversedLsbFirst(p);
      assert Reverse(s)[1..] == Reverse(p);
    }
  }

  /** Equal-length runs with the same LSB-first value are the same run. */
  lemma {:induction false} LsbFirstInjective(s: seq<bool>, t: seq<bool>)
    requires |s| == |t|
    requires LsbFirst(s) == LsbFirst(t)
    ensures s == t
  {
    if s != [] {
      assert Bit(s[0]) + 2 * LsbFirst(s[1..]) == Bit(t[0]) + 2 * LsbFirst(t[1..]);
      LsbFirstInjective(s[1..], t[1..]);
      assert s == [s[0]] + s[1..] && t == [t[0]] + t[1..];
    }
  }

  /** The two reconstructions agree exactly when the second run is the first
      one reversed. */
  lemma AgreeIffReversed(a: seq<bool>, b: seq<bool>)
    requires |a| == |b|
    ensures MsbFirst(a) == LsbFirst(b) <==> b == Reverse(a)
  {
    MsbFirstIsReversedLsbFirst(a);
    if MsbFirst(a) == LsbFirst(b) {
      LsbFirstInjective(b, Reverse(a));
    }
  }

  // The same conversions in u8 arithmetic, as `read` performs them.

  /** `value1` after `value1 <<= 1; value1 |= bit` for each bit of `s` in
      turn, starting from 0; bits shifted past bit 7 are lost. */
  function MsbByte(s: seq<bool>): bv8
  {
    if s == [] then 0 else (MsbByte(s[..|s| - 1]) << 1) | BitByte(s[|s| - 1])
  }

  /** `(bit as u8) << i`: the bit moved to place i. */
  function BitAt(b: bool, i: nat): bv8
    requires i < 8
  {
    BitByte(b) << i
  }

  /** `value2` after `value2 |= (bit as u8) << i` for bit i of `s`, for
      each i in turn, starting from 0. */
  function LsbByte(s: seq<bool>): bv8
    requires |s| <= 8
  {
    if s == [] then 0 else LsbByte(s[..|s| - 1]) | BitAt(s[|s| - 1], |s| - 1)
  }

  /** Eight or fewer bits shifted in MSB-first lose nothing: the u8 holds
      their MSB-first value. */
  lemma {:induction false} MsbByteValue(s: seq<bool>)
    requires |s| <= 8
    ensures MsbByte(s) as int == MsbFirst(s)
  {
    if s != [] {
      var p := s[..|s| - 1];
      MsbByteValue(p);
      Pow2Monotone(|p|, 7);
      Pow2Byte();
      MsbStep(MsbByte(p), MsbByte(s), MsbFirst(p), MsbFirst(s), s[|s| - 1]);
    }
  }

  /** One step of MsbByteValue, on abstract values. */
  lemma MsbStep(v: bv8, w: bv8, n: nat, m: nat, b: bool)
    requires v as int == n && n < 128
    requires w == (v << 1) | BitByte(b)
    requires m == 2 * n + Bit(b)
    ensures w as int == m
  {
    ShiftInLow(v, b);
  }

  /** The u8 built by ORing bit i in at place i holds the LSB-first value. */
  lemma {:induction false} LsbByteValue(s: seq<bool>)
    requires |s| <= 8
    ensures LsbByte(s) as int == LsbFirst(s)
  {
    if s != [] {
      var p, b := s[..|s| - 1], s[|s| - 1];
      LsbByteValue(p);
      LsbFirstLast(s);
      LsbStep(LsbByte(p), LsbByte(s), LsbFirst(p), LsbFirst(s), b, |p|);
    }
  }

  /** One step of LsbByteValue, on abstract values. */
  lemma LsbStep(v: bv8, w: bv8, n: nat, m: nat, b: bool, i: nat)
    requires i < 8 && v as int == n && n < Pow2(i)
    requires w == v | BitAt(b, i)
    requires m == n + Bit(b) * Pow2(i)
    ensures w as int == m
  {
    OrInAt(v, b, i);
  }

  // From u8 shift/OR arithmetic to the values above.

  lemma ShlOne(i: nat)
    requires i < 8
    ensures (1 as bv8 << i) as int == Pow2(i)
    ensures (1 as bv8 << i) & ((1 as bv8 << i) - 1) == 0
  {
    if i == 0 {
    } else if i == 1 {
    } else if i == 2 {
      assert Pow2(2) == 4;
    } else if i == 3 {
      assert Pow2(3) == 8;
    } else if i == 4 {
      assert Pow2(4) == 16;
    } else if i == 5 {
      assert Pow2(5) == 32;
    } else if i == 6 {
      assert Pow2(6) == 64;
    } else {
      assert Pow2(7) == 128;
    }
  }

  lemma LessAsBv8(v: bv8, m: bv8)
    requires v as int < m as int
    ensures v < m
  {
  }

  lemma OrPowerOfTwo(v: bv8, m: bv8)
    requires v < m && m & (m - 1) == 0
    ensures (v | m) as int == v as int + m as int
  {
  }

  lemma Bv8AsIntInjective(u: bv8, v: bv8)
    requires u as int == v as int
    ensures u == v
  {
  }

  /** `value1 <<= 1` on a u8 below 128 loses nothing. */
  lemma ShiftLeftOne(v: bv8)
    requires v as int < 128
    ensures (v << 1) as int == 2 * v as int
  {
  }

  /** `value1 |= bit` on an even u8 fills the units place. */
  lemma OrLowBit(v: bv8, b: bool)
    requires v as int % 2 == 0
    ensures (v | BitByte(b)) as int == v as int + Bit(b)
  {
  }

  /** `value1 <<= 1; value1 |= bit` on a u8 below 128. */
  lemma ShiftInLow(v: bv8, b: bool)
    requires v as int < 128
    ensures ((v << 1) | BitByte(b)) as int == 2 * v as int + Bit(b)
  {
    ShiftLeftOne(v);
    OrLowBit(v << 1, b);
  }

  lemma OnePow(i: nat)
    requires i < 8
    ensures (BitByte(true) << i) as int == Pow2(i)
  {
    ShlOne(i);
  }

  lemma ZeroPow(i: nat)
    requires i < 8
    ensures (BitByte(false) << i) as int == 0
  {
  }

  /** `(bit as u8) << i` is the bit's weight at place i. */
  lemma ShiftedBit(b: bool, i: nat)
    requires i < 8
    ensures BitAt(b, i) as int == if b then Pow2(i) else 0
  {
    if b {
      OnePow(i);
    } else {
      ZeroPow(i);
    }
  }

  /** ORing into a u8 below 2^i either nothing or 2^i adds it. */
  lemma OrAbove(v: bv8, m: bv8, i: nat)
    requires i < 8 && v as int < Pow2(i)
    requires m as int == 0 || m as int == Pow2(i)
    ensures (v | m) as int == v as int + m as int
  {
    if m as int == 0 {
      Bv8AsIntInjective(m, 0);
    } else {
      ShlOne(i);
      Bv8AsIntInjective(m, 1 as bv8 << i);
      LessAsBv8(v, m);
      OrPowerOfTwo(v, m);
    }
  }

  /** `value2 |= (bit as u8) << i` on a u8 below 2^i adds the bit's weight
      at place i. */
  lemma OrInAt(v: bv8, b: bool, i: nat)
    requires i < 8 && v as int < Pow2(i)
    ensures (v | BitAt(b, i)) as int == v as int + Bit(b) * Pow2(i)
  {
    ShiftedBit(b, i);
    OrAbove(v, BitAt(b, i), i);
  }
}
