/** The ADC0834 driver of src/main.rs: a conversion is read by bit-banging
    three GPIO lines (chip-select, clock and a bidirectional data line).
    The hardware is replaced by a log of pin events and by the sixteen
    levels the converter presents on the data line during one transaction. */
module Adc0834Driver {
  import opened SerialBits
  import opened Sequences

  /** Direction of the bidirectional data line (rppal's IoPin mode). */
  datatype Mode = Output | Input

  /** One action on the three pins; `high` and `level` are true for a high level. */
  datatype Event =
    | ChipSelect(high: bool)
    | Clock(high: bool)
    | DataMode(mode: Mode)
    | DataWrite(level: bool)
    | DataRead(level: bool)

  /** Chip-select level, clock level, data-line direction. */
  datatype Pins = Pins(cs: bool, clk: bool, mode: Mode)

  function Step(p: Pins, e: Event): Pins
  {
    match e
    case ChipSelect(h) => p.(cs := h)
    case Clock(h) => p.(clk := h)
    case DataMode(m) => p.(mode := m)
    case DataWrite(_) => p
    case DataRead(_) => p
  }

  /** The pin state after a run of events. */
  function Replay(p: Pins, t: seq<Event>): Pins
    decreases |t|
  {
    if t == [] then p else Replay(Step(p, t[0]), t[1..])
  }

  /** Pin discipline for one event: the clock only moves while the chip is
      selected (chip-select low); the data line is written only in Output
      mode and sampled only in Input mode, in both cases with the chip
      selected and the clock low. */
  predicate Legal(p: Pins, e: Event)
  {
    match e
    case ChipSelect(_) => true
    case DataMode(_) => true
    case Clock(_) => !p.cs
    case DataWrite(_) => !p.cs && !p.clk && p.mode == Output
    case DataRead(_) => !p.cs && !p.clk && p.mode == Input
  }

  /** Every event of a run is legal in the state the events before it leave. */
  predicate Obeys(p: Pins, t: seq<Event>)
    decreases |t|
  {
    t == [] || (Legal(p, t[0]) && Obeys(Step(p, t[0]), t[1..]))
  }

  function WriteOf(e: Event): seq<bool>
  {
    if e.DataWrite? then [e.level] else []
  }

  function ReadOf(e: Event): seq<bool>
  {
    if e.DataRead? then [e.level] else []
  }

  function ModeOf(e: Event): seq<Mode>
  {
    if e.DataMode? then [e.mode] else []
  }

  /** The levels driven onto the data line, in order. */
  function Writes(t: seq<Event>): seq<bool>
  {
    if t == [] then [] else WriteOf(t[0]) + Writes(t[1..])
  }

  /** The levels sampled from the data line, in order. */
  function Reads(t: seq<Event>): seq<bool>
  {
    if t == [] then [] else ReadOf(t[0]) + Reads(t[1..])
  }

  /** The data-line direction changes, in order. */
  function Modes(t: seq<Event>): seq<Mode>
  {
    if t == [] then [] else ModeOf(t[0]) + Modes(t[1..])
  }

  lemma Single(p: Pins, e: Event)
    ensures Obeys(p, [e]) == Legal(p, e) && Replay(p, [e]) == Step(p, e)
    ensures Writes([e]) == WriteOf(e) && Reads([e]) == ReadOf(e) && Modes([e]) == ModeOf(e)
  {
    assert [e][1..] == [];
  }

  /** Replaying and checking a run split in two. */
  lemma {:induction false} ReplayConcat(p: Pins, a: seq<Event>, b: seq<Event>)
    decreases |a|
    ensures Replay(p, a + b) == Replay(Replay(p, a), b)
    ensures Obeys(p, a + b) <==> Obeys(p, a) && Obeys(Replay(p, a), b)
  {
    if a == [] {
      assert a + b == b;
    } else {
      assert (a + b)[0] == a[0];
      assert (a + b)[1..] == a[1..] + b;
      ReplayConcat(Step(p, a[0]), a[1..], b);
    }
  }

  lemma {:induction false} WritesConcat(a: seq<Event>, b: seq<Event>)
    decreases |a|
    ensures Writes(a + b) == Writes(a) + Writes(b)
  {
    if a == [] {
      assert a + b == b;
    } else {
      assert (a + b)[0] == a[0];
      assert (a + b)[1..] == a[1..] + b;
      WritesConcat(a[1..], b);
    }
  }

  lemma {:induction false} ReadsConcat(a: seq<Event>, b: seq<Event>)
    decreases |a|
    ensures Reads(a + b) == Reads(a) + Reads(b)
  {
    if a == [] {
      assert a + b == b;
    } else {
      assert (a + b)[0] == a[0];
      assert (a + b)[1..] == a[1..] + b;
      ReadsConcat(a[1..], b);
    }
  }

  lemma {:induction false} ModesConcat(a: seq<Event>, b: seq<Event>)
    decreases |a|
    ensures Modes(a + b) == Modes(a) + Modes(b)
  {
    if a == [] {
      assert a + b == b;
    } else {
      assert (a + b)[0] == a[0];
      assert (a + b)[1..] == a[1..] + b;
      ModesConcat(a[1..], b);
    }
  }

  /** Projecting a run split in two. */
  lemma ProjectionsConcat(a: seq<Event>, b: seq<Event>)
    ensures Writes(a + b) == Writes(a) + Writes(b)
    ensures Reads(a + b) == Reads(a) + Reads(b)
    ensures Modes(a + b) == Modes(a) + Modes(b)
  {
    WritesConcat(a, b);
    ReadsConcat(a, b);
    ModesConcat(a, b);
  }

  lemma Pair(p: Pins, e1: Event, e2: Event)
    ensures Obeys(p, [e1, e2]) == (Legal(p, e1) && Legal(Step(p, e1), e2))
    ensures Replay(p, [e1, e2]) == Step(Step(p, e1), e2)
    ensures Writes([e1, e2]) == WriteOf(e1) + WriteOf(e2)
    ensures Reads([e1, e2]) == ReadOf(e1) + ReadOf(e2)
    ensures Modes([e1, e2]) == ModeOf(e1) + ModeOf(e2)
  {
    assert [e1, e2] == [e1] + [e2];
    Single(p, e1);
    Single(Step(p, e1), e2);
    ReplayConcat(p, [e1], [e2]);
    ProjectionsConcat([e1], [e2]);
  }

  lemma Triple(p: Pins, e1: Event, e2: Event, e3: Event)
    ensures Obeys(p, [e1, e2, e3]) ==
              (Legal(p, e1) && Legal(Step(p, e1), e2) && Legal(Step(Step(p, e1), e2), e3))
    ensures Replay(p, [e1, e2, e3]) == Step(Step(Step(p, e1), e2), e3)
    ensures Writes([e1, e2, e3]) == WriteOf(e1) + WriteOf(e2) + WriteOf(e3)
    ensures Reads([e1, e2, e3]) == ReadOf(e1) + ReadOf(e2) + ReadOf(e3)
    ensures Modes([e1, e2, e3]) == ModeOf(e1) + ModeOf(e2) + ModeOf(e3)
  {
    assert [e1, e2, e3] == [e1] + [e2, e3];
    Single(p, e1);
    Pair(Step(p, e1), e2, e3);
    ReplayConcat(p, [e1], [e2, e3]);
    ProjectionsConcat([e1], [e2, e3]);
    AppendAssoc(WriteOf(e1), WriteOf(e2), WriteOf(e3));
    AppendAssoc(ReadOf(e1), ReadOf(e2), ReadOf(e3));
    AppendAssoc(ModeOf(e1), ModeOf(e2), ModeOf(e3));
  }

  // The events one `read` produces.

  /** ODD/SIGN: `channel % 2`, a non-zero u8 giving a high level. */
  function OddSign(channel: bv8): bool
  {
    channel % 2 != 0
  }

  /** SELECT1: `channel > 1`. */
  function Select1(channel: bv8): bool
  {
    channel > 1
  }

  /** One header bit: clock low, drive the data line, clock high. */
  function HeaderBit(level: bool): seq<Event>
  {
    [Clock(false), DataWrite(level), Clock(true)]
  }

  /** The header bits clocked out in order. */
  function HeaderBits(levels: seq<bool>): (t: seq<Event>)
    ensures |t| == 3 * |levels|
  {
    if levels == [] then []
    else HeaderBits(levels[..|levels| - 1]) + HeaderBit(levels[|levels| - 1])
  }

  /** The levels `read` drives: start bit, SGL/DIF (single-ended), ODD/SIGN, SELECT1. */
  function Command(channel: bv8): seq<bool>
  {
    [true, true, OddSign(channel), Select1(channel)]
  }

  /** Select the chip, drive the start, SGL/DIF, ODD/SIGN and SELECT1 bits,
      let the multiplexer settle half a cycle and turn the data line round. */
  function Header(channel: bv8): (t: seq<Event>)
    ensures |t| == 16
  {
    [ChipSelect(false), DataMode(Output)] + HeaderBits(Command(channel)) + [Clock(false), DataMode(Input)]
  }

  /** One bit of the first pass: clocked out (high, low), then sampled. */
  function MsbBit(level: bool): seq<Event>
  {
    [Clock(true), Clock(false), DataRead(level)]
  }

  /** One bit of the second pass: sampled, then clocked (high, low). */
  function LsbBit(level: bool): seq<Event>
  {
    [DataRead(level), Clock(true), Clock(false)]
  }

  function MsbPass(s: seq<bool>): (t: seq<Event>)
    ensures |t| == 3 * |s|
  {
    if s == [] then [] else MsbPass(s[..|s| - 1]) + MsbBit(s[|s| - 1])
  }

  function LsbPass(s: seq<bool>): (t: seq<Event>)
    ensures |t| == 3 * |s|
  {
    if s == [] then [] else LsbPass(s[..|s| - 1]) + LsbBit(s[|s| - 1])
  }

  /** Deselect the chip and return the data line to Output mode. */
  function Trailer(): seq<Event>
  {
    [ChipSelect(true), DataMode(Output)]
  }

  /** The whole transaction when the data line presents `samples` on the
      sixteen reads, in order. */
  function ReadTrace(channel: bv8, samples: seq<bool>): (t: seq<Event>)
    requires |samples| == 16
    ensures |t| == 66
  {
    Header(channel) + MsbPass(samples[..8]) + LsbPass(samples[8..]) + Trailer()
  }

  /** The sample `read` returns: the MSB-first value of the first eight bits
      when it agrees with the LSB-first value of the last eight, else 0. */
  function ReadResult(samples: seq<bool>): (r: nat)
    requires |samples| == 16
    ensures r < 256
    ensures r == 0 || r == MsbFirst(samples[..8])
  {
    Pow2Byte();
    var value1 := MsbFirst(samples[..8]);
    var value2 := LsbFirst(samples[8..]);
    if value1 == value2 then value1 else 0
  }

  // Properties of one transaction.

  /** The result is the first pass's value exactly when the second pass is
      the first one reversed, and 0 (the mismatch sentinel) otherwise. */
  lemma ReadResultAgreement(samples: seq<bool>)
    requires |samples| == 16
    ensures samples[8..] == Reverse(samples[..8]) ==>
              ReadResult(samples) == MsbFirst(samples[..8])
    ensures samples[8..] != Reverse(samples[..8]) ==> ReadResult(samples) == 0
  {
    AgreeIffReversed(samples[..8], samples[8..]);
  }

  /** A glitch-free converter repeats its eight bits LSB-first; `read` then
      returns the MSB-first value of the conversion, bit k of the stream
      (k = 0..7) landing at place 7 - k. */
  lemma ReadOfCleanConversion(bits: seq<bool>, j: nat)
    requires |bits| == 8 && j < 8
    ensures ReadResult(bits + Reverse(bits)) == MsbFirst(bits)
    ensures BitOf(ReadResult(bits + Reverse(bits)), j) == Bit(bits[7 - j])
  {
    var s := bits + Reverse(bits);
    assert s[..8] == bits && s[8..] == Reverse(bits);
    ReadResultAgreement(s);
    MsbFirstBits(bits, j);
  }

  /** For the four channels of the ADC0834, SELECT1 and ODD/SIGN form the
      channel number as a two-bit multiplexer address. */
  lemma MuxAddress(channel: bv8)
    requires channel < 4
    ensures 2 * Bit(Select1(channel)) + Bit(OddSign(channel)) == channel as int
  {
  }

  /** The state both passes run in: chip selected, clock low, data line input. */
  function Sampling(): Pins
  {
    Pins(false, false, Input)
  }

  lemma MsbBitFacts(b: bool)
    ensures Obeys(Sampling(), MsbBit(b)) && Replay(Sampling(), MsbBit(b)) == Sampling()
    ensures Writes(MsbBit(b)) == [] && Modes(MsbBit(b)) == [] && Reads(MsbBit(b)) == [b]
  {
    Triple(Sampling(), Clock(true), Clock(false), DataRead(b));
  }

  lemma LsbBitFacts(b: bool)
    ensures Obeys(Sampling(), LsbBit(b)) && Replay(Sampling(), LsbBit(b)) == Sampling()
    ensures Writes(LsbBit(b)) == [] && Modes(LsbBit(b)) == [] && Reads(LsbBit(b)) == [b]
  {
    Triple(Sampling(), DataRead(b), Clock(true), Clock(false));
  }

  lemma {:induction false} MsbPassObeys(s: seq<bool>)
    ensures Obeys(Sampling(), MsbPass(s)) && Replay(Sampling(), MsbPass(s)) == Sampling()
  {
    if s != [] {
      var p, b := s[..|s| - 1], s[|s| - 1];
      MsbPassObeys(p);
      MsbBitFacts(b);
      ReplayConcat(Sampling(), MsbPass(p), MsbBit(b));
    }
  }

  lemma {:induction false} LsbPassObeys(s: seq<bool>)
    ensures Obeys(Sampling(), LsbPass(s)) && Replay(Sampling(), LsbPass(s)) == Sampling()
  {
    if s != [] {
      var p, b := s[..|s| - 1], s[|s| - 1];
      LsbPassObeys(p);
      LsbBitFacts(b);
      ReplayConcat(Sampling(), LsbPass(p), LsbBit(b));
    }
  }

  lemma {:induction false} MsbPassProjections(s: seq<bool>)
    ensures Writes(MsbPass(s)) == [] && Modes(MsbPass(s)) == [] && Reads(MsbPass(s)) == s
  {
    if s != [] {
      var p, b := s[..|s| - 1], s[|s| - 1];
      assert s == p + [b];
      var head, last := MsbPass(p), MsbBit(b);
      assert MsbPass(s) == head + last;
      MsbPassProjections(p);
      MsbBitFacts(b);
      assert Writes(MsbPass(s)) == [] by {
        WritesConcat(head, last);
      }
      assert Modes(MsbPass(s)) == [] by {
        ModesConcat(head, last);
      }
      assert Reads(MsbPass(s)) == s by {
        ReadsConcat(head, last);
      }
    }
  }

  lemma {:induction false} LsbPassProjections(s: seq<bool>)
    ensures Writes(LsbPass(s)) == [] && Modes(LsbPass(s)) == [] && Reads(LsbPass(s)) == s
  {
    if s != [] {
      var p, b := s[..|s| - 1], s[|s| - 1];
      assert s == p + [b];
      var head, last := LsbPass(p), LsbBit(b);
      assert LsbPass(s) == head + last;
      LsbPassProjections(p);
      LsbBitFacts(b);
      assert Writes(LsbPass(s)) == [] by {
        WritesConcat(head, last);
      }
      assert Modes(LsbPass(s)) == [] by {
        ModesConcat(head, last);
      }
      assert Reads(LsbPass(s)) == s by {
        ReadsConcat(head, last);
      }
    }
  }

  /** One more bit of either pass appends its three events. */
  lemma PassStep(s: seq<bool>, k: nat)
    requires k < |s|
    ensures MsbPass(s[..k + 1]) == MsbPass(s[..k]) + MsbBit(s[k])
    ensures LsbPass(s[..k + 1]) == LsbPass(s[..k]) + LsbBit(s[k])
  {
    assert s[..k + 1][..k] == s[..k];
  }

  /** One iteration of the first loop of `read`, on the trace and on `value1`. */
  lemma MsbIteration(t0: seq<Event>, start: seq<Event>, s: seq<bool>, k: nat, v: bv8, level: bool)
    requires k < |s| && level == s[k]
    requires start == t0 + MsbPass(s[..k]) && v == MsbByte(s[..k])
    ensures ((start + [Clock(true)]) + [Clock(false)]) + [DataRead(level)] == t0 + MsbPass(s[..k + 1])
    ensures (v << 1) | BitByte(level) == MsbByte(s[..k + 1])
  {
    assert s[..k + 1][..k] == s[..k];
    PassStep(s, k);
    assert ((start + [Clock(true)]) + [Clock(false)]) + [DataRead(s[k])] == start + MsbBit(s[k]);
    AppendAssoc(t0, MsbPass(s[..k]), MsbBit(s[k]));
  }

  /** One iteration of the second loop of `read`, on the trace and on `value2`. */
  lemma LsbIteration(t0: seq<Event>, start: seq<Event>, s: seq<bool>, i: nat, v: bv8, level: bool)
    requires i < 8 && i < |s| && level == s[i]
    requires start == t0 + LsbPass(s[..i]) && v == LsbByte(s[..i])
    ensures ((start + [DataRead(level)]) + [Clock(true)]) + [Clock(false)] == t0 + LsbPass(s[..i + 1])
    ensures v | BitAt(level, i) == LsbByte(s[..i + 1])
  {
    assert s[..i + 1][..i] == s[..i];
    PassStep(s, i);
    assert ((start + [DataRead(s[i])]) + [Clock(true)]) + [Clock(false)] == start + LsbBit(s[i]);
    AppendAssoc(t0, LsbPass(s[..i]), LsbBit(s[i]));
  }

  /** The four parts of a transaction, appended to a trace one by one. */
  lemma ReadTraceAssembly(t0: seq<Event>, channel: bv8, samples: seq<bool>)
    requires |samples| == 16
    ensures (((t0 + Header(channel)) + MsbPass(samples[..8])) + LsbPass(samples[8..])) + Trailer()
            == t0 + ReadTrace(channel, samples)
  {
    var hd, m, l := Header(channel), MsbPass(samples[..8]), LsbPass(samples[8..]);
    AppendAssoc(t0, hd, m);
    AppendAssoc(t0, hd + m, l);
    AppendAssoc(t0, hd + m + l, Trailer());
  }

  /** What `read` computes from the two u8 values is ReadResult. */
  lemma ReadByteValue(samples: seq<bool>)
    requires |samples| == 16
    ensures (if MsbByte(samples[..8]) == LsbByte(samples[8..]) then MsbByte(samples[..8]) else 0) as int
            == ReadResult(samples)
  {
    MsbByteValue(samples[..8]);
    LsbByteValue(samples[8..]);
    if MsbFirst(samples[..8]) == LsbFirst(samples[8..]) {
      Bv8AsIntInjective(MsbByte(samples[..8]), LsbByte(samples[8..]));
    }
  }

  lemma HeaderBitFacts(p: Pins, level: bool)
    requires !p.cs && p.mode == Output
    ensures Obeys(p, HeaderBit(level)) && Replay(p, HeaderBit(level)) == p.(clk := true)
    ensures Writes(HeaderBit(level)) == [level]
    ensures Reads(HeaderBit(level)) == [] && Modes(HeaderBit(level)) == []
  {
    Triple(p, Clock(false), DataWrite(level), Clock(true));
  }

  lemma {:induction false} HeaderBitsObeys(p: Pins, levels: seq<bool>)
    requires !p.cs && p.mode == Output
    ensures Obeys(p, HeaderBits(levels))
    ensures Replay(p, HeaderBits(levels)) == if levels == [] then p else p.(clk := true)
  {
    if levels != [] {
      var init, last := levels[..|levels| - 1], levels[|levels| - 1];
      HeaderBitsObeys(p, init);
      var q := Replay(p, HeaderBits(init));
      HeaderBitFacts(q, last);
      ReplayConcat(p, HeaderBits(init), HeaderBit(last));
    }
  }

  lemma {:induction false} HeaderBitsProjections(levels: seq<bool>)
    ensures Writes(HeaderBits(levels)) == levels
    ensures Reads(HeaderBits(levels)) == [] && Modes(HeaderBits(levels)) == []
  {
    if levels != [] {
      var init, last := levels[..|levels| - 1], levels[|levels| - 1];
      assert levels == init + [last];
      var head, tail := HeaderBits(init), HeaderBit(last);
      assert HeaderBits(levels) == head + tail;
      HeaderBitsProjections(init);
      HeaderBitFacts(Pins(false, false, Output), last);
      assert Writes(HeaderBits(levels)) == levels by {
        WritesConcat(head, tail);
      }
      assert Reads(HeaderBits(levels)) == [] by {
        ReadsConcat(head, tail);
      }
      assert Modes(HeaderBits(levels)) == [] by {
        ModesConcat(head, tail);
      }
    }
  }

  lemma HeaderObeys(p: Pins, channel: bv8)
    ensures Obeys(p, Header(channel)) && Replay(p, Header(channel)) == Sampling()
  {
    var a, b, f := [ChipSelect(false), DataMode(Output)], HeaderBits(Command(channel)), [Clock(false), DataMode(Input)];
    var q := Pins(false, p.clk, Output);
    Pair(p, ChipSelect(false), DataMode(Output));
    HeaderBitsObeys(q, Command(channel));
    Pair(q.(clk := true), Clock(false), DataMode(Input));
    ReplayConcat(p, a, b);
    ReplayConcat(p, a + b, f);
  }

  lemma HeaderWrites(levels: seq<bool>)
    ensures Writes([ChipSelect(false), DataMode(Output)] + HeaderBits(levels) + [Clock(false), DataMode(Input)]) == levels
  {
    var a, b, f := [ChipSelect(false), DataMode(Output)], HeaderBits(levels), [Clock(false), DataMode(Input)];
    var o := Pins(false, false, Output);
    Pair(o, ChipSelect(false), DataMode(Output));
    Pair(o, Clock(false), DataMode(Input));
    HeaderBitsProjections(levels);
    WritesConcat(a, b);
    WritesConcat(a + b, f);
  }

  lemma HeaderReads(levels: seq<bool>)
    ensures Reads([ChipSelect(false), DataMode(Output)] + HeaderBits(levels) + [Clock(false), DataMode(Input)]) == []
  {
    var a, b, f := [ChipSelect(false), DataMode(Output)], HeaderBits(levels), [Clock(false), DataMode(Input)];
    var o := Pins(false, false, Output);
    Pair(o, ChipSelect(false), DataMode(Output));
    Pair(o, Clock(false), DataMode(Input));
    HeaderBitsProjections(levels);
    ReadsConcat(a, b);
    ReadsConcat(a + b, f);
  }

  lemma HeaderModes(levels: seq<bool>)
    ensures Modes([ChipSelect(false), DataMode(Output)] + HeaderBits(levels) + [Clock(false), DataMode(Input)]) == [Output, Input]
  {
    var a, b, f := [ChipSelect(false), DataMode(Output)], HeaderBits(levels), [Clock(false), DataMode(Input)];
    var o := Pins(false, false, Output);
    Pair(o, ChipSelect(false), DataMode(Output));
    Pair(o, Clock(false), DataMode(Input));
    HeaderBitsProjections(levels);
    ModesConcat(a, b);
    ModesConcat(a + b, f);
  }

  /** The header drives 1, 1, ODD/SIGN, SELECT1, samples nothing and turns
      the data line to Output, then to Input. */
  lemma HeaderProjections(channel: bv8)
    ensures Writes(Header(channel)) == Command(channel)
    ensures Reads(Header(channel)) == [] && Modes(Header(channel)) == [Output, Input]
  {
    HeaderWrites(Command(channel));
    HeaderReads(Command(channel));
    HeaderModes(Command(channel));
  }

  /** The header bits of a four-bit command, one after the other. */
  lemma HeaderBitsOfFour(w: bool, x: bool, y: bool, z: bool)
    ensures HeaderBits([w, x, y, z]) == HeaderBit(w) + HeaderBit(x) + HeaderBit(y) + HeaderBit(z)
  {
    assert [w, x, y, z][..3] == [w, x, y];
    assert [w, x, y][..2] == [w, x];
    assert [w, x][..1] == [w];
    assert [w][..0] == [];
    assert HeaderBits([w]) == [] + HeaderBit(w);
    assert HeaderBits([w, x]) == HeaderBits([w]) + HeaderBit(x);
    assert HeaderBits([w, x, y]) == HeaderBits([w, x]) + HeaderBit(y);
    assert HeaderBits([w, x, y, z]) == HeaderBits([w, x, y]) + HeaderBit(z);
    assert [] + HeaderBit(w) == HeaderBit(w);
  }

  /** The sixteen header events one by one. */
  lemma HeaderEvents(channel: bv8)
    ensures Header(channel) ==
      [ChipSelect(false), DataMode(Output),
       Clock(false), DataWrite(true), Clock(true),
       Clock(false), DataWrite(true), Clock(true),
       Clock(false), DataWrite(OddSign(channel)), Clock(true),
       Clock(false), DataWrite(Select1(channel)), Clock(true),
       Clock(false), DataMode(Input)]
  {
    HeaderBitsOfFour(true, true, OddSign(channel), Select1(channel));
  }

  /** The header, appended to a trace event by event as `read` performs it. */
  lemma HeaderAssembly(t0: seq<Event>, channel: bv8)
    ensures (((((((t0 + [ChipSelect(false)]) + [DataMode(Output)]) + HeaderBit(true)) + HeaderBit(true))
              + HeaderBit(OddSign(channel))) + HeaderBit(Select1(channel))) + [Clock(false)])
            + [DataMode(Input)]
            == t0 + Header(channel)
  {
    var a := [ChipSelect(false), DataMode(Output)];
    var b, c := HeaderBit(true), HeaderBit(true);
    var d, e := HeaderBit(OddSign(channel)), HeaderBit(Select1(channel));
    var f := [Clock(false), DataMode(Input)];
    var t1 := (t0 + [ChipSelect(false)]) + [DataMode(Output)];
    assert t1 == t0 + a;
    HeaderBitsOfFour(true, true, OddSign(channel), Select1(channel));
    var m := b + c + d + e;
    AppendFour(t1, b, c, d, e);
    assert ((t1 + m) + [Clock(false)]) + [DataMode(Input)] == (t1 + m) + f;
    AppendFrame(t0, a, m, f);
  }

  /** Pin discipline over a whole `read`, from any pin state: chip-select
      goes low first, every clock edge and every data access happens with
      the chip selected, writes only in Output mode, reads only in Input
      mode, both with the clock low; the lines end with chip-select high,
      clock low and the data line back in Output mode. */
  lemma ReadTraceObeys(p: Pins, channel: bv8, samples: seq<bool>)
    requires |samples| == 16
    ensures Obeys(p, ReadTrace(channel, samples))
    ensures Replay(p, ReadTrace(channel, samples)) == Pins(true, false, Output)
  {
    var h := Header(channel);
    var m := MsbPass(samples[..8]);
    var l := LsbPass(samples[8..]);
    HeaderObeys(p, channel);
    MsbPassObeys(samples[..8]);
    LsbPassObeys(samples[8..]);
    MsbPassProjections(samples[..8]);
    LsbPassProjections(samples[8..]);
    Pair(Sampling(), ChipSelect(true), DataMode(Output));
    ReplayConcat(p, h, m);
    ReplayConcat(p, h + m, l);
    ReplayConcat(p, h + m + l, Trailer());
  }

  /** Projecting a run of four parts. */
  lemma WritesFour(h: seq<Event>, m: seq<Event>, l: seq<Event>, f: seq<Event>)
    ensures Writes(h + m + l + f) == Writes(h) + Writes(m) + Writes(l) + Writes(f)
  {
    WritesConcat(h, m);
    WritesConcat(h + m, l);
    WritesConcat(h + m + l, f);
  }

  lemma ReadsFour(h: seq<Event>, m: seq<Event>, l: seq<Event>, f: seq<Event>)
    ensures Reads(h + m + l + f) == Reads(h) + Reads(m) + Reads(l) + Reads(f)
  {
    ReadsConcat(h, m);
    ReadsConcat(h + m, l);
    ReadsConcat(h + m + l, f);
  }

  lemma ModesFour(h: seq<Event>, m: seq<Event>, l: seq<Event>, f: seq<Event>)
    ensures Modes(h + m + l + f) == Modes(h) + Modes(m) + Modes(l) + Modes(f)
  {
    ModesConcat(h, m);
    ModesConcat(h + m, l);
    ModesConcat(h + m + l, f);
  }

  /** The closing events deselect the chip and turn the data line to Output. */
  lemma TrailerFacts()
    ensures Writes(Trailer()) == [] && Reads(Trailer()) == [] && Modes(Trailer()) == [Output]
  {
    Pair(Sampling(), ChipSelect(true), DataMode(Output));
  }

  /** The projections of the two passes and the trailer. */
  lemma BodyParts(samples: seq<bool>)
    requires |samples| == 16
    ensures Writes(MsbPass(samples[..8])) == [] && Writes(LsbPass(samples[8..])) == []
    ensures Reads(MsbPass(samples[..8])) == samples[..8] && Reads(LsbPass(samples[8..])) == samples[8..]
    ensures Modes(MsbPass(samples[..8])) == [] && Modes(LsbPass(samples[8..])) == []
    ensures Writes(Trailer()) == [] && Reads(Trailer()) == [] && Modes(Trailer()) == [Output]
  {
    MsbPassProjections(samples[..8]);
    LsbPassProjections(samples[8..]);
    TrailerFacts();
  }

  /** Projections of any four-part run from those of its parts. */
  lemma WritesParts(h: seq<Event>, m: seq<Event>, l: seq<Event>, f: seq<Event>, cmd: seq<bool>)
    requires Writes(h) == cmd && Writes(m) == [] && Writes(l) == [] && Writes(f) == []
    ensures Writes(h + m + l + f) == cmd
  {
    WritesFour(h, m, l, f);
    EmptyAppend(cmd);
  }

  lemma ReadsParts(h: seq<Event>, m: seq<Event>, l: seq<Event>, f: seq<Event>, first: seq<bool>, second: seq<bool>)
    requires Reads(h) == [] && Reads(m) == first && Reads(l) == second && Reads(f) == []
    ensures Reads(h + m + l + f) == first + second
  {
    ReadsFour(h, m, l, f);
    EmptyAppend(first);
    EmptyAppend(first + second);
  }

  lemma ModesParts(h: seq<Event>, m: seq<Event>, l: seq<Event>, f: seq<Event>)
    requires Modes(h) == [Output, Input] && Modes(m) == [] && Modes(l) == [] && Modes(f) == [Output]
    ensures Modes(h + m + l + f) == [Output, Input, Output]
  {
    ModesFour(h, m, l, f);
    EmptyAppend([Output, Input]);
  }

  /** What `read` puts on and takes off the data line: it drives 1, 1,
      ODD/SIGN, SELECT1; it samples the sixteen levels the converter
      presents, in order; the data line goes Output, Input, Output. */
  lemma ReadTraceProjections(channel: bv8, samples: seq<bool>)
    requires |samples| == 16
    ensures Writes(ReadTrace(channel, samples)) == [true, true, OddSign(channel), Select1(channel)]
    ensures Reads(ReadTrace(channel, samples)) == samples
    ensures Modes(ReadTrace(channel, samples)) == [Output, Input, Output]
  {
    ReadTraceWrites(channel, samples);
    ReadTraceReads(channel, samples);
    ReadTraceModes(channel, samples);
  }

  lemma ReadTraceWrites(channel: bv8, samples: seq<bool>)
    requires |samples| == 16
    ensures Writes(ReadTrace(channel, samples)) == Command(channel)
  {
    HeaderProjections(channel);
    BodyParts(samples);
    WritesParts(Header(channel), MsbPass(samples[..8]), LsbPass(samples[8..]), Trailer(), Command(channel));
  }

  lemma ReadTraceReads(channel: bv8, samples: seq<bool>)
    requires |samples| == 16
    ensures Reads(ReadTrace(channel, samples)) == samples
  {
    HeaderProjections(channel);
    BodyParts(samples);
    ReadsParts(Header(channel), MsbPass(samples[..8]), LsbPass(samples[8..]), Trailer(), samples[..8], samples[8..]);
    SplitJoin(samples, 8);
  }

  lemma ReadTraceModes(channel: bv8, samples: seq<bool>)
    requires |samples| == 16
    ensures Modes(ReadTrace(channel, samples)) == [Output, Input, Output]
  {
    HeaderProjections(channel);
    BodyParts(samples);
    ModesParts(Header(channel), MsbPass(samples[..8]), LsbPass(samples[8..]), Trailer());
  }

  /** The two passes consist of clock edges and reads only. */
  lemma {:induction false} PassEventKinds(s: seq<bool>, i: nat)
    ensures i < |MsbPass(s)| ==> MsbPass(s)[i].Clock? || MsbPass(s)[i].DataRead?
    ensures i < |LsbPass(s)| ==> LsbPass(s)[i].Clock? || LsbPass(s)[i].DataRead?
  {
    if s != [] && i < 3 * |s| - 3 {
      PassEventKinds(s[..|s| - 1], i);
    }
  }

  /** Every header bit is written while the clock is low and is followed by
      a rising clock edge; chip-select is lowered by the first event, raised
      by the second-to-last, and touched nowhere in between; every clock
      edge and all sixteen reads happen while it is low. */
  lemma ReadTraceFraming(channel: bv8, samples: seq<bool>, i: nat)
    requires |samples| == 16 && i < 66
    ensures ReadTrace(channel, samples)[0] == ChipSelect(false)
    ensures ReadTrace(channel, samples)[64] == ChipSelect(true)
    ensures ReadTrace(channel, samples)[65] == DataMode(Output)
    ensures 0 < i < 64 ==> !ReadTrace(channel, samples)[i].ChipSelect?
    ensures ReadTrace(channel, samples)[i].Clock? ==> 0 < i < 64
    ensures ReadTrace(channel, samples)[i].DataRead? ==> 16 <= i < 64
    ensures ReadTrace(channel, samples)[i].DataWrite? ==>
              0 < i < 65 && ReadTrace(channel, samples)[i - 1] == Clock(false) &&
              ReadTrace(channel, samples)[i + 1] == Clock(true)
  {
    var t := ReadTrace(channel, samples);
    HeaderEvents(channel);
    if 16 <= i < 40 {
      assert t[i] == MsbPass(samples[..8])[i - 16];
      PassEventKinds(samples[..8], i - 16);
    } else if 40 <= i < 64 {
      assert t[i] == LsbPass(samples[8..])[i - 40];
      PassEventKinds(samples[8..], i - 40);
    }
  }

  /** The three pins of `Adc0834` with their event log, and the stand-in for
      the converter: the levels it presents on the sixteen data-line reads
      after chip-select goes low. */
  class Adc0834 {
    var cs: bool
    var clk: bool
    var dio: Mode
    /** Everything done to the pins since the driver was built. */
    var trace: seq<Event>
    /** The pin state the driver was handed. */
    const initial: Pins
    /** The converter's output bits for one transaction, in the order they are read. */
    const samples: seq<bool>
    /** Data-line reads since chip-select last went low. */
    var served: nat

    ghost predicate Valid()
      reads this
    {
      |samples| == 16 && Replay(initial, trace) == Pins(cs, clk, dio)
    }

    function State(): Pins
      reads this
    {
      Pins(cs, clk, dio)
    }

    /** `Adc0834::new`: takes the pins as they are and puts the data line
        into Output mode. */
    constructor (csLevel: bool, clkLevel: bool, dioMode: Mode, conversion: seq<bool>)
      requires |conversion| == 16
      ensures Valid()
      ensures cs == csLevel && clk == clkLevel && dio == Output
      ensures initial == Pins(csLevel, clkLevel, dioMode)
      ensures trace == [DataMode(Output)] && samples == conversion && served == 0
    {
      cs, clk, dio := csLevel, clkLevel, Output;
      initial := Pins(csLevel, clkLevel, dioMode);
      trace := [DataMode(Output)];
      samples := conversion;
      served := 0;
    }

    /** Logs one event and applies it to the pin fields. */
    method Record(e: Event)
      requires Valid()
      modifies this`cs, this`clk, this`dio, this`trace
      ensures Valid()
      ensures trace == old(trace) + [e] && State() == Step(old(State()), e)
    {
      ReplayConcat(initial, trace, [e]);
      Single(Replay(initial, trace), e);
      trace := trace + [e];
      match e {
        case ChipSelect(h) => cs := h;
        case Clock(h) => clk := h;
        case DataMode(m) => dio := m;
        case DataWrite(_) =>
        case DataRead(_) =>
      }
    }

    /** `cs.set_low()` / `cs.set_high()`; the converter starts a new
        transaction when it is selected. */
    method SetChipSelect(high: bool)
      requires Valid()
      modifies this`cs, this`clk, this`dio, this`trace, this`served
      ensures Valid()
      ensures trace == old(trace) + [ChipSelect(high)]
      ensures State() == old(State()).(cs := high)
      ensures served == if high then old(served) else 0
    {
      Record(ChipSelect(high));
      if !high {
        served := 0;
      }
    }

    /** `set_clock_high`: clock high, then half a period's wait. */
    method SetClockHigh()
      requires Valid()
      modifies this`cs, this`clk, this`dio, this`trace
      ensures Valid()
      ensures trace == old(trace) + [Clock(true)] && State() == old(State()).(clk := true)
    {
      Record(Clock(true));
    }

    /** `set_clock_low`: clock low, then half a period's wait. */
    method SetClockLow()
      requires Valid()
      modifies this`cs, this`clk, this`dio, this`trace
      ensures Valid()
      ensures trace == old(trace) + [Clock(false)] && State() == old(State()).(clk := false)
    {
      Record(Clock(false));
    }

    /** `dio.set_mode(..)`. */
    method SetDataMode(m: Mode)
      requires Valid()
      modifies this`cs, this`clk, this`dio, this`trace
      ensures Valid()
      ensures trace == old(trace) + [DataMode(m)] && State() == old(State()).(mode := m)
    {
      Record(DataMode(m));
    }

    /** `dio.set_high()` / `dio.write(..)`. */
    method WriteData(level: bool)
      requires Valid()
      modifies this`cs, this`clk, this`dio, this`trace
      ensures Valid()
      ensures trace == old(trace) + [DataWrite(level)] && State() == old(State())
    {
      Record(DataWrite(level));
    }

    /** `dio.read()`: the converter's next bit; past the sixteenth the
        stand-in answers low. */
    method ReadData() returns (level: bool)
      requires Valid()
      modifies this`cs, this`clk, this`dio, this`trace, this`served
      ensures Valid()
      ensures level == (old(served) < |samples| && samples[old(served)])
      ensures trace == old(trace) + [DataRead(level)] && State() == old(State())
      ensures served == old(served) + 1
    {
      level := served < |samples| && samples[served];
      Record(DataRead(level));
      served := served + 1;
    }

    /** One header bit: clock low, drive the data line, clock high. */
    method ClockOutBit(level: bool)
      requires Valid()
      modifies this`cs, this`clk, this`dio, this`trace
      ensures Valid()
      ensures trace == old(trace) + HeaderBit(level) && State() == old(State()).(clk := true)
    {
      SetClockLow();
      WriteData(level);
      SetClockHigh();
    }

    /** The part of `read` before the data line turns round: select the
        chip, clock out the start, SGL/DIF, ODD/SIGN and SELECT1 bits and
        wait half a cycle for the multiplexer. */
    method SendHeader(channel: bv8)
      requires Valid()
      modifies this`cs, this`clk, this`dio, this`trace, this`served
      ensures Valid() && State() == Sampling() && served == 0
      ensures trace == old(trace) + Header(channel)
    {
      SetChipSelect(false);
      SetDataMode(Output);
      ClockOutBit(true);                // start bit
      ClockOutBit(true);                // SGL/DIF
      ClockOutBit(OddSign(channel));    // ODD/SIGN
      ClockOutBit(Select1(channel));    // SELECT1
      SetClockLow();                    // the multiplexer settles for half a cycle
      SetDataMode(Input);
      HeaderAssembly(old(trace), channel);
    }

    /** `Adc0834::read`: one conversion on `channel`. */
    method Read(channel: bv8) returns (r: bv8)
      requires Valid()
      modifies this`cs, this`clk, this`dio, this`trace, this`served
      ensures Valid()
      ensures trace == old(trace) + ReadTrace(channel, samples)
      ensures Obeys(old(State()), trace[|old(trace)|..])
      ensures State() == Pins(true, false, Output) && served == 16
      ensures r as int == ReadResult(samples)
    {
      SendHeader(channel);
      var value1 := ShiftInMsbFirst();
      var value2 := ShiftInLsbFirst();
      ghost var afterLsb := trace;

      SetChipSelect(true);
      SetDataMode(Output);
      assert trace == afterLsb + Trailer();

      if value1 == value2 {
        r := value1;
      } else {
        r := 0;
      }

      ReadByteValue(samples);
      ReadTraceAssembly(old(trace), channel, samples);
      ReadTraceObeys(old(State()), channel, samples);
      assert trace[|old(trace)|..] == ReadTrace(channel, samples);
    }

    /** The first loop of `read`: eight clock pulses, each followed by a
        sample shifted in at the low end of `value1`. */
    method ShiftInMsbFirst() returns (value1: bv8)
      requires Valid() && State() == Sampling() && served == 0
      modifies this`cs, this`clk, this`dio, this`trace, this`served
      ensures Valid() && State() == Sampling() && served == 8
      ensures trace == old(trace) + MsbPass(samples[..8])
      ensures value1 == MsbByte(samples[..8])
    {
      value1 := 0;
      for k := 0 to 8
        invariant Valid() && State() == Sampling() && served == k
        invariant trace == old(trace) + MsbPass(samples[..k])
        invariant value1 == MsbByte(samples[..k])
      {
        value1 := SampleMsb(old(trace), k, value1);
      }
    }

    /** One iteration of the first loop: one clock pulse, then `value1`
        shifted left and the sample ORed in at the low end. */
    method SampleMsb(ghost t0: seq<Event>, k: nat, value1: bv8) returns (next: bv8)
      requires Valid() && State() == Sampling() && served == k && k < 8
      requires trace == t0 + MsbPass(samples[..k])
      requires value1 == MsbByte(samples[..k])
      modifies this`cs, this`clk, this`dio, this`trace, this`served
      ensures Valid() && State() == Sampling() && served == k + 1
      ensures trace == t0 + MsbPass(samples[..k + 1])
      ensures next == MsbByte(samples[..k + 1])
    {
      ghost var start := trace;
      SetClockHigh();
      SetClockLow();
      next := value1 << 1;
      var bit := ReadData();
      MsbIteration(t0, start, samples, k, value1, bit);
      next := next | BitByte(bit);
    }

    /** The second loop of `read`: eight samples, sample i ORed into
        `value2` at place i, each followed by a clock pulse. */
    method ShiftInLsbFirst() returns (value2: bv8)
      requires Valid() && State() == Sampling() && served == 8
      modifies this`cs, this`clk, this`dio, this`trace, this`served
      ensures Valid() && State() == Sampling() && served == 16
      ensures trace == old(trace) + LsbPass(samples[8..])
      ensures value2 == LsbByte(samples[8..])
    {
      value2 := 0;
      for i := 0 to 8
        invariant Valid() && State() == Sampling() && served == 8 + i
        invariant trace == old(trace) + LsbPass(samples[8..][..i])
        invariant value2 == LsbByte(samples[8..][..i])
      {
        value2 := SampleLsb(old(trace), i, value2);
      }
      assert samples[8..][..8] == samples[8..];
    }

    /** One iteration of the second loop: sample, OR the bit in at place
        i, one clock pulse. */
    method SampleLsb(ghost t0: seq<Event>, i: nat, value2: bv8) returns (next: bv8)
      requires Valid() && State() == Sampling() && served == 8 + i && i < 8
      requires trace == t0 + LsbPass(samples[8..][..i])
      requires value2 == LsbByte(samples[8..][..i])
      modifies this`cs, this`clk, this`dio, this`trace, this`served
      ensures Valid() && State() == Sampling() && served == 8 + i + 1
      ensures trace == t0 + LsbPass(samples[8..][..i + 1])
      ensures next == LsbByte(samples[8..][..i + 1])
    {
      ghost var start := trace;
      ghost var s := samples[8..];
      var level := ReadData();
      LsbIteration(t0, start, s, i, value2, level);
      next := value2 | BitAt(level, i);
      SetClockHigh();
      SetClockLow();
    }
  }
}
