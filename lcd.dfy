/** The character LCD of src/main.rs, driven in 4-bit mode through an I2C
    port expander. The I2C bus is replaced by the sequence of bytes written
    to it. Bit 0 of a bus byte is register select (RS), bit 1 read/write
    (always 0 here), bit 2 the enable strobe (EN), bit 3 the backlight and
    bits 4-7 the controller's D4-D7 data lines. */
module LcdDriver {
  import opened Sequences

  const RegisterSelect: bv8 := 0x01
  const Enable: bv8 := 0x04
  const Backlight: bv8 := 0x08

  /** The controller register a byte goes to: RS low selects the
      instruction register, RS high the data register. */
  datatype Register = Command | Data

  /** One byte handed to the controller. */
  datatype Transfer = Transfer(register: Register, value: bv8)

  /** The four bus bytes that carry one transfer: high nibble with EN set,
      high nibble with EN clear, then the same for the low nibble; RS as the
      register demands; backlight always on. */
  function Frames(t: Transfer): (f: seq<bv8>)
    ensures |f| == 4
  {
    var rs := if t.register == Data then RegisterSelect else 0;
    var high := t.value & 0xF0;
    var low := (t.value & 0x0F) << 4;
    [high | Backlight | Enable | rs, high | Backlight | rs,
     low | Backlight | Enable | rs, low | Backlight | rs]
  }

  /** The bus bytes for a run of transfers, in order. */
  function Encode(ts: seq<Transfer>): (bus: seq<bv8>)
    ensures |bus| == 4 * |ts|
  {
    if ts == [] then [] else Frames(ts[0]) + Encode(ts[1..])
  }

  /** Data-register transfers of the bytes of `data`, in order. */
  function DataTransfers(data: seq<bv8>): (ts: seq<Transfer>)
    ensures |ts| == |data|
    ensures forall i :: 0 <= i < |data| ==> ts[i] == Transfer(Data, data[i])
  {
    if data == [] then [] else DataTransfers(data[..|data| - 1]) + [Transfer(Data, data[|data| - 1])]
  }

  // The controller's side of the bus.

  /** A nibble latched by the controller, with the RS level it was latched with. */
  datatype Nibble = Nibble(rs: bool, bits: bv8)

  /** The controller in 4-bit mode latches D4-D7 and RS when EN falls: on
      every byte with EN set that is followed by a byte with EN clear. */
  function Latches(bus: seq<bv8>): seq<Nibble>
    decreases |bus|
  {
    if |bus| < 2 then []
    else if bus[0] & Enable != 0 && bus[1] & Enable == 0 then
      [Nibble(bus[0] & RegisterSelect != 0, bus[0] >> 4)] + Latches(bus[1..])
    else Latches(bus[1..])
  }

  /** Pairs of latched nibbles make bytes, high nibble first; the register
      is the one selected when the first nibble was latched. */
  function Assemble(ns: seq<Nibble>): seq<Transfer>
    decreases |ns|
  {
    if |ns| < 2 then []
    else [Transfer(if ns[0].rs then Data else Command, (ns[0].bits << 4) | ns[1].bits)]
         + Assemble(ns[2..])
  }

  /** What the controller receives from a run of bus bytes. */
  function Received(bus: seq<bv8>): seq<Transfer>
  {
    Assemble(Latches(bus))
  }

  /** The shape of one transfer on the bus: every byte has the backlight
      bit; bytes 1 and 3 have EN set and bytes 2 and 4 have it clear; RS is
      set exactly for data; R/W is always clear; bytes 1 and 2 carry the
      high nibble and bytes 3 and 4 the low nibble in bits 4-7. */
  lemma FramesShape(t: Transfer, k: nat)
    requires k < 4
    ensures Frames(t)[k] & Backlight != 0
    ensures Frames(t)[k] & Enable != 0 <==> k % 2 == 0
    ensures Frames(t)[k] & RegisterSelect != 0 <==> t.register == Data
    ensures Frames(t)[k] & 0x02 == 0
    ensures Frames(t)[k] >> 4 == if k < 2 then t.value >> 4 else t.value & 0x0F
  {
  }

  /** The four bytes `send_command` appends, backlight included, are the
      frames of an instruction-register transfer. */
  lemma CommandFrames(before: seq<bv8>, comm: bv8)
    ensures before + [((comm & 0xF0) | 0x04) | Backlight] + [(((comm & 0xF0) | 0x04) & 0xFB) | Backlight]
              + [(((comm & 0x0F) << 4) | 0x04) | Backlight] + [((((comm & 0x0F) << 4) | 0x04) & 0xFB) | Backlight]
            == before + Frames(Transfer(Command, comm))
  {
    var f := Frames(Transfer(Command, comm));
    assert f == [f[0], f[1], f[2], f[3]];
  }

  /** The four bytes `send_data` appends, backlight included, are the
      frames of a data-register transfer. */
  lemma DataFrames(before: seq<bv8>, data: bv8)
    ensures before + [((data & 0xF0) | 0x05) | Backlight] + [(((data & 0xF0) | 0x05) & 0xFB) | Backlight]
              + [(((data & 0x0F) << 4) | 0x05) | Backlight] + [((((data & 0x0F) << 4) | 0x05) & 0xFB) | Backlight]
            == before + Frames(Transfer(Data, data))
  {
    var f := Frames(Transfer(Data, data));
    assert f == [f[0], f[1], f[2], f[3]];
  }

  /** The two nibbles put the byte back together. */
  lemma FramesRoundTrip(t: Transfer)
    ensures (Frames(t)[0] & 0xF0) | (Frames(t)[2] >> 4) == t.value
  {
  }

  /** A byte with EN clear latches nothing. */
  lemma LatchesIdle(x: bv8, rest: seq<bv8>)
    requires x & Enable == 0
    ensures Latches([x] + rest) == Latches(rest)
  {
    var bus := [x] + rest;
    assert bus[0] == x && bus[1..] == rest;
  }

  /** A byte with EN set followed by one with EN clear latches the first
      byte's nibble. */
  lemma LatchesFall(x: bv8, y: bv8, rest: seq<bv8>)
    requires x & Enable != 0 && y & Enable == 0
    ensures Latches([x] + ([y] + rest)) == [Nibble(x & RegisterSelect != 0, x >> 4)] + Latches([y] + rest)
  {
    var bus := [x] + ([y] + rest);
    assert bus[0] == x && bus[1] == y && bus[1..] == [y] + rest;
  }

  /** Four bytes with EN set, clear, set, clear are latched as two
      nibbles, and what follows is latched on its own. */
  lemma LatchesStrobed(a: bv8, b: bv8, c: bv8, d: bv8, rest: seq<bv8>)
    requires a & Enable != 0 && b & Enable == 0 && c & Enable != 0 && d & Enable == 0
    ensures Latches([a, b, c, d] + rest)
            == [Nibble(a & RegisterSelect != 0, a >> 4), Nibble(c & RegisterSelect != 0, c >> 4)]
               + Latches(rest)
  {
    var b3 := [d] + rest;
    var b2 := [c] + b3;
    var b1 := [b] + b2;
    assert [a, b, c, d] + rest == [a] + b1;
    LatchesIdle(d, rest);
    LatchesFall(c, d, rest);
    LatchesIdle(b, b2);
    LatchesFall(a, b, b2);
  }

  /** One transfer is latched as its two nibbles. */
  lemma LatchesFrames(t: Transfer, rest: seq<bv8>)
    ensures Latches(Frames(t) + rest) == NibblesOf(t) + Latches(rest)
  {
    var f := Frames(t);
    FramesShape(t, 0);
    FramesShape(t, 1);
    FramesShape(t, 2);
    FramesShape(t, 3);
    assert f == [f[0], f[1], f[2], f[3]];
    LatchesStrobed(f[0], f[1], f[2], f[3], rest);
  }

  lemma {:induction false} LatchesEncode(ts: seq<Transfer>, tail: seq<bv8>)
    ensures Latches(Encode(ts) + tail) == Nibbles(ts) + Latches(tail)
  {
    if ts == [] {
      assert Encode(ts) + tail == tail;
    } else {
      var rest := Encode(ts[1..]) + tail;
      assert Encode(ts) + tail == Frames(ts[0]) + rest;
      LatchesFrames(ts[0], rest);
      LatchesEncode(ts[1..], tail);
    }
  }

  /** The nibbles one transfer is latched as. */
  function NibblesOf(t: Transfer): seq<Nibble>
  {
    [Nibble(t.register == Data, t.value >> 4), Nibble(t.register == Data, t.value & 0x0F)]
  }

  function Nibbles(ts: seq<Transfer>): (ns: seq<Nibble>)
    ensures |ns| == 2 * |ts|
  {
    if ts == [] then [] else NibblesOf(ts[0]) + Nibbles(ts[1..])
  }

  /** The high nibble shifted back up, ORed with the low nibble, is the byte. */
  lemma NibblesJoin(v: bv8)
    ensures ((v >> 4) << 4) | (v & 0x0F) == v
  {
  }

  /** The two nibbles of one transfer are assembled back into it. */
  lemma AssembleOne(t: Transfer, more: seq<Nibble>)
    ensures Assemble(NibblesOf(t) + more) == [t] + Assemble(more)
  {
    var ns := NibblesOf(t) + more;
    assert ns[0] == Nibble(t.register == Data, t.value >> 4);
    assert ns[1] == Nibble(t.register == Data, t.value & 0x0F);
    DropPrefix(NibblesOf(t), more);
    NibblesJoin(t.value);
  }

  lemma {:induction false} AssembleNibbles(ts: seq<Transfer>, more: seq<Nibble>)
    ensures Assemble(Nibbles(ts) + more) == ts + Assemble(more)
  {
    if ts == [] {
      assert Nibbles(ts) + more == more;
    } else {
      var rest := Nibbles(ts[1..]) + more;
      AppendAssoc(NibblesOf(ts[0]), Nibbles(ts[1..]), more);
      AssembleOne(ts[0], rest);
      AssembleNibbles(ts[1..], more);
      AppendAssoc([ts[0]], ts[1..], Assemble(more));
      HeadTail(ts);
    }
  }

  /** The controller receives exactly the transfers that were encoded, and
      then whatever the following bytes carry. */
  lemma ControllerReceives(ts: seq<Transfer>, tail: seq<bv8>)
    ensures Received(Encode(ts) + tail) == ts + Received(tail)
  {
    LatchesEncode(ts, tail);
    AssembleNibbles(ts, Latches(tail));
  }

  /** Different transfer runs never look alike on the bus. */
  lemma EncodeInjective(ts: seq<Transfer>, us: seq<Transfer>)
    requires Encode(ts) == Encode(us)
    ensures ts == us
  {
    ControllerReceives(ts, []);
    ControllerReceives(us, []);
    assert Received([]) == [];
    assert Encode(ts) + [] == Encode(ts) && Encode(us) + [] == Encode(us);
    assert ts + [] == ts && us + [] == us;
  }

  lemma {:induction false} EncodeAppend(ts: seq<Transfer>, t: Transfer)
    ensures Encode(ts + [t]) == Encode(ts) + Frames(t)
  {
    if ts == [] {
      EncodeSingle(t);
    } else {
      assert (ts + [t])[1..] == ts[1..] + [t];
      EncodeAppend(ts[1..], t);
    }
  }

  lemma EncodeSingle(t: Transfer)
    ensures Encode([t]) == Frames(t)
  {
    assert [t][1..] == [];
    assert Encode([t]) == Frames(t) + Encode([]);
  }

  /** Sending one more byte of the text extends the bus by its frames. */
  lemma WriteStep(cmd: seq<Transfer>, data: seq<bv8>, k: nat)
    requires k < |data|
    ensures Encode(cmd + DataTransfers(data[..k + 1]))
            == Encode(cmd + DataTransfers(data[..k])) + Frames(Transfer(Data, data[k]))
  {
    var p := data[..k + 1];
    assert p[..k] == data[..k];
    assert DataTransfers(p) == DataTransfers(data[..k]) + [Transfer(Data, data[k])];
    assert cmd + DataTransfers(p) == (cmd + DataTransfers(data[..k])) + [Transfer(Data, data[k])];
    EncodeAppend(cmd + DataTransfers(data[..k]), Transfer(Data, data[k]));
  }

  // Cursor addressing.

  /** `u8::min`. */
  function Min(a: bv8, b: bv8): bv8
  {
    if a < b then a else b
  }

  /** The instruction `write` sends before the text: Set DDRAM Address with
      the column clamped to 15 and the row to 1; row 0 starts at DDRAM
      address 0x00 and row 1 at 0x40. The sum is u8 arithmetic; the
      clamping keeps it at most 0xCF, so it never overflows. */
  function Address(x: bv8, y: bv8): (a: bv8)
    ensures Min(y, 1) == 0 ==> 0x80 <= a <= 0x8F
    ensures Min(y, 1) == 1 ==> 0xC0 <= a <= 0xCF
    ensures a & 0x80 != 0
    ensures a & 0x0F == Min(x, 15) && (a >> 6) & 1 == Min(y, 1)
  {
    var col := Min(x, 15);
    var row := Min(y, 1);
    0x80 + 0x40 * row + col
  }

  /** The u8 sum equals the sum over the integers, so Rust's overflow
      check never fires. */
  lemma AddressNoOverflow(x: bv8, y: bv8)
    ensures 0x80 + 0x40 * Min(y, 1) as int + Min(x, 15) as int < 0x100
    ensures Address(x, y) as int == 0x80 + 0x40 * Min(y, 1) as int + Min(x, 15) as int
  {
    var col := Min(x, 15);
    assert col as int <= 15;
    if Min(y, 1) == 0 {
      assert Address(x, y) == 0x80 | col;
    } else {
      assert Address(x, y) == 0xC0 | col;
    }
  }

  /** The commands `init` sends, in order: two nibble-pairs that put the
      controller into 4-bit mode, function set (two lines, 5x8 dots),
      display on with cursor off, clear display. */
  function InitCommands(): seq<Transfer>
  {
    [Transfer(Command, 0x33), Transfer(Command, 0x32), Transfer(Command, 0x28),
     Transfer(Command, 0x0C), Transfer(Command, 0x01)]
  }

  /** The init commands on the bus, one after the other, after any bytes
      already written. */
  lemma InitEncoding(before: seq<bv8>)
    ensures before + Frames(Transfer(Command, 0x33)) + Frames(Transfer(Command, 0x32))
      + Frames(Transfer(Command, 0x28)) + Frames(Transfer(Command, 0x0C))
      + Frames(Transfer(Command, 0x01))
      == before + Encode(InitCommands())
  {
    var c := InitCommands();
    assert c[1..][1..][1..][1..][1..] == [];
    assert Encode(c) == Frames(c[0]) + (Frames(c[1]) + (Frames(c[2]) + (Frames(c[3]) + Frames(c[4]))));
  }

  /** `init` writes 21 bytes, the controller receives the five init
      commands, and the final byte only sets the backlight: it has EN clear
      and latches nothing. */
  lemma InitBus()
    ensures |Encode(InitCommands()) + [Backlight]| == 21
    ensures Received(Encode(InitCommands()) + [Backlight]) == InitCommands()
    ensures Backlight & Enable == 0
  {
    ControllerReceives(InitCommands(), [Backlight]);
  }

  /** What `write(x, y, data)` puts on the bus: the cursor address command,
      then each byte of `data` as a data transfer, 4 * (1 + |data|) bytes
      in all; the controller receives exactly those transfers. */
  lemma WriteBus(x: bv8, y: bv8, data: seq<bv8>)
    ensures |Encode([Transfer(Command, Address(x, y))] + DataTransfers(data))| == 4 * (1 + |data|)
    ensures Received(Encode([Transfer(Command, Address(x, y))] + DataTransfers(data)))
            == [Transfer(Command, Address(x, y))] + DataTransfers(data)
  {
    var ts := [Transfer(Command, Address(x, y))] + DataTransfers(data);
    ControllerReceives(ts, []);
    assert Received([]) == [];
    assert Encode(ts) + [] == Encode(ts);
  }

  /** The display: the I2C bus as the bytes written to it. */
  class Lcd {
    var bus: seq<bv8>

    /** `Lcd::new`: opens the bus and addresses the expander; nothing is written. */
    constructor ()
      ensures bus == []
    {
      bus := [];
    }

    /** `write_byte`: one bus byte, backlight bit ORed in. */
    method WriteByte(data: bv8)
      modifies this
      ensures bus == old(bus) + [data | Backlight]
    {
      bus := bus + [data | Backlight];
    }

    /** `send_command`: one byte to the instruction register. */
    method SendCommand(comm: bv8)
      modifies this
      ensures bus == old(bus) + Frames(Transfer(Command, comm))
    {
      var buf: bv8;
      buf := comm & 0xF0;
      buf := buf | 0x04;    // RS = 0, RW = 0, EN = 1
      WriteByte(buf);
      buf := buf & 0xFB;    // EN = 0
      WriteByte(buf);

      buf := (comm & 0x0F) << 4;
      buf := buf | 0x04;    // RS = 0, RW = 0, EN = 1
      WriteByte(buf);
      buf := buf & 0xFB;    // EN = 0
      WriteByte(buf);
      CommandFrames(old(bus), comm);
    }

    /** `send_data`: one byte to the data register. */
    method SendData(data: bv8)
      modifies this
      ensures bus == old(bus) + Frames(Transfer(Data, data))
    {
      var buf := data & 0xF0;
      buf := buf | 0x05;    // RS = 1, RW = 0, EN = 1
      WriteByte(buf);
      buf := buf & 0xFB;    // EN = 0
      WriteByte(buf);

      buf := (data & 0x0F) << 4;
      buf := buf | 0x05;    // RS = 1, RW = 0, EN = 1
      WriteByte(buf);
      buf := buf & 0xFB;    // EN = 0
      WriteByte(buf);
      DataFrames(old(bus), data);
    }

    /** `clear`: the Clear Display instruction. */
    method Clear()
      modifies this
      ensures bus == old(bus) + Frames(Transfer(Command, 0x01))
    {
      SendCommand(0x01);
    }

    /** `write`: move the cursor to (x, y), clamped, then send the text. */
    method Write(x: bv8, y: bv8, data: seq<bv8>)
      modifies this
      ensures bus == old(bus) + Encode([Transfer(Command, Address(x, y))] + DataTransfers(data))
    {
      var addr := Address(x, y);
      SendCommand(addr);
      ghost var cmd := [Transfer(Command, addr)];
      EncodeSingle(cmd[0]);
      assert cmd + DataTransfers(data[..0]) == cmd;

      for k := 0 to |data|
        invariant bus == old(bus) + Encode(cmd + DataTransfers(data[..k]))
      {
        SendData(data[k]);
        WriteStep(cmd, data, k);
      }
      assert data[..|data|] == data;
    }

    /** `init`: the five initialisation commands, then the backlight on its own. */
    method Init()
      modifies this
      ensures bus == old(bus) + Encode(InitCommands()) + [Backlight]
    {
      SendCommand(0x33);
      SendCommand(0x32);
      SendCommand(0x28);
      SendCommand(0x0C);
      SendCommand(0x01);
      InitEncoding(old(bus));
      WriteByte(0x08);
    }
  }
}
