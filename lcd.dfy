/** The HD44780 16x2 character display driver of src/LCD.php, wired to six
    GPIO pins and driven in 4-bit mode. The driver only ever calls `enable`,
    `setDirection` and `setValue` on its pins, so it is modelled by the
    sequence of those calls it issues, in order. */
module Lcd {
  import opened Wrappers

  /** The six pins: register select, enable strobe and data lines D4..D7. */
  datatype Role = RS | E | D4 | D5 | D6 | D7

  /** One call the driver makes on one of its pins. */
  datatype PinCall =
    | Enable(pin: Role)
    | SetDirection(pin: Role, direction: string)
    | SetValue(pin: Role, level: bool)

  /** One byte sent to the display, to its command or its character register. */
  datatype Transfer = Transfer(byte: bv8, isCommand: bool)

  /** The pins in the order `initialize` sets them up. */
  const Roles: seq<Role> := [RS, E, D4, D5, D6, D7]

  /** The data lines in order of significance within a nibble. */
  const DataLines: seq<Role> := [D4, D5, D6, D7]

  /** The command bytes `initialize` sends, in order. */
  const InitCommands: seq<bv8> := [0x33, 0x32, 0x06, 0x0C, 0x28, 0x01]

  /** The width of a display line. */
  const LineWidth: nat := 16

  /** `($byte & $flag) == $flag`. */
  predicate Has(b: bv8, flag: bv8) {
    b & flag == flag
  }

  /** The two writes of `toggleEnable`: E high, then E low. */
  function PulseCalls(): seq<PinCall> {
    [SetValue(E, true), SetValue(E, false)]
  }

  /** Four writes putting the given levels on D4, D5, D6 and D7. */
  function NibbleCalls(d4: bool, d5: bool, d6: bool, d7: bool): seq<PinCall> {
    [SetValue(D4, d4), SetValue(D5, d5), SetValue(D6, d6), SetValue(D7, d7)]
  }

  /** Thirteen calls in the frame `writeByte` uses: RS, a nibble on D4..D7,
      a pulse, a nibble, a pulse. */
  function FrameCalls(rs: bool, high: seq<PinCall>, low: seq<PinCall>): seq<PinCall> {
    [SetValue(RS, rs)] + high + PulseCalls() + low + PulseCalls()
  }

  /** The high nibble of `b` as `writeByte` puts it on D4..D7: bits 4 to 7. */
  function HighNibble(b: bv8): seq<PinCall> {
    NibbleCalls(Has(b, 0x10), Has(b, 0x20), Has(b, 0x40), Has(b, 0x80))
  }

  /** The low nibble of `b` as `writeByte` puts it on D4..D7: bits 0 to 3. */
  function LowNibble(b: bv8): seq<PinCall> {
    NibbleCalls(Has(b, 0x01), Has(b, 0x02), Has(b, 0x04), Has(b, 0x08))
  }

  /** The pin calls of `writeByte`: RS low for a command, the high nibble
      on D4..D7, a pulse, the low nibble on D4..D7, a pulse. */
  function ByteCalls(t: Transfer): seq<PinCall> {
    FrameCalls(!t.isCommand, HighNibble(t.byte), LowNibble(t.byte))
  }

  /** The pin calls of a sequence of `writeByte` calls. */
  function Transfers(ts: seq<Transfer>): seq<PinCall> {
    if ts == [] then [] else ByteCalls(ts[0]) + Transfers(ts[1..])
  }

  /** Commands only: the transfers of a sequence of command bytes. */
  function Commands(bytes: seq<bv8>): (r: seq<Transfer>)
    ensures |r| == |bytes|
    ensures forall i :: 0 <= i < |r| ==> r[i] == Transfer(bytes[i], true)
  {
    seq(|bytes|, i requires 0 <= i < |bytes| => Transfer(bytes[i], true))
  }

  /** Whether four calls set D4, D5, D6 and D7, in that order. */
  predicate IsNibble(c: seq<PinCall>) {
    |c| == 4 && forall k :: 0 <= k < 4 ==> c[k].SetValue? && c[k].pin == DataLines[k]
  }

  function BitOf(level: bool, weight: bv8): bv8 {
    if level then weight else 0
  }

  /** The four bits a nibble of calls puts on D4..D7, D4 least significant. */
  function NibbleValue(c: seq<PinCall>): (r: bv8)
    requires IsNibble(c)
    ensures r < 16
  {
    BitOf(c[0].level, 1) | BitOf(c[1].level, 2) | BitOf(c[2].level, 4) | BitOf(c[3].level, 8)
  }

  /** What the display latches from thirteen pin calls, if they are the
      shape `writeByte` produces: RS gives the register (low for a command),
      the first nibble the high four bits and the second the low four. */
  function DecodeByte(calls: seq<PinCall>): Option<Transfer> {
    if |calls| == 13 && calls[0].SetValue? && calls[0].pin == RS
       && IsNibble(calls[1..5]) && calls[5..7] == PulseCalls()
       && IsNibble(calls[7..11]) && calls[11..13] == PulseCalls()
    then Some(Transfer((NibbleValue(calls[1..5]) << 4) | NibbleValue(calls[7..11]), !calls[0].level))
    else None
  }

  /** What the display latches from a whole run of pin calls. */
  function Decode(calls: seq<PinCall>): Option<seq<Transfer>>
    decreases |calls|
  {
    if calls == [] then Some([])
    else if |calls| < 13 then None
    else match (DecodeByte(calls[..13]), Decode(calls[13..]))
      case (Some(t), Some(rest)) => Some([t] + rest)
      case _ => None
  }

  /** The last level written to pin `p`, if any. */
  function LastLevel(calls: seq<PinCall>, p: Role): Option<bool>
    decreases |calls|
  {
    if calls == [] then None
    else if calls[|calls| - 1].SetValue? && calls[|calls| - 1].pin == p then Some(calls[|calls| - 1].level)
    else LastLevel(calls[..|calls| - 1], p)
  }

  /** Whether every call in the run is a `setValue`. */
  predicate OnlyValueWrites(calls: seq<PinCall>) {
    forall i :: 0 <= i < |calls| ==> calls[i].SetValue?
  }

  /** `entryMode($increment, $shift)`: 0x04, with bit 1 for increment and
      bit 0 for shift. */
  function EntryModeByte(increment: bool, shift: bool): (r: bv8)
    ensures 0x04 <= r <= 0x07
    ensures Has(r, 0x02) == increment && Has(r, 0x01) == shift
  {
    0x04 | BitOf(increment, 0x02) | BitOf(shift, 0x01)
  }

  /** `displayOnOffControl($displayOn, $cursorOn, $blinkOn)`: 0x08, with bits
      2, 1 and 0 for display, cursor and blink. */
  function DisplayControlByte(displayOn: bool, cursorOn: bool, blinkOn: bool): (r: bv8)
    ensures 0x08 <= r <= 0x0F
    ensures Has(r, 0x04) == displayOn && Has(r, 0x02) == cursorOn && Has(r, 0x01) == blinkOn
  {
    0x08 | BitOf(displayOn, 0x04) | BitOf(cursorOn, 0x02) | BitOf(blinkOn, 0x01)
  }

  /** `functionSet($dataLength8Bit, $twoDisplayLines, $largeFont)`: 0x20,
      with bits 4, 3 and 2 for 8-bit interface, two lines and the 5x10 font;
      bits 0 and 1 stay clear. */
  function FunctionSetByte(dataLength8Bit: bool, twoDisplayLines: bool, largeFont: bool): (r: bv8)
    ensures 0x20 <= r <= 0x3C && r & 0x03 == 0
    ensures Has(r, 0x10) == dataLength8Bit && Has(r, 0x08) == twoDisplayLines && Has(r, 0x04) == largeFont
  {
    0x20 | BitOf(dataLength8Bit, 0x10) | BitOf(twoDisplayLines, 0x08) | BitOf(largeFont, 0x04)
  }

  /** `$address & $mask` for a PHP integer and a mask 2^k - 1: on two's
      complement integers that is the remainder modulo 2^k, which Dafny's
      `%` computes (never negative) for negative addresses too. */
  function LowBits(address: int, modulus: nat): (r: bv8)
    requires modulus == 64 || modulus == 128
    ensures r as int == address % modulus
  {
    var low := address % modulus;
    assert 0 <= low < 256;
    var r: bv8 := low as bv8;
    assert r as int == low;
    r
  }

  /** `setCGROMAddress($address)`: 0x40 with the low six bits of the address. */
  function CgramAddressByte(address: int): (r: bv8)
    ensures 0x40 <= r <= 0x7F
    ensures (r & 0x3F) as int == address % 64
  {
    0x40 | LowBits(address, 64)
  }

  /** `setDDRAMAddress($address)`: 0x80 with the low seven bits of the address. */
  function DdramAddressByte(address: int): (r: bv8)
    ensures 0x80 <= r
    ensures (r & 0x7F) as int == address % 128
  {
    0x80 | LowBits(address, 128)
  }

  /** `str_pad($s, 16)`: the string, right-padded with spaces to 16 bytes;
      a longer string is left as it is. */
  function Padded(s: seq<bv8>): (r: seq<bv8>)
    ensures |r| == if |s| < LineWidth then LineWidth else |s|
    ensures forall i :: 0 <= i < |r| ==> r[i] == if i < |s| then s[i] else ' ' as bv8
  {
    if |s| < LineWidth then s + seq(LineWidth - |s|, _ => ' ' as bv8) else s
  }

  /** The bytes `writeString($s, $line)` sends: the DDRAM address of the
      line's start, `($line - 1) * 40`, as a command, then the first 16
      bytes of the padded string as character data. */
  function StringTransfers(s: seq<bv8>, line: int): (r: seq<Transfer>)
    ensures |r| == 1 + LineWidth
    ensures r[0] == Transfer(DdramAddressByte((line - 1) * 40), true)
    ensures forall i :: 0 <= i < LineWidth ==>
              r[1 + i] == Transfer(if i < |s| then s[i] else ' ' as bv8, false)
  {
    var p := Padded(s);
    [Transfer(DdramAddressByte((line - 1) * 40), true)]
    + seq(LineWidth, i requires 0 <= i < LineWidth => Transfer(p[i], false))
  }

  /** `$pin->enable()->setDirection('out')`. */
  function PinSetup(p: Role): seq<PinCall> {
    [Enable(p), SetDirection(p, "out")]
  }

  /** The calls of `initialize` before its first byte: each pin, in order,
      enabled and then set to output. */
  function SetupCalls(): seq<PinCall> {
    PinSetup(RS) + PinSetup(E) + PinSetup(D4) + PinSetup(D5) + PinSetup(D6) + PinSetup(D7)
  }

  /** Four data-line writes read back as the nibble their levels spell. */
  lemma NibbleCallsValue(d4: bool, d5: bool, d6: bool, d7: bool)
    ensures IsNibble(NibbleCalls(d4, d5, d6, d7))
    ensures NibbleValue(NibbleCalls(d4, d5, d6, d7)) == BitOf(d4, 1) | BitOf(d5, 2) | BitOf(d6, 4) | BitOf(d7, 8)
  {
  }

  /** The frame the display latches: RS gives the register and the two
      nibbles the byte; all thirteen calls are `setValue` and the last
      leaves E low. */
  lemma DecodeFrame(rs: bool, high: seq<PinCall>, low: seq<PinCall>)
    requires IsNibble(high) && IsNibble(low)
    ensures |FrameCalls(rs, high, low)| == 13 && OnlyValueWrites(FrameCalls(rs, high, low))
    ensures FrameCalls(rs, high, low)[0] == SetValue(RS, rs)
    ensures LastLevel(FrameCalls(rs, high, low), E) == Some(false)
    ensures DecodeByte(FrameCalls(rs, high, low))
         == Some(Transfer((NibbleValue(high) << 4) | NibbleValue(low), !rs))
  {
    var c := FrameCalls(rs, high, low);
    assert c[1..5] == high && c[5..7] == PulseCalls() && c[7..11] == low && c[11..13] == PulseCalls();
    assert forall i :: 0 <= i < 13 ==> c[i].SetValue? by {
      forall i | 0 <= i < 13 ensures c[i].SetValue? {
        if 1 <= i < 5 { assert c[i] == high[i - 1]; }
        else if 7 <= i < 11 { assert c[i] == low[i - 7]; }
      }
    }
  }

  /** Every `writeByte` is thirteen `setValue` calls, the first on RS and
      the last leaving E low, and the display latches exactly the byte and
      register that were written. */
  lemma ByteCallsDecode(t: Transfer)
    ensures |ByteCalls(t)| == 13 && OnlyValueWrites(ByteCalls(t))
    ensures ByteCalls(t)[0] == SetValue(RS, !t.isCommand)
    ensures LastLevel(ByteCalls(t), E) == Some(false)
    ensures DecodeByte(ByteCalls(t)) == Some(t)
  {
    NibblesRebuildByte(t.byte);
    DecodeFrame(!t.isCommand, HighNibble(t.byte), LowNibble(t.byte));
  }

  /** The two nibbles `writeByte` puts on D4..D7 are nibbles, and the high
      one shifted up, joined with the low one, gives the byte back. */
  lemma NibblesRebuildByte(b: bv8)
    ensures IsNibble(HighNibble(b)) && IsNibble(LowNibble(b))
    ensures (NibbleValue(HighNibble(b)) << 4) | NibbleValue(LowNibble(b)) == b
  {
    NibbleCallsValue(Has(b, 0x10), Has(b, 0x20), Has(b, 0x40), Has(b, 0x80));
    NibbleCallsValue(Has(b, 0x01), Has(b, 0x02), Has(b, 0x04), Has(b, 0x08));
    BitsRebuildByte(b);
  }

  /** The eight bit tests of `writeByte`, put back in place, give the byte. */
  lemma BitsRebuildByte(b: bv8)
    ensures ((BitOf(Has(b, 0x10), 1) | BitOf(Has(b, 0x20), 2) | BitOf(Has(b, 0x40), 4) | BitOf(Has(b, 0x80), 8)) << 4)
            | (BitOf(Has(b, 0x01), 1) | BitOf(Has(b, 0x02), 2) | BitOf(Has(b, 0x04), 4) | BitOf(Has(b, 0x08), 8))
            == b
  {
  }

  /** A run of `writeByte` calls decodes to exactly the bytes written. */
  lemma {:induction false} TransfersDecode(ts: seq<Transfer>)
    ensures |Transfers(ts)| == 13 * |ts|
    ensures Decode(Transfers(ts)) == Some(ts)
  {
    if ts != [] {
      var c := Transfers(ts);
      ByteCallsDecode(ts[0]);
      TransfersDecode(ts[1..]);
      assert c[..13] == ByteCalls(ts[0]);
      assert c[13..] == Transfers(ts[1..]);
      assert [ts[0]] + ts[1..] == ts;
    }
  }

  /** After any non-empty run of `writeByte` calls, E is low. */
  lemma {:induction false} TransfersLeaveEnableLow(ts: seq<Transfer>)
    requires ts != []
    ensures LastLevel(Transfers(ts), E) == Some(false)
  {
    ByteCallsDecode(ts[0]);
    if ts[1..] == [] {
      assert Transfers(ts) == ByteCalls(ts[0]);
    } else {
      TransfersLeaveEnableLow(ts[1..]);
      LastLevelOfAppend(ByteCalls(ts[0]), Transfers(ts[1..]), E);
    }
  }

  /** The last level of `p` after `a + b` is its last level in `b` when `b`
      writes `p` at all. */
  lemma {:induction false} LastLevelOfAppend(a: seq<PinCall>, b: seq<PinCall>, p: Role)
    requires LastLevel(b, p).Some?
    ensures LastLevel(a + b, p) == LastLevel(b, p)
    decreases |b|
  {
    var ab := a + b;
    assert ab[|ab| - 1] == b[|b| - 1];
    if !(b[|b| - 1].SetValue? && b[|b| - 1].pin == p) {
      assert ab[..|ab| - 1] == a + b[..|b| - 1];
      LastLevelOfAppend(a, b[..|b| - 1], p);
    }
  }

  lemma AppendAssoc(a: seq<PinCall>, b: seq<PinCall>, c: seq<PinCall>)
    ensures a + (b + c) == a + b + c
  {
  }

  /** Sending one more byte appends its thirteen calls. */
  lemma {:induction false} TransfersAppend(ts: seq<Transfer>, t: Transfer)
    ensures Transfers(ts + [t]) == Transfers(ts) + ByteCalls(t)
  {
    if ts == [] {
      assert [t][1..] == [];
    } else {
      assert (ts + [t])[1..] == ts[1..] + [t];
      TransfersAppend(ts[1..], t);
      AppendAssoc(ByteCalls(ts[0]), Transfers(ts[1..]), ByteCalls(t));
    }
  }

  /** The calls issued after `prefix` grow by one `writeByte` exactly as the
      bytes sent grow by one transfer. */
  lemma SendOne(prefix: seq<PinCall>, sent: seq<Transfer>, t: Transfer)
    ensures prefix + Transfers(sent) + ByteCalls(t) == prefix + Transfers(sent + [t])
  {
    TransfersAppend(sent, t);
  }

  /** One more `writeByte` of the next transfer extends the calls for a
      prefix of the transfers to the calls for the prefix one longer. */
  lemma SendStep(prefix: seq<PinCall>, ts: seq<Transfer>, k: nat, before: seq<PinCall>, after: seq<PinCall>)
    requires k < |ts|
    requires before == prefix + Transfers(ts[..k])
    requires after == before + ByteCalls(ts[k])
    ensures after == prefix + Transfers(ts[..k + 1])
  {
    assert ts[..k] + [ts[k]] == ts[..k + 1];
    SendOne(prefix, ts[..k], ts[k]);
  }

  /** The six `writeByte` calls of `initialize`, issued one after the other
      after `setup`, are the calls of the six initialisation commands. */
  lemma InitCommandsSent(setup: seq<PinCall>, c1: seq<PinCall>, c2: seq<PinCall>, c3: seq<PinCall>,
                         c4: seq<PinCall>, c5: seq<PinCall>, c6: seq<PinCall>)
    requires c1 == setup + ByteCalls(Transfer(0x33, true))
    requires c2 == c1 + ByteCalls(Transfer(0x32, true))
    requires c3 == c2 + ByteCalls(Transfer(EntryModeByte(true, false), true))
    requires c4 == c3 + ByteCalls(Transfer(DisplayControlByte(true, false, false), true))
    requires c5 == c4 + ByteCalls(Transfer(FunctionSetByte(false, true, false), true))
    requires c6 == c5 + ByteCalls(Transfer(0x01, true))
    ensures c6 == setup + Transfers(Commands(InitCommands))
  {
    var cmds := Commands(InitCommands);
    InitCommandBytes();
    assert cmds[..0] == [];
    SendStep(setup, cmds, 0, setup, c1);
    SendStep(setup, cmds, 1, c1, c2);
    SendStep(setup, cmds, 2, c2, c3);
    SendStep(setup, cmds, 3, c3, c4);
    SendStep(setup, cmds, 4, c4, c5);
    SendStep(setup, cmds, 5, c5, c6);
    assert cmds[..6] == cmds;
  }

  /** Four calls issued one at a time are the four calls issued together. */
  lemma AppendFour(s: seq<PinCall>, a: PinCall, b: PinCall, c: PinCall, d: PinCall)
    ensures s + [a] + [b] + [c] + [d] == s + [a, b, c, d]
  {
  }

  /** A frame issued piece by piece is the frame issued at once. */
  lemma AppendFrame(s: seq<PinCall>, rs: bool, high: seq<PinCall>, low: seq<PinCall>)
    ensures s + [SetValue(RS, rs)] + high + PulseCalls() + low + PulseCalls() == s + FrameCalls(rs, high, low)
  {
  }

  /** The setup calls, one pin at a time as the driver issues them. */
  lemma SetupSplit(s: seq<PinCall>)
    ensures s + SetupCalls()
         == s + PinSetup(RS) + PinSetup(E) + PinSetup(D4) + PinSetup(D5) + PinSetup(D6) + PinSetup(D7)
  {
  }

  /** `initialize` sets the six pins up in order, enabling each before it
      is set to output. */
  lemma SetupOrder()
    ensures |SetupCalls()| == 2 * |Roles|
    ensures forall k :: 0 <= k < |Roles| ==>
              SetupCalls()[2 * k] == Enable(Roles[k]) && SetupCalls()[2 * k + 1] == SetDirection(Roles[k], "out")
  {
  }

  /** The command builders produce, for the arguments `initialize` passes,
      the initialisation bytes 0x06, 0x0C and 0x28. */
  lemma InitCommandBytes()
    ensures EntryModeByte(true, false) == InitCommands[2]
    ensures DisplayControlByte(true, false, false) == InitCommands[3]
    ensures FunctionSetByte(false, true, false) == InitCommands[4]
  {
  }

  /** The command bytes the builders send when called with their default
      arguments: `entryMode()` 0x06, `displayOnOffControl()` 0x0F and
      `functionSet()` 0x3C. */
  lemma DefaultCommandBytes()
    ensures EntryModeByte(true, false) == 0x06
    ensures DisplayControlByte(true, true, true) == 0x0F
    ensures FunctionSetByte(true, true, true) == 0x3C
  {
  }

  /** `writeString` sends line `n` to DDRAM address `(n - 1) * 40`: line 1
      starts at 0x00 and line 2 at 0x28 (command byte 0xA8). */
  lemma LineStartAddresses(s: seq<bv8>)
    ensures StringTransfers(s, 1)[0] == Transfer(0x80, true)
    ensures StringTransfers(s, 2)[0] == Transfer(0xA8, true)
  {
    assert DdramAddressByte(0) & 0x7F == 0x00;
    assert DdramAddressByte(40) & 0x7F == 0x28;
  }

  /** The driver: the calls issued so far on its six pins. */
  class Display {
    var trace: seq<PinCall>

    /** `new LCD($rs, $e, $d4, $d5, $d6, $d7)`: nothing issued yet. */
    constructor ()
      ensures trace == []
    {
      trace := [];
    }

    /** `$pin->setValue($level)` on the pin wired as `p`. */
    method SetPin(p: Role, level: bool)
      modifies this
      ensures trace == old(trace) + [SetValue(p, level)]
    {
      trace := trace + [SetValue(p, level)];
    }

    /** `toggleEnable()`: E high, then E low. */
    method ToggleEnable()
      modifies this
      ensures trace == old(trace) + PulseCalls()
    {
      SetPin(E, true);
      SetPin(E, false);
    }

    /** `writeByte($byte, $isCommand = false)`: character data unless told
        otherwise. */
    method WriteByte(b: bv8, isCommand: bool := false)
      modifies this
      ensures trace == old(trace) + ByteCalls(Transfer(b, isCommand))
    {
      SetPin(RS, isCommand == false);
      ghost var high := trace;
      SetPin(D4, b & 0x10 == 0x10);
      SetPin(D5, b & 0x20 == 0x20);
      SetPin(D6, b & 0x40 == 0x40);
      SetPin(D7, b & 0x80 == 0x80);
      AppendFour(high, SetValue(D4, b & 0x10 == 0x10), SetValue(D5, b & 0x20 == 0x20),
                       SetValue(D6, b & 0x40 == 0x40), SetValue(D7, b & 0x80 == 0x80));
      ToggleEnable();
      ghost var low := trace;
      SetPin(D4, b & 0x01 == 0x01);
      SetPin(D5, b & 0x02 == 0x02);
      SetPin(D6, b & 0x04 == 0x04);
      SetPin(D7, b & 0x08 == 0x08);
      AppendFour(low, SetValue(D4, b & 0x01 == 0x01), SetValue(D5, b & 0x02 == 0x02),
                      SetValue(D6, b & 0x04 == 0x04), SetValue(D7, b & 0x08 == 0x08));
      ToggleEnable();
      AppendFrame(old(trace), isCommand == false, HighNibble(b), LowNibble(b));
    }

    /** `clearDisplay()`: command 0x01. */
    method ClearDisplay()
      modifies this
      ensures trace == old(trace) + ByteCalls(Transfer(0x01, true))
    {
      WriteByte(0x01, true);
    }

    /** `returnHome()`: command 0x02. */
    method ReturnHome()
      modifies this
      ensures trace == old(trace) + ByteCalls(Transfer(0x02, true))
    {
      WriteByte(0x02, true);
    }

    /** `entryMode($increment = true, $shift = false)`. */
    method EntryMode(increment: bool := true, shift: bool := false)
      modifies this
      ensures trace == old(trace) + ByteCalls(Transfer(EntryModeByte(increment, shift), true))
    {
      var byte: bv8 := 0x04;
      if increment { byte := byte | 0x02; }
      if shift { byte := byte | 0x01; }
      WriteByte(byte, true);
    }

    /** `displayOnOffControl($displayOn = true, $cursorOn = true, $blinkOn = true)`. */
    method DisplayOnOffControl(displayOn: bool := true, cursorOn: bool := true, blinkOn: bool := true)
      modifies this
      ensures trace == old(trace) + ByteCalls(Transfer(DisplayControlByte(displayOn, cursorOn, blinkOn), true))
    {
      var byte: bv8 := 0x08;
      if displayOn { byte := byte | 0x04; }
      if cursorOn { byte := byte | 0x02; }
      if blinkOn { byte := byte | 0x01; }
      WriteByte(byte, true);
    }

    /** `functionSet($dataLength8Bit = true, $twoDisplayLines = true, $largeFont = true)`. */
    method FunctionSet(dataLength8Bit: bool := true, twoDisplayLines: bool := true, largeFont: bool := true)
      modifies this
      ensures trace == old(trace) + ByteCalls(Transfer(FunctionSetByte(dataLength8Bit, twoDisplayLines, largeFont), true))
    {
      var byte: bv8 := 0x20;
      if dataLength8Bit { byte := byte | 0x10; }
      if twoDisplayLines { byte := byte | 0x08; }
      if largeFont { byte := byte | 0x04; }
      WriteByte(byte, true);
    }

    /** `setCGROMAddress($address)`. */
    method SetCGROMAddress(address: int)
      modifies this
      ensures trace == old(trace) + ByteCalls(Transfer(CgramAddressByte(address), true))
    {
      var byte: bv8 := 0x40;
      byte := byte | LowBits(address, 64);
      WriteByte(byte, true);
    }

    /** `setDDRAMAddress($address)`. */
    method SetDDRAMAddress(address: int)
      modifies this
      ensures trace == old(trace) + ByteCalls(Transfer(DdramAddressByte(address), true))
    {
      var byte: bv8 := 0x80;
      byte := byte | LowBits(address, 128);
      WriteByte(byte, true);
    }

    /** `writeString($s, $line = 1)`: the line's DDRAM address, then the 16
        bytes of the padded string. */
    method WriteString(s: seq<bv8>, line: int := 1)
      modifies this
      ensures trace == old(trace) + Transfers(StringTransfers(s, line))
    {
      var padded := Padded(s);
      ghost var sent := StringTransfers(s, line);
      SetDDRAMAddress((line - 1) * 40);
      SendOne(old(trace), [], sent[0]);
      assert [sent[0]] == sent[..1];
      for i := 0 to LineWidth
        invariant trace == old(trace) + Transfers(sent[..1 + i])
      {
        WriteByte(padded[i], false);
        SendOne(old(trace), sent[..1 + i], sent[1 + i]);
        assert sent[..1 + i] + [sent[1 + i]] == sent[..1 + i + 1];
      }
      assert sent[..1 + LineWidth] == sent;
    }

    /** `$pin->enable()->setDirection('out')` on the pin wired as `p`. */
    method SetUpPin(p: Role)
      modifies this
      ensures trace == old(trace) + PinSetup(p)
    {
      trace := trace + [Enable(p)];
      trace := trace + [SetDirection(p, "out")];
    }

    /** `initialize()`: every pin enabled and set to output, then the
        commands 0x33, 0x32, 0x06, 0x0C, 0x28 and 0x01. */
    method Initialize()
      modifies this
      ensures trace == old(trace) + SetupCalls() + Transfers(Commands(InitCommands))
    {
      SetUpPin(RS);
      SetUpPin(E);
      SetUpPin(D4);
      SetUpPin(D5);
      SetUpPin(D6);
      SetUpPin(D7);
      ghost var setup := trace;
      SetupSplit(old(trace));
      WriteByte(0x33, true);
      ghost var sent1 := trace;
      WriteByte(0x32, true);
      ghost var sent2 := trace;
      EntryMode(true, false);
      ghost var sent3 := trace;
      DisplayOnOffControl(true, false, false);
      ghost var sent4 := trace;
      FunctionSet(false, true, false);
      ghost var sent5 := trace;
      ClearDisplay();
      InitCommandsSent(setup, sent1, sent2, sent3, sent4, sent5, trace);
    }
  }
}
