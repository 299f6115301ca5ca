/**
  The walking pad's vendor wire protocol, shared by both pad drivers
  (internal/walkingpads/kingsmith.go and the older walkingpad.go carry the same
  codec byte for byte).

  Command frames are six bytes: 247, 162, opcode, argument, checksum, 253.
  The checksum is the 8-bit wrap-around sum of the bytes between the first
  byte and the checksum byte. Status notifications start with 248, 162 and
  carry a payload of at least twelve bytes holding three 24-bit big-endian
  counters.
 */
module Protocol {

  type Byte = x: int | 0 <= x < 256

  const CommandHeader: Byte := 247
  const ProtocolByte: Byte := 162
  const CommandTrailer: Byte := 253
  const StatusHeader: Byte := 248
  /** The value the frame builders put where the checksum goes before it is fixed. */
  const CrcPlaceholder: Byte := 0xFF

  const OpAskStats: Byte := 0
  const OpChangeSpeed: Byte := 1
  const OpChangeMode: Byte := 2
  const OpStartBelt: Byte := 4

  const ModeAuto: Byte := 0
  const ModeManual: Byte := 1
  const ModeStandby: Byte := 2

  /** The highest speed the driver accepts, 6 km/h, in tenths of km/h. */
  const MaxSpeedTenths := 60

  // ---------------------------------------------------------------------------
  // Checksum

  /** The mathematical sum of a run of bytes. */
  function Sum(s: seq<Byte>): nat
  {
    if s == [] then 0 else Sum(s[..|s| - 1]) + s[|s| - 1]
  }

  /** The sum as the driver accumulates it: a byte that wraps after every addition. */
  function WrapSum(s: seq<Byte>): Byte
  {
    if s == [] then 0 else (WrapSum(s[..|s| - 1]) + s[|s| - 1]) % 256
  }

  /** Accumulating in a wrapping byte gives the plain sum modulo 256. */
  lemma {:induction false} WrapSumIsSumMod256(s: seq<Byte>)
    ensures WrapSum(s) == Sum(s) % 256
  {
    if s != [] {
      var init := s[..|s| - 1];
      WrapSumIsSumMod256(init);
      var a, b := Sum(init), s[|s| - 1];
      calc {
        WrapSum(s);
        (a % 256 + b) % 256;
        { ModAddLeft(a, b); }
        (a + b) % 256;
        Sum(s) % 256;
      }
    }
  }

  lemma ModAddLeft(a: nat, b: nat)
    ensures (a % 256 + b) % 256 == (a + b) % 256
  {
    var q := a / 256;
    assert a == q * 256 + a % 256;
    assert a + b == q * 256 + (a % 256 + b);
  }

  /** The bytes the checksum covers: index 1 up to, not including, the checksum byte. */
  function CrcRange(s: seq<Byte>): seq<Byte>
    requires |s| >= 2
  {
    if |s| >= 3 then s[1..|s| - 2] else []
  }

  /**
    The frame after the checksum has been fixed: the byte before the last one
    holds the wrap-around sum of the covered bytes. Frames shorter than two
    bytes (the nil buffer of a wait entry among them) are left alone.
   */
  function WithCrc(s: seq<Byte>): (r: seq<Byte>)
    ensures |r| == |s|
    ensures forall i :: 0 <= i < |s| && i != |s| - 2 ==> r[i] == s[i]
    ensures |s| >= 2 ==> r[|s| - 2] == Sum(CrcRange(s)) % 256
    ensures |s| < 2 ==> r == s
  {
    if |s| < 2 then s
    else
      WrapSumIsSumMod256(CrcRange(s));
      s[|s| - 2 := WrapSum(CrcRange(s))]
  }

  /** Fixing the checksum twice is fixing it once: the checksum byte lies outside the range it sums. */
  lemma WithCrcIdempotent(s: seq<Byte>)
    ensures WithCrc(WithCrc(s)) == WithCrc(s)
  {
    if |s| >= 2 {
      var r := WithCrc(s);
      assert CrcRange(r) == CrcRange(s) by {
        if |s| >= 3 {
          assert forall i :: 1 <= i < |s| - 2 ==> r[i] == s[i];
        }
      }
    }
  }

  /** A checksummed frame is one that fixing the checksum leaves unchanged. */
  predicate Checksummed(s: seq<Byte>)
  {
    WithCrc(s) == s
  }

  /**
    The driver's checksum fix, in place on the frame's bytes: sum bytes 1 up
    to the checksum position into a wrapping byte and store the result there.
   */
  method FixCrc(cmd: array<Byte>)
    modifies cmd
    ensures cmd[..] == WithCrc(old(cmd[..]))
  {
    if cmd.Length < 2 {
      return;
    }
    var sum: Byte := 0;
    var i := 1;
    while i < cmd.Length - 2
      invariant 1 <= i <= (if cmd.Length >= 3 then cmd.Length - 2 else 1)
      invariant sum == WrapSum(cmd[1..i])
      invariant cmd[..] == old(cmd[..])
    {
      assert cmd[1..i + 1][..i - 1] == cmd[1..i];
      sum := (sum + cmd[i]) % 256;
      i := i + 1;
    }
    assert cmd[1..i] == CrcRange(cmd[..]);
    cmd[cmd.Length - 2] := sum;
  }

  // ---------------------------------------------------------------------------
  // Command frames

  /** A frame as a builder lays it out, before its checksum is fixed. */
  function CommandFrame(opcode: Byte, arg: Byte): seq<Byte>
  {
    [CommandHeader, ProtocolByte, opcode, arg, CrcPlaceholder, CommandTrailer]
  }

  function ChangeModeFrame(mode: Byte): seq<Byte>
  {
    CommandFrame(OpChangeMode, mode)
  }

  function StartBeltFrame(): seq<Byte>
  {
    CommandFrame(OpStartBelt, 1)
  }

  function ChangeSpeedFrame(tenths: Byte): seq<Byte>
  {
    CommandFrame(OpChangeSpeed, tenths)
  }

  /** The stats request is written out with its checksum already in place. */
  function AskStatsFrame(): seq<Byte>
  {
    [CommandHeader, ProtocolByte, OpAskStats, 0, 162, CommandTrailer]
  }

  /** A well-formed command frame: six bytes, the fixed header and trailer, and a correct checksum. */
  predicate WellFormedCommand(f: seq<Byte>)
  {
    |f| == 6 && f[0] == CommandHeader && f[1] == ProtocolByte && f[5] == CommandTrailer
    && f[4] == (f[1] as int + f[2] + f[3]) % 256
  }

  /** Fixing a built frame's checksum yields exactly 247, 162, opcode, argument, (162 + opcode + argument) mod 256, 253. */
  lemma CommandFrameBytes(opcode: Byte, arg: Byte)
    ensures WithCrc(CommandFrame(opcode, arg)) == [247, 162, opcode, arg, (162 + opcode + arg) % 256, 253]
    ensures WellFormedCommand(WithCrc(CommandFrame(opcode, arg)))
    ensures Checksummed(WithCrc(CommandFrame(opcode, arg)))
  {
    var f := CommandFrame(opcode, arg);
    assert CrcRange(f) == [162, opcode, arg];
    assert [162, opcode, arg][..2] == [162, opcode];
    assert [162, opcode][..1] == [162];
    assert WrapSum([162]) == 162;
    assert WrapSum([162, opcode]) == (162 + opcode) % 256;
    ModAddLeft(162 + opcode, arg);
    assert WrapSum([162, opcode, arg]) == (162 + opcode + arg) % 256;
    WithCrcIdempotent(f);
  }

  /** A speed frame carries the speed in tenths as its argument and 163 + tenths as its checksum. */
  lemma ChangeSpeedFrameBytes(tenths: Byte)
    requires tenths <= MaxSpeedTenths
    ensures WithCrc(ChangeSpeedFrame(tenths)) == [247, 162, 1, tenths, 163 + tenths, 253]
  {
    CommandFrameBytes(OpChangeSpeed, tenths);
  }

  /** The stats request's hard-coded checksum is already correct, so fixing it changes nothing. */
  lemma AskStatsFrameChecksummed()
    ensures Checksummed(AskStatsFrame())
    ensures WellFormedCommand(AskStatsFrame())
  {
    var f := AskStatsFrame();
    assert CrcRange(f) == [162, 0, 0];
    assert [162, 0, 0][..2] == [162, 0];
    assert [162, 0][..1] == [162];
    assert WrapSum([162]) == 162;
    assert WrapSum([162, 0]) == 162;
    assert WrapSum([162, 0, 0]) == 162;
  }

  /** Every frame the drivers build is well formed once its checksum is fixed, with opcodes 2, 4, 1 and 0. */
  lemma BuiltFramesWellFormed(mode: Byte, tenths: Byte)
    ensures WellFormedCommand(WithCrc(ChangeModeFrame(mode))) && WithCrc(ChangeModeFrame(mode))[2] == 2
    ensures WellFormedCommand(WithCrc(StartBeltFrame())) && WithCrc(StartBeltFrame())[2] == 4
    ensures WellFormedCommand(WithCrc(ChangeSpeedFrame(tenths))) && WithCrc(ChangeSpeedFrame(tenths))[2] == 1
    ensures WellFormedCommand(WithCrc(AskStatsFrame())) && WithCrc(AskStatsFrame())[2] == 0
  {
    CommandFrameBytes(OpChangeMode, mode);
    CommandFrameBytes(OpStartBelt, 1);
    CommandFrameBytes(OpChangeSpeed, tenths);
    AskStatsFrameChecksummed();
  }

  // ---------------------------------------------------------------------------
  // Status notifications

  /**
    A decoded status notification. Speed is in tenths of km/h, time in
    seconds, distance in hundredths of a km, steps a count.
   */
  datatype StatusReading = StatusReading(speed: Byte, mode: Byte, time: nat, distance: nat, steps: nat)

  const ZeroStatus := StatusReading(0, 0, 0, 0, 0)

  const Limit24 := 0x100_0000

  /** A 24-bit big-endian counter. */
  function Be24(hi: Byte, mid: Byte, lo: Byte): (r: nat)
    ensures r < Limit24
  {
    hi * 0x1_0000 + mid * 0x100 + lo
  }

  /** The three bytes of a 24-bit counter, most significant first. */
  function Be24Bytes(n: nat): (r: seq<Byte>)
    requires n < Limit24
    ensures |r| == 3
  {
    [n / 0x1_0000, n / 0x100 % 0x100, n % 0x100]
  }

  lemma Be24RoundTrip(n: nat)
    requires n < Limit24
    ensures Be24(Be24Bytes(n)[0], Be24Bytes(n)[1], Be24Bytes(n)[2]) == n
  {
    var q := n / 0x100;
    assert n == q * 0x100 + n % 0x100;
    assert q == (q / 0x100) * 0x100 + q % 0x100;
    assert q / 0x100 == n / 0x1_0000;
  }

  lemma Be24Unique(hi: Byte, mid: Byte, lo: Byte)
    ensures Be24Bytes(Be24(hi, mid, lo)) == [hi, mid, lo]
  {
    var n := Be24(hi, mid, lo);
    var q := hi * 0x100 + mid;
    assert n == q * 0x100 + lo;
    Div256Unique(n, q, lo);
    Div256Unique(q, hi, mid);
    Div65536Unique(n, hi, mid * 0x100 + lo);
  }

  lemma Div256Unique(n: nat, q: nat, r: nat)
    requires r < 0x100 && n == q * 0x100 + r
    ensures n / 0x100 == q && n % 0x100 == r
  {
  }

  lemma Div65536Unique(n: nat, q: nat, r: nat)
    requires r < 0x1_0000 && n == q * 0x1_0000 + r
    ensures n / 0x1_0000 == q && n % 0x1_0000 == r
  {
  }

  /**
    Decodes a status payload (the bytes after the 248, 162 signature). Byte 0
    is never read; speed is byte 1, mode byte 2, then time (seconds), distance
    (hundredths of a km) and steps as 24-bit big-endian counters at 3-5, 6-8
    and 9-11. The driver indexes without checking the length, so a shorter
    payload is a caller error.
   */
  function DecodeStatus(p: seq<Byte>): (r: StatusReading)
    requires |p| >= 12
    ensures r.time < Limit24 && r.distance < Limit24 && r.steps < Limit24
  {
    StatusReading(p[1], p[2], Be24(p[3], p[4], p[5]), Be24(p[6], p[7], p[8]), Be24(p[9], p[10], p[11]))
  }

  /** A reading that fits the payload's 24-bit counters. */
  predicate Encodable(r: StatusReading)
  {
    r.time < Limit24 && r.distance < Limit24 && r.steps < Limit24
  }

  /** The twelve-byte payload a pad sends for a reading, with the unused first byte set to 0. */
  function EncodeStatus(r: StatusReading): (p: seq<Byte>)
    requires Encodable(r)
    ensures |p| == 12
  {
    [0, r.speed, r.mode] + Be24Bytes(r.time) + Be24Bytes(r.distance) + Be24Bytes(r.steps)
  }

  /** Decoding inverts encoding for every reading that fits the counters. */
  lemma DecodeEncode(r: StatusReading)
    requires Encodable(r)
    ensures DecodeStatus(EncodeStatus(r)) == r
  {
    Be24RoundTrip(r.time);
    Be24RoundTrip(r.distance);
    Be24RoundTrip(r.steps);
  }

  /** Encoding a decoded payload gives back its bytes 1 to 11; byte 0 and anything past byte 11 are not read. */
  lemma EncodeDecode(p: seq<Byte>)
    requires |p| >= 12
    ensures EncodeStatus(DecodeStatus(p)) == [0] + p[1..12]
  {
    Be24Unique(p[3], p[4], p[5]);
    Be24Unique(p[6], p[7], p[8]);
    Be24Unique(p[9], p[10], p[11]);
  }

  /** Two payloads decode alike exactly when they agree on bytes 1 to 11. */
  lemma DecodeDependsOnBytes1To11(p: seq<Byte>, q: seq<Byte>)
    requires |p| >= 12 && |q| >= 12
    ensures DecodeStatus(p) == DecodeStatus(q) <==> p[1..12] == q[1..12]
  {
    if DecodeStatus(p) == DecodeStatus(q) {
      EncodeDecode(p);
      EncodeDecode(q);
      assert ([0] + p[1..12])[1..] == p[1..12];
      assert ([0] + q[1..12])[1..] == q[1..12];
    } else if p[1..12] == q[1..12] {
      assert forall i :: 1 <= i < 12 ==> p[i] == p[1..12][i - 1] == q[i];
    }
  }

  /** A notification the drivers decode: at least two bytes, starting 248, 162. */
  predicate IsStatusFrame(buf: seq<Byte>)
  {
    |buf| >= 2 && buf[0] == StatusHeader && buf[1] == ProtocolByte
  }
}
