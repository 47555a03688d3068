/**
 Balance settings: a value in human units becomes a 32-bit register in a 20-byte write frame, the
 unit later reports the register in its settings record, and the readback compares the two.

 Values are exact reals; the rounding of the original's floating point is not modelled.
 */
module BalanceSettings {
  import opened Prelude
  import opened JkFrame

  datatype Key = TriggerVoltage | Current | Enabled | StartVoltage | CellCount

  const CMD_LEN: nat := 20
  const CMD_MAGIC: seq<Byte> := [0xAA, 0x55, 0x90, 0xEB]

  /** Register number, register units per human unit, and place in the settings record. */
  function Register(k: Key): Byte {
    match k
    case TriggerVoltage => 0x06
    case Current => 0x13
    case Enabled => 0x1F
    case StartVoltage => 0x22
    case CellCount => 0x1C
  }

  function Scale(k: Key): real {
    if k.Enabled? || k.CellCount? then 1.0 else 1000.0
  }

  function Offset(k: Key): nat {
    match k
    case TriggerVoltage => 26
    case Current => 78
    case Enabled => 126
    case StartVoltage => 138
    case CellCount => 114
  }

  function Lowest(k: Key): real {
    match k
    case TriggerVoltage => 0.003
    case Current => 0.10
    case Enabled => 0.0
    case StartVoltage => 2.90
    case CellCount => 15.0
  }

  function Highest(k: Key): real {
    match k
    case TriggerVoltage => 0.100
    case Current => 2.00
    case Enabled => 1.0
    case StartVoltage => 3.50
    case CellCount => 16.0
  }

  /** The value checks of `balance_command_validate` and the range check of `handle_balance_set`. */
  predicate Acceptable(k: Key, v: real) {
    && (k.Enabled? ==> v == 0.0 || v == 1.0)
    && (k.CellCount? ==> v == v.Floor as real)
    && Lowest(k) <= v <= Highest(k)
  }

  /** The value in register units. */
  function Scaled(k: Key, v: real): real { v * Scale(k) }

  /** Nearest register value, halves upwards. */
  function Nearest(x: real): int { (x + 0.5).Floor }

  lemma RegisterFits(x: real)
    requires 0.0 <= x <= 4294967295.0
    ensures 0 <= Nearest(x) < TWO_32
  {
  }

  /** The register is representable. */
  predicate Encodable(k: Key, v: real) {
    0.0 <= Scaled(k, v) <= 4294967295.0
  }

  // ---- Little-endian words --------------------------------------------------------------

  function Word(a: int, b: int, c: int, d: int): int {
    a + 256 * b + 65536 * c + 16777216 * d
  }

  /** `rd_u32`. */
  function ReadWord(f: seq<Byte>, at: nat): (n: nat)
    requires at + 4 <= |f|
    ensures n < TWO_32
  {
    Word(f[at], f[at + 1], f[at + 2], f[at + 3])
  }

  /** The four shifts of the builder. */
  function WordBytes(n: nat): (bs: seq<Byte>)
    ensures |bs| == 4
  {
    [n % 256, n / 256 % 256, n / 65536 % 256, n / 16777216 % 256]
  }

  /** Written and read back, a 32-bit word is itself. */
  lemma WordRoundTrip(n: nat)
    requires n < TWO_32
    ensures ReadWord(WordBytes(n), 0) == n
  {
    var q1 := n / 256;
    var q2 := q1 / 256;
    var q3 := q2 / 256;
    assert n / 65536 == q2;
    assert n / 16777216 == q3;
    assert n == 256 * q1 + n % 256;
    assert q1 == 256 * q2 + q1 % 256;
    assert q2 == 256 * q3 + q2 % 256;
  }

  // ---- The write frame ------------------------------------------------------------------

  /** What a unit reads out of a register write. */
  datatype Write = Write(register: Byte, value: nat)

  /** A unit accepts a command frame and takes register and value from it. */
  function Understand(f: seq<Byte>): Option<Write> {
    if |f| == CMD_LEN && f[..4] == CMD_MAGIC && f[5] == 4 && ChecksumOk(f)
    then Some(Write(f[4], ReadWord(f, 6))) else None
  }

  /** The bytes before the sum. */
  function Body(k: Key, word: seq<Byte>): (b: seq<Byte>)
    requires |word| == 4
    ensures |b| == CMD_LEN - 1
  {
    CMD_MAGIC + [Register(k), 4] + word + [0, 0, 0, 0, 0, 0, 0, 0, 0]
  }

  function Summed(body: seq<Byte>): seq<Byte> { body + [Sum(body) % 256] }

  function WriteFrame(k: Key, n: nat): seq<Byte> { Summed(Body(k, WordBytes(n))) }

  /** The unit reads the register and the value that were meant. */
  lemma WriteUnderstood(k: Key, n: nat)
    requires n < TWO_32
    ensures Understand(WriteFrame(k, n)) == Some(Write(Register(k), n))
  {
    var f := WriteFrame(k, n);
    var w := WordBytes(n);
    assert f[..CMD_LEN - 1] == Body(k, w);
    assert f[..4] == CMD_MAGIC;
    assert f[6] == w[0] && f[7] == w[1] && f[8] == w[2] && f[9] == w[3];
    WordRoundTrip(n);
  }

  /**
   The frame byte by byte: AA 55 90 EB, the register of the key, a four, the value with its lowest byte
   first, nine zeros, and the sum.
   */
  lemma WriteBytes(k: Key, n: nat)
    requires n < TWO_32
    ensures var f := WriteFrame(k, n);
            && |f| == 20 && f[0] == 0xAA && f[1] == 0x55 && f[2] == 0x90 && f[3] == 0xEB && f[5] == 4
            && f[4] == (match k case TriggerVoltage => 0x06 case Current => 0x13 case Enabled => 0x1F
                                case StartVoltage => 0x22 case CellCount => 0x1C)
            && f[6] + 256 * (f[7] as int) + 65536 * (f[8] as int) + 16777216 * (f[9] as int) == n
            && (forall i :: 10 <= i < 19 ==> f[i] == 0)
            && f[19] == Sum(f[..19]) % 256
  {
    var f := WriteFrame(k, n);
    var w := WordBytes(n);
    assert f[6] == w[0] && f[7] == w[1] && f[8] == w[2] && f[9] == w[3];
    WordRoundTrip(n);
    assert f[..19] == Body(k, w);
  }

  /** `jk_build_balance_write`; refuses a short buffer and anything a 32-bit register cannot hold. */
  method BuildWrite(k: Key, v: real, out: array<Byte>) returns (ok: bool)
    modifies out
    ensures ok <==> out.Length >= CMD_LEN && Encodable(k, v)
    ensures ok ==> 0 <= Nearest(Scaled(k, v)) < TWO_32
    ensures ok ==> out[..CMD_LEN] == WriteFrame(k, Nearest(Scaled(k, v)))
    ensures !ok ==> out[..] == old(out[..])
  {
    if out.Length < CMD_LEN {
      return false;
    }
    var scaled := Scaled(k, v);
    if scaled < 0.0 || scaled > 4294967295.0 {
      return false;
    }
    RegisterFits(scaled);
    Assemble(k, WordBytes(Nearest(scaled)), out);
    ok := true;
  }

  /** The frame of a register word. */
  method Assemble(k: Key, word: seq<Byte>, out: array<Byte>)
    requires out.Length >= CMD_LEN && |word| == 4
    modifies out
    ensures out[..CMD_LEN] == Summed(Body(k, word))
  {
    Fill(k, word, out);
    var sum := SumOf(out, CMD_LEN - 1);
    out[CMD_LEN - 1] := sum;
    assert out[..CMD_LEN] == out[..CMD_LEN - 1] + [sum];
  }

  /** `memcpy` of `bytes` to `out + at`. */
  method CopyTo(bytes: seq<Byte>, out: array<Byte>, at: nat)
    requires at + |bytes| <= out.Length
    modifies out
    ensures forall j :: 0 <= j < out.Length ==>
              out[j] == if at <= j < at + |bytes| then bytes[j - at] else old(out[j])
  {
    for i := 0 to |bytes|
      invariant forall j :: 0 <= j < out.Length ==>
                  out[j] == if at <= j < at + i then bytes[j - at] else old(out[j])
    {
      out[at + i] := bytes[i];
    }
  }

  /** Everything but the sum. */
  method Fill(k: Key, word: seq<Byte>, out: array<Byte>)
    requires out.Length >= CMD_LEN && |word| == 4
    modifies out
    ensures out[..CMD_LEN - 1] == Body(k, word)
  {
    var head := CMD_MAGIC + [Register(k), 4];
    CopyTo(seq(CMD_LEN, _ => 0), out, 0);
    assert forall j :: 0 <= j < CMD_LEN ==> out[j] == 0;
    CopyTo(head, out, 0);
    assert forall j :: 0 <= j < 6 ==> out[j] == head[j];
    assert forall j :: 6 <= j < CMD_LEN ==> out[j] == 0;
    CopyTo(word, out, 6);
    assert forall j :: 0 <= j < 6 ==> out[j] == head[j];
    assert forall j :: 6 <= j < 10 ==> out[j] == word[j - 6];
    assert forall j :: 10 <= j < CMD_LEN ==> out[j] == 0;
    Pieces(out[..CMD_LEN - 1], head, word);
  }

  lemma Pieces(s: seq<Byte>, head: seq<Byte>, word: seq<Byte>)
    requires |s| == CMD_LEN - 1 && |head| == 6 && |word| == 4
    requires forall j :: 0 <= j < 6 ==> s[j] == head[j]
    requires forall j :: 6 <= j < 10 ==> s[j] == word[j - 6]
    requires forall j :: 10 <= j < CMD_LEN - 1 ==> s[j] == 0
    ensures s == head + word + [0, 0, 0, 0, 0, 0, 0, 0, 0]
  {
  }

  /** An acceptable value is never refused, and its register stays inside the configured envelope. */
  lemma Envelope(k: Key, v: real)
    requires Acceptable(k, v)
    ensures Encodable(k, v)
    ensures match k
            case TriggerVoltage => 3 <= Nearest(Scaled(k, v)) <= 100
            case Current => 100 <= Nearest(Scaled(k, v)) <= 2000
            case Enabled => Nearest(Scaled(k, v)) == (if v == 1.0 then 1 else 0)
            case StartVoltage => 2900 <= Nearest(Scaled(k, v)) <= 3500
            case CellCount => 15 <= Nearest(Scaled(k, v)) <= 16 && Nearest(Scaled(k, v)) as real == v
  {
  }

  // ---- The settings record and the comparison --------------------------------------------

  /** The decoded fields a readback can look at. */
  datatype Fields = Fields(triggerV: real, currentA: real, enabled: bool, startV: real, cells: nat)

  /** `jk_decode_settings`. */
  function DecodeSettings(f: seq<Byte>): (s: Option<Fields>)
    ensures s.Some? <==> |f| >= RECORD_LEN && RecordOf(f) == Settings
  {
    if |f| < RECORD_LEN || RecordOf(f) != Settings then None
    else Some(Fields(
                ReadWord(f, 26) as real / 1000.0,
                ReadWord(f, 78) as real / 1000.0,
                ReadWord(f, 126) != 0,
                ReadWord(f, 138) as real / 1000.0,
                ReadWord(f, 114)))
  }

  /** The value the comparison takes for a key, and its tolerance. */
  function Reported(k: Key, s: Fields): real {
    match k
    case TriggerVoltage => s.triggerV
    case Current => s.currentA
    case Enabled => if s.enabled then 1.0 else 0.0
    case StartVoltage => s.startV
    case CellCount => s.cells as real
  }

  function Tolerance(k: Key): real { if k.Enabled? then 0.5 else 0.0005 }

  function Distance(a: real, b: real): real { if a < b then b - a else a - b }

  /** The test in `rb_on_settings`. */
  predicate Passes(k: Key, target: real, got: real) {
    Distance(got, target) <= Tolerance(k)
  }

  /** What register value `j` of a key reads as. */
  function ReadsAs(k: Key, j: nat): real {
    match k
    case Enabled => if j != 0 then 1.0 else 0.0
    case CellCount => j as real
    case _ => j as real / 1000.0
  }

  /** The comparison looks at the field of its own key. */
  lemma ReportedField(k: Key, f: seq<Byte>)
    requires |f| >= RECORD_LEN && RecordOf(f) == Settings
    ensures Reported(k, DecodeSettings(f).value) == ReadsAs(k, ReadWord(f, Offset(k)))
  {
  }

  /** Half a register unit exactly between two registers. */
  predicate Tie(k: Key, v: real) {
    Scaled(k, v) == Nearest(Scaled(k, v)) as real - 0.5
  }

  /** Rounding: within half a unit, the nearest is the only one, save the one below at a tie. */
  lemma NearestOnly(x: real, j: int)
    ensures Distance(j as real, x) <= 0.5
            <==> j == Nearest(x) || (j == Nearest(x) - 1 && x == Nearest(x) as real - 0.5)
  {
    var n := (x + 0.5).Floor;
    assert n as real <= x + 0.5 < n as real + 1.0;
    if j < n - 1 {
      assert j as real <= n as real - 2.0;
    } else if j > n {
      assert j as real >= n as real + 1.0;
    }
  }

  /** A thousandth is a register unit for the scaled keys. */
  lemma InUnits(j: nat, v: real)
    ensures Distance(j as real / 1000.0, v) <= 0.0005 <==> Distance(j as real, v * 1000.0) <= 0.5
  {
  }

  /**
   For every acceptable value and every register value, the readback passes if and only if the
   register is the one that was written, or, exactly at a half-unit tie of a scaled key, the one
   below it.
   */
  lemma ReadbackExact(k: Key, v: real, j: nat)
    requires Acceptable(k, v) && !k.Enabled?
    ensures Passes(k, v, ReadsAs(k, j))
            <==> j == Nearest(Scaled(k, v)) || (j == Nearest(Scaled(k, v)) - 1 && Tie(k, v))
  {
    Envelope(k, v);
    if k.CellCount? {
      var n := Nearest(Scaled(k, v));
      assert v == n as real;
      assert Distance(j as real, n as real) <= 0.0005 <==> j == n;
    } else {
      InUnits(j, v);
      NearestOnly(v * 1000.0, j);
    }
  }

  /** For the switch, exactly the registers with the same setting pass. */
  lemma ReadbackSwitch(v: real, j: nat)
    requires Acceptable(Enabled, v)
    ensures Passes(Enabled, v, ReadsAs(Enabled, j)) <==> ((j != 0) <==> v == 1.0)
  {
  }

  /** So whatever a unit stores from the written frame and reports, the readback passes. */
  lemma WrittenThenReported(k: Key, v: real, f: seq<Byte>)
    requires Acceptable(k, v)
    requires |f| >= RECORD_LEN && RecordOf(f) == Settings
    ensures 0 <= Nearest(Scaled(k, v)) < TWO_32
    ensures Understand(WriteFrame(k, Nearest(Scaled(k, v)))) == Some(Write(Register(k), ReadWord(f, Offset(k))))
            ==> Passes(k, v, Reported(k, DecodeSettings(f).value))
  {
    Envelope(k, v);
    RegisterFits(Scaled(k, v));
    var n, j := Nearest(Scaled(k, v)), ReadWord(f, Offset(k));
    WriteUnderstood(k, n);
    ReportedField(k, f);
    if n == j {
      if k.Enabled? {
        ReadbackSwitch(v, j);
      } else {
        ReadbackExact(k, v, j);
      }
    }
  }
}
