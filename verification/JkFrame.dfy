/** The JK02 record format: four magic bytes, a record type, and a trailing 8-bit sum. */
module JkFrame {
  import opened Prelude

  const MAGIC: seq<Byte> := [0x55, 0xAA, 0xEB, 0x90]
  const RECORD_LEN: nat := 300
  /** Size of the reassembly and notification buffers. */
  const FRAME_MAX: nat := 320

  /** Record type carried in byte 4; every other value decodes to `NoRecord`. */
  datatype Record = Settings | CellInfo | DeviceInfo | NoRecord

  /** Unreduced sum of the bytes. */
  function Sum(s: seq<Byte>): nat {
    if |s| == 0 then 0 else Sum(s[..|s| - 1]) + s[|s| - 1]
  }

  /** The last byte is the 8-bit sum of all bytes before it; anything under five bytes is refused. */
  predicate ChecksumOk(frame: seq<Byte>) {
    |frame| >= 5 && Sum(frame[..|frame| - 1]) % 256 == frame[|frame| - 1]
  }

  predicate StartsWithMagic(frame: seq<Byte>) {
    |frame| >= 4 && frame[..4] == MAGIC
  }

  function RecordOf(frame: seq<Byte>): Record {
    if !StartsWithMagic(frame) || |frame| <= 4 then NoRecord
    else if frame[4] == 3 then DeviceInfo
    else if frame[4] == 2 then CellInfo
    else if frame[4] == 1 then Settings
    else NoRecord
  }

  /** A complete frame as the reassembler understands it: any type byte is accepted. */
  predicate ValidFrame(w: seq<Byte>) {
    |w| == RECORD_LEN && StartsWithMagic(w) && ChecksumOk(w)
  }

  /** A complete frame of one of the three known record types. */
  predicate ValidRecord(w: seq<Byte>) {
    ValidFrame(w) && 1 <= w[4] <= 3
  }

  /** One more byte in the running 8-bit sum. */
  lemma SumStep(s: seq<Byte>, i: nat)
    requires i < |s|
    ensures Sum(s[..i + 1]) % 256 == (Sum(s[..i]) % 256 + s[i]) % 256
  {
    assert s[..i + 1][..i] == s[..i];
    assert Sum(s[..i + 1]) == Sum(s[..i]) + s[i];
  }

  /** `jk_checksum_ok`: the running sum is kept in eight bits and compared once at the end. */
  method CheckFrame(frame: array<Byte>, len: nat) returns (ok: bool)
    requires len <= frame.Length
    ensures ok == ChecksumOk(frame[..len])
  {
    if len < 5 {
      return false;
    }
    var sum: Byte := 0;
    for i := 0 to len - 1
      invariant sum == Sum(frame[..i]) % 256
    {
      SumStep(frame[..], i);
      assert frame[..][..i + 1] == frame[..i + 1] && frame[..][..i] == frame[..i];
      sum := (sum + frame[i]) % 256;
    }
    assert frame[..len][..len - 1] == frame[..len - 1];
    ok := sum == frame[len - 1];
  }

  /** The builders' running 8-bit sum. */
  method SumOf(frame: array<Byte>, len: nat) returns (sum: Byte)
    requires len <= frame.Length
    ensures sum == Sum(frame[..len]) % 256
  {
    sum := 0;
    for i := 0 to len
      invariant sum == Sum(frame[..i]) % 256
    {
      SumStep(frame[..], i);
      assert frame[..][..i + 1] == frame[..i + 1] && frame[..][..i] == frame[..i];
      sum := (sum + frame[i]) % 256;
    }
  }
}
