/**
 Node B's startup search: find the first complete, checksum-valid record of a known type in a
 byte stream that arrives in arbitrary chunks.

 The specification speaks about positions in the whole byte history. The class keeps only the
 fixed 300-byte buffer of the original and is shown to report the earliest record end, for every
 chunking.
 */
module StreamStart {
  import opened Prelude
  import opened JkFrame

  /** The bytes from `j` on agree with a record header as far as they go. */
  predicate HeaderAt(h: seq<Byte>, j: nat) {
    && (j < |h| ==> h[j] == 0x55)
    && (j + 1 < |h| ==> h[j + 1] == 0xAA)
    && (j + 2 < |h| ==> h[j + 2] == 0xEB)
    && (j + 3 < |h| ==> h[j + 3] == 0x90)
    && (j + 4 < |h| ==> 1 <= h[j + 4] <= 3)
  }

  /** A valid record of a known type occupies the 300 bytes before position `e`. */
  predicate RecordEndsAt(h: seq<Byte>, e: nat) {
    RECORD_LEN <= e <= |h| && ValidRecord(h[e - RECORD_LEN..e])
  }

  ghost predicate NoRecordYet(h: seq<Byte>) {
    forall e: nat :: !RecordEndsAt(h, e)
  }

  /** Position `e` is the end of the earliest valid record of the history. */
  ghost predicate FirstRecordEnd(h: seq<Byte>, e: nat) {
    RecordEndsAt(h, e) && forall k: nat :: k < e ==> !RecordEndsAt(h, k)
  }

  /** Position `j` may still turn out to be the start of a record that is not complete yet. */
  predicate Candidate(h: seq<Byte>, j: nat) {
    j <= |h| < j + RECORD_LEN && HeaderAt(h, j)
  }

  /** The last `n` bytes are the longest suffix that can still become a record. */
  ghost predicate LongestCandidate(h: seq<Byte>, n: nat) {
    n <= |h| && Candidate(h, |h| - n) && NoCandidateBefore(h, |h| - n)
  }

  ghost predicate NoCandidateBefore(h: seq<Byte>, i: nat) {
    forall j: nat :: j < i ==> !Candidate(h, j)
  }

  /** A record carries a viable header. */
  lemma RecordHasHeader(w: seq<Byte>)
    requires ValidRecord(w)
    ensures HeaderAt(w, 0)
  {
    assert forall i :: 0 <= i < 4 ==> w[i] == w[..4][i];
  }

  /** A full-length stretch with a viable header is a record exactly when its checksum holds. */
  lemma FullBufferIsRecord(h: seq<Byte>, e: nat)
    requires RECORD_LEN <= e <= |h| && HeaderAt(h, e - RECORD_LEN)
    ensures RecordEndsAt(h, e) == ChecksumOk(h[e - RECORD_LEN..e])
  {
    assert h[e - RECORD_LEN..e][..4] == MAGIC;
  }

  /** Appending never changes a record that has already ended. */
  lemma RecordStable(h: seq<Byte>, more: seq<Byte>, e: nat)
    requires e <= |h|
    ensures RecordEndsAt(h + more, e) == RecordEndsAt(h, e)
  {
    if RECORD_LEN <= e {
      assert (h + more)[e - RECORD_LEN..e] == h[e - RECORD_LEN..e];
    }
  }

  /** No byte can make a position viable again. */
  lemma NoCandidateExtend(h: seq<Byte>, b: Byte, i: nat)
    requires i <= |h| && NoCandidateBefore(h, i)
    ensures NoCandidateBefore(h + [b], i)
  {
    forall j: nat | j < i ensures !Candidate(h + [b], j) {
      assert !Candidate(h, j);
    }
  }

  /** A record that ends with the next byte starts at a candidate, so it starts in the buffer. */
  lemma RecordStartsInBuffer(h: seq<Byte>, b: Byte, i: nat)
    requires i <= |h| && NoCandidateBefore(h, i)
    requires RecordEndsAt(h + [b], |h| + 1)
    ensures i + RECORD_LEN <= |h| + 1
  {
    var s := |h| + 1 - RECORD_LEN;
    var w := (h + [b])[s..|h| + 1];
    RecordHasHeader(w);
    assert forall k :: 0 <= k < RECORD_LEN - 1 ==> w[k] == h[s + k];
    assert Candidate(h, s);
  }

  /** Extending a record-free history by a byte that ends no record keeps it record-free. */
  lemma NoRecordExtend(h: seq<Byte>, b: Byte)
    requires NoRecordYet(h) && !RecordEndsAt(h + [b], |h| + 1)
    ensures NoRecordYet(h + [b])
  {
    forall e: nat ensures !RecordEndsAt(h + [b], e) {
      if e <= |h| {
        RecordStable(h, [b], e);
      }
    }
  }

  /** A record that ends a previously record-free history is the earliest. */
  lemma FoundHere(h: seq<Byte>, b: Byte)
    requires NoRecordYet(h) && RecordEndsAt(h + [b], |h| + 1)
    ensures FirstRecordEnd(h + [b], |h| + 1)
  {
    forall k: nat | k < |h| + 1 ensures !RecordEndsAt(h + [b], k) {
      RecordStable(h, [b], k);
    }
  }

  /** The earliest record end is fixed once it lies inside the history. */
  lemma FirstRecordEndStable(h: seq<Byte>, more: seq<Byte>, e: nat)
    requires FirstRecordEnd(h, e)
    ensures FirstRecordEnd(h + more, e)
  {
    RecordStable(h, more, e);
    forall k: nat | k < e ensures !RecordEndsAt(h + more, k) {
      RecordStable(h, more, k);
    }
  }

  /** Mirror of `stream_start_t`, with the bytes seen since the last reset as ghost history. */
  class Search {
    const data: array<Byte>
    var len: nat
    ghost var hist: seq<Byte>

    /** The buffer holds the last `len` bytes of the history. */
    ghost predicate Buffered()
      reads this, data
    {
      && data.Length == RECORD_LEN
      && len <= RECORD_LEN
      && len <= |hist|
      && forall i :: 0 <= i < len ==> data[i] == hist[|hist| - len + i]
    }

    ghost predicate Valid()
      reads this, data
    {
      Buffered() && NoRecordYet(hist) && LongestCandidate(hist, len)
    }

    constructor ()
      ensures Valid() && hist == [] && fresh(data)
    {
      data := new Byte[RECORD_LEN](_ => 0);
      len := 0;
      hist := [];
    }

    /** The caller's `start.len = 0`. */
    method Reset()
      requires data.Length == RECORD_LEN
      modifies this
      ensures Valid() && hist == []
    {
      len := 0;
      hist := [];
    }

    /** `possible_header` on the buffer. */
    method CheckHeader() returns (ok: bool)
      requires Buffered()
      ensures ok == HeaderAt(hist, |hist| - len)
    {
      var magic := [0x55, 0xAA, 0xEB, 0x90];
      var i := 0;
      while i < len && i < 4
        invariant 0 <= i <= len && i <= 4
        invariant forall j :: 0 <= j < i ==> data[j] == magic[j]
      {
        if data[i] != magic[i] {
          return false;
        }
        i := i + 1;
      }
      assert i > 0 ==> data[0] == 0x55;
      assert i > 1 ==> data[1] == 0xAA;
      assert i > 2 ==> data[2] == 0xEB;
      assert i > 3 ==> data[3] == 0x90;
      return len < 5 || 1 <= data[4] <= 3;
    }

    /** `memmove(data, data + 1, --len)`. */
    method Slide()
      requires Buffered() && 0 < len
      modifies this`len, data
      ensures Buffered() && len == old(len) - 1
    {
      len := len - 1;
      for i := 0 to len
        invariant len == old(len) - 1
        invariant forall j :: 0 <= j < i ==> data[j] == hist[|hist| - len + j]
        invariant forall j :: i <= j <= len ==> data[j] == hist[|hist| - len - 1 + j]
      {
        data[i] := data[i + 1];
      }
    }

    /** Drop leading bytes until the buffer is viable again. */
    method SlideToCandidate()
      requires Buffered() && len < RECORD_LEN
      requires NoCandidateBefore(hist, |hist| - len)
      modifies this`len, data
      ensures Buffered() && LongestCandidate(hist, len)
    {
      var ok := CheckHeader();
      while len > 0 && !ok
        invariant Buffered() && len < RECORD_LEN
        invariant NoCandidateBefore(hist, |hist| - len)
        invariant ok == HeaderAt(hist, |hist| - len)
        decreases len
      {
        Slide();
        ok := CheckHeader();
      }
    }

    /** The buffer's own bytes, as a stretch of the history. */
    lemma FullBuffer()
      requires Buffered() && len == RECORD_LEN
      ensures data[..len] == hist[|hist| - RECORD_LEN..|hist|]
    {
    }

    /** `s->data[s->len++] = b`. */
    method Append(b: Byte)
      requires Valid()
      modifies this, data
      ensures hist == old(hist) + [b] && len == old(len) + 1
      ensures Buffered() && NoCandidateBefore(hist, |hist| - len)
      ensures len == RECORD_LEN ==> HeaderAt(hist, |hist| - len)
    {
      NoCandidateExtend(hist, b, |hist| - len);
      data[len] := b;
      len := len + 1;
      hist := hist + [b];
    }

    /**
     `stream_start_push`. True exactly when a record ends inside this chunk; then `consumed` marks
     the end of the earliest one and the buffer holds it. Otherwise the whole chunk is used and the
     buffer is the longest suffix that may still become a record.
     */
    method Push(chunk: seq<Byte>) returns (found: bool, consumed: nat)
      requires Valid()
      modifies this, data
      ensures consumed <= |chunk| && hist == old(hist) + chunk[..consumed]
      ensures found ==> FirstRecordEnd(hist, |hist|) && data.Length == RECORD_LEN
      ensures found ==> data[..] == hist[|hist| - RECORD_LEN..]
      ensures !found ==> consumed == |chunk| && Valid()
    {
      consumed := 0;
      while consumed < |chunk|
        invariant consumed <= |chunk|
        invariant hist == old(hist) + chunk[..consumed]
        invariant Valid()
      {
        found := PushByte(chunk[consumed]);
        assert chunk[..consumed + 1] == chunk[..consumed] + [chunk[consumed]];
        consumed := consumed + 1;
        if found {
          return;
        }
      }
      assert chunk[..consumed] == chunk;
      found := false;
    }

    /** The body of the push loop. */
    method PushByte(b: Byte) returns (found: bool)
      requires Valid()
      modifies this, data
      ensures hist == old(hist) + [b] && data.Length == RECORD_LEN
      ensures found ==> FirstRecordEnd(hist, |hist|)
      ensures found ==> data[..] == hist[|hist| - RECORD_LEN..]
      ensures !found ==> Valid()
    {
      ghost var h := hist;
      Append(b);
      if len == RECORD_LEN {
        FullBuffer();
        FullBufferIsRecord(hist, |hist|);
        found := CheckFrame(data, len);
        if found {
          FoundHere(h, b);
          return;
        }
        ghost var i := |hist| - len;
        assert !Candidate(hist, i);
        Slide();
        assert NoCandidateBefore(hist, i + 1);
      } else if RecordEndsAt(hist, |hist|) {
        RecordStartsInBuffer(h, b, |h| - (len - 1));
        assert false;
      }
      NoRecordExtend(h, b);
      SlideToCandidate();
      found := false;
    }
  }

  function Flatten(chunks: seq<seq<Byte>>): seq<Byte> {
    if chunks == [] then [] else chunks[0] + Flatten(chunks[1..])
  }

  /**
   The search as its caller drives it, chunk by chunk from an empty buffer: the answer depends on
   the concatenated bytes only.
   */
  method SearchChunks(chunks: seq<seq<Byte>>) returns (end: Option<nat>)
    ensures end.None? ==> NoRecordYet(Flatten(chunks))
    ensures end.Some? ==> FirstRecordEnd(Flatten(chunks), end.value)
  {
    var s := new Search();
    var total, i := 0, 0;
    while i < |chunks|
      invariant 0 <= i <= |chunks|
      invariant fresh(s) && fresh(s.data) && s.Valid()
      invariant total == |s.hist|
      invariant s.hist + Flatten(chunks[i..]) == Flatten(chunks)
    {
      var found, used := s.Push(chunks[i]);
      FlattenTail(chunks, i, used);
      total := total + used;
      if found {
        FirstRecordEndStable(s.hist, chunks[i][used..] + Flatten(chunks[i + 1..]), total);
        return Some(total);
      }
      i := i + 1;
    }
    assert s.hist + Flatten([]) == s.hist;
    return None;
  }

  /** What is left of the stream once `used` bytes of chunk `i` are consumed. */
  lemma FlattenTail(chunks: seq<seq<Byte>>, i: nat, used: nat)
    requires i < |chunks| && used <= |chunks[i]|
    ensures forall h: seq<Byte> :: h + Flatten(chunks[i..])
                    == (h + chunks[i][..used]) + (chunks[i][used..] + Flatten(chunks[i + 1..]))
    ensures used == |chunks[i]| ==>
              chunks[i][used..] + Flatten(chunks[i + 1..]) == Flatten(chunks[i + 1..])
  {
    assert chunks[i..][1..] == chunks[i + 1..];
    assert chunks[i][..used] + chunks[i][used..] == chunks[i];
  }
}
