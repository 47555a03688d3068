/**
 The tunnel between the nodes: length-prefixed frames on a byte stream, the check each node makes
 of what it receives, and the frames each node builds.

 The socket is a byte string that is handed out in pieces of arbitrary size.
 */
module Tunnel {
  import opened Prelude
  import opened JkFrame

  const MAX_PAYLOAD: nat := 512
  const HDR_LEN: nat := 4
  const MAX_WRITE_DATA: nat := 32
  const ID_LINK: Byte := 0xFF
  const DESC_LEN: nat := 5
  const MAX_CHARS: nat := 8

  const TABLE: Byte := 1
  const IDENT: Byte := 2
  const READ_CACHE: Byte := 3
  const NOTIFY: Byte := 4
  const WRITE: Byte := 5
  const WRITE_RESULT: Byte := 6
  const LINK: Byte := 7
  const CLIENT: Byte := 8
  const TABLE_REQ: Byte := 9
  const PING: Byte := 10
  const RAW: Byte := 11

  datatype Frame = Frame(kind: Byte, id: Byte, payload: seq<Byte>)

  predicate Fits(f: Frame) { |f.payload| <= MAX_PAYLOAD }

  function Low(n: nat): Byte { n % 256 }
  function High(n: nat): (b: Byte)
    requires n <= MAX_PAYLOAD
  {
    n / 256
  }

  /** Little-endian length of a header. */
  function Length(low: int, high: int): int { low + 256 * high }

  function Encode(f: Frame): (w: seq<Byte>)
    requires Fits(f)
    ensures |w| == HDR_LEN + |f.payload|
  {
    [f.kind, f.id, Low(|f.payload|), High(|f.payload|)] + f.payload
  }

  function EncodeAll(fs: seq<Frame>): seq<Byte>
    requires forall i :: 0 <= i < |fs| ==> Fits(fs[i])
  {
    if fs == [] then [] else Encode(fs[0]) + EncodeAll(fs[1..])
  }

  /** What the serve loop finds at a position of the stream: a frame, or a reason to hang up. */
  datatype Found = Got(frame: Frame, next: nat) | HangUp

  function DecodeAt(w: seq<Byte>, at: nat): (r: Found)
    requires at <= |w|
    ensures r.Got? ==> at < r.next <= |w| && Fits(r.frame) && r.next == at + HDR_LEN + |r.frame.payload|
  {
    if at + HDR_LEN > |w| then HangUp
    else
      var len := Length(w[at + 2], w[at + 3]);
      if len > MAX_PAYLOAD || at + HDR_LEN + len > |w| then HangUp
      else Got(Frame(w[at], w[at + 1], w[at + HDR_LEN..at + HDR_LEN + len]), at + HDR_LEN + len)
  }

  /** Every frame served until the connection is dropped. */
  function DecodeFrom(w: seq<Byte>, at: nat): seq<Frame>
    requires at <= |w|
    decreases |w| - at
  {
    match DecodeAt(w, at)
    case HangUp => []
    case Got(f, next) => [f] + DecodeFrom(w, next)
  }

  // ---- Round trip -----------------------------------------------------------------------

  lemma DecodeEncoded(pre: seq<Byte>, f: Frame, post: seq<Byte>)
    requires Fits(f)
    ensures DecodeAt(pre + Encode(f) + post, |pre|) == Got(f, |pre| + |Encode(f)|)
  {
    var w := pre + Encode(f) + post;
    var at := |pre|;
    assert w[at..at + |Encode(f)|] == Encode(f);
    assert forall i :: 0 <= i < |Encode(f)| ==> w[at + i] == Encode(f)[i];
    assert w[at] == f.kind && w[at + 1] == f.id;
    assert Length(w[at + 2], w[at + 3]) == |f.payload|;
    assert w[at + HDR_LEN..at + HDR_LEN + |f.payload|] == f.payload;
  }

  /** An unfinished frame is not served. */
  lemma CutFrame(pre: seq<Byte>, f: Frame, n: nat)
    requires Fits(f) && n < |Encode(f)|
    ensures DecodeFrom(pre + Encode(f)[..n], |pre|) == []
  {
    var w := pre + Encode(f)[..n];
    var at := |pre|;
    if n >= HDR_LEN {
      assert w[at + 2] == Encode(f)[2] && w[at + 3] == Encode(f)[3];
    }
  }

  /** What follows the encoded frames on the wire: nothing, or the beginning of one more frame. */
  ghost predicate Unfinished(tail: seq<Byte>) {
    tail == [] || exists f, n :: Fits(f) && 0 <= n < |Encode(f)| && tail == Encode(f)[..n]
  }

  lemma NothingMore(pre: seq<Byte>, tail: seq<Byte>)
    requires Unfinished(tail)
    ensures DecodeFrom(pre + tail, |pre|) == []
  {
    if tail != [] {
      var f, n :| Fits(f) && 0 <= n < |Encode(f)| && tail == Encode(f)[..n];
      CutFrame(pre, f, n);
    }
  }

  lemma FrameFirst(pre: seq<Byte>, f: Frame, post: seq<Byte>)
    requires Fits(f)
    ensures DecodeFrom(pre + Encode(f) + post, |pre|)
            == [f] + DecodeFrom(pre + Encode(f) + post, |pre + Encode(f)|)
  {
    DecodeEncoded(pre, f, post);
  }

  /**
   Any sequence of frames, encoded one after the other, is decoded to the same sequence; and when
   the stream breaks off inside a frame, to the complete ones.
   */
  lemma {:induction false} RoundTrip(pre: seq<Byte>, fs: seq<Frame>, tail: seq<Byte>)
    requires (forall i :: 0 <= i < |fs| ==> Fits(fs[i])) && Unfinished(tail)
    ensures DecodeFrom(pre + EncodeAll(fs) + tail, |pre|) == fs
    decreases |fs|
  {
    if fs == [] {
      assert pre + EncodeAll(fs) == pre;
      NothingMore(pre, tail);
    } else {
      var f, rest := Encode(fs[0]), EncodeAll(fs[1..]);
      Assoc(pre, f, rest);
      Assoc(pre + f, rest, tail);
      FrameFirst(pre, fs[0], rest + tail);
      RoundTrip(pre + f, fs[1..], tail);
    }
  }

  /** The array form of `frame`; returns the number of bytes written. */
  method BuildFrame(out: array<Byte>, f: Frame) returns (n: nat)
    requires Fits(f) && out.Length >= HDR_LEN + |f.payload|
    modifies out
    ensures n == |Encode(f)| && out[..n] == Encode(f)
    ensures out[n..] == old(out[n..])
  {
    out[0], out[1] := f.kind, f.id;
    out[2], out[3] := |f.payload| % 256, |f.payload| / 256;
    for i := 0 to |f.payload|
      invariant out[..HDR_LEN] == Encode(f)[..HDR_LEN]
      invariant out[HDR_LEN..HDR_LEN + i] == f.payload[..i]
      invariant forall j :: HDR_LEN + |f.payload| <= j < out.Length ==> out[j] == old(out[j])
    {
      out[HDR_LEN + i] := f.payload[i];
    }
    n := HDR_LEN + |f.payload|;
    assert out[..n] == out[..HDR_LEN] + out[HDR_LEN..n];
  }

  // ---- The receiving loop ---------------------------------------------------------------

  /** A connected socket; `pieces` decides how much each receive yields. */
  class Socket {
    const wire: seq<Byte>
    const pieces: seq<nat>
    var pos: nat
    var receives: nat

    constructor (wire: seq<Byte>, pieces: seq<nat>)
      ensures this.wire == wire && this.pieces == pieces && pos == 0
    {
      this.wire, this.pieces := wire, pieces;
      pos, receives := 0, 0;
    }

    /** `recv`: at least one byte and at most `n`, or none when the peer is gone. */
    method Recv(n: nat) returns (piece: seq<Byte>)
      requires n > 0 && pos <= |wire|
      modifies this
      ensures old(pos) <= pos <= |wire| && piece == wire[old(pos)..pos]
      ensures |piece| <= n && (piece == [] <==> old(pos) == |wire|)
    {
      var most := if |wire| - pos < n then |wire| - pos else n;
      var r := 0;
      if most > 0 {
        r := 1 + (if receives < |pieces| then pieces[receives] else 0) % most;
      }
      piece := wire[pos..pos + r];
      pos, receives := pos + r, receives + 1;
    }

    /** `read_n`: exactly `n` bytes, or failure once the stream ends. */
    method ReadN(n: nat) returns (ok: bool, bytes: seq<Byte>)
      requires pos <= |wire|
      modifies this
      ensures old(pos) <= pos <= |wire|
      ensures ok <==> old(pos) + n <= |wire|
      ensures ok ==> pos == old(pos) + n && bytes == wire[old(pos)..pos]
    {
      bytes := [];
      while |bytes| < n
        invariant old(pos) <= pos <= |wire|
        invariant |bytes| == pos - old(pos) && |bytes| <= n && bytes == wire[old(pos)..pos]
        decreases n - |bytes|
      {
        var piece := Recv(n - |bytes|);
        if piece == [] {
          return false, bytes;
        }
        bytes := bytes + piece;
      }
      ok := true;
    }

    /** One inbound frame of the serve loop; `None` drops the connection. */
    method Receive() returns (frame: Option<Frame>)
      requires pos <= |wire|
      modifies this
      ensures old(pos) <= pos <= |wire|
      ensures match DecodeAt(wire, old(pos))
              case HangUp => frame.None?
              case Got(f, next) => frame == Some(f) && pos == next
    {
      var ok, hdr := ReadN(HDR_LEN);
      if !ok {
        return None;
      }
      var len := Length(hdr[2], hdr[3]);
      if len > MAX_PAYLOAD {
        return None;
      }
      var payload := [];
      if len > 0 {
        ok, payload := ReadN(len);
        if !ok {
          return None;
        }
      }
      frame := Some(Frame(hdr[0], hdr[1], payload));
    }
  }

  /** The serve loop: however the stream is split, the frames are those of the stream. */
  method Serve(wire: seq<Byte>, pieces: seq<nat>) returns (frames: seq<Frame>)
    ensures frames == DecodeFrom(wire, 0)
  {
    var s := new Socket(wire, pieces);
    frames := [];
    while true
      invariant fresh(s) && s.wire == wire && s.pos <= |wire|
      invariant DecodeFrom(wire, 0) == frames + DecodeFrom(wire, s.pos)
      decreases |wire| - s.pos
    {
      ghost var at := s.pos;
      var f := s.Receive();
      if f.None? {
        return;
      }
      Assoc(frames, [f.value], DecodeFrom(wire, s.pos));
      frames := frames + [f.value];
    }
  }
}
