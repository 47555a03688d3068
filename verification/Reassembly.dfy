/**
 Node A's frame reassembler.

 `Step` is the byte automaton of `jk_reasm_push`; `Windows` is the simple specification over the
 whole byte history: hunt for the first magic, take 300 bytes, keep them if the checksum holds,
 carry on after them. The two are shown equal on every input, and the array class is shown to
 produce the automaton's frames however the input is cut into chunks.
 */
module Reassembly {
  import opened Prelude
  import opened JkFrame
  import StreamStart

  /** Hunting for the magic with a prefix of `have` bytes matched, or locked onto a frame. */
  datatype Reasm = Hunting(have: nat) | Locked(buf: seq<Byte>)

  predicate WellFormed(r: Reasm) {
    match r
    case Hunting(k) => k < 4
    case Locked(buf) => 4 <= |buf| < RECORD_LEN && Opens(buf)
  }

  /** The bytes start with the magic. */
  predicate Opens(buf: seq<Byte>)
    requires |buf| >= 4
  {
    buf[0] == 0x55 && buf[1] == 0xAA && buf[2] == 0xEB && buf[3] == 0x90
  }

  /** A reassembler state that can occur. */
  type Machine = r: Reasm | WellFormed(r) witness Hunting(0)

  datatype Out = Out(next: Reasm, frames: seq<seq<Byte>>)

  /** One byte of `jk_reasm_push`. */
  function Step(r: Reasm, b: Byte): (o: Out)
    requires WellFormed(r)
    ensures WellFormed(o.next)
  {
    match r
    case Hunting(k) =>
      if b == MAGIC[k] then
        if k == 3 then Out(Locked(MAGIC), []) else Out(Hunting(k + 1), [])
      else
        Out(Hunting(if b == MAGIC[0] then 1 else 0), [])
    case Locked(buf) =>
      var full := buf + [b];
      if |full| < RECORD_LEN then Out(Locked(full), [])
      else Out(Hunting(0), if ChecksumOk(full) then [full] else [])
  }

  /** One byte, with the frames delivered so far. */
  function Emit(o: Out, b: Byte): (o': Out)
    requires WellFormed(o.next)
    ensures WellFormed(o'.next)
  {
    var s := Step(o.next, b);
    Out(s.next, o.frames + s.frames)
  }

  /** The automaton over positions `a` to `b` of a byte sequence, after `o`. */
  function Run(o: Out, h: seq<Byte>, a: nat, b: nat): (o': Out)
    requires WellFormed(o.next) && a <= b <= |h|
    ensures WellFormed(o'.next)
    decreases b
  {
    if a == b then o else Emit(Run(o, h, a, b - 1), h[b - 1])
  }

  /** The automaton over a whole chunk. */
  function Feed(o: Out, chunk: seq<Byte>): (o': Out)
    requires WellFormed(o.next)
    ensures WellFormed(o'.next)
  {
    Run(o, chunk, 0, |chunk|)
  }

  /** A freshly initialised reassembler. */
  const START: Out := Out(Hunting(0), [])

  /** Cutting the input anywhere changes nothing. */
  lemma {:induction false} RunSplit(o: Out, h: seq<Byte>, a: nat, b: nat, c: nat)
    requires WellFormed(o.next) && a <= b <= c <= |h|
    ensures Run(o, h, a, c) == Run(Run(o, h, a, b), h, b, c)
    decreases c
  {
    if b < c {
      RunSplit(o, h, a, b, c - 1);
    }
  }

  /** A run depends only on the bytes it reads, not on where they lie. */
  lemma {:induction false} RunShift(o: Out, h: seq<Byte>, a: nat, g: seq<Byte>, n: nat)
    requires WellFormed(o.next) && n <= |g| && a + n <= |h|
    requires forall i :: 0 <= i < n ==> g[i] == h[a + i]
    ensures Run(o, h, a, a + n) == Run(o, g, 0, n)
    decreases n
  {
    if n > 0 {
      RunShift(o, h, a, g, n - 1);
    }
  }

  // ---- Specification over the whole history ------------------------------

  /** The four magic bytes, spelt out. */
  predicate MagicAt(h: seq<Byte>, p: nat) {
    && p + 4 <= |h|
    && h[p] == 0x55 && h[p + 1] == 0xAA && h[p + 2] == 0xEB && h[p + 3] == 0x90
  }

  /** The first magic at or after `from`; `|h|` when there is none. */
  function FirstMagic(h: seq<Byte>, from: nat): (p: nat)
    requires from <= |h|
    ensures from <= p <= |h|
    ensures p < |h| ==> MagicAt(h, p)
    ensures forall q :: from <= q < p ==> !MagicAt(h, q)
    decreases |h| - from
  {
    if from == |h| || MagicAt(h, from) then from else FirstMagic(h, from + 1)
  }

  /** Start positions of the frames delivered from position `from` on. */
  function Windows(h: seq<Byte>, from: nat): seq<nat>
    requires from <= |h|
    decreases |h| - from
  {
    var p := FirstMagic(h, from);
    if p + RECORD_LEN > |h| then []
    else if ChecksumOk(h[p..p + RECORD_LEN]) then [p] + Windows(h, p + RECORD_LEN)
    else Windows(h, p + RECORD_LEN)
  }

  /** Position `p` starts a delivered frame. */
  predicate FrameAt(h: seq<Byte>, p: nat) {
    p + RECORD_LEN <= |h| && ValidFrame(h[p..p + RECORD_LEN])
  }

  lemma MagicWindow(h: seq<Byte>, p: nat)
    requires MagicAt(h, p) && p + RECORD_LEN <= |h|
    ensures FrameAt(h, p) == ChecksumOk(h[p..p + RECORD_LEN])
  {
    assert h[p..p + RECORD_LEN][..4] == MAGIC;
  }

  /** Delivered windows are in order, disjoint, inside the history, and valid frames. */
  lemma {:induction false} WindowsShape(h: seq<Byte>, from: nat)
    requires from <= |h|
    ensures forall k :: 0 <= k < |Windows(h, from)| ==>
                          from <= Windows(h, from)[k] && FrameAt(h, Windows(h, from)[k])
    ensures forall j, k :: 0 <= j < k < |Windows(h, from)| ==>
                             Windows(h, from)[j] + RECORD_LEN <= Windows(h, from)[k]
    decreases |h| - from
  {
    var p := FirstMagic(h, from);
    if p + RECORD_LEN <= |h| {
      WindowsShape(h, p + RECORD_LEN);
      MagicWindow(h, p);
    }
  }

  /** The byte strings delivered from position `from` on. */
  function WindowFrames(h: seq<Byte>, from: nat): (fs: seq<seq<Byte>>)
    requires from <= |h|
    decreases |h| - from
  {
    var p := FirstMagic(h, from);
    if p + RECORD_LEN > |h| then []
    else if ChecksumOk(h[p..p + RECORD_LEN]) then
      [h[p..p + RECORD_LEN]] + WindowFrames(h, p + RECORD_LEN)
    else WindowFrames(h, p + RECORD_LEN)
  }

  /** The byte strings `fs` lie at the positions `ws`, and each is a valid frame. */
  ghost predicate LieAt(h: seq<Byte>, ws: seq<nat>, fs: seq<seq<Byte>>) {
    && |fs| == |ws|
    && forall k :: 0 <= k < |ws| ==> FrameAt(h, ws[k]) && fs[k] == h[ws[k]..ws[k] + RECORD_LEN]
  }

  lemma LieAtCons(h: seq<Byte>, p: nat, ws: seq<nat>, fs: seq<seq<Byte>>)
    requires FrameAt(h, p) && LieAt(h, ws, fs)
    ensures LieAt(h, [p] + ws, [h[p..p + RECORD_LEN]] + fs)
  {
  }

  lemma {:induction false} WindowFramesAt(h: seq<Byte>, from: nat)
    requires from <= |h|
    ensures LieAt(h, Windows(h, from), WindowFrames(h, from))
    decreases |h| - from
  {
    var p := FirstMagic(h, from);
    if p + RECORD_LEN <= |h| {
      var e := p + RECORD_LEN;
      WindowFramesAt(h, e);
      MagicWindow(h, p);
      if FrameAt(h, p) {
        LieAtCons(h, p, Windows(h, e), WindowFrames(h, e));
      }
    }
  }

  // ---- The hunting phase --------------------------------------------------

  /** The bytes of `[a, b)` end with the first `k` magic bytes. */
  predicate EndsWithPrefix(h: seq<Byte>, a: nat, b: nat, k: nat)
    requires b <= |h|
  {
    && k <= 3
    && a + k <= b
    && (k >= 1 ==> h[b - k] == 0x55)
    && (k >= 2 ==> h[b - k + 1] == 0xAA)
    && (k >= 3 ==> h[b - k + 2] == 0xEB)
  }

  /** What hunting with `k` bytes matched says about the bytes since the last unlock at `a`. */
  ghost predicate HuntState(h: seq<Byte>, a: nat, b: nat, k: nat)
    requires b <= |h|
  {
    && EndsWithPrefix(h, a, b, k)
    && (forall j :: k < j <= 3 ==> !EndsWithPrefix(h, a, b, j))
    && (forall p :: a <= p && p + 4 <= b ==> !MagicAt(h, p))
  }

  /** One hunting byte: the matched prefix stays the longest one, because the magic bytes differ. */
  lemma HuntStep(h: seq<Byte>, a: nat, b: nat, k: nat)
    requires a <= b < |h| && HuntState(h, a, b, k)
    ensures Step(Hunting(k), h[b]).frames == []
    ensures a + 4 <= b + 1 && MagicAt(h, b - 3) ==> Step(Hunting(k), h[b]).next == Locked(MAGIC)
    ensures !(a + 4 <= b + 1 && MagicAt(h, b - 3)) ==>
              && Step(Hunting(k), h[b]).next.Hunting?
              && HuntState(h, a, b + 1, Step(Hunting(k), h[b]).next.have)
  {
    assert EndsWithPrefix(h, a, b, 3) ==> k == 3;
    assert EndsWithPrefix(h, a, b, 2) ==> k >= 2;
    assert EndsWithPrefix(h, a, b, 1) ==> k >= 1;
  }

  /** From an unlock the automaton hunts silently until the first magic is complete. */
  lemma {:induction false} HuntRun(fs: seq<seq<Byte>>, h: seq<Byte>, a: nat, b: nat) returns (k: nat)
    requires a <= b <= |h|
    requires forall q :: a <= q && q + 4 <= b ==> !MagicAt(h, q)
    ensures HuntState(h, a, b, k)
    ensures Run(Out(Hunting(0), fs), h, a, b) == Out(Hunting(k), fs)
    decreases b
  {
    k := 0;
    if a < b {
      var j := HuntRun(fs, h, a, b - 1);
      HuntStep(h, a, b - 1, j);
      k := Step(Hunting(j), h[b - 1]).next.have;
    }
  }

  /** ... and locks on exactly that magic. */
  lemma HuntLock(fs: seq<seq<Byte>>, h: seq<Byte>, a: nat, p: nat)
    requires a <= p && MagicAt(h, p)
    requires forall q :: a <= q < p ==> !MagicAt(h, q)
    ensures Run(Out(Hunting(0), fs), h, a, p + 4) == Out(Locked(MAGIC), fs)
  {
    var k := HuntRun(fs, h, a, p + 3);
    HuntStep(h, a, p + 3, k);
  }

  /** Once locked, bytes accumulate until the 300th. */
  lemma {:induction false} LockedRun(fs: seq<seq<Byte>>, h: seq<Byte>, p: nat, b: nat)
    requires MagicAt(h, p) && p + 4 <= b <= |h| && b < p + RECORD_LEN
    ensures Run(Out(Locked(MAGIC), fs), h, p + 4, b) == Out(Locked(h[p..b]), fs)
    decreases b
  {
    if b == p + 4 {
      assert h[p..b] == MAGIC;
    } else {
      LockedRun(fs, h, p, b - 1);
      assert h[p..b - 1] + [h[b - 1]] == h[p..b];
    }
  }

  /** A magic-started stretch of exactly 300 bytes is delivered or dropped whole. */
  lemma WindowRun(fs: seq<seq<Byte>>, h: seq<Byte>, p: nat)
    requires MagicAt(h, p) && p + RECORD_LEN <= |h|
    ensures Run(Out(Locked(MAGIC), fs), h, p + 4, p + RECORD_LEN)
            == Out(Hunting(0), fs + if FrameAt(h, p) then [h[p..p + RECORD_LEN]] else [])
  {
    var e := p + RECORD_LEN;
    LockedRun(fs, h, p, e - 1);
    assert h[p..e - 1] + [h[e - 1]] == h[p..e];
    MagicWindow(h, p);
  }

  /** From an unlock: hunt, lock on the first magic, and finish its window. */
  lemma HuntAndWindow(fs: seq<seq<Byte>>, h: seq<Byte>, a: nat, p: nat)
    requires a <= p && MagicAt(h, p) && p + RECORD_LEN <= |h|
    requires forall q :: a <= q < p ==> !MagicAt(h, q)
    ensures Run(Out(Hunting(0), fs), h, a, p + RECORD_LEN)
            == Out(Hunting(0), fs + if FrameAt(h, p) then [h[p..p + RECORD_LEN]] else [])
  {
    RunSplit(Out(Hunting(0), fs), h, a, p + 4, p + RECORD_LEN);
    HuntLock(fs, h, a, p);
    WindowRun(fs, h, p);
  }

  /** From an unlock to inside the first window. */
  lemma LockedTail(fs: seq<seq<Byte>>, h: seq<Byte>, a: nat, p: nat)
    requires a <= p && MagicAt(h, p) && |h| < p + RECORD_LEN
    requires forall q :: a <= q < p ==> !MagicAt(h, q)
    ensures Run(Out(Hunting(0), fs), h, a, |h|).frames == fs
  {
    var o := Out(Hunting(0), fs);
    RunSplit(o, h, a, p + 4, |h|);
    HuntLock(fs, h, a, p);
    LockedRun(fs, h, p, |h|);
  }

  /** With no magic left, or fewer than 300 bytes after it, nothing more is delivered. */
  lemma NoMoreWindows(fs: seq<seq<Byte>>, h: seq<Byte>, from: nat)
    requires from <= |h|
    requires FirstMagic(h, from) + RECORD_LEN > |h|
    ensures Run(Out(Hunting(0), fs), h, from, |h|).frames == fs
  {
    var p := FirstMagic(h, from);
    if p < |h| {
      LockedTail(fs, h, from, p);
    } else {
      var k := HuntRun(fs, h, from, |h|);
    }
  }

  /** From an unlock, the run goes on from the end of the first window. */
  lemma WindowThen(fs: seq<seq<Byte>>, h: seq<Byte>, from: nat)
    requires from <= |h|
    requires FirstMagic(h, from) + RECORD_LEN <= |h|
    ensures var p := FirstMagic(h, from);
            Run(Out(Hunting(0), fs), h, from, |h|)
            == Run(Out(Hunting(0), fs + if FrameAt(h, p) then [h[p..p + RECORD_LEN]] else []),
                   h, p + RECORD_LEN, |h|)
  {
    var p := FirstMagic(h, from);
    RunSplit(Out(Hunting(0), fs), h, from, p + RECORD_LEN, |h|);
    HuntAndWindow(fs, h, from, p);
  }

  /** The windows of a history, first one split off. */
  lemma FirstWindow(h: seq<Byte>, from: nat)
    requires from <= |h|
    requires FirstMagic(h, from) + RECORD_LEN <= |h|
    ensures var p := FirstMagic(h, from);
            WindowFrames(h, from)
            == (if FrameAt(h, p) then [h[p..p + RECORD_LEN]] else []) + WindowFrames(h, p + RECORD_LEN)
  {
    MagicWindow(h, FirstMagic(h, from));
  }

  /**
   Main refinement: from position `from`, where the automaton is unlocked, the frames it delivers
   are exactly the specified windows.
   */
  lemma {:induction false} RunIsWindows(fs: seq<seq<Byte>>, h: seq<Byte>, from: nat)
    requires from <= |h|
    ensures Run(Out(Hunting(0), fs), h, from, |h|).frames == fs + WindowFrames(h, from)
    decreases |h| - from
  {
    var p := FirstMagic(h, from);
    if p + RECORD_LEN > |h| {
      NoMoreWindows(fs, h, from);
    } else {
      var e := p + RECORD_LEN;
      var w := if FrameAt(h, p) then [h[p..e]] else [];
      WindowThen(fs, h, from);
      RunIsWindows(fs + w, h, e);
      FirstWindow(h, from);
      Assoc(fs, w, WindowFrames(h, e));
    }
  }

  /** The frames of a history, from a freshly initialised reassembler. */
  function Frames(h: seq<Byte>): seq<seq<Byte>> {
    Feed(START, h).frames
  }

  /** The whole-history reading of `jk_reasm_push`. */
  lemma FramesAreWindows(h: seq<Byte>)
    ensures LieAt(h, Windows(h, 0), Frames(h))
  {
    RunIsWindows([], h, 0);
    WindowFramesAt(h, 0);
  }

  /** A valid frame on its own passes through an unlocked reassembler. */
  lemma FramePasses(fs: seq<seq<Byte>>, w: seq<Byte>)
    requires ValidFrame(w)
    ensures Feed(Out(Hunting(0), fs), w) == Out(Hunting(0), fs + [w])
  {
    assert forall i :: 0 <= i < 4 ==> w[i] == w[..4][i];
    assert w[0..RECORD_LEN] == w;
    HuntAndWindow(fs, w, 0, 0);
  }

  lemma HeadRun(o: Out, g: seq<Byte>, h: seq<Byte>, gh: seq<Byte>)
    requires WellFormed(o.next) && gh == g + h
    ensures Run(o, gh, 0, |g|) == Feed(o, g)
  {
    RunShift(o, gh, 0, g, |g|);
  }

  lemma TailRun(o: Out, g: seq<Byte>, h: seq<Byte>, gh: seq<Byte>)
    requires WellFormed(o.next) && gh == g + h
    ensures Run(o, gh, |g|, |gh|) == Feed(o, h)
  {
    assert |gh| == |g| + |h|;
    RunShift(o, gh, |g|, h, |h|);
  }

  /** Feeding two chunks in turn is feeding their concatenation. */
  lemma FeedConcat(o: Out, g: seq<Byte>, h: seq<Byte>)
    requires WellFormed(o.next)
    ensures Feed(o, g + h) == Feed(Feed(o, g), h)
  {
    var gh := g + h;
    RunSplit(o, gh, 0, |g|, |gh|);
    HeadRun(o, g, h, gh);
    TailRun(Feed(o, g), g, h, gh);
  }

  /** A valid frame followed by anything is delivered first. */
  lemma FrameThen(pre: seq<seq<Byte>>, w: seq<Byte>, rest: seq<Byte>)
    requires ValidFrame(w)
    ensures Feed(Out(Hunting(0), pre), w + rest) == Feed(Out(Hunting(0), pre + [w]), rest)
  {
    FeedConcat(Out(Hunting(0), pre), w, rest);
    FramePasses(pre, w);
  }

  /** Back-to-back valid frames come back exactly, and leave the reassembler unlocked. */
  lemma {:induction false} ConcatRoundTrip(pre: seq<seq<Byte>>, fs: seq<seq<Byte>>)
    requires forall k :: 0 <= k < |fs| ==> ValidFrame(fs[k])
    ensures Feed(Out(Hunting(0), pre), StreamStart.Flatten(fs)) == Out(Hunting(0), pre + fs)
    decreases |fs|
  {
    if fs == [] {
      assert pre + fs == pre;
    } else {
      ConcatRoundTrip(pre + [fs[0]], fs[1..]);
      FrameThen(pre, fs[0], StreamStart.Flatten(fs[1..]));
      MoveHead(pre, fs);
    }
  }

  /** Frames delivered earlier play no part in what is delivered next. */
  lemma {:induction false} RunFrame(r: Reasm, fs: seq<seq<Byte>>, h: seq<Byte>, a: nat, b: nat)
    requires WellFormed(r) && a <= b <= |h|
    ensures Run(Out(r, fs), h, a, b).next == Run(Out(r, []), h, a, b).next
    ensures Run(Out(r, fs), h, a, b).frames == fs + Run(Out(r, []), h, a, b).frames
    decreases b
  {
    if a < b {
      RunFrame(r, fs, h, a, b - 1);
      var o := Run(Out(r, []), h, a, b - 1);
      var s := Step(o.next, h[b - 1]).frames;
      Assoc(fs, o.frames, s);
    }
  }

  /** Every frame of a known type that the reassembler delivers ends a record for the startup search. */
  lemma DeliveredEndsRecord(h: seq<Byte>, k: nat)
    requires k < |Windows(h, 0)| && FrameAt(h, Windows(h, 0)[k])
    requires RecordOf(h[Windows(h, 0)[k]..Windows(h, 0)[k] + RECORD_LEN]) != NoRecord
    ensures StreamStart.RecordEndsAt(h, Windows(h, 0)[k] + RECORD_LEN)
  {
  }

  /**
   The startup search is never later than the reassembler: if a frame of a known type is delivered,
   the search has an answer, and it lies no later than the end of that frame.
   */
  lemma StartupSearchNotLater(h: seq<Byte>, k: nat)
    requires k < |Windows(h, 0)| && FrameAt(h, Windows(h, 0)[k])
    requires RecordOf(h[Windows(h, 0)[k]..Windows(h, 0)[k] + RECORD_LEN]) != NoRecord
    ensures !StreamStart.NoRecordYet(h)
    ensures forall e: nat :: StreamStart.FirstRecordEnd(h, e) ==> e <= Windows(h, 0)[k] + RECORD_LEN
  {
    DeliveredEndsRecord(h, k);
  }

  /** Whatever the state, a delivered frame is complete, starts with the magic, and its checksum holds. */
  lemma {:induction false} DeliveredComplete(o: Out, h: seq<Byte>, a: nat, b: nat)
    requires WellFormed(o.next) && a <= b <= |h|
    requires forall k :: 0 <= k < |o.frames| ==> ValidFrame(o.frames[k])
    ensures forall k :: 0 <= k < |Run(o, h, a, b).frames| ==> ValidFrame(Run(o, h, a, b).frames[k])
    decreases b
  {
    if a < b {
      DeliveredComplete(o, h, a, b - 1);
      StepDelivers(Run(o, h, a, b - 1).next, h[b - 1]);
    }
  }

  lemma StepDelivers(r: Reasm, b: Byte)
    requires WellFormed(r)
    ensures forall k :: 0 <= k < |Step(r, b).frames| ==> ValidFrame(Step(r, b).frames[k])
  {
    if r.Locked? {
      assert (r.buf + [b])[..4] == MAGIC;
    }
  }

  // ---- The array implementation ------------------------------------------

  /** Mirror of `jk_reasm_t`: `want` is zero while hunting. */
  class Reassembler {
    const buf: array<Byte>
    var have: nat
    var want: nat

    ghost predicate Valid()
      reads this
    {
      && buf.Length == FRAME_MAX
      && (want == 0 || want == RECORD_LEN)
      && (want == 0 ==> have < 4)
      && (want != 0 ==> 4 <= have < want)
    }

    ghost predicate Matched()
      requires Valid()
      reads this, buf
    {
      (want == 0 ==> buf[..have] == MAGIC[..have]) && (want != 0 ==> Opens(buf[..have]))
    }

    ghost function State(): (r: Reasm)
      requires Valid() && Matched()
      reads this, buf
      ensures WellFormed(r)
    {
      if want == 0 then Hunting(have) else Locked(buf[..have])
    }

    constructor ()
      ensures Valid() && Matched() && State() == Hunting(0) && fresh(buf)
    {
      buf := new Byte[FRAME_MAX](_ => 0);
      have := 0;
      want := 0;
    }

    /** `jk_reasm_reset`. */
    method Reset()
      requires buf.Length == FRAME_MAX
      modifies this
      ensures Valid() && Matched() && State() == Hunting(0)
    {
      have := 0;
      want := 0;
    }

    /** The hunting half of the loop body. */
    method Hunt(b: Byte)
      requires Valid() && Matched() && want == 0
      modifies this, buf
      ensures Valid() && Matched()
      ensures Step(old(State()), b) == Out(State(), [])
    {
      if b == MAGIC[have] {
        buf[have] := b;
        have := have + 1;
        assert buf[..have] == MAGIC[..have];
        if have == 4 {
          want := RECORD_LEN;
          assert MAGIC[..4] == MAGIC;
        }
      } else {
        have := if b == MAGIC[0] then 1 else 0;
        if have == 1 {
          buf[0] := b;
        }
      }
    }

    /** The locked half of the loop body. */
    method Accumulate(b: Byte) returns (frame: Option<seq<Byte>>)
      requires Valid() && Matched() && want != 0
      modifies this, buf
      ensures Valid() && Matched()
      ensures Step(old(State()), b)
              == Out(State(), if frame.Some? then [frame.value] else [])
    {
      ghost var before := buf[..have];
      if have < FRAME_MAX {
        buf[have] := b;
      }
      have := have + 1;
      assert buf[..have] == before + [b];
      frame := None;
      if have >= want {
        var flen := want;
        Reset();
        var ok := CheckFrame(buf, flen);
        if flen <= FRAME_MAX && ok {
          frame := Some(buf[..flen]);
        }
      }
    }

    /**
     `jk_reasm_push` on `data + off`: consume up to and including the byte that completes a valid
     frame, or everything. What is delivered and the state left behind are the byte automaton's.
     */
    method Push(data: seq<Byte>, off: nat) returns (frame: Option<seq<Byte>>, end: nat)
      requires Valid() && Matched() && off <= |data|
      modifies this, buf
      ensures Valid() && Matched()
      ensures off <= end <= |data| && (off < |data| ==> off < end)
      ensures frame.None? ==> end == |data|
      ensures Run(Out(old(State()), []), data, off, end)
              == Out(State(), if frame.Some? then [frame.value] else [])
    {
      ghost var start := Out(State(), []);
      end := off;
      while end < |data|
        invariant off <= end <= |data|
        invariant Valid() && Matched()
        invariant Run(start, data, off, end) == Out(State(), [])
      {
        var b := data[end];
        end := end + 1;
        if want == 0 {
          Hunt(b);
        } else {
          frame := Accumulate(b);
          if frame.Some? {
            return;
          }
        }
      }
      frame := None;
    }

    /** The `on_notify` loop: re-feed the unconsumed suffix until the chunk is used up. */
    method PushAll(data: seq<Byte>) returns (frames: seq<seq<Byte>>)
      requires Valid() && Matched()
      modifies this, buf
      ensures Valid() && Matched()
      ensures Feed(Out(old(State()), []), data) == Out(State(), frames)
    {
      ghost var start := Out(State(), []);
      frames := [];
      var off := 0;
      while off < |data|
        invariant 0 <= off <= |data|
        invariant Valid() && Matched()
        invariant Run(start, data, 0, off) == Out(State(), frames)
      {
        ghost var mid := State();
        var frame, end := Push(data, off);
        RunSplit(start, data, 0, off, end);
        RunFrame(mid, frames, data, off, end);
        off := end;
        if frame.Some? {
          frames := frames + [frame.value];
        }
      }
    }
  }

  /** Any partition of a stream, fed chunk by chunk, delivers the specified windows of the stream. */
  method ReassembleChunks(chunks: seq<seq<Byte>>) returns (frames: seq<seq<Byte>>)
    ensures frames == Frames(StreamStart.Flatten(chunks))
  {
    var r := new Reassembler();
    frames := [];
    ghost var seen: seq<Byte> := [];
    var i := 0;
    while i < |chunks|
      invariant 0 <= i <= |chunks|
      invariant fresh(r) && fresh(r.buf) && r.Valid() && r.Matched()
      invariant Feed(START, seen) == Out(r.State(), frames)
      invariant seen + StreamStart.Flatten(chunks[i..]) == StreamStart.Flatten(chunks)
    {
      StreamStart.FlattenTail(chunks, i, |chunks[i]|);
      FeedConcat(START, seen, chunks[i]);
      RunFrame(r.State(), frames, chunks[i], 0, |chunks[i]|);
      var more := r.PushAll(chunks[i]);
      assert chunks[i][..|chunks[i]|] == chunks[i];
      seen := seen + chunks[i];
      frames := frames + more;
      i := i + 1;
    }
    assert seen + StreamStart.Flatten([]) == seen;
  }
}
