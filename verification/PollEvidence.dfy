/**
 What an OK answer to a poll rests on, over whole runs of Node A: between the submission and the
 answer, a notification on that link completed a frame of the requested type, and, if the poll was
 a Write Request, its own acknowledgement arrived.
 */
module PollEvidence {
  import opened Prelude
  import opened JkFrame
  import opened NodeATypes
  import opened Links
  import opened LinkPool
  import opened PoolInvariant
  import opened PollCompletion
  import opened NodeA
  import Reassembly

  /** A frame of type `want` is among `frames`. */
  predicate Among(frames: seq<seq<Byte>>, want: Record) {
    exists k :: 0 <= k < |frames| && RecordOf(frames[k]) == want
  }

  /** A complete frame of type `want` with a valid checksum is among `frames`. */
  predicate ValidAmong(frames: seq<seq<Byte>>, want: Record) {
    exists k :: 0 <= k < |frames| && RecordOf(frames[k]) == want && ValidFrame(frames[k])
  }

  /** Event `e` is a notification on slot `i` that completes a valid frame of type `want`. */
  predicate RecordHere(o: Owner, e: Radio, i: nat, want: Record) {
    && e.GapNotify? && i < |o.slots| && ByConn(o.slots, e.h) == Some(i)
    && ValidAmong(Reassembly.Feed(Reassembly.Out(o.slots[i].reasm, []), e.data).frames, want)
  }

  /** Event `e` is the successful acknowledgement slot `i` waits for, for the handle it wrote to. */
  predicate AckHere(o: Owner, e: Radio, i: nat) {
    && e.GattWritten? && i < |o.slots| && ByConn(o.slots, e.h) == Some(i)
    && e.err == ErrOk && e.attr == Some(o.slots[i].txn.writeHandle)
    && e.cookie == o.slots[i].txn.writeCookie != 0
  }

  /** The poll asked for the same thing, in the same way. */
  predicate SameAsk(t: Txn, t': Txn) {
    t'.want == t.want && t'.usedRequest == t.usedRequest && t'.writeHandle == t.writeHandle
  }

  /** ... and nothing was learnt about it. */
  predicate SameEvidence(t: Txn, t': Txn) {
    SameAsk(t, t') && t'.heard == t.heard && t'.acked == t.acked
  }

  // ---- Effects on the polling slot ------------------------------------------------------------

  lemma HeardEvidence(l: Slot, rec: Record)
    ensures SameAsk(l.txn, Heard(l, rec).txn) && Heard(l, rec).txn.acked == l.txn.acked
    ensures Heard(l, rec).txn.heard == (l.txn.heard || rec == l.txn.want)
  {
  }

  lemma FinishEvidence(l: Slot, status: Status, record: Record)
    ensures SameEvidence(l.txn, Finish(l, status, record).slot.txn)
  {
  }

  lemma CompleteEvidence(l: Slot)
    ensures SameEvidence(l.txn, CompletePoll(l).slot.txn)
  {
    FinishEvidence(l, Ok, l.txn.want);
  }

  lemma FrameDoneEvidence(l: Slot, rec: Record)
    ensures SameEvidence(Heard(l, rec).txn, FrameDone(l, rec).slot.txn)
  {
    CompleteEvidence(Heard(l, rec));
  }

  lemma {:induction false} FramesEvidence(l: Slot, frames: seq<seq<Byte>>)
    ensures var t' := FramesDone(l, frames).slot.txn;
            && SameAsk(l.txn, t') && t'.acked == l.txn.acked
            && (t'.heard && !l.txn.heard ==> Among(frames, l.txn.want))
    decreases |frames|
  {
    if frames != [] {
      var l1 := FrameDone(l, RecordOf(frames[0])).slot;
      HeardEvidence(l, RecordOf(frames[0]));
      FrameDoneEvidence(l, RecordOf(frames[0]));
      FramesEvidence(l1, frames[1..]);
      if Among(frames[1..], l.txn.want) {
        var k :| 0 <= k < |frames[1..]| && RecordOf(frames[1..][k]) == l.txn.want;
        assert RecordOf(frames[k + 1]) == l.txn.want;
      }
    }
  }

  /** The slot once its write token is retired. */
  function Told(l: Slot, ok: bool): Slot {
    l.(txn := l.txn.(writeCookie := 0, acked := ok))
  }

  lemma ToldEvidence(l: Slot, ok: bool)
    ensures SameAsk(l.txn, Told(l, ok).txn)
    ensures Told(l, ok).txn.heard == l.txn.heard && Told(l, ok).txn.acked == ok
  {
  }

  /** What the acknowledgement waited for does to the slot. */
  function AckOutcome(l: Slot, ok: bool): Effect {
    var l1 := Told(l, ok);
    if !l.txn.active then Quiet(l1)
    else if !ok || l.txn.req.kind != Poll then Finish(l1, if ok then Ok else GattError, NoRecord)
    else CompletePoll(l1)
  }

  lemma AckOutcomeEvidence(l: Slot, ok: bool)
    ensures var t' := AckOutcome(l, ok).slot.txn;
            SameAsk(l.txn, t') && t'.heard == l.txn.heard && t'.acked == ok
  {
    var l1 := Told(l, ok);
    ToldEvidence(l, ok);
    FinishEvidence(l1, if ok then Ok else GattError, NoRecord);
    CompleteEvidence(l1);
  }

  lemma WriteDoneEvidence(l: Slot, err: Err, attr: Option<nat>, cookie: nat)
    ensures var t' := WriteDone(l, err, attr, cookie).slot.txn;
            && SameAsk(l.txn, t') && t'.heard == l.txn.heard
            && (t'.acked && !l.txn.acked ==>
                  err == ErrOk && attr == Some(l.txn.writeHandle) && cookie == l.txn.writeCookie != 0)
  {
    if cookie != 0 && cookie == l.txn.writeCookie {
      var ok := err == ErrOk && attr == Some(l.txn.writeHandle);
      AckOutcomeEvidence(l, ok);
      assert WriteDone(l, err, attr, cookie) == AckOutcome(l, ok);
    }
  }

  lemma DropEvidence(l: Slot)
    ensures SameEvidence(l.txn, DisconnectEvent(l).slot.txn)
  {
    FinishEvidence(l, LinkDown, NoRecord);
  }

  lemma SweepEvidence(l: Slot, nowUs: int)
    requires Ready(l) && PhaseOk(l, false)
    ensures SameEvidence(l.txn, SweepSlot(l, nowUs).slot.txn)
  {
    FinishEvidence(l, Timeout, NoRecord);
  }

  /** A sweep treats each slot on its own. */
  lemma {:induction false} SweepAt(o: Owner, nowUs: int, k: nat, i: nat)
    requires k <= |o.slots| && i < |o.slots|
    ensures |Sweep(o, nowUs, k).slots| == |o.slots|
    ensures Sweep(o, nowUs, k).slots[i] == if i < k then o.slots[i] else SweepSlot(o.slots[i], nowUs).slot
    decreases |o.slots| - k
  {
    if k < |o.slots| {
      SweepAt(Apply(o, k, SweepSlot(o.slots[k], nowUs), nowUs), nowUs, k + 1, i);
    }
  }

  lemma NotifyEvidence(o: Owner, h: nat, data: seq<Byte>, nowUs: int, i: nat)
    requires i < |o.slots|
    ensures |OnNotify(o, h, data, nowUs).slots| == |o.slots|
    ensures var t, t' := o.slots[i].txn, OnNotify(o, h, data, nowUs).slots[i].txn;
            && SameAsk(t, t') && t'.acked == t.acked
            && (t'.heard && !t.heard ==> RecordHere(o, GapNotify(h, data), i, t.want))
  {
    if ByConn(o.slots, h) == Some(i) {
      var l := o.slots[i];
      var out := Reassembly.Feed(Reassembly.Out(l.reasm, []), data);
      FramesEvidence(l.(reasm := out.next), out.frames);
      DeliveredValid(l.reasm, data, l.txn.want);
    }
  }

  /** What the reassembler delivers is valid. */
  lemma DeliveredValid(r: Reassembly.Machine, data: seq<Byte>, want: Record)
    ensures var frames := Reassembly.Feed(Reassembly.Out(r, []), data).frames;
            Among(frames, want) ==> ValidAmong(frames, want)
  {
    Reassembly.DeliveredComplete(Reassembly.Out(r, []), data, 0, |data|);
  }

  lemma AckEvidence(o: Owner, h: nat, err: Err, attr: Option<nat>, cookie: nat, nowUs: int, i: nat)
    requires i < |o.slots|
    ensures |OnWriteDone(o, h, err, attr, cookie, nowUs).slots| == |o.slots|
    ensures var t, t' := o.slots[i].txn, OnWriteDone(o, h, err, attr, cookie, nowUs).slots[i].txn;
            && SameAsk(t, t') && t'.heard == t.heard
            && (t'.acked && !t.acked ==> AckHere(o, GattWritten(h, err, attr, cookie), i))
  {
    if ByConn(o.slots, h) == Some(i) {
      WriteDoneEvidence(o.slots[i], err, attr, cookie);
    }
  }

  lemma DiscoveryLeaves(o: Owner, e: Radio, nowUs: int, i: nat)
    requires i < |o.slots| && !o.slots[i].pending
    requires e.GattSvc? || e.GattChr? || e.GattDsc? || e.GattSubscribed?
    ensures |OnRadio(o, e, nowUs).slots| == |o.slots| && OnRadio(o, e, nowUs).slots[i] == o.slots[i]
  {
  }

  /** One event of the radio side, seen from a slot that waits for a poll. */
  lemma RadioEvidence(o: Owner, e: Radio, nowUs: int, i: nat)
    requires Pre(o) && RadioEnabled(o, e) && i < POOL && Polling(o.slots[i])
    ensures |OnRadio(o, e, nowUs).slots| == POOL
    ensures var t, t' := o.slots[i].txn, OnRadio(o, e, nowUs).slots[i].txn;
            && SameAsk(t, t')
            && (t'.heard && !t.heard ==> RecordHere(o, e, i, t.want))
            && (t'.acked && !t.acked ==> AckHere(o, e, i))
  {
    InSlot(o, i);
    if e.GapNotify? {
      NotifyEvidence(o, e.h, e.data, nowUs, i);
    } else if e.GattWritten? {
      AckEvidence(o, e.h, e.err, e.attr, e.cookie, nowUs, i);
    } else if e.SweepDue? {
      SweepEvidence(o.slots[i], nowUs);
      SweepAt(o, nowUs, 0, i);
    } else if e.GapDisconnect? {
      DropEvidence(o.slots[i]);
    } else if e.GapConnect? {
      assert OnRadio(o, e, nowUs).slots[i] == o.slots[i];
    } else {
      DiscoveryLeaves(o, e, nowUs, i);
    }
  }

  // ---- Runs ---------------------------------------------------------------------------------------

  /** One step of Node A, seen from a slot that waits for a poll. */
  lemma StepEvidence(s: Sys, e: Event, i: nat)
    requires Inv(s) && Enabled(s, e) && i < POOL && Polling(s.o.slots[i])
    ensures |Step(s, e).o.slots| == POOL
    ensures var t, t' := s.o.slots[i].txn, Step(s, e).o.slots[i].txn;
            && SameAsk(t, t')
            && (t'.heard && !t.heard ==> e.BleRadio? && RecordHere(s.o, e.r, i, t.want))
            && (t'.acked && !t.acked ==> e.BleRadio? && AckHere(s.o, e.r, i))
  {
    if e.BleRadio? {
      TokenBound(s);
      RadioEvidence(s.o, e.r, e.nowUs, i);
    } else if e.BleExec? {
      if s.reqQ != [] {
        ExecLeavesHolding(s.o, s.reqQ[0], e.env, e.nowUs, i);
      }
    } else {
      OffRadioLeaves(s, e);
    }
  }

  /** The arbiter and the supervisor touch no slot. */
  lemma OffRadioLeaves(s: Sys, e: Event)
    requires !e.BleRadio? && !e.BleExec?
    ensures Step(s, e).o.slots == s.o.slots
  {
  }

  /** Slot `i` waits for poll `req` at every moment before the last. */
  ghost predicate PollsThroughout(s: Sys, es: seq<Event>, i: nat, req: Request) {
    forall n :: 0 <= n < |es| ==> PollsAt(Run(s, es[..n]).o, i, req)
  }

  predicate PollsAt(o: Owner, i: nat, req: Request) {
    i < |o.slots| && Polling(o.slots[i]) && o.slots[i].txn.req == req
  }

  ghost predicate RecordSeenIn(s: Sys, es: seq<Event>, i: nat, want: Record) {
    exists n :: 0 <= n < |es| && es[n].BleRadio? && RecordHere(Run(s, es[..n]).o, es[n].r, i, want)
  }

  ghost predicate AckSeenIn(s: Sys, es: seq<Event>, i: nat) {
    exists n :: 0 <= n < |es| && es[n].BleRadio? && AckHere(Run(s, es[..n]).o, es[n].r, i)
  }

  lemma SeenLonger(s: Sys, es: seq<Event>, m: nat, i: nat, want: Record)
    requires m <= |es|
    ensures RecordSeenIn(s, es[..m], i, want) ==> RecordSeenIn(s, es, i, want)
    ensures AckSeenIn(s, es[..m], i) ==> AckSeenIn(s, es, i)
  {
    assert forall n :: 0 <= n < m ==> es[..m][..n] == es[..n] && es[..m][n] == es[n];
  }

  /** What the transaction has heard and been told was heard and told during the run. */
  predicate Backed(t0: Txn, t: Txn, seen: bool, acked: bool) {
    SameAsk(t0, t) && (t.heard ==> seen) && (t.acked ==> acked)
  }

  lemma ThroughoutFront(s: Sys, es: seq<Event>, m: nat, i: nat, req: Request)
    requires m < |es| && PollsThroughout(s, es, i, req)
    ensures PollsThroughout(s, es[..m], i, req) && PollsAt(Run(s, es[..m]).o, i, req)
  {
    assert forall n :: 0 <= n < m ==> es[..m][..n] == es[..n];
  }

  lemma {:induction false} EvidenceBacked(s: Sys, es: seq<Event>, i: nat)
    requires Inv(s) && Possible(s, es) && i < POOL && Polling(s.o.slots[i])
    requires !s.o.slots[i].txn.heard && !s.o.slots[i].txn.acked
    requires PollsThroughout(s, es, i, s.o.slots[i].txn.req)
    ensures |Run(s, es).o.slots| == POOL
    ensures Backed(s.o.slots[i].txn, Run(s, es).o.slots[i].txn,
                   RecordSeenIn(s, es, i, s.o.slots[i].txn.want), AckSeenIn(s, es, i))
    decreases |es|
  {
    if es != [] {
      var m := |es| - 1;
      var t0 := s.o.slots[i].txn;
      ThroughoutFront(s, es, m, i, t0.req);
      EvidenceBacked(s, es[..m], i);
      SeenLonger(s, es, m, i, t0.want);
      RunInv(s, es[..m]);
      LastStep(s, es, m, i, t0);
    }
  }

  lemma LastStep(s: Sys, es: seq<Event>, m: nat, i: nat, t0: Txn)
    requires |es| == m + 1 && Inv(Run(s, es[..m])) && Enabled(Run(s, es[..m]), es[m])
    requires i < POOL && PollsAt(Run(s, es[..m]).o, i, t0.req)
    requires Backed(t0, Run(s, es[..m]).o.slots[i].txn, RecordSeenIn(s, es, i, t0.want), AckSeenIn(s, es, i))
    ensures |Run(s, es).o.slots| == POOL
    ensures Backed(t0, Run(s, es).o.slots[i].txn, RecordSeenIn(s, es, i, t0.want), AckSeenIn(s, es, i))
  {
    StepEvidence(Run(s, es[..m]), es[m], i);
  }

  /** A 300-byte frame with a valid checksum whose type byte answers the opcode: 3 for 0x97, 2 for 0x96. */
  predicate FrameFor(f: seq<Byte>, opcode: nat) {
    |f| == 300 && ChecksumOk(f) && ((opcode == 0x97 && f[4] == 3) || (opcode == 0x96 && f[4] == 2))
  }

  /** Event `e` is a notification on slot `i` that completes a frame for the opcode. */
  predicate FrameHere(o: Owner, e: Radio, i: nat, opcode: nat) {
    && e.GapNotify? && i < |o.slots| && ByConn(o.slots, e.h) == Some(i)
    && (var frames := Reassembly.Feed(Reassembly.Out(o.slots[i].reasm, []), e.data).frames;
        exists k :: 0 <= k < |frames| && FrameFor(frames[k], opcode))
  }

  ghost predicate FrameSeenIn(s: Sys, es: seq<Event>, i: nat, opcode: nat) {
    exists n :: 0 <= n < |es| && es[n].BleRadio? && FrameHere(Run(s, es[..n]).o, es[n].r, i, opcode)
  }

  /** The record waited for, read off the bytes. */
  lemma BytesTell(o: Owner, e: Radio, i: nat, want: Record, opcode: nat)
    requires RecordHere(o, e, i, want) && Asks(opcode, want)
    ensures FrameHere(o, e, i, opcode)
  {
    var frames := Reassembly.Feed(Reassembly.Out(o.slots[i].reasm, []), e.data).frames;
    var k :| 0 <= k < |frames| && RecordOf(frames[k]) == want && ValidFrame(frames[k]);
    assert FrameFor(frames[k], opcode);
  }

  lemma BytesSeen(s: Sys, es: seq<Event>, i: nat, want: Record, opcode: nat)
    requires RecordSeenIn(s, es, i, want) && Asks(opcode, want)
    ensures FrameSeenIn(s, es, i, opcode)
  {
    var n :| 0 <= n < |es| && es[n].BleRadio? && RecordHere(Run(s, es[..n]).o, es[n].r, i, want);
    BytesTell(Run(s, es[..n]).o, es[n].r, i, want, opcode);
  }

  /** Response `r` answers the poll of `l`, and says OK only on the evidence of the run. */
  ghost predicate Truthful(r: Response, l: Slot, s: Sys, es: seq<Event>, i: nat) {
    && ResponseToken(r) == Token(l.bank, l.txn.req.cmdId)
    && (r.status == Ok || r.status == GattError || r.status == Timeout || r.status == LinkDown)
    && (r.status == Ok ==>
          && FrameSeenIn(s, es, i, l.txn.req.opcode)
          && (l.txn.usedRequest ==> AckSeenIn(s, es, i)))
  }

  /**
   A poll has just been submitted on slot `i`, and is waited for until the last event of the run. Then
   it still is, or its answer is in the response queue: GATT error, timeout, link down, or OK, and
   OK only if within the run a notification on the slot completed a valid 300-byte frame, of type 3
   for opcode 0x97 and of type 2 for opcode 0x96, and, for a Write Request, its acknowledgement
   arrived, in whichever order.
   */
  lemma PollTruth(s: Sys, es: seq<Event>, i: nat)
    requires Inv(s) && Possible(s, es) && i < POOL && Polling(s.o.slots[i])
    requires !s.o.slots[i].txn.heard && !s.o.slots[i].txn.acked
    requires PollsThroughout(s, es, i, s.o.slots[i].txn.req)
    ensures |Run(s, es).o.slots| == POOL
    ensures Holds(Run(s, es).o.slots[i]) || TruthfulAnswer(Run(s, es).o.rspQ, s.o.slots[i], s, es, i)
  {
    EvidenceBacked(s, es, i);
    if es != [] {
      var m := |es| - 1;
      RunInv(s, es[..m]);
      assert PollsAt(Run(s, es[..m]).o, i, s.o.slots[i].txn.req);
      InSlot(s.o, i);
      InSlot(Run(s, es[..m]).o, i);
      AnsweredByRadio(Run(s, es[..m]), es[m], i);
      if !Holds(Run(s, es).o.slots[i]) {
        var q := Run(s, es).o.rspQ;
        var l := Run(s, es[..m]).o.slots[i];
        var k :| 0 <= k < |q| && AnswerAt(l, Run(s, es).o.slots[i].txn, q, k);
        if q[k].status == Ok {
          BytesSeen(s, es, i, s.o.slots[i].txn.want, s.o.slots[i].txn.req.opcode);
        }
        assert Truthful(q[k], s.o.slots[i], s, es, i);
      }
    }
  }

  ghost predicate TruthfulAnswer(q: seq<Response>, l: Slot, s: Sys, es: seq<Event>, i: nat) {
    exists k :: 0 <= k < |q| && Truthful(q[k], l, s, es, i)
  }

  /** Only a radio event ends a poll, and it queues the answer. */
  lemma AnsweredByRadio(s: Sys, e: Event, i: nat)
    requires Inv(s) && Enabled(s, e) && i < POOL && Polling(s.o.slots[i])
    ensures |Step(s, e).o.slots| == POOL
    ensures Holds(Step(s, e).o.slots[i]) ||
            (var q := Step(s, e).o.rspQ;
             exists k :: 0 <= k < |q| && AnswerAt(s.o.slots[i], Step(s, e).o.slots[i].txn, q, k))
  {
    if e.BleRadio? {
      TokenBound(s);
      PollOutcome(s.o, e.r, e.nowUs, i);
    } else if e.BleExec? {
      if s.reqQ != [] {
        ExecLeavesHolding(s.o, s.reqQ[0], e.env, e.nowUs, i);
      }
    } else {
      OffRadioLeaves(s, e);
    }
  }

  // ---- Polls do end ---------------------------------------------------------------------------

  lemma {:induction false} NothingToAnswer(l: Slot, frames: seq<seq<Byte>>)
    requires !l.txn.active
    ensures FramesDone(l, frames).rsps == []
    decreases |frames|
  {
    if frames != [] {
      NothingToAnswer(FrameDone(l, RecordOf(frames[0])).slot, frames[1..]);
    }
  }

  /** The frame waited for, with nothing else to wait for. */
  lemma WantedAnswers(l: Slot)
    requires l.txn.active && l.txn.req.kind == Poll && l.txn.writeCookie == 0
    ensures FrameDone(l, l.txn.want).rsps == [Response(l.bank, l.txn.req.cmdId, Ok, l.txn.want)]
    ensures !FrameDone(l, l.txn.want).slot.txn.active
  {
  }

  lemma OthersPass(l: Slot, rec: Record)
    requires rec != l.txn.want
    ensures FrameDone(l, rec).rsps == [] && FrameDone(l, rec).slot == l
  {
  }

  lemma {:induction false} FramesAnswer(l: Slot, frames: seq<seq<Byte>>)
    requires l.txn.active && l.txn.req.kind == Poll && l.txn.writeCookie == 0 && Among(frames, l.txn.want)
    ensures FramesDone(l, frames).rsps == [Response(l.bank, l.txn.req.cmdId, Ok, l.txn.want)]
    decreases |frames|
  {
    var k :| 0 <= k < |frames| && RecordOf(frames[k]) == l.txn.want;
    if RecordOf(frames[0]) == l.txn.want {
      WantedAnswers(l);
      NothingToAnswer(FrameDone(l, l.txn.want).slot, frames[1..]);
    } else {
      OthersPass(l, RecordOf(frames[0]));
      assert RecordOf(frames[1..][k - 1]) == l.txn.want;
      FramesAnswer(l, frames[1..]);
    }
  }

  /** The bytes that answer an opcode make the record waited for. */
  lemma TellsBytes(r: Reassembly.Machine, data: seq<Byte>, opcode: nat, want: Record)
    requires Asks(opcode, want)
    requires var frames := Reassembly.Feed(Reassembly.Out(r, []), data).frames;
             exists k :: 0 <= k < |frames| && FrameFor(frames[k], opcode)
    ensures Among(Reassembly.Feed(Reassembly.Out(r, []), data).frames, want)
  {
    Reassembly.DeliveredComplete(Reassembly.Out(r, []), data, 0, |data|);
    var frames := Reassembly.Feed(Reassembly.Out(r, []), data).frames;
    var k :| 0 <= k < |frames| && FrameFor(frames[k], opcode);
    assert RecordOf(frames[k]) == want;
  }

  /** What the invariant says of a slot that waits for a poll. */
  lemma PollStands(o: Owner, i: nat)
    requires Pre(o) && i < POOL && Polling(o.slots[i])
    ensures |o.rspQ| < QUEUE_DEPTH && SubmissionOk(o.slots[i].txn)
  {
    InSlot(o, i);
    RoomToAnswer(o, i);
  }

  /** The one answer an effect queues. */
  lemma Queued(o: Owner, i: nat, e: Effect, r: Response, nowUs: int)
    requires i < |o.slots| && |o.rspQ| < QUEUE_DEPTH && e.rsps == [r]
    ensures Apply(o, i, e, nowUs).rspQ == o.rspQ + [r]
  {
    OneResponse(o.rspQ, r);
  }

  lemma ChunkAnswers(l: Slot, data: seq<Byte>)
    requires l.txn.active && l.txn.req.kind == Poll && l.txn.writeCookie == 0 && Asks(l.txn.req.opcode, l.txn.want)
    requires var frames := Reassembly.Feed(Reassembly.Out(l.reasm, []), data).frames;
             exists k :: 0 <= k < |frames| && FrameFor(frames[k], l.txn.req.opcode)
    ensures NotifyChunk(l, data).rsps == [Response(l.bank, l.txn.req.cmdId, Ok, l.txn.want)]
  {
    TellsBytes(l.reasm, data, l.txn.req.opcode, l.txn.want);
    var out := Reassembly.Feed(Reassembly.Out(l.reasm, []), data);
    FramesAnswer(l.(reasm := out.next), out.frames);
  }

  /** A poll that waits for nothing but its record is answered OK by the notification that completes it. */
  lemma FrameAnswersPoll(o: Owner, h: nat, data: seq<Byte>, nowUs: int, i: nat)
    requires Pre(o) && i < POOL && Polling(o.slots[i]) && o.slots[i].txn.writeCookie == 0
    requires FrameHere(o, GapNotify(h, data), i, o.slots[i].txn.req.opcode)
    ensures var l := o.slots[i];
            OnRadio(o, GapNotify(h, data), nowUs).rspQ == o.rspQ + [Response(l.bank, l.txn.req.cmdId, Ok, l.txn.want)]
  {
    var l := o.slots[i];
    PollStands(o, i);
    ChunkAnswers(l, data);
    Queued(o, i, NotifyChunk(l, data), Response(l.bank, l.txn.req.cmdId, Ok, l.txn.want), nowUs);
  }

  lemma AckAnswers(l: Slot, attr: Option<nat>, cookie: nat)
    requires l.txn.active && l.txn.req.kind == Poll && l.txn.recordSeen
    requires attr == Some(l.txn.writeHandle) && cookie == l.txn.writeCookie != 0
    ensures WriteDone(l, ErrOk, attr, cookie).rsps == [Response(l.bank, l.txn.req.cmdId, Ok, l.txn.want)]
  {
  }

  /** A poll whose record came first is answered OK by its acknowledgement. */
  lemma AckAnswersPoll(o: Owner, h: nat, attr: Option<nat>, cookie: nat, nowUs: int, i: nat)
    requires Pre(o) && i < POOL && Polling(o.slots[i]) && o.slots[i].txn.heard
    requires AckHere(o, GattWritten(h, ErrOk, attr, cookie), i)
    ensures var l := o.slots[i];
            OnRadio(o, GattWritten(h, ErrOk, attr, cookie), nowUs).rspQ
            == o.rspQ + [Response(l.bank, l.txn.req.cmdId, Ok, l.txn.want)]
  {
    var l := o.slots[i];
    PollStands(o, i);
    AckAnswers(l, attr, cookie);
    Queued(o, i, WriteDone(l, ErrOk, attr, cookie), Response(l.bank, l.txn.req.cmdId, Ok, l.txn.want), nowUs);
  }
}
