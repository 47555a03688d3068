/**
 Deadlines, from the event that starts an operation to the event that ends it: a timeout is never
 early, and the first sweep after the deadline ends whatever is still waiting.
 */
module Deadlines {
  import opened Prelude
  import opened JkFrame
  import opened NodeATypes
  import opened Links
  import opened LinkPool
  import opened PoolInvariant
  import opened NodeA
  import Reassembly
  import PollEvidence

  /** An effect that moves no deadline and reports no timeout. */
  predicate Timeless(l: Slot, e: Effect) {
    e.slot.txn.deadlineUs == l.txn.deadlineUs && forall k :: 0 <= k < |e.rsps| ==> e.rsps[k].status != Timeout
  }

  // ---- Effects on one slot ------------------------------------------------------------------

  lemma FailTimeless(l: Slot, nowUs: int)
    ensures Timeless(l, DiscoveryFail(l, GattError, nowUs))
  {
  }

  lemma MovesTimeless(l: Slot, e: Effect, nowUs: int)
    requires Moves(l, e, nowUs)
    ensures Timeless(l, e)
  {
    FailTimeless(l, nowUs);
  }

  lemma SubscribeDoneTimeless(l: Slot, err: Err, attr: Option<nat>, nowUs: int)
    ensures Timeless(l, SubscribeDone(l, err, attr, nowUs))
  {
    FailTimeless(l, nowUs);
  }

  lemma ConnectTimeless(l: Slot, handle: Option<nat>, cookie: nat, rc: Rc, nowUs: int)
    ensures Timeless(l, ConnectEvent(l, handle, cookie, rc, nowUs))
  {
  }

  lemma DisconnectTimeless(l: Slot)
    ensures Timeless(l, DisconnectEvent(l))
  {
  }

  lemma HeardTimeless(l: Slot, rec: Record)
    ensures Heard(l, rec).txn.deadlineUs == l.txn.deadlineUs
  {
  }

  lemma CompleteTimeless(l: Slot)
    ensures Timeless(l, CompletePoll(l)) && |CompletePoll(l).rsps| <= 1
  {
  }

  lemma FrameTimeless(l: Slot, rec: Record)
    ensures Timeless(l, FrameDone(l, rec))
  {
    HeardTimeless(l, rec);
    CompleteTimeless(Heard(l, rec));
  }

  lemma {:induction false} FramesTimeless(l: Slot, frames: seq<seq<Byte>>)
    ensures Timeless(l, FramesDone(l, frames))
    decreases |frames|
  {
    if frames != [] {
      FrameTimeless(l, RecordOf(frames[0]));
      FramesTimeless(FrameDone(l, RecordOf(frames[0])).slot, frames[1..]);
    }
  }

  lemma WriteDoneTimeless(l: Slot, err: Err, attr: Option<nat>, cookie: nat)
    ensures Timeless(l, WriteDone(l, err, attr, cookie))
  {
    var ok := err == ErrOk && attr == Some(l.txn.writeHandle);
    CompleteTimeless(l.(txn := l.txn.(writeCookie := 0, acked := ok)));
  }

  /** One slot of a sweep: a timeout exactly when an operation is past its deadline. */
  lemma SweepRule(l: Slot, nowUs: int)
    requires l.inUse ==> (l.failed ==> !l.txn.active)
    ensures var e := SweepSlot(l, nowUs);
            && e.slot.txn.deadlineUs == l.txn.deadlineUs
            && (if Holds(l) && nowUs > l.txn.deadlineUs then
                  e.rsps == [Response(l.bank, l.txn.req.cmdId, Timeout, NoRecord)] && !e.slot.txn.active
                else e.rsps == [] && e.slot.txn == l.txn)
  {
  }

  // ---- The pool ---------------------------------------------------------------------------------

  /** Responses are only added, none of them a timeout, and no deadline moves. */
  ghost predicate Calm(o: Owner, o': Owner) {
    && o.rspQ <= o'.rspQ && |o'.slots| == |o.slots|
    && (forall k :: |o.rspQ| <= k < |o'.rspQ| ==> o'.rspQ[k].status != Timeout)
    && (forall i :: 0 <= i < |o.slots| ==> o'.slots[i].txn.deadlineUs == o.slots[i].txn.deadlineUs)
  }

  lemma {:induction false} RespondCalm(q: seq<Response>, rs: seq<Response>)
    requires forall k :: 0 <= k < |rs| ==> rs[k].status != Timeout
    ensures q <= Respond(q, rs)
    ensures forall k :: |q| <= k < |Respond(q, rs)| ==> Respond(q, rs)[k].status != Timeout
    decreases |rs|
  {
    if rs != [] {
      RespondCalm(if |q| < QUEUE_DEPTH then q + [rs[0]] else q, rs[1..]);
    }
  }

  lemma ApplyCalm(o: Owner, i: nat, e: Effect, nowUs: int)
    requires i < |o.slots| && Timeless(o.slots[i], e)
    ensures Calm(o, Apply(o, i, e, nowUs))
  {
    RespondCalm(o.rspQ, e.rsps);
  }

  lemma ChrTimeless(l: Slot, err: Err, chr: Option<Chr>, rc: Rc, nowUs: int)
    requires l.pending
    ensures Timeless(l, ChrStep(l, err, chr, rc, nowUs))
  {
    FailTimeless(l, nowUs);
    var g := if chr.Some? then AddChr(l.gatt, chr.value) else l.gatt;
    ChrTailMoves(l, g, err, rc, nowUs);
    MovesTimeless(l, ChrTail(l, g, err, rc, nowUs), nowUs);
  }

  lemma SvcTimeless(l: Slot, err: Err, svc: Option<Svc>, rc: Rc, nowUs: int)
    ensures Timeless(l, SvcStep(l, err, svc, rc, nowUs))
  {
    FailTimeless(l, nowUs);
    if svc.Some? {
      FailTimeless(l.(gatt := l.gatt.(serviceSeen := true, serviceEnd := svc.value.last)), nowUs);
    }
  }

  lemma GattCalm(o: Owner, e: Radio, nowUs: int)
    requires e.GattSvc? || e.GattChr? || e.GattDsc? || e.GattSubscribed?
    ensures Calm(o, OnRadio(o, e, nowUs))
  {
    var r := if e.cookie == 0 then None else ByCookie(o.slots, e.h, e.cookie);
    if r.Some? {
      var l := o.slots[r.value];
      match e {
        case GattSvc(_, err, svc, _, rc) =>
          SvcTimeless(l, err, svc, rc, nowUs);
          ApplyCalm(o, r.value, SvcStep(l, err, svc, rc, nowUs), nowUs);
        case GattChr(_, err, chr, _, rc) =>
          ChrTimeless(l, err, chr, rc, nowUs);
          ApplyCalm(o, r.value, ChrStep(l, err, chr, rc, nowUs), nowUs);
        case GattDsc(_, err, v, dsc, _, rc1, rc2) =>
          DescriptorMoves(l, err, v, dsc, rc1, rc2, nowUs);
          MovesTimeless(l, DescriptorStep(l, err, v, dsc, rc1, rc2, nowUs), nowUs);
          ApplyCalm(o, r.value, DescriptorStep(l, err, v, dsc, rc1, rc2, nowUs), nowUs);
        case GattSubscribed(_, err, attr, _) =>
          SubscribeDoneTimeless(l, err, attr, nowUs);
          ApplyCalm(o, r.value, SubscribeDone(l, err, attr, nowUs), nowUs);
      }
    }
  }

  lemma ConnCalm(o: Owner, e: Radio, nowUs: int)
    requires e.GapDisconnect? || e.GapNotify? || e.GattWritten?
    ensures Calm(o, OnRadio(o, e, nowUs))
  {
    var r := ByConn(o.slots, e.h);
    if r.Some? {
      var l := o.slots[r.value];
      match e {
        case GapDisconnect(_) =>
          DisconnectTimeless(l);
          ApplyCalm(o, r.value, DisconnectEvent(l), nowUs);
        case GapNotify(_, data) =>
          var out := Reassembly.Feed(Reassembly.Out(l.reasm, []), data);
          FramesTimeless(l.(reasm := out.next), out.frames);
          ApplyCalm(o, r.value, NotifyChunk(l, data), nowUs);
        case GattWritten(_, err, attr, cookie) =>
          WriteDoneTimeless(l, err, attr, cookie);
          ApplyCalm(o, r.value, WriteDone(l, err, attr, cookie), nowUs);
      }
    }
  }

  lemma ConnectCalm(o: Owner, arg: nat, handle: Option<nat>, rc: Rc, nowUs: int)
    ensures Calm(o, OnConnect(o, arg, handle, rc, nowUs))
  {
    if arg < |o.slots| {
      var o1 := o.(inflight := None);
      var o2 := if handle.Some? then o1.(discCtr := NextCookie(o.discCtr), generations := o.generations + 1) else o1;
      ConnectTimeless(o.slots[arg], handle, o2.discCtr, rc, nowUs);
      ApplyCalm(o2, arg, ConnectEvent(o.slots[arg], handle, o2.discCtr, rc, nowUs), nowUs);
    }
  }

  /** No callback moves a deadline or reports a timeout. */
  lemma CallbackCalm(o: Owner, e: Radio, nowUs: int)
    requires !e.SweepDue?
    ensures Calm(o, OnRadio(o, e, nowUs))
  {
    if e.GapConnect? {
      ConnectCalm(o, e.slot, e.handle, e.rc, nowUs);
    } else if e.GapDisconnect? || e.GapNotify? || e.GattWritten? {
      ConnCalm(o, e, nowUs);
    } else {
      GattCalm(o, e, nowUs);
    }
  }

  // ---- The sweep ------------------------------------------------------------------------------------

  /** Slot `l` holds an operation that is past its deadline. */
  predicate Overdue(l: Slot, nowUs: int) { Holds(l) && nowUs > l.txn.deadlineUs }

  /** Response `r` is the timeout of slot `l`. */
  predicate TimeoutOf(r: Response, l: Slot) {
    ResponseToken(r) == Token(l.bank, l.txn.req.cmdId) && r.status == Timeout
  }

  ghost predicate NoFailedHolds(slots: seq<Slot>) {
    forall i :: 0 <= i < |slots| && slots[i].inUse && slots[i].failed ==> !slots[i].txn.active
  }

  lemma SweepOneKeepsOthers(o: Owner, nowUs: int, i: nat)
    requires i < |o.slots| && NoFailedHolds(o.slots)
    ensures var o' := Apply(o, i, SweepSlot(o.slots[i], nowUs), nowUs);
            && NoFailedHolds(o'.slots) && |o'.slots| == |o.slots|
            && (forall j :: 0 <= j < |o.slots| && j != i ==> o'.slots[j] == o.slots[j])
            && o'.slots[i].txn.deadlineUs == o.slots[i].txn.deadlineUs
            && (!Overdue(o.slots[i], nowUs) ==> o'.rspQ == o.rspQ && o'.slots[i].txn == o.slots[i].txn)
            && (Overdue(o.slots[i], nowUs) ==> !o'.slots[i].txn.active)
            && o.rspQ <= o'.rspQ && |o'.rspQ| <= |o.rspQ| + 1
            && (forall k :: |o.rspQ| <= k < |o'.rspQ| ==> Overdue(o.slots[i], nowUs) && TimeoutOf(o'.rspQ[k], o.slots[i]))
  {
    SweepRule(o.slots[i], nowUs);
    var e := SweepSlot(o.slots[i], nowUs);
    if e.rsps != [] {
      RespondOne(o.rspQ, e.rsps[0]);
      assert e.rsps == [e.rsps[0]];
    }
  }

  lemma RespondOne(q: seq<Response>, r: Response)
    ensures Respond(q, [r]) == if |q| < QUEUE_DEPTH then q + [r] else q
  {
    assert [r][1..] == [];
  }

  /** Response `r` is the timeout of an overdue slot, from slot `i` on. */
  ghost predicate Blamed(slots: seq<Slot>, i: nat, nowUs: int, r: Response) {
    exists j :: i <= j < |slots| && Overdue(slots[j], nowUs) && TimeoutOf(r, slots[j])
  }

  /** A sweep from slot `i` on: each timeout it queues belongs to an overdue slot, and it ends them all. */
  lemma {:induction false} SweepExact(o: Owner, nowUs: int, i: nat)
    requires i <= |o.slots| && NoFailedHolds(o.slots)
    ensures var o' := Sweep(o, nowUs, i);
            && o.rspQ <= o'.rspQ && |o'.slots| == |o.slots|
            && (forall k :: |o.rspQ| <= k < |o'.rspQ| ==> Blamed(o.slots, i, nowUs, o'.rspQ[k]))
            && (forall j :: 0 <= j < |o.slots| ==>
                              && o'.slots[j].txn.deadlineUs == o.slots[j].txn.deadlineUs
                              && (i <= j && Overdue(o.slots[j], nowUs) ==> !o'.slots[j].txn.active)
                              && (j < i || !Overdue(o.slots[j], nowUs) ==> o'.slots[j].txn == o.slots[j].txn))
    decreases |o.slots| - i
  {
    if i < |o.slots| {
      var o1 := Apply(o, i, SweepSlot(o.slots[i], nowUs), nowUs);
      SweepOneKeepsOthers(o, nowUs, i);
      SweepExact(o1, nowUs, i + 1);
      var o' := Sweep(o1, nowUs, i + 1);
      forall k | |o.rspQ| <= k < |o'.rspQ|
        ensures Blamed(o.slots, i, nowUs, o'.rspQ[k])
      {
        if k < |o1.rspQ| {
          assert o'.rspQ[k] == o1.rspQ[k];
          assert Overdue(o.slots[i], nowUs) && TimeoutOf(o'.rspQ[k], o.slots[i]);
        } else {
          var j :| i + 1 <= j < |o1.slots| && Overdue(o1.slots[j], nowUs) && TimeoutOf(o'.rspQ[k], o1.slots[j]);
          assert Overdue(o.slots[j], nowUs) && TimeoutOf(o'.rspQ[k], o.slots[j]);
        }
      }
    }
  }

  // ---- Requests -----------------------------------------------------------------------------------

  /** Responses are only added, none of them a timeout. */
  ghost predicate Added(q: seq<Response>, q': seq<Response>) {
    q <= q' && forall k :: |q| <= k < |q'| ==> q'[k].status != Timeout
  }

  /** An operation that appears on slot `l'` is this request, due its timeout after `nowUs`. */
  predicate DueFrom(l: Slot, l': Slot, req: Request, nowUs: int) {
    Holds(l') && !Holds(l) ==> l'.txn.req == req && l'.txn.deadlineUs == nowUs + req.timeoutMs * 1000
  }

  /** What running a request does about time. */
  ghost predicate Starts(o: Owner, o': Owner, req: Request, nowUs: int) {
    && Added(o.rspQ, o'.rspQ) && |o'.slots| == |o.slots|
    && forall i :: 0 <= i < |o.slots| ==> DueFrom(o.slots[i], o'.slots[i], req, nowUs)
  }

  lemma ReplyStarts(o: Owner, req: Request, status: Status, nowUs: int)
    requires status != Timeout
    ensures Starts(o, Reply(o, req, status), req, nowUs)
  {
    RespondOne(o.rspQ, Response(req.bank, req.cmdId, status, NoRecord));
  }

  /** One slot changes, and at most one answer other than a timeout is given. */
  lemma SlotStarts(o: Owner, i: nat, l: Slot, o': Owner, req: Request, nowUs: int)
    requires i < |o.slots| && o'.slots == o.slots[i := l] && Added(o.rspQ, o'.rspQ)
    requires DueFrom(o.slots[i], l, req, nowUs)
    ensures Starts(o, o', req, nowUs)
  {
  }

  lemma Replied(o: Owner, slots: seq<Slot>, req: Request, status: Status)
    requires status != Timeout
    ensures Added(o.rspQ, Reply(o.(slots := slots), req, status).rspQ)
    ensures Reply(o.(slots := slots), req, status).slots == slots
  {
    RespondOne(o.rspQ, Response(req.bank, req.cmdId, status, NoRecord));
  }

  lemma StartConnectStarts(o: Owner, i: nat, l: Slot, req: Request, env: ExecEnv, nowUs: int)
    requires i < |o.slots| && l.txn.req == req && l.txn.deadlineUs == nowUs + req.timeoutMs * 1000
    ensures Starts(o, StartConnect(o, i, l, req, env), req, nowUs)
  {
    var back := o.slots[i := GiveBack(l)];
    Replied(o, back, req, LinkDown);
    Replied(o, back, req, ConnectWait);
    var o' := StartConnect(o, i, l, req, env);
    SlotStarts(o, i, o'.slots[i], o', req, nowUs);
  }

  lemma SubmitStarts(o: Owner, i: nat, req: Request, handle: nat, useRequest: bool, want: Record, rc: Rc, nowUs: int)
    requires i < |o.slots|
    ensures Starts(o, Submit(o, i, req, handle, useRequest, want, rc, nowUs), req, nowUs)
  {
    var e := SubmitWrite(o.slots[i], req, handle, useRequest, want, WriteToken(o), rc, nowUs);
    RespondCalm(o.rspQ, e.rsps);
    var o' := Submit(o, i, req, handle, useRequest, want, rc, nowUs);
    SlotStarts(o, i, e.slot, o', req, nowUs);
  }

  lemma ExecConnectStarts(o: Owner, req: Request, env: ExecEnv, nowUs: int)
    ensures Starts(o, ExecConnect(o, req, env, nowUs), req, nowUs)
  {
    ReplyStarts(o, req, LinkDown, nowUs);
    ReplyStarts(o, req, Ok, nowUs);
    match ByBank(o.slots, req.bank)
    case Some(i) => StartConnectStarts(o, i, Install(o.slots[i], req, nowUs), req, env, nowUs);
    case None =>
      match FreeSlot(o.slots)
      case None =>
      case Some(i) => StartConnectStarts(o, i, Install(FreshSlot(req.bank), req, nowUs), req, env, nowUs);
  }

  lemma ExecOnLinkStarts(o: Owner, i: nat, req: Request, env: ExecEnv, nowUs: int)
    requires i < |o.slots|
    ensures Starts(o, ExecOnLink(o, i, req, env, nowUs), req, nowUs)
  {
    var g := o.slots[i].gatt;
    var ffe2 := req.idx == 1 && g.ffe2 != 0;
    match req.kind
    case Poll =>
      ReplyStarts(o, req, Rejected, nowUs);
      SubmitStarts(o, i, req, g.val, Ffe1UsesRequest(g), Expected(req.opcode), env.rcWrite, nowUs);
    case RawWrite =>
      SubmitStarts(o, i, req, if ffe2 then g.ffe2 else g.val,
                   if ffe2 then Ffe2UsesRequest(g) else Ffe1UsesRequest(g), NoRecord, env.rcWrite, nowUs);
    case BalanceWrite => SubmitStarts(o, i, req, g.val, Ffe1UsesRequest(g), NoRecord, env.rcWrite, nowUs);
    case Disconnect => ReplyStarts(o, req, Ok, nowUs);
    case Connect =>
  }

  lemma ExecStarts(o: Owner, req: Request, env: ExecEnv, nowUs: int)
    ensures Starts(o, Exec(o, req, env, nowUs), req, nowUs)
  {
    ReplyStarts(o, req, Rejected, nowUs);
    ReplyStarts(o, req, LinkDown, nowUs);
    if req.kind == Connect {
      ExecConnectStarts(o, req, env, nowUs);
    } else {
      var l := ByBank(o.slots, req.bank);
      if l.Some? {
        ExecOnLinkStarts(o, l.value, req, env, nowUs);
      }
    }
  }

  // ---- Runs -----------------------------------------------------------------------------------------

  /** Slot `i` holds operation `req`. */
  predicate HoldsAt(o: Owner, i: nat, req: Request) {
    i < |o.slots| && Holds(o.slots[i]) && o.slots[i].txn.req == req
  }

  /** ... at every moment before the last event. */
  ghost predicate HoldsThroughout(s: Sys, es: seq<Event>, i: nat, req: Request) {
    forall n :: 0 <= n < |es| ==> HoldsAt(Run(s, es[..n]).o, i, req)
  }

  /** The BLE task ran request `req` at `nowUs` and put it on slot `i`. */
  predicate Started(s: Sys, env: ExecEnv, nowUs: int, i: nat, req: Request) {
    && s.reqQ != [] && s.reqQ[0] == req && i < |s.o.slots| && !Holds(s.o.slots[i])
    && HoldsAt(Step(s, BleExec(env, nowUs)).o, i, req)
  }

  lemma StepKeepsDeadline(s: Sys, e: Event, i: nat)
    requires Inv(s) && Enabled(s, e) && i < POOL && Holds(s.o.slots[i])
    ensures |Step(s, e).o.slots| == POOL
    ensures Step(s, e).o.slots[i].txn.deadlineUs == s.o.slots[i].txn.deadlineUs
  {
    if e.BleRadio? {
      if e.r.SweepDue? {
        FailedIdle(s.o);
        SweepExact(s.o, e.nowUs, 0);
      } else {
        CallbackCalm(s.o, e.r, e.nowUs);
      }
    } else if e.BleExec? {
      if s.reqQ != [] {
        ExecLeavesHolding(s.o, s.reqQ[0], e.env, e.nowUs, i);
      }
    } else {
      PollEvidence.OffRadioLeaves(s, e);
    }
  }

  lemma FailedIdle(o: Owner)
    requires PoolInv(o)
    ensures NoFailedHolds(o.slots) && |o.slots| == POOL
  {
    forall i | 0 <= i < |o.slots| && o.slots[i].inUse && o.slots[i].failed ensures !o.slots[i].txn.active {
      InSlot(o, i);
    }
  }

  lemma ThroughoutFront(s: Sys, es: seq<Event>, m: nat, i: nat, req: Request)
    requires m < |es| && HoldsThroughout(s, es, i, req)
    ensures HoldsThroughout(s, es[..m], i, req) && HoldsAt(Run(s, es[..m]).o, i, req)
  {
    assert forall n :: 0 <= n < m ==> es[..m][..n] == es[..n];
  }

  lemma {:induction false} DeadlineKept(s: Sys, es: seq<Event>, i: nat, req: Request)
    requires Inv(s) && Possible(s, es) && i < POOL && HoldsAt(s.o, i, req) && HoldsThroughout(s, es, i, req)
    ensures |Run(s, es).o.slots| == POOL && Run(s, es).o.slots[i].txn.deadlineUs == s.o.slots[i].txn.deadlineUs
    decreases |es|
  {
    if es == [] {
      InSlotCount(s.o);
    } else {
      var m := |es| - 1;
      ThroughoutFront(s, es, m, i, req);
      DeadlineKept(s, es[..m], i, req);
      RunInv(s, es[..m]);
      StepKeepsDeadline(Run(s, es[..m]), es[m], i);
    }
  }

  lemma InSlotCount(o: Owner)
    requires PoolInv(o)
    ensures |o.slots| == POOL
  {
  }

  /** The deadline an operation still has after any run that left it waiting. */
  lemma DeadlineThen(s: Sys, env: ExecEnv, startUs: int, es: seq<Event>, i: nat, req: Request)
    requires Inv(s) && i < POOL && Started(s, env, startUs, i, req)
    requires Possible(Step(s, BleExec(env, startUs)), es)
    requires HoldsThroughout(Step(s, BleExec(env, startUs)), es, i, req)
    ensures Inv(Run(Step(s, BleExec(env, startUs)), es))
    ensures |Run(Step(s, BleExec(env, startUs)), es).o.slots| == POOL
    ensures Run(Step(s, BleExec(env, startUs)), es).o.slots[i].txn.deadlineUs == startUs + req.timeoutMs * 1000
  {
    var s1 := Step(s, BleExec(env, startUs));
    StepInv(s, BleExec(env, startUs));
    RunInv(s1, es);
    ExecStarts(s.o, req, env, startUs);
    assert DueFrom(s.o.slots[i], s1.o.slots[i], req, startUs);
    DeadlineKept(s1, es, i, req);
  }

  /** Responses a step adds. */
  predicate Adds(s: Sys, s': Sys, k: nat) { |s.o.rspQ| <= k < |s'.o.rspQ| }

  lemma QuietQueue(s: Sys, e: Event)
    requires !e.BleRadio? && !e.BleExec?
    ensures |Step(s, e).o.rspQ| <= |s.o.rspQ|
  {
  }

  lemma RadioTimeout(o: Owner, e: Radio, nowUs: int, k: nat)
    requires PoolInv(o) && |o.rspQ| <= k < |OnRadio(o, e, nowUs).rspQ|
    requires OnRadio(o, e, nowUs).rspQ[k].status == Timeout
    ensures e.SweepDue? && Blamed(o.slots, 0, nowUs, OnRadio(o, e, nowUs).rspQ[k])
  {
    if e.SweepDue? {
      FailedIdle(o);
      SweepExact(o, nowUs, 0);
    } else {
      CallbackCalm(o, e, nowUs);
    }
  }

  /** A timeout added by a step is that of a slot past its deadline, added by a sweep. */
  lemma TimeoutAdded(s: Sys, e: Event, k: nat)
    requires Inv(s) && Adds(s, Step(s, e), k) && Step(s, e).o.rspQ[k].status == Timeout
    ensures e.BleRadio? && e.r.SweepDue? && Blamed(s.o.slots, 0, e.nowUs, Step(s, e).o.rspQ[k])
  {
    if e.BleRadio? {
      RadioTimeout(s.o, e.r, e.nowUs, k);
    } else if e.BleExec? {
      if s.reqQ != [] {
        ExecStarts(s.o, s.reqQ[0], e.env, e.nowUs);
      }
    } else {
      QuietQueue(s, e);
    }
  }

  /** The slot a timeout belongs to is the one that holds its operation. */
  lemma BlamedIs(o: Owner, i: nat, req: Request, r: Response, nowUs: int)
    requires PoolInv(o) && HoldsAt(o, i, req) && Blamed(o.slots, 0, nowUs, r)
    requires ResponseToken(r) == RequestToken(req)
    ensures nowUs > o.slots[i].txn.deadlineUs
  {
    InSlot(o, i);
    var j :| 0 <= j < |o.slots| && Overdue(o.slots[j], nowUs) && TimeoutOf(r, o.slots[j]);
    assert o.slots[j].bank == o.slots[i].bank;
  }

  /**
   A timeout is never early. An operation was put on a slot at `startUs` and waited there through a
   run; if the next event queues its timeout, that event is a sweep, later than `startUs` plus the
   request's own timeout.
   */
  lemma NeverEarly(s: Sys, env: ExecEnv, startUs: int, es: seq<Event>, e: Event, i: nat, req: Request, k: nat)
    requires Inv(s) && i < POOL && Started(s, env, startUs, i, req)
    requires Possible(Step(s, BleExec(env, startUs)), es)
    requires HoldsThroughout(Step(s, BleExec(env, startUs)), es, i, req)
    requires HoldsAt(Run(Step(s, BleExec(env, startUs)), es).o, i, req)
    requires Adds(Run(Step(s, BleExec(env, startUs)), es), Step(Run(Step(s, BleExec(env, startUs)), es), e), k)
    requires var r := Step(Run(Step(s, BleExec(env, startUs)), es), e).o.rspQ[k];
             r.status == Timeout && ResponseToken(r) == RequestToken(req)
    ensures e.BleRadio? && e.r.SweepDue? && e.nowUs > startUs + req.timeoutMs * 1000
  {
    DeadlineThen(s, env, startUs, es, i, req);
    var mid := Run(Step(s, BleExec(env, startUs)), es);
    TimeoutAdded(mid, e, k);
    BlamedIs(mid.o, i, req, Step(mid, e).o.rspQ[k], e.nowUs);
  }

  lemma SweepEnds(s: Sys, nowUs: int, i: nat)
    requires Inv(s) && i < |s.o.slots| && Overdue(s.o.slots[i], nowUs)
    ensures var s' := Step(s, BleRadio(SweepDue, nowUs));
            i < |s'.o.slots| && !Holds(s'.o.slots[i])
  {
    FailedIdle(s.o);
    SweepExact(s.o, nowUs, 0);
  }

  /**
   Nor is it missed: after a sweep later than that, the slot no longer holds the operation.
   */
  lemma NeverMissed(s: Sys, env: ExecEnv, startUs: int, es: seq<Event>, nowUs: int, i: nat, req: Request)
    requires Inv(s) && i < POOL && Started(s, env, startUs, i, req)
    requires Possible(Step(s, BleExec(env, startUs)), es)
    requires HoldsThroughout(Step(s, BleExec(env, startUs)), es, i, req)
    requires HoldsAt(Run(Step(s, BleExec(env, startUs)), es).o, i, req)
    requires nowUs > startUs + req.timeoutMs * 1000
    ensures var s' := Step(Run(Step(s, BleExec(env, startUs)), es), BleRadio(SweepDue, nowUs));
            i < |s'.o.slots| && !Holds(s'.o.slots[i])
  {
    DeadlineThen(s, env, startUs, es, i, req);
    SweepEnds(Run(Step(s, BleExec(env, startUs)), es), nowUs, i);
  }
}
