/**
 What the BLE task decides, said in terms of the state before and after a step of Node A: where a write
 goes and how, how each request that cannot run is answered, what a connect attempt does to the
 radio, and what makes a link ready or reports it down.
 */
module ExecRules {
  import opened Prelude
  import opened JkFrame
  import opened NodeATypes
  import opened StateCache
  import opened Links
  import opened LinkPool
  import opened PoolInvariant
  import opened NodeA
  import PollEvidence
  import Reassembly

  /** Slot `i` is the ready link of a bank, with nothing in flight. */
  predicate Available(o: Owner, i: nat, bank: nat) {
    && i < |o.slots| && o.slots[i].inUse && o.slots[i].bank == bank && o.slots[i].ready
    && !o.slots[i].txn.active && o.slots[i].txn.writeCookie == 0 && o.slots[i].gatt.val != 0
  }

  /** The request at the head of the BLE queue is answered at once, and nothing else changes. */
  predicate Answered(s: Sys, s': Sys, status: Status) {
    && s.reqQ != [] && s'.reqQ == s.reqQ[1..] && s'.pend == s.pend && s'.arbIn == s.arbIn
    && s'.o == s.o.(rspQ := s.o.rspQ + [Response(s.reqQ[0].bank, s.reqQ[0].cmdId, status, NoRecord)])
  }

  /** There is room for the answer. */
  lemma RoomForAnswer(s: Sys)
    requires Inv(s) && s.reqQ != []
    ensures |s.o.rspQ| < QUEUE_DEPTH && PoolInv(s.o)
  {
    TokenBound(s);
    ResponseTokensSize(s.o.rspQ);
  }

  lemma ReplyIs(o: Owner, req: Request, status: Status)
    requires |o.rspQ| < QUEUE_DEPTH
    ensures Reply(o, req, status) == o.(rspQ := o.rspQ + [Response(req.bank, req.cmdId, status, NoRecord)])
  {
    OneResponse(o.rspQ, Response(req.bank, req.cmdId, status, NoRecord));
  }

  /** The slot of a bank is the one its lookup finds. */
  lemma Found(o: Owner, i: nat, bank: nat)
    requires PoolInv(o) && i < |o.slots| && o.slots[i].inUse && o.slots[i].bank == bank
    ensures ByBank(o.slots, bank) == Some(i)
  {
  }

  // ---- Writes ---------------------------------------------------------------------------------

  /** Where a write goes: FFE2 for an app write with index 1 if there is one, and FFE1 otherwise. */
  predicate Target(g: Gatt, req: Request, handle: nat) {
    if req.kind == RawWrite && req.idx == 1 && g.ffe2 != 0 then handle == g.ffe2 else handle == g.val
  }

  /**
   How: as a Write Request unless FFE1 permits only commands; on FFE2 as a command unless it permits
   only requests.
   */
  predicate Mode(g: Gatt, req: Request, asRequest: bool) {
    if req.kind == RawWrite && req.idx == 1 && g.ffe2 != 0
    then asRequest <==> g.ffe2Props.write && !g.ffe2Props.writeNoRsp
    else asRequest <==> g.ffe1Props.write || !g.ffe1Props.writeNoRsp
  }

  /** The answer to a write that was handed to the radio: none while it is waited for. */
  function AtOnce(req: Request, rc: Rc, waits: bool): seq<Response> {
    if rc != RcOk then [Response(req.bank, req.cmdId, GattError, NoRecord)]
    else if waits then [] else [Response(req.bank, req.cmdId, Ok, NoRecord)]
  }

  /** The write is in the slot's transaction, fresh, and waited for if it is a poll or a Write Request. */
  predicate Fresh(t: Txn, req: Request, rc: Rc) {
    && t.req == req && !t.heard && !t.acked && !t.recordSeen
    && t.active == (rc == RcOk && (t.usedRequest || req.kind == Poll))
    && (t.active && t.usedRequest <==> t.writeCookie != 0)
  }

  lemma SubmitRule(l: Slot, req: Request, handle: nat, asRequest: bool, want: Record, tok: Option<nat>, rc: Rc, nowUs: int)
    requires tok.Some? && tok.value != 0
    ensures var e := SubmitWrite(l, req, handle, asRequest, want, tok, rc, nowUs);
            && Fresh(e.slot.txn, req, rc)
            && e.slot.txn.writeHandle == handle && e.slot.txn.usedRequest == asRequest
            && e.rsps == AtOnce(req, rc, e.slot.txn.active)
  {
  }

  lemma SubmitKeepsRest(l: Slot, req: Request, handle: nat, asRequest: bool, want: Record, tok: Option<nat>, rc: Rc, nowUs: int)
    ensures var e := SubmitWrite(l, req, handle, asRequest, want, tok, rc, nowUs);
            e.slot == l.(txn := e.slot.txn) && e.link == None && !e.noted
  {
  }

  /** Slot `i` alone changed, in its transaction alone, and the answer given at once is in the queue. */
  ghost predicate Handed(o: Owner, o': Owner, i: nat, req: Request, rc: Rc) {
    && i < |o.slots| && |o'.slots| == |o.slots|
    && (forall j :: 0 <= j < |o.slots| && j != i ==> o'.slots[j] == o.slots[j])
    && o'.slots[i] == o.slots[i].(txn := o'.slots[i].txn)
    && Fresh(o'.slots[i].txn, req, rc)
    && o'.rspQ == o.rspQ + AtOnce(req, rc, o'.slots[i].txn.active)
  }

  lemma SubmitHands(o: Owner, i: nat, req: Request, handle: nat, asRequest: bool, want: Record, rc: Rc, nowUs: int)
    requires i < |o.slots| && |o.rspQ| < QUEUE_DEPTH && o.writeCtr + 1 < 0x1_0000_0000
    ensures var o' := Submit(o, i, req, handle, asRequest, want, rc, nowUs);
            && Handed(o, o', i, req, rc)
            && o'.slots[i].txn.writeHandle == handle && o'.slots[i].txn.usedRequest == asRequest
  {
    SubmitRule(o.slots[i], req, handle, asRequest, want, WriteToken(o), rc, nowUs);
    SubmitKeepsRest(o.slots[i], req, handle, asRequest, want, WriteToken(o), rc, nowUs);
    var e := SubmitWrite(o.slots[i], req, handle, asRequest, want, WriteToken(o), rc, nowUs);
    if e.rsps != [] {
      OneResponse(o.rspQ, e.rsps[0]);
      assert e.rsps == [e.rsps[0]];
    }
  }

  /** What is waited for on an available slot when its head request is run. */
  lemma OnLinkHands(o: Owner, i: nat, req: Request, env: ExecEnv, nowUs: int)
    requires i < |o.slots| && |o.rspQ| < QUEUE_DEPTH && o.writeCtr + 1 < 0x1_0000_0000
    requires req.kind == RawWrite || req.kind == BalanceWrite || (req.kind == Poll && (req.opcode == 0x97 || req.opcode == 0x96))
    ensures var o' := ExecOnLink(o, i, req, env, nowUs);
            && Handed(o, o', i, req, env.rcWrite)
            && Target(o.slots[i].gatt, req, o'.slots[i].txn.writeHandle)
            && Mode(o.slots[i].gatt, req, o'.slots[i].txn.usedRequest)
  {
    var g := o.slots[i].gatt;
    var ffe2 := req.idx == 1 && g.ffe2 != 0;
    match req.kind
    case Poll => SubmitHands(o, i, req, g.val, Ffe1UsesRequest(g), Expected(req.opcode), env.rcWrite, nowUs);
    case RawWrite =>
      SubmitHands(o, i, req, if ffe2 then g.ffe2 else g.val,
                  if ffe2 then Ffe2UsesRequest(g) else Ffe1UsesRequest(g), NoRecord, env.rcWrite, nowUs);
    case BalanceWrite => SubmitHands(o, i, req, g.val, Ffe1UsesRequest(g), NoRecord, env.rcWrite, nowUs);
  }

  /**
   A write or poll on an available slot goes to the right characteristic in the permitted way, and is
   waited for or answered at once: GATT error if the radio refuses it, OK for a command.
   */
  lemma WriteRule(s: Sys, env: ExecEnv, nowUs: int, i: nat)
    requires Inv(s) && s.reqQ != [] && Available(s.o, i, s.reqQ[0].bank) && s.o.writeCtr + 1 < 0x1_0000_0000
    requires var req := s.reqQ[0];
             !req.idleOnly && (req.kind == RawWrite || req.kind == BalanceWrite
                               || (req.kind == Poll && (req.opcode == 0x97 || req.opcode == 0x96)))
    ensures var req, o' := s.reqQ[0], Step(s, BleExec(env, nowUs)).o;
            && Handed(s.o, o', i, req, env.rcWrite)
            && Target(s.o.slots[i].gatt, req, o'.slots[i].txn.writeHandle)
            && Mode(s.o.slots[i].gatt, req, o'.slots[i].txn.usedRequest)
  {
    RoomForAnswer(s);
    Found(s.o, i, s.reqQ[0].bank);
    OnLinkHands(s.o, i, s.reqQ[0], env, nowUs);
  }

  // ---- Requests that do not run -------------------------------------------------------------------

  /** A poll with any other opcode is rejected; a disconnect is granted. */
  lemma OnLinkAnswers(s: Sys, env: ExecEnv, nowUs: int, i: nat)
    requires Inv(s) && s.reqQ != [] && Available(s.o, i, s.reqQ[0].bank) && !s.reqQ[0].idleOnly
    ensures s.reqQ[0].kind == Poll && s.reqQ[0].opcode != 0x97 && s.reqQ[0].opcode != 0x96 ==>
              Answered(s, Step(s, BleExec(env, nowUs)), Rejected)
    ensures s.reqQ[0].kind == Disconnect ==> Answered(s, Step(s, BleExec(env, nowUs)), Ok)
  {
    RoomForAnswer(s);
    Found(s.o, i, s.reqQ[0].bank);
    ReplyIs(s.o, s.reqQ[0], Rejected);
    ReplyIs(s.o, s.reqQ[0], Ok);
  }

  /** With an operation or an unacknowledged write on the link, a request is rejected; only a disconnect may overtake the latter. */
  lemma BusyAnswers(s: Sys, env: ExecEnv, nowUs: int, i: nat)
    requires Inv(s) && s.reqQ != [] && !s.reqQ[0].idleOnly && i < |s.o.slots|
    requires s.o.slots[i].inUse && s.o.slots[i].bank == s.reqQ[0].bank && s.o.slots[i].ready
    requires s.o.slots[i].txn.active || (s.o.slots[i].txn.writeCookie != 0 && s.reqQ[0].kind != Disconnect)
    ensures Answered(s, Step(s, BleExec(env, nowUs)), Rejected)
  {
    RoomForAnswer(s);
    Found(s.o, i, s.reqQ[0].bank);
    ReplyIs(s.o, s.reqQ[0], Rejected);
  }

  /** Without a ready link, everything but a CONNECT is answered with link down. */
  lemma DownAnswers(s: Sys, env: ExecEnv, nowUs: int)
    requires Inv(s) && s.reqQ != [] && !s.reqQ[0].idleOnly && s.reqQ[0].kind != Connect
    requires forall i :: 0 <= i < |s.o.slots| && s.o.slots[i].inUse && s.o.slots[i].bank == s.reqQ[0].bank ==> !s.o.slots[i].ready
    ensures Answered(s, Step(s, BleExec(env, nowUs)), LinkDown)
  {
    RoomForAnswer(s);
    ReplyIs(s.o, s.reqQ[0], LinkDown);
  }

  /** A CONNECT for a bank that has a slot: OK on a ready one without anything in flight, else link down. */
  lemma ConnectAnswers(s: Sys, env: ExecEnv, nowUs: int, i: nat)
    requires Inv(s) && s.reqQ != [] && !s.reqQ[0].idleOnly && s.reqQ[0].kind == Connect && i < |s.o.slots|
    requires s.o.slots[i].inUse && s.o.slots[i].bank == s.reqQ[0].bank
    requires s.o.slots[i].ready ==> !s.o.slots[i].txn.active && s.o.slots[i].txn.writeCookie == 0
    ensures Answered(s, Step(s, BleExec(env, nowUs)), if s.o.slots[i].ready then Ok else LinkDown)
  {
    RoomForAnswer(s);
    Found(s.o, i, s.reqQ[0].bank);
    InSlot(s.o, i);
    ReplyIs(s.o, s.reqQ[0], Ok);
    ReplyIs(s.o, s.reqQ[0], LinkDown);
  }

  /** An idle release runs if and only if the bank is held, has no app, and is in the epoch it was fenced to. */
  lemma ReleaseRuns(s: Sys, env: ExecEnv, nowUs: int, i: nat)
    requires Inv(s) && s.reqQ != [] && Available(s.o, i, s.reqQ[0].bank)
    requires s.reqQ[0].idleOnly && s.reqQ[0].kind == Disconnect && s.reqQ[0].source == Internal
    ensures s.reqQ[0].bank < |s.o.rt|
    ensures var rt := s.o.rt[s.reqQ[0].bank];
            Answered(s, Step(s, BleExec(env, nowUs)),
                     if rt.linkHeld && !rt.appConnected && rt.idleEpoch == s.reqQ[0].idleEpoch then Ok else Rejected)
  {
    RoomForAnswer(s);
    Found(s.o, i, s.reqQ[0].bank);
    InSlot(s.o, i);
    ReplyIs(s.o, s.reqQ[0], Rejected);
    ReplyIs(s.o, s.reqQ[0], Ok);
  }

  // ---- Connecting ---------------------------------------------------------------------------------

  /** The connect attempt of a bank without a slot, at the level of the pool. */
  lemma FirstConnect(o: Owner, req: Request, env: ExecEnv, nowUs: int)
    requires |o.rspQ| < QUEUE_DEPTH && ByBank(o.slots, req.bank).None? && FreeSlot(o.slots).Some?
    ensures var o', j := ExecConnect(o, req, env, nowUs), FreeSlot(o.slots).value;
            var refused := if !env.gateOpen then Some(LinkDown)
                           else if o.inflight.Some? || env.scanActive then Some(ConnectWait)
                           else if env.rcConnect != RcOk then Some(LinkDown) else None;
            && |o'.slots| == |o.slots|
            && (refused.Some? ==>
                  && o'.rspQ == o.rspQ + [Response(req.bank, req.cmdId, refused.value, NoRecord)]
                  && o'.inflight == o.inflight && !o'.slots[j].inUse)
            && (refused.None? ==>
                  && o'.rspQ == o.rspQ && o'.inflight == Some(j)
                  && o'.slots[j].inUse && o'.slots[j].bank == req.bank && o'.slots[j].conn == 0
                  && o'.slots[j].txn.active && o'.slots[j].txn.req == req)
  {
    var l := Install(FreshSlot(req.bank), req, nowUs);
    var j := FreeSlot(o.slots).value;
    ReplyIs(o.(slots := o.slots[j := GiveBack(l)]), req, LinkDown);
    ReplyIs(o.(slots := o.slots[j := GiveBack(l)]), req, ConnectWait);
  }

  /**
   A CONNECT for a bank without a slot: link down while the radio is switched off, CONNECT_WAIT while it
   is busy with another connect or a scan, link down if the stack refuses; otherwise the connect is
   in flight on a fresh slot and not answered yet.
   */
  lemma ConnectStarts(s: Sys, env: ExecEnv, nowUs: int)
    requires Inv(s) && s.reqQ != [] && !s.reqQ[0].idleOnly && s.reqQ[0].kind == Connect
    requires ByBank(s.o.slots, s.reqQ[0].bank).None? && FreeSlot(s.o.slots).Some?
    ensures var req, o', j := s.reqQ[0], Step(s, BleExec(env, nowUs)).o, FreeSlot(s.o.slots).value;
            && |o'.slots| == |s.o.slots|
            && (!env.gateOpen ==> o'.rspQ == s.o.rspQ + [Response(req.bank, req.cmdId, LinkDown, NoRecord)])
            && (env.gateOpen && (s.o.inflight.Some? || env.scanActive) ==>
                  o'.rspQ == s.o.rspQ + [Response(req.bank, req.cmdId, ConnectWait, NoRecord)])
            && (env.gateOpen && s.o.inflight.None? && !env.scanActive && env.rcConnect != RcOk ==>
                  o'.rspQ == s.o.rspQ + [Response(req.bank, req.cmdId, LinkDown, NoRecord)])
            && (env.gateOpen && s.o.inflight.None? && !env.scanActive && env.rcConnect == RcOk ==>
                  o'.rspQ == s.o.rspQ && o'.inflight == Some(j) && o'.slots[j].inUse
                  && o'.slots[j].bank == req.bank && o'.slots[j].txn.active && o'.slots[j].txn.req == req)
  {
    RoomForAnswer(s);
    FirstConnect(s.o, s.reqQ[0], env, nowUs);
  }

  /** The link state of the slot's bank after an effect that reports one. */
  lemma ReportIs(o: Owner, i: nat, e: Effect, nowUs: int)
    requires i < |o.slots| && e.slot.bank < |o.rt| && e.link.Some?
    ensures Apply(o, i, e, nowUs).rt[e.slot.bank].link == e.link.value
  {
  }

  /** A connect that fails makes its bank unreachable, frees its slot and answers link down. */
  lemma FailedConnect(o: Owner, i: nat, rc: Rc, nowUs: int)
    requires Pre(o) && o.inflight == Some(i)
    ensures i < |o.slots| && o.slots[i].bank < |o.rt|
    ensures var l, o' := o.slots[i], OnRadio(o, GapConnect(i, None, rc), nowUs);
            && |o'.slots| == |o.slots| && |o'.rt| == |o.rt|
            && o'.inflight == None && !o'.slots[i].inUse && o'.rt[l.bank].link == Unreachable
            && (l.txn.active ==> o'.rspQ == o.rspQ + [Response(l.bank, l.txn.req.cmdId, LinkDown, NoRecord)])
  {
    InSlot(o, i);
    var l := o.slots[i];
    ConnectEnds(o, l, i);
    ReportIs(o.(inflight := None), i, ConnectEvent(l, None, o.discCtr, rc, nowUs), nowUs);
  }

  /** The answer a waiting operation would get fits into the queue. */
  lemma ConnectEnds(o: Owner, l: Slot, i: nat)
    requires Pre(o) && i < POOL && o.slots[i] == l && l.inUse
    ensures l.txn.active ==>
              Respond(o.rspQ, [Response(l.bank, l.txn.req.cmdId, LinkDown, NoRecord)])
              == o.rspQ + [Response(l.bank, l.txn.req.cmdId, LinkDown, NoRecord)]
  {
    if l.txn.active {
      RoomToAnswer(o, i);
      OneResponse(o.rspQ, Response(l.bank, l.txn.req.cmdId, LinkDown, NoRecord));
    }
  }

  /** A lost link leaves its bank reachable and idle, frees its slot and answers link down. */
  lemma LostLink(o: Owner, h: nat, i: nat, nowUs: int)
    requires Pre(o) && ByConn(o.slots, h) == Some(i)
    ensures i < |o.slots| && o.slots[i].bank < |o.rt|
    ensures var l, o' := o.slots[i], OnRadio(o, GapDisconnect(h), nowUs);
            && |o'.slots| == |o.slots| && |o'.rt| == |o.rt|
            && !o'.slots[i].inUse && o'.rt[l.bank].link == ReachableIdle && !o'.rt[l.bank].linkHeld
            && (l.txn.active ==> o'.rspQ == o.rspQ + [Response(l.bank, l.txn.req.cmdId, LinkDown, NoRecord)])
  {
    InSlot(o, i);
    var l := o.slots[i];
    ConnectEnds(o, l, i);
    ReportIs(o, i, DisconnectEvent(l), nowUs);
  }

  // ---- Writes that are acknowledged -------------------------------------------------------------------

  lemma AckStatus(l: Slot, err: Err, attr: Option<nat>)
    requires l.txn.active && l.txn.writeCookie != 0 && (l.txn.req.kind == RawWrite || l.txn.req.kind == BalanceWrite)
    ensures var status := if err == ErrOk && attr == Some(l.txn.writeHandle) then Ok else GattError;
            WriteDone(l, err, attr, l.txn.writeCookie).rsps == [Response(l.bank, l.txn.req.cmdId, status, NoRecord)]
  {
  }

  /** The acknowledgement of an app or settings write answers it: OK only without error and for its own handle. */
  lemma WriteAnswered(o: Owner, h: nat, err: Err, attr: Option<nat>, i: nat, nowUs: int)
    requires Pre(o) && ByConn(o.slots, h) == Some(i) && o.slots[i].txn.active && o.slots[i].txn.writeCookie != 0
    requires o.slots[i].txn.req.kind == RawWrite || o.slots[i].txn.req.kind == BalanceWrite
    ensures var l := o.slots[i];
            var status := if err == ErrOk && attr == Some(l.txn.writeHandle) then Ok else GattError;
            OnRadio(o, GattWritten(h, err, attr, l.txn.writeCookie), nowUs).rspQ
            == o.rspQ + [Response(l.bank, l.txn.req.cmdId, status, NoRecord)]
  {
    RoomToAnswer(o, i);
    AckQueued(o, h, err, attr, i, nowUs);
  }

  lemma AckQueued(o: Owner, h: nat, err: Err, attr: Option<nat>, i: nat, nowUs: int)
    requires |o.rspQ| < QUEUE_DEPTH && ByConn(o.slots, h) == Some(i) && o.slots[i].txn.active && o.slots[i].txn.writeCookie != 0
    requires o.slots[i].txn.req.kind == RawWrite || o.slots[i].txn.req.kind == BalanceWrite
    ensures var l := o.slots[i];
            var status := if err == ErrOk && attr == Some(l.txn.writeHandle) then Ok else GattError;
            OnWriteDone(o, h, err, attr, l.txn.writeCookie, nowUs).rspQ
            == o.rspQ + [Response(l.bank, l.txn.req.cmdId, status, NoRecord)]
  {
    var l := o.slots[i];
    AckStatus(l, err, attr);
    var e := WriteDone(l, err, attr, l.txn.writeCookie);
    PollEvidence.Queued(o, i, e, e.rsps[0], nowUs);
  }

  // ---- Becoming ready ---------------------------------------------------------------------------------

  /** An effect after which a slot is ready only if it was before. */
  predicate NoReadier(l: Slot, e: Effect) { Ready(e.slot) ==> Ready(l) }

  lemma MovesNoReadier(l: Slot, e: Effect, nowUs: int)
    requires l.pending && l.inUse && Moves(l, e, nowUs)
    ensures NoReadier(l, e)
  {
  }

  lemma SvcNoReadier(l: Slot, err: Err, svc: Option<Svc>, rc: Rc, nowUs: int)
    requires l.inUse
    ensures NoReadier(l, SvcStep(l, err, svc, rc, nowUs))
  {
  }

  lemma ChrNoReadier(l: Slot, err: Err, chr: Option<Chr>, rc: Rc, nowUs: int)
    requires l.inUse && l.pending
    ensures NoReadier(l, ChrStep(l, err, chr, rc, nowUs))
  {
    var g := if chr.Some? then AddChr(l.gatt, chr.value) else l.gatt;
    ChrTailMoves(l, g, err, rc, nowUs);
    MovesNoReadier(l, ChrTail(l, g, err, rc, nowUs), nowUs);
  }

  lemma {:induction false} FramesNoReadier(l: Slot, frames: seq<seq<Byte>>)
    ensures NoReadier(l, FramesDone(l, frames))
    decreases |frames|
  {
    if frames != [] {
      FrameNoReadier(l, RecordOf(frames[0]));
      FramesNoReadier(FrameDone(l, RecordOf(frames[0])).slot, frames[1..]);
    }
  }

  lemma FrameNoReadier(l: Slot, rec: Record)
    ensures NoReadier(l, FrameDone(l, rec))
  {
    var l1 := Heard(l, rec);
    assert l1.inUse == l.inUse && l1.ready == l.ready;
    assert NoReadier(l1, CompletePoll(l1));
  }

  lemma WriteNoReadier(l: Slot, err: Err, attr: Option<nat>, cookie: nat)
    ensures NoReadier(l, WriteDone(l, err, attr, cookie))
  {
  }

  lemma GapNoReadier(l: Slot, handle: Option<nat>, cookie: nat, rc: Rc, nowUs: int)
    ensures NoReadier(l, ConnectEvent(l, handle, cookie, rc, nowUs))
    ensures NoReadier(l, DisconnectEvent(l)) && NoReadier(l, SweepSlot(l, nowUs))
  {
  }

  /** The subscription of a slot's own CCCD, acknowledged without error in its own generation. */
  predicate Subscribes(l: Slot, e: Radio) {
    && e.GattSubscribed? && e.err == ErrOk && e.attr == Some(l.gatt.cccd)
    && l.inUse && l.pending && l.subscribing && l.conn == e.h && l.cookie == e.cookie != 0
  }

  lemma SubscribeReady(l: Slot, err: Err, attr: Option<nat>, nowUs: int)
    requires l.inUse && !l.ready
    ensures Ready(SubscribeDone(l, err, attr, nowUs).slot) <==>
              l.subscribing && err == ErrOk && attr == Some(l.gatt.cccd)
  {
  }

  /** No slot of the pool becomes ready. */
  predicate ReadyOnly(o: Owner, o': Owner) {
    |o'.slots| == |o.slots| && forall i :: 0 <= i < |o.slots| ==> Ready(o'.slots[i]) ==> Ready(o.slots[i])
  }

  lemma ApplyReadyOnly(o: Owner, i: nat, e: Effect, nowUs: int)
    requires i < |o.slots| && NoReadier(o.slots[i], e)
    ensures ReadyOnly(o, Apply(o, i, e, nowUs))
  {
  }

  lemma {:induction false} SweepReadyOnly(o: Owner, nowUs: int, i: nat)
    requires i <= |o.slots|
    ensures ReadyOnly(o, Sweep(o, nowUs, i))
    decreases |o.slots| - i
  {
    if i < |o.slots| {
      GapNoReadier(o.slots[i], None, 0, RcOk, nowUs);
      ApplyReadyOnly(o, i, SweepSlot(o.slots[i], nowUs), nowUs);
      SweepReadyOnly(Apply(o, i, SweepSlot(o.slots[i], nowUs), nowUs), nowUs, i + 1);
    }
  }

  lemma ConnReadyOnly(o: Owner, e: Radio, nowUs: int)
    requires e.GapDisconnect? || e.GapNotify? || e.GattWritten?
    ensures ReadyOnly(o, OnRadio(o, e, nowUs))
  {
    var r := ByConn(o.slots, e.h);
    if r.Some? {
      var l := o.slots[r.value];
      match e {
        case GapDisconnect(_) =>
          GapNoReadier(l, None, 0, RcOk, nowUs);
          ApplyReadyOnly(o, r.value, DisconnectEvent(l), nowUs);
        case GapNotify(_, data) =>
          var out := Reassembly.Feed(Reassembly.Out(l.reasm, []), data);
          FramesNoReadier(l.(reasm := out.next), out.frames);
          ApplyReadyOnly(o, r.value, NotifyChunk(l, data), nowUs);
        case GattWritten(_, err, attr, cookie) =>
          WriteNoReadier(l, err, attr, cookie);
          ApplyReadyOnly(o, r.value, WriteDone(l, err, attr, cookie), nowUs);
      }
    }
  }

  lemma GattReadyOnly(o: Owner, e: Radio, nowUs: int)
    requires e.GattSvc? || e.GattChr? || e.GattDsc?
    ensures ReadyOnly(o, OnRadio(o, e, nowUs))
  {
    var r := if e.cookie == 0 then None else ByCookie(o.slots, e.h, e.cookie);
    if r.Some? {
      var l := o.slots[r.value];
      match e {
        case GattSvc(_, err, svc, _, rc) =>
          SvcNoReadier(l, err, svc, rc, nowUs);
          ApplyReadyOnly(o, r.value, SvcStep(l, err, svc, rc, nowUs), nowUs);
        case GattChr(_, err, chr, _, rc) =>
          ChrNoReadier(l, err, chr, rc, nowUs);
          ApplyReadyOnly(o, r.value, ChrStep(l, err, chr, rc, nowUs), nowUs);
        case GattDsc(_, err, v, dsc, _, rc1, rc2) =>
          DescriptorMoves(l, err, v, dsc, rc1, rc2, nowUs);
          MovesNoReadier(l, DescriptorStep(l, err, v, dsc, rc1, rc2, nowUs), nowUs);
          ApplyReadyOnly(o, r.value, DescriptorStep(l, err, v, dsc, rc1, rc2, nowUs), nowUs);
      }
    }
  }

  lemma ConnectReadyOnly(o: Owner, arg: nat, handle: Option<nat>, rc: Rc, nowUs: int)
    ensures ReadyOnly(o, OnConnect(o, arg, handle, rc, nowUs))
  {
    if arg < |o.slots| {
      var o1 := o.(inflight := None);
      var o2 := if handle.Some? then o1.(discCtr := NextCookie(o.discCtr), generations := o.generations + 1) else o1;
      GapNoReadier(o.slots[arg], handle, o2.discCtr, rc, nowUs);
      ApplyReadyOnly(o2, arg, ConnectEvent(o.slots[arg], handle, o2.discCtr, rc, nowUs), nowUs);
    }
  }

  lemma SubscribedOnly(o: Owner, e: Radio, nowUs: int, i: nat)
    requires e.GattSubscribed? && i < |o.slots| && !Ready(o.slots[i])
    requires o.slots[i].inUse && o.slots[i].pending ==> !o.slots[i].ready
    ensures |OnRadio(o, e, nowUs).slots| == |o.slots|
    ensures Ready(OnRadio(o, e, nowUs).slots[i]) ==> Subscribes(o.slots[i], e)
  {
    var r := if e.cookie == 0 then None else ByCookie(o.slots, e.h, e.cookie);
    if r == Some(i) {
      SubscribeReady(o.slots[i], e.err, e.attr, nowUs);
    }
  }

  /** One event of the radio side. */
  lemma RadioReady(o: Owner, e: Radio, nowUs: int, i: nat)
    requires PoolInv(o) && i < |o.slots| && !Ready(o.slots[i])
    ensures |OnRadio(o, e, nowUs).slots| == |o.slots|
    ensures Ready(OnRadio(o, e, nowUs).slots[i]) ==> Subscribes(o.slots[i], e)
  {
    if e.GattSubscribed? {
      if o.slots[i].inUse {
        InSlot(o, i);
      }
      SubscribedOnly(o, e, nowUs, i);
    } else if e.SweepDue? {
      SweepReadyOnly(o, nowUs, 0);
    } else if e.GapConnect? {
      ConnectReadyOnly(o, e.slot, e.handle, e.rc, nowUs);
    } else if e.GapDisconnect? || e.GapNotify? || e.GattWritten? {
      ConnReadyOnly(o, e, nowUs);
    } else {
      GattReadyOnly(o, e, nowUs);
    }
  }

  lemma ExecReadyOnly(o: Owner, req: Request, env: ExecEnv, nowUs: int)
    ensures ReadyOnly(o, Exec(o, req, env, nowUs))
  {
  }

  /**
   A slot becomes ready by one event only: the acknowledgement, without error, of the subscription of its
   own CCCD, on its own connection, in its own generation, while it was waiting for it.
   */
  lemma ReadyOnlyBySubscription(s: Sys, e: Event, i: nat)
    requires Inv(s) && i < |s.o.slots| && !Ready(s.o.slots[i])
    ensures |Step(s, e).o.slots| == |s.o.slots|
    ensures Ready(Step(s, e).o.slots[i]) ==> e.BleRadio? && Subscribes(s.o.slots[i], e.r)
  {
    if e.BleRadio? {
      RadioReady(s.o, e.r, e.nowUs, i);
    } else if e.BleExec? {
      if s.reqQ != [] {
        ExecReadyOnly(s.o, s.reqQ[0], e.env, e.nowUs);
      }
    } else {
      PollEvidence.OffRadioLeaves(s, e);
    }
  }

  lemma SubscribedEffect(l: Slot, nowUs: int)
    requires l.subscribing
    ensures var e := SubscribeDone(l, ErrOk, Some(l.gatt.cccd), nowUs);
            && e.slot.ready && !e.slot.pending && e.slot.inUse == l.inUse && e.slot.bank == l.bank && e.link == Some(Up)
            && e.rsps == (if l.txn.active && l.txn.req.kind == Connect
                          then [Response(l.bank, l.txn.req.cmdId, Ok, NoRecord)] else [])
  {
  }

  /** And it does make it ready: the link is reported up, and a waiting CONNECT is answered OK. */
  lemma SubscriptionMakesReady(o: Owner, e: Radio, i: nat, nowUs: int)
    requires Pre(o) && i < |o.slots| && Subscribes(o.slots[i], e) && ByCookie(o.slots, e.h, e.cookie) == Some(i)
    ensures o.slots[i].bank < |o.rt|
    ensures var l, o' := o.slots[i], OnRadio(o, e, nowUs);
            && |o'.slots| == |o.slots| && |o'.rt| == |o.rt|
            && Ready(o'.slots[i]) && o'.rt[l.bank].link == Up && o'.rt[l.bank].linkHeld
            && (l.txn.active && l.txn.req.kind == Connect ==>
                  o'.rspQ == o.rspQ + [Response(l.bank, l.txn.req.cmdId, Ok, NoRecord)])
  {
    var l := o.slots[i];
    InSlot(o, i);
    SubscribedEffect(l, nowUs);
    var f := SubscribeDone(l, ErrOk, Some(l.gatt.cccd), nowUs);
    ReportIs(o, i, f, nowUs);
    if l.txn.active {
      RoomToAnswer(o, i);
      if f.rsps != [] {
        PollEvidence.Queued(o, i, f, f.rsps[0], nowUs);
      }
    }
  }

  /** Once the 32-bit write tokens are used up, whatever needs a Write Request is rejected. */
  lemma ExhaustedRejects(o: Owner, i: nat, req: Request, env: ExecEnv, nowUs: int)
    requires i < |o.slots| && |o.rspQ| < QUEUE_DEPTH && o.writeCtr + 1 >= 0x1_0000_0000 && Mode(o.slots[i].gatt, req, true)
    requires req.kind == RawWrite || req.kind == BalanceWrite || (req.kind == Poll && (req.opcode == 0x97 || req.opcode == 0x96))
    ensures var o' := ExecOnLink(o, i, req, env, nowUs);
            o'.slots == o.slots && o'.rspQ == o.rspQ + [Response(req.bank, req.cmdId, Rejected, NoRecord)]
  {
    OneResponse(o.rspQ, Response(req.bank, req.cmdId, Rejected, NoRecord));
  }
}
