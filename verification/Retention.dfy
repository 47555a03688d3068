/**
 What happens to a pending CONNECT, over whole runs of Node A: it stays at the head of its ring
 through everything but a flush and its own first result other than CONNECT_WAIT; and the result
 of an operation that was outstanding at a flush removes nothing from the new ring.
 */
module Retention {
  import opened Prelude
  import opened NodeATypes
  import opened StateCache
  import opened LinkPool
  import opened Pending
  import opened NodeA
  import opened NodeATheorems

  /** Event `e` flushes the ring of bank `b`: a CLEAR message, or the link-up guard. */
  predicate Flushes(s: Sys, e: Event, b: nat) {
    b < |s.pend| && b < |s.o.rt| &&
    match e
    case ArbMessage(_) => s.arbIn != [] && s.arbIn[0] == ClearMsg(b)
    case ArbGuard(g, nowUs) => g == b && GuardFires(s.pend[b], s.o.rt[b].linkHeld, nowUs)
    case _ => false
  }

  /** Event `e` is the first result, other than CONNECT_WAIT, of the request at the head of bank `b`. */
  predicate Concludes(s: Sys, e: Event, b: nat) {
    && e.ArbResponse? && s.o.rspQ != [] && s.o.rspQ[0].bank == b
    && b < |s.pend| && s.pend[b].ring != []
    && s.o.rspQ[0].cmdId == s.pend[b].ring[0].cmdId
    && s.o.rspQ[0].status != ConnectWait
  }

  /** The head of bank `b` is the CONNECT `r`. */
  predicate Heads(p: Pend, r: Request) {
    p.ring != [] && r.kind == Connect && Plain(p.ring[0]) == Plain(r)
  }

  // ---- Retention ------------------------------------------------------------------------

  lemma DispatchKeepsHead(p: Pend, bank: nat, held: bool, room: bool, nowUs: int, r: Request)
    requires Heads(p, r)
    ensures Heads(Dispatch(p, bank, held, room, nowUs).p, r)
  {
    assert p.ring[0].kind == Plain(p.ring[0]).kind;
  }

  lemma BankDispatchKeeps(s: Sys, b: nat, nowUs: int, c: nat, r: Request)
    requires b < |s.pend| && Heads(s.pend[b], r)
    ensures |DispatchBank(s, c, nowUs).pend| == |s.pend| && Heads(DispatchBank(s, c, nowUs).pend[b], r)
  {
    if c == b && b < |s.o.rt| {
      DispatchKeepsHead(s.pend[b], b, s.o.rt[b].linkHeld, |s.reqQ| < QUEUE_DEPTH, nowUs, r);
    }
  }

  lemma ResponseKeepsHead(s: Sys, nowUs: int, laterUs: int, b: nat, r: Request)
    requires s.o.rspQ != [] && b < |s.pend| && Heads(s.pend[b], r)
    requires !Concludes(s, ArbResponse(nowUs, laterUs), b)
    ensures |HandleResponse(s, nowUs, laterUs).pend| == |s.pend|
    ensures Heads(HandleResponse(s, nowUs, laterUs).pend[b], r)
  {
    var c := s.o.rspQ[0].bank;
    if c < |s.pend| && c < |s.o.rt| && Matches(s.pend[c], s.o.rspQ[0]) {
      assert c == b ==> !EndsConnect(s.pend[b], s.o.rspQ[0]);
      BankDispatchKeeps(Answered(s, nowUs), b, laterUs, c, r);
    }
  }

  lemma HandleKeepsHead(s: Sys, m: Msg, nowUs: int, b: nat, r: Request)
    requires b < |s.pend| && Heads(s.pend[b], r) && m != ClearMsg(b)
    ensures |Handle(s, m, nowUs).pend| == |s.pend| && Heads(Handle(s, m, nowUs).pend[b], r)
  {
    var c := MsgBank(m);
    if m.ReqMsg? && c < |s.pend| && c < |s.o.rt| && |s.pend[c].ring| < PEND_DEPTH {
      BankDispatchKeeps(s.(pend := s.pend[c := Push(s.pend[c], m.req)]), b, nowUs, c, r);
    }
  }

  lemma PassKeepsHead(s: Sys, e: Event, b: nat, r: Request)
    requires e.ArbDevReq? || e.ArbGuard? || e.IdleRelease?
    requires b < |s.pend| && Heads(s.pend[b], r) && !Flushes(s, e, b)
    ensures |Step(s, e).pend| == |s.pend| && Heads(Step(s, e).pend[b], r)
  {
  }

  /** One step of Node A keeps the CONNECT at the head, unless it flushes or concludes it. */
  lemma StepKeepsHead(s: Sys, e: Event, b: nat, r: Request)
    requires b < |s.pend| && Heads(s.pend[b], r) && !Flushes(s, e, b) && !Concludes(s, e, b)
    ensures |Step(s, e).pend| == |s.pend| && Heads(Step(s, e).pend[b], r)
  {
    match e
    case ArbMessage(now) =>
      if s.arbIn != [] && (b < |s.o.rt| || s.arbIn[0] != ClearMsg(b)) {
        HandleKeepsHead(s.(arbIn := s.arbIn[1..]), s.arbIn[0], now, b, r);
      }
    case ArbResponse(now, later) => if s.o.rspQ != [] { ResponseKeepsHead(s, now, later, b, r); }
    case ArbDispatch(c, now) => BankDispatchKeeps(s, b, now, c, r);
    case ArbDevReq(_, _) => PassKeepsHead(s, e, b, r);
    case ArbGuard(_, _) => PassKeepsHead(s, e, b, r);
    case IdleRelease(_, _) => PassKeepsHead(s, e, b, r);
    case _ =>
  }

  /** No event of the run flushes bank `b` or concludes its head. */
  ghost predicate Undisturbed(s: Sys, es: seq<Event>, b: nat) {
    forall n :: 0 <= n < |es| ==> !Flushes(Run(s, es[..n]), es[n], b) && !Concludes(Run(s, es[..n]), es[n], b)
  }

  lemma UndisturbedFront(s: Sys, es: seq<Event>, m: nat, b: nat)
    requires m < |es| && Undisturbed(s, es, b)
    ensures Undisturbed(s, es[..m], b)
    ensures !Flushes(Run(s, es[..m]), es[m], b) && !Concludes(Run(s, es[..m]), es[m], b)
  {
    assert forall n :: 0 <= n < m ==> es[..m][..n] == es[..n];
  }

  /**
   A CONNECT at the head stays there through any run without a flush of its bank and without a
   result of its own other than CONNECT_WAIT, however many of those arrive.
   */
  lemma {:induction false} ConnectSurvives(s: Sys, es: seq<Event>, b: nat, r: Request)
    requires b < |s.pend| && Heads(s.pend[b], r) && Undisturbed(s, es, b)
    ensures |Run(s, es).pend| == |s.pend| && Heads(Run(s, es).pend[b], r)
    decreases |es|
  {
    if es != [] {
      var m := |es| - 1;
      UndisturbedFront(s, es, m, b);
      ConnectSurvives(s, es[..m], b, r);
      StepKeepsHead(Run(s, es[..m]), es[m], b, r);
    }
  }

  // ---- After a flush -----------------------------------------------------------------------

  /** No request in the ring carries an id. */
  predicate Unsent(ring: seq<Request>) {
    forall i :: 0 <= i < |ring| ==> ring[i].cmdId == 0
  }

  /** Operation `id` is old, and while it is outstanding nothing in the ring has been sent. */
  predicate Detached(p: Pend, id: nat) {
    id <= p.nextId && (p.busy && p.activeId == id ==> Unsent(p.ring))
  }

  lemma DispatchDetached(p: Pend, bank: nat, held: bool, room: bool, nowUs: int, id: nat)
    requires Detached(p, id)
    ensures Detached(Dispatch(p, bank, held, room, nowUs).p, id)
  {
  }

  lemma BankDispatchDetached(s: Sys, b: nat, nowUs: int, c: nat, id: nat)
    requires b < |s.pend| && Detached(s.pend[b], id)
    ensures |DispatchBank(s, c, nowUs).pend| == |s.pend| && Detached(DispatchBank(s, c, nowUs).pend[b], id)
  {
    if c == b && b < |s.o.rt| {
      DispatchDetached(s.pend[b], b, s.o.rt[b].linkHeld, |s.reqQ| < QUEUE_DEPTH, nowUs, id);
    }
  }

  lemma ResponseDetached(s: Sys, nowUs: int, laterUs: int, b: nat, id: nat)
    requires s.o.rspQ != [] && b < |s.pend| && Detached(s.pend[b], id)
    ensures |HandleResponse(s, nowUs, laterUs).pend| == |s.pend|
    ensures Detached(HandleResponse(s, nowUs, laterUs).pend[b], id)
  {
    var c := s.o.rspQ[0].bank;
    if c < |s.pend| && c < |s.o.rt| && Matches(s.pend[c], s.o.rspQ[0]) {
      assert !Answered(s, nowUs).pend[c].busy;
      BankDispatchDetached(Answered(s, nowUs), b, laterUs, c, id);
    }
  }

  lemma HandleDetached(s: Sys, m: Msg, nowUs: int, b: nat, id: nat)
    requires b < |s.pend| && Detached(s.pend[b], id) && (m.ReqMsg? ==> m.req.cmdId == 0)
    ensures |Handle(s, m, nowUs).pend| == |s.pend| && Detached(Handle(s, m, nowUs).pend[b], id)
  {
    var c := MsgBank(m);
    if m.ReqMsg? && c < |s.pend| && c < |s.o.rt| && |s.pend[c].ring| < PEND_DEPTH {
      BankDispatchDetached(s.(pend := s.pend[c := Push(s.pend[c], m.req)]), b, nowUs, c, id);
    }
  }

  lemma PassDetached(s: Sys, e: Event, b: nat, id: nat)
    requires e.ArbDevReq? || e.ArbGuard? || e.IdleRelease?
    requires b < |s.pend| && Detached(s.pend[b], id)
    ensures |Step(s, e).pend| == |s.pend| && Detached(Step(s, e).pend[b], id)
  {
  }

  lemma StepDetached(s: Sys, e: Event, b: nat, id: nat)
    requires Inv(s) && b < |s.pend| && Detached(s.pend[b], id)
    ensures |Step(s, e).pend| == |s.pend| && Detached(Step(s, e).pend[b], id)
  {
    match e
    case ArbMessage(now) =>
      if s.arbIn != [] {
        HandleDetached(s.(arbIn := s.arbIn[1..]), s.arbIn[0], now, b, id);
      }
    case ArbResponse(now, later) => if s.o.rspQ != [] { ResponseDetached(s, now, later, b, id); }
    case ArbDispatch(c, now) => BankDispatchDetached(s, b, now, c, id);
    case ArbDevReq(_, _) => PassDetached(s, e, b, id);
    case ArbGuard(_, _) => PassDetached(s, e, b, id);
    case IdleRelease(_, _) => PassDetached(s, e, b, id);
    case _ =>
  }

  lemma {:induction false} RunDetached(s: Sys, es: seq<Event>, b: nat, id: nat)
    requires Inv(s) && Possible(s, es) && b < |s.pend| && Detached(s.pend[b], id)
    ensures |Run(s, es).pend| == |s.pend| && Detached(Run(s, es).pend[b], id)
    decreases |es|
  {
    if es != [] {
      var m := |es| - 1;
      RunDetached(s, es[..m], b, id);
      RunInv(s, es[..m]);
      StepDetached(Run(s, es[..m]), es[m], b, id);
    }
  }

  /** A flush leaves the outstanding operation outstanding, over an empty ring. */
  lemma FlushDetaches(s: Sys, e: Event, b: nat)
    requires Inv(s) && Flushes(s, e, b) && s.pend[b].busy
    ensures |Step(s, e).pend| == |s.pend| && Step(s, e).pend[b].ring == []
    ensures Detached(Step(s, e).pend[b], s.pend[b].activeId)
  {
    assert PendOk(s.pend[b]);
  }

  /**
   Whatever was accepted since a flush, the result of the operation that was outstanding at the flush
   removes nothing from the ring.
   */
  lemma FlushedResultRemovesNothing(s: Sys, e: Event, es: seq<Event>, b: nat, rsp: Response, app: bool, nowUs: int)
    requires Inv(s) && Enabled(s, e) && Flushes(s, e, b) && Possible(Step(s, e), es)
    requires s.pend[b].busy && rsp.cmdId == s.pend[b].activeId
    ensures b < |Run(Step(s, e), es).pend|
    ensures var p := Run(Step(s, e), es).pend[b];
            OnResponse(p, rsp, app, nowUs).ring == p.ring
  {
    StepInv(s, e);
    FlushDetaches(s, e, b);
    RunDetached(Step(s, e), es, b, s.pend[b].activeId);
    RunInv(Step(s, e), es);
    ResultRemovesNothing(Run(Step(s, e), es).pend[b], rsp, app, nowUs);
  }

  lemma ResultRemovesNothing(p: Pend, rsp: Response, app: bool, nowUs: int)
    requires PendOk(p) && Detached(p, rsp.cmdId)
    ensures OnResponse(p, rsp, app, nowUs).ring == p.ring
  {
  }
}
