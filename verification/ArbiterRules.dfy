/**
 What the arbiter decides, said in terms of the state before and after a step of Node A: which request
 goes to the BLE queue and when, how results space out the next ones, what an app attaching or
 leaving sets going, and when the link-up guard gives up.
 */
module ArbiterRules {
  import opened Prelude
  import opened NodeATypes
  import opened StateCache
  import opened LinkPool
  import opened Pending
  import opened NodeA
  import NodeATheorems

  /** Kinds that travel over a link, so that one must be held. */
  predicate OverLink(k: Kind) { k == Poll || k == RawWrite || k == BalanceWrite }

  // ---- One bank ---------------------------------------------------------------------------

  /** Nothing stops the bank from handing something over at `nowUs`. */
  predicate Free(p: Pend, nowUs: int) {
    !p.busy && p.ring != [] && nowUs >= p.dispatchAfterUs && p.nextId != 0xFFFF_FFFF_FFFF_FFFF
  }

  /** The head itself goes out: with the next id, staying in the ring only if it is a CONNECT. */
  predicate SendsHead(p: Pend, p': Pend, out: Option<Request>) {
    && p.ring != [] && out == Some(p.ring[0].(cmdId := p.nextId + 1))
    && p'.ring == (if p.ring[0].kind == Connect then [p.ring[0].(cmdId := p.nextId + 1)] + p.ring[1..] else p.ring[1..])
    && p'.busy && p'.activeId == p.nextId + 1
  }

  /** The arbiter's own CONNECT goes out, and the ring waits. */
  predicate SendsConnect(p: Pend, p': Pend, bank: nat, out: Option<Request>) {
    && out.Some? && out.value.kind == Connect && out.value.source == Internal
    && out.value.bank == bank && out.value.cmdId == p.nextId + 1 && out.value.timeoutMs == 9000 && !out.value.idleOnly
    && p'.ring == p.ring && p'.busy && p'.activeId == p.nextId + 1
  }

  lemma DispatchRule(p: Pend, bank: nat, held: bool, room: bool, nowUs: int)
    ensures var d := Dispatch(p, bank, held, room, nowUs);
            && (!Free(p, nowUs) || !room ==> d.out == None && d.p == p)
            && (Free(p, nowUs) && room && (held || !OverLink(p.ring[0].kind)) ==> SendsHead(p, d.p, d.out))
            && (Free(p, nowUs) && room && !held && OverLink(p.ring[0].kind) ==>
                  if nowUs >= p.connectAfterUs then SendsConnect(p, d.p, bank, d.out) else d.out == None && d.p == p)
  {
    if p.ring != [] && p.ring[0].kind == Connect {
      var r := p.ring[0].(cmdId := p.nextId + 1);
      assert p.ring[0 := r] == [r] + p.ring[1..];
    }
  }

  // ---- Node A ---------------------------------------------------------------------------------

  /**
   The arbiter's dispatch of bank `b`: an idle bank past its spacing, with something pending and room
   in the BLE queue, sends exactly its head if the link is held or the head needs none; sends a
   CONNECT of its own if the link is down and the hold-off is over; and otherwise sends nothing.
   */
  lemma DispatchExact(s: Sys, b: nat, nowUs: int)
    requires b < |s.pend| == |s.o.rt|
    ensures var p, s' := s.pend[b], Step(s, ArbDispatch(b, nowUs));
            var held := s.o.rt[b].linkHeld;
            && b < |s'.pend|
            && (!Free(p, nowUs) || |s.reqQ| >= 12 || (!held && OverLink(p.ring[0].kind) && nowUs < p.connectAfterUs) ==>
                  s'.reqQ == s.reqQ && s'.pend[b] == p)
            && (Free(p, nowUs) && |s.reqQ| < 12 && (held || !OverLink(p.ring[0].kind)) ==>
                  |s'.reqQ| == |s.reqQ| + 1 && s'.reqQ[..|s.reqQ|] == s.reqQ && SendsHead(p, s'.pend[b], Some(s'.reqQ[|s.reqQ|])))
            && (Free(p, nowUs) && |s.reqQ| < 12 && !held && OverLink(p.ring[0].kind) && nowUs >= p.connectAfterUs ==>
                  |s'.reqQ| == |s.reqQ| + 1 && s'.reqQ[..|s.reqQ|] == s.reqQ && SendsConnect(p, s'.pend[b], b, Some(s'.reqQ[|s.reqQ|])))
  {
    DispatchRule(s.pend[b], b, s.o.rt[b].linkHeld, |s.reqQ| < QUEUE_DEPTH, nowUs);
  }

  /** The queue grew by `r` in this step. */
  predicate Appends(s: Sys, s': Sys, r: Request) { s'.reqQ == s.reqQ + [r] }

  /** What may be appended, given the table and the ring the step leaves behind. */
  predicate Rightly(r: Request, rt: seq<Runtime>, pend: seq<Pend>) {
    && r.bank < |rt| && r.bank < |pend|
    && (OverLink(r.kind) ==> rt[r.bank].linkHeld)
    && (r.kind == Connect ==>
          && pend[r.bank].ring != []
          && (pend[r.bank].ring[0] == r
              || (r.source == Internal && !rt[r.bank].linkHeld && OverLink(pend[r.bank].ring[0].kind))))
  }

  lemma BankAppends(s: Sys, b: nat, nowUs: int, r: Request)
    requires b < |s.pend| == |s.o.rt| && RingOk(s.pend[b].ring, b, s.o.rt)
    requires DispatchBank(s, b, nowUs).reqQ == s.reqQ + [r]
    ensures Rightly(r, s.o.rt, DispatchBank(s, b, nowUs).pend)
  {
    var p := s.pend[b];
    var d := Dispatch(p, b, s.o.rt[b].linkHeld, |s.reqQ| < QUEUE_DEPTH, nowUs);
    DispatchRule(p, b, s.o.rt[b].linkHeld, |s.reqQ| < QUEUE_DEPTH, nowUs);
    NoGrowth(s.reqQ, s.reqQ, r);
    if d.out.Some? {
      assert (s.reqQ + [d.out.value])[|s.reqQ|] == (s.reqQ + [r])[|s.reqQ|];
    }
  }

  /**
   Over every step of every task: what goes over a link is handed to the BLE task only while that link
   is held, and a CONNECT is either the head of its ring or the arbiter's own, issued because the
   head needs a link and there is none.
   */
  lemma HandedOverRightly(s: Sys, e: Event, r: Request)
    requires Inv(s) && Enabled(s, e) && Appends(s, Step(s, e), r)
    ensures Rightly(r, s.o.rt, Step(s, e).pend)
  {
    match e
    case ArbDispatch(b, now) => if b < |s.pend| { BankAppends(s, b, now, r); } else { NoGrowth(s.reqQ, s.reqQ, r); }
    case ArbMessage(now) => MessageAppends(s, now, r);
    case ArbResponse(now, later) => ResponseAppends(s, now, later, r);
    case _ => NoGrowth(s.reqQ, Step(s, e).reqQ, r);
  }

  lemma NoGrowth(q: seq<Request>, q': seq<Request>, r: Request)
    ensures |q'| <= |q| ==> q' != q + [r]
  {
    assert |q + [r]| == |q| + 1;
  }

  lemma MessageAppends(s: Sys, nowUs: int, r: Request)
    requires Inv(s) && Appends(s, Step(s, ArbMessage(nowUs)), r)
    ensures Rightly(r, s.o.rt, Step(s, ArbMessage(nowUs)).pend)
  {
    NoGrowth(s.reqQ, s.reqQ, r);
    if s.arbIn != [] {
      var m := s.arbIn[0];
      var b := MsgBank(m);
      if m.ReqMsg? && b < |s.pend| && |s.pend[b].ring| < PEND_DEPTH {
        var s1 := s.(arbIn := s.arbIn[1..], pend := s.pend[b := Push(s.pend[b], m.req)]);
        BankAppends(s1, b, nowUs, r);
      }
    }
  }

  lemma AnsweredAppends(s: Sys, nowUs: int, laterUs: int, r: Request)
    requires s.o.rspQ != [] && |s.pend| == |s.o.rt|
    requires forall b :: 0 <= b < |s.pend| ==> RingOk(s.pend[b].ring, b, s.o.rt)
    requires HandleResponse(s, nowUs, laterUs).reqQ == s.reqQ + [r]
    ensures Rightly(r, s.o.rt, HandleResponse(s, nowUs, laterUs).pend)
  {
    NoGrowth(s.reqQ, s.reqQ, r);
    var b := s.o.rspQ[0].bank;
    if b < |s.pend| && Matches(s.pend[b], s.o.rspQ[0]) {
      ResponseRing(s.pend[b], s.o.rspQ[0], s.o.rt[b].appConnected, nowUs, b, s.o.rt);
      BankAppends(Answered(s, nowUs), b, laterUs, r);
    }
  }

  lemma ResponseAppends(s: Sys, nowUs: int, laterUs: int, r: Request)
    requires Inv(s) && Appends(s, Step(s, ArbResponse(nowUs, laterUs)), r)
    ensures Rightly(r, s.o.rt, Step(s, ArbResponse(nowUs, laterUs)).pend)
  {
    NoGrowth(s.reqQ, s.reqQ, r);
    if s.o.rspQ != [] {
      AnsweredAppends(s, nowUs, laterUs, r);
    }
  }

  /** The same at every event of every run from boot. */
  lemma RunHandsOverRightly(units: nat, es: seq<Event>, n: nat, r: Request)
    requires NodeATheorems.Boot(units, es) && n < |es|
    requires Appends(Run(Init(units), es[..n]), Step(Run(Init(units), es[..n]), es[n]), r)
    ensures Rightly(r, Run(Init(units), es[..n]).o.rt, Step(Run(Init(units), es[..n]), es[n]).pend)
  {
    InitInv(units);
    NodeATheorems.RunSplit(Init(units), es, n + 1);
    assert es[..n + 1][..n] == es[..n] && es[..n + 1][n] == es[n];
    RunInv(Init(units), es[..n]);
    HandedOverRightly(Run(Init(units), es[..n]), es[n], r);
  }

  // ---- Results --------------------------------------------------------------------------------

  /** What a result does to the pacing of its bank. */
  predicate Paced(p: Pend, p': Pend, status: Status, nowUs: int) {
    && (status in {Timeout, LinkDown, GattError, ConnectWait} ==> p'.dispatchAfterUs == nowUs + 100_000)
    && (status == Ok ==> p'.backoffMs == 0 && p'.dispatchAfterUs == p.dispatchAfterUs)
    && (status in {ConnectWait, Rejected} ==> p'.backoffMs == p.backoffMs && p'.connectAfterUs == p.connectAfterUs)
  }

  lemma ResultPaces(p: Pend, rsp: Response, app: bool, nowUs: int)
    requires Matches(p, rsp)
    ensures Paced(p, OnResponse(p, rsp, app, nowUs), rsp.status, nowUs) && !OnResponse(p, rsp, app, nowUs).busy
  {
  }

  lemma DispatchPaces(p: Pend, bank: nat, held: bool, room: bool, nowUs: int)
    ensures var p' := Dispatch(p, bank, held, room, nowUs).p;
            p'.dispatchAfterUs == p.dispatchAfterUs && p'.backoffMs == p.backoffMs && p'.connectAfterUs == p.connectAfterUs
    ensures nowUs < p.dispatchAfterUs ==> Dispatch(p, bank, held, room, nowUs) == Dispatched(p, None)
  {
  }

  /**
   A result a bank waits for frees it. A failure or a busy radio holds everything of the bank back for
   100 ms; a success clears the backoff and spaces nothing; a rejection leaves both alone.
   */
  lemma ResultSpacing(s: Sys, nowUs: int, laterUs: int)
    requires s.o.rspQ != [] && s.o.rspQ[0].bank < |s.pend| == |s.o.rt|
    requires Matches(s.pend[s.o.rspQ[0].bank], s.o.rspQ[0]) && laterUs < nowUs + 100_000
    ensures var rsp, s' := s.o.rspQ[0], Step(s, ArbResponse(nowUs, laterUs));
            && |s'.pend| == |s.pend| && s'.o.rspQ == s.o.rspQ[1..]
            && Paced(s.pend[rsp.bank], s'.pend[rsp.bank], rsp.status, nowUs)
            && (rsp.status in {Timeout, LinkDown, GattError, ConnectWait} ==>
                  !s'.pend[rsp.bank].busy && s'.reqQ == s.reqQ)
  {
    var rsp := s.o.rspQ[0];
    var b := rsp.bank;
    var a := Answered(s, nowUs);
    ResultPaces(s.pend[b], rsp, s.o.rt[b].appConnected, nowUs);
    DispatchPaces(a.pend[b], b, a.o.rt[b].linkHeld, |a.reqQ| < QUEUE_DEPTH, laterUs);
  }

  /** The backoff in milliseconds and the hold-off in microseconds, in figures. */
  lemma BackoffFigures(k: nat)
    ensures ClosedForm(1, false) == 2000 && ClosedForm(2, false) == 4000 && ClosedForm(3, false) == 8000
    ensures ClosedForm(4, false) == 16000 && (k >= 5 ==> ClosedForm(k, false) == 30000)
    ensures HoldOffUs(1, true) == 250_000 && HoldOffUs(1, false) == 2_000_000
    ensures k >= 1 ==> ClosedForm(k + 1, true) == ClosedForm(k, false)
  {
    assert Pow2(0) == 1 && Pow2(1) == 2 && Pow2(2) == 4 && Pow2(3) == 8 && Pow2(4) == 16;
    if k >= 5 {
      Pow2Grows(4, k - 1);
    }
  }

  lemma {:induction false} Pow2Grows(a: nat, b: nat)
    requires a <= b
    ensures Pow2(a) <= Pow2(b)
    decreases b
  {
    if a < b {
      Pow2Grows(a, b - 1);
    }
  }

  // ---- The app ----------------------------------------------------------------------------------

  /** The message at the head of the inbox, for a known bank. */
  predicate Next(s: Sys, m: Msg) { s.arbIn != [] && s.arbIn[0] == m && MsgBank(m) < |s.pend| }

  /** The request an app edge posts. */
  predicate PostedFor(m: Msg, b: nat, connected: bool) {
    && m.ReqMsg? && m.req.bank == b && !m.req.idleOnly
    && (if connected then m.req.kind == Connect && m.req.source == App && m.req.timeoutMs == 9000
        else m.req.kind == Poll && m.req.opcode == 0x97 && m.req.source == Internal)
  }

  /** What an app edge leaves of its bank. */
  predicate EdgeTaken(p: Pend, p': Pend, rt': Runtime, connected: bool, nowUs: int) {
    && rt'.appConnected == connected
    && rt'.appLeftUs == (if connected then 0 else nowUs)
    && p'.ring == p.ring && p'.busy == p.busy
    && p'.linkWaitUs == (if connected then nowUs + 10_000_000 else 0)
    && p'.devreqUs == 0 && !p'.devreqRefreshed
  }

  lemma EdgeRule(s: Sys, b: nat, connected: bool, nowUs: int)
    requires b < |s.pend| && b < |s.o.rt| && |s.arbIn| < 24
    ensures var s' := AppEdge(s, b, connected, nowUs);
            && s'.reqQ == s.reqQ && |s'.pend| == |s.pend| && |s'.o.rt| == |s.o.rt|
            && (!connected && !s.o.rt[b].appConnected ==> s' == s)
            && (connected || s.o.rt[b].appConnected ==>
                  && EdgeTaken(s.pend[b], s'.pend[b], s'.o.rt[b], connected, nowUs)
                  && |s'.arbIn| == |s.arbIn| + 1 && s'.arbIn[..|s.arbIn|] == s.arbIn
                  && PostedFor(s'.arbIn[|s.arbIn|], b, connected))
  {
  }

  /**
   An app attaching: the flag is set, the link-up guard runs for ten seconds, and a CONNECT of the
   app's is posted. An app leaving: flag and guard are cleared, the time is kept for the idle
   grace, and a device-info poll is posted. A repeated departure changes nothing.
   */
  lemma AppRule(s: Sys, b: nat, connected: bool, nowUs: int)
    requires |s.pend| == |s.o.rt| && Next(s, AppMsg(b, connected)) && |s.arbIn| <= 24
    ensures var s' := Step(s, ArbMessage(nowUs));
            && s'.reqQ == s.reqQ && |s'.pend| == |s.pend| && |s'.o.rt| == |s.o.rt|
            && (!connected && !s.o.rt[b].appConnected ==> s' == s.(arbIn := s.arbIn[1..]))
            && (connected || s.o.rt[b].appConnected ==>
                  && EdgeTaken(s.pend[b], s'.pend[b], s'.o.rt[b], connected, nowUs)
                  && |s'.arbIn| == |s.arbIn| && s'.arbIn[..|s.arbIn| - 1] == s.arbIn[1..]
                  && PostedFor(s'.arbIn[|s.arbIn| - 1], b, connected))
  {
    EdgeRule(s.(arbIn := s.arbIn[1..]), b, connected, nowUs);
  }

  /** The phone's device-info request arms its check, 1.5 s ahead, once, and only on a held link. */
  lemma DevReqRule(s: Sys, b: nat, nowUs: int)
    requires |s.pend| == |s.o.rt| && Next(s, DevReqMsg(b))
    ensures var p, p' := s.pend[b], Step(s, ArbMessage(nowUs)).pend[b];
            && p'.ring == p.ring && p'.busy == p.busy
            && p'.devreqUs == (if s.o.rt[b].appConnected && s.o.rt[b].linkHeld && !p.devreqRefreshed && p.devreqUs == 0
                               then nowUs + 1_500_000 else p.devreqUs)
  {
  }

  /** A device-info record disarms the check, and a CLEAR empties the ring; neither touches anything else of the bank. */
  lemma DisarmRule(s: Sys, b: nat, nowUs: int)
    requires |s.pend| == |s.o.rt| && b < |s.pend|
    ensures Next(s, DevInfoMsg(b)) ==>
              Step(s, ArbMessage(nowUs)) == s.(arbIn := s.arbIn[1..], pend := s.pend[b := s.pend[b].(devreqUs := 0)])
    ensures Next(s, ClearMsg(b)) ==>
              var s' := Step(s, ArbMessage(nowUs));
              && |s'.pend| == |s.pend| && s'.o == s.o && s'.reqQ == s.reqQ && s'.arbIn == s.arbIn[1..]
              && s'.pend[b].ring == [] && s'.pend[b].busy == s.pend[b].busy && s'.pend[b].activeId == s.pend[b].activeId
  {
  }

  /** A flushed ring reports its app writes, and nothing else, in ring order. */
  lemma {:induction false} FlushReports(a: seq<Request>, r: Request)
    ensures AppIndices([]) == []
    ensures AppIndices(a + [r]) == AppIndices(a) + (if r.source == App then [r.idx] else [])
    decreases |a|
  {
    if a == [] {
      assert a + [r] == [r] && [r][1..] == [];
    } else {
      assert (a + [r])[0] == a[0] && (a + [r])[1..] == a[1..] + [r];
      FlushReports(a[1..], r);
      Assoc(if a[0].source == App then [a[0].idx] else [], AppIndices(a[1..]), if r.source == App then [r.idx] else []);
    }
  }

  /**
   The link-up guard: past its time with the link still down, the ring is emptied and the bank is
   reported reachable; in every other case the pass changes nothing.
   */
  lemma GuardRule(s: Sys, b: nat, nowUs: int)
    requires b < |s.pend| == |s.o.rt|
    ensures var p, s' := s.pend[b], Step(s, ArbGuard(b, nowUs));
            if p.linkWaitUs != 0 && nowUs > p.linkWaitUs && !s.o.rt[b].linkHeld then
              && b < |s'.pend| && b < |s'.o.rt|
              && s'.pend[b].ring == [] && s'.pend[b].linkWaitUs == 0 && s'.pend[b].busy == p.busy
              && s'.o.rt[b].link == ReachableIdle && s'.reqQ == s.reqQ && s'.o.rspQ == s.o.rspQ
            else s' == s
  {
  }

  // ---- The idle release ---------------------------------------------------------------------------

  /** The idle grace has run out for the record the supervisor copied. */
  predicate GraceOver(rt: Runtime, nowUs: int) {
    && rt.linkHeld && !rt.appConnected
    && nowUs - rt.appLeftUs > 60_000_000 && nowUs - rt.linkUpUs > 60_000_000
    && !(rt.appLeftUs <= 0 && rt.linkUpUs == 0) && !(rt.appLeftUs == 0 && rt.linkUpUs <= 0)
  }

  /**
   An idle release is posted exactly when the copied record shows a held link without an app, more than
   60 s after both the app's departure and the link coming up, one of which is on record, and no
   verification wants the bank;
   it is a disconnect fenced to the copied epoch.
   */
  lemma ReleaseRule(s: Sys, verifyWants: bool, nowUs: int)
    requires |s.pend| == |s.o.rt| && |s.arbIn| < 24
    requires s.snap.Some? ==> s.snap.value.bank < |s.o.rt|
    ensures var s' := Step(s, IdleRelease(verifyWants, nowUs));
            if s.snap.Some? && !verifyWants && GraceOver(s.snap.value.rt, nowUs) then
              && |s'.arbIn| == |s.arbIn| + 1 && s'.arbIn[..|s.arbIn|] == s.arbIn
              && (var m := s'.arbIn[|s.arbIn|];
                  && m.ReqMsg? && m.req.bank == s.snap.value.bank && m.req.kind == Disconnect
                  && m.req.source == Internal && m.req.idleOnly && m.req.idleEpoch == s.snap.value.rt.idleEpoch)
            else s' == s
  {
  }
}
