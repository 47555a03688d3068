/**
 Node A as a whole: the arbiter's banks, the request and response queues, the BLE owner and the
 supervisor's idle release, stepping in any interleaving.

 One event is one critical section, one arbiter message, or one per-bank pass of the arbiter's
 loop. The radio stack is an environment: every callback may come at any time, late or repeated,
 with any arguments. The one assumption about it is that a CONNECT event is delivered for the
 connect in flight (`Enabled`).
 */
module NodeA {
  import opened Prelude
  import opened JkFrame
  import opened NodeATypes
  import opened StateCache
  import opened Links
  import opened LinkPool
  import opened PoolInvariant
  import opened Pending

  const ARB_IN_DEPTH: nat := 24
  const IDLE_GRACE_US: int := 60_000_000

  datatype Msg =
    | ReqMsg(req: Request)
    | AppMsg(bank: nat, connected: bool)
    | ClearMsg(bank: nat)
    | DevReqMsg(bank: nat)
    | DevInfoMsg(bank: nat)

  function MsgBank(m: Msg): nat { if m.ReqMsg? then m.req.bank else m.bank }

  /** The runtime record the supervisor copied at the start of its pass over a bank. */
  datatype Snapshot = Snapshot(bank: nat, rt: Runtime)

  datatype Sys = Sys(
    pend: seq<Pend>,
    o: Owner,
    reqQ: seq<Request>,
    arbIn: seq<Msg>,
    snap: Option<Snapshot>)

  datatype Event =
    | Post(m: Msg)
    | TakeSnapshot(bank: nat)
    | IdleRelease(verifyWants: bool, nowUs: int)
    | PromoteBank(bank: nat)
    | ArbMessage(nowUs: int)
    | ArbResponse(nowUs: int, laterUs: int)
    | ArbDispatch(bank: nat, nowUs: int)
    | ArbDevReq(bank: nat, nowUs: int)
    | ArbGuard(bank: nat, nowUs: int)
    | BleExec(env: ExecEnv, nowUs: int)
    | BleRadio(r: Radio, nowUs: int)

  function Init(units: nat): Sys {
    Sys(seq(units, _ => IDLE),
        Owner(seq(POOL, _ => FreshSlot(0).(inUse := false)), None, 0, 0, 0, seq(units, _ => BOOT), []),
        [], [], None)
  }

  // ---- Arbiter steps -------------------------------------------------------------------

  /** `arb_in_send`: unknown banks and a full queue drop the message. */
  function PostMsg(s: Sys, m: Msg): Sys {
    if MsgBank(m) >= |s.pend| || |s.arbIn| >= ARB_IN_DEPTH then s
    else s.(arbIn := s.arbIn + [m])
  }

  function DispatchBank(s: Sys, b: nat, nowUs: int): Sys {
    if b >= |s.pend| || b >= |s.o.rt| then s
    else
      var d := Dispatch(s.pend[b], b, s.o.rt[b].linkHeld, |s.reqQ| < QUEUE_DEPTH, nowUs);
      s.(pend := s.pend[b := d.p],
         reqQ := if d.out.Some? then s.reqQ + [d.out.value] else s.reqQ)
  }

  function UpdateRt(s: Sys, b: nat, u: Update): Sys
    requires b < |s.o.rt|
  {
    s.(o := s.o.(rt := s.o.rt[b := Updated(s.o.rt[b], u)]))
  }

  /** ARB_REQ: a full ring drops the request. */
  function AcceptReq(s: Sys, b: nat, req: Request, nowUs: int): Sys
    requires b < |s.pend|
  {
    if |s.pend[b].ring| >= PEND_DEPTH then s
    else DispatchBank(s.(pend := s.pend[b := Push(s.pend[b], req)]), b, nowUs)
  }

  /** ARB_APP_CONN: a repeated departure is ignored. */
  function AppEdge(s: Sys, b: nat, connected: bool, nowUs: int): Sys
    requires b < |s.pend| && b < |s.o.rt|
  {
    if !connected && !s.o.rt[b].appConnected then s
    else
      var s1 := UpdateRt(s, b, AppUpdate(connected, nowUs));
      PostMsg(s1.(pend := s1.pend[b := OnAppConn(s1.pend[b], connected, nowUs)]),
              ReqMsg(AppRequest(b, connected)))
  }

  /** One message of the arbiter's inbound queue. */
  function Handle(s: Sys, m: Msg, nowUs: int): Sys {
    var b := MsgBank(m);
    if b >= |s.pend| || b >= |s.o.rt| then s
    else
      match m
      case ReqMsg(req) => AcceptReq(s, b, req, nowUs)
      case AppMsg(_, connected) => AppEdge(s, b, connected, nowUs)
      case ClearMsg(_) => s.(pend := s.pend[b := Flush(s.pend[b])])
      case DevReqMsg(_) =>
        s.(pend := s.pend[b := OnDevReq(s.pend[b], s.o.rt[b].appConnected, s.o.rt[b].linkHeld,
                                        nowUs)])
      case DevInfoMsg(_) => s.(pend := s.pend[b := s.pend[b].(devreqUs := 0)])
  }

  /** The state between a response and the dispatch that follows it. */
  function Answered(s: Sys, nowUs: int): Sys
    requires s.o.rspQ != [] && s.o.rspQ[0].bank < |s.pend| && s.o.rspQ[0].bank < |s.o.rt|
  {
    var rsp := s.o.rspQ[0];
    var p := OnResponse(s.pend[rsp.bank], rsp, s.o.rt[rsp.bank].appConnected, nowUs);
    s.(o := s.o.(rspQ := s.o.rspQ[1..]), pend := s.pend[rsp.bank := p])
  }

  /** One response; one that answers nothing outstanding is dropped. */
  function HandleResponse(s: Sys, nowUs: int, laterUs: int): Sys
    requires s.o.rspQ != []
  {
    var b := s.o.rspQ[0].bank;
    if b >= |s.pend| || b >= |s.o.rt| || !Matches(s.pend[b], s.o.rspQ[0]) then
      s.(o := s.o.(rspQ := s.o.rspQ[1..]))
    else DispatchBank(Answered(s, nowUs), b, laterUs)
  }

  function DevReqPass(s: Sys, b: nat, nowUs: int): Sys {
    if b >= |s.pend| || b >= |s.o.rt| then s
    else
      var p := CheckDevReq(s.pend[b], b, s.o.rt[b].appConnected, s.o.rt[b].linkHeld, nowUs);
      s.(pend := s.pend[b := p])
  }

  function GuardPass(s: Sys, b: nat, nowUs: int): Sys {
    if b >= |s.pend| || b >= |s.o.rt| then s
    else if !GuardFires(s.pend[b], s.o.rt[b].linkHeld, nowUs) then s
    else
      UpdateRt(s.(pend := s.pend[b := Guard(s.pend[b], s.o.rt[b].linkHeld, nowUs)]), b, IdleUpdate)
  }

  // ---- Supervisor steps -----------------------------------------------------------------

  /** The idle-disconnect request built from the supervisor's copy of the record. */
  function IdleRequest(n: Snapshot): Request {
    Request(n.bank, 0, Disconnect, Internal, 0, 0, 0, [], true, n.rt.idleEpoch, n.rt.edges)
  }

  predicate IdleDue(rt: Runtime, verifyWants: bool, nowUs: int) {
    var ref := if rt.appLeftUs > rt.linkUpUs then rt.appLeftUs else rt.linkUpUs;
    rt.linkHeld && !rt.appConnected && !verifyWants && ref != 0 && nowUs - ref > IDLE_GRACE_US
  }

  function ReleasePass(s: Sys, verifyWants: bool, nowUs: int): Sys {
    if s.snap.None? || s.snap.value.bank >= |s.o.rt| then s
    else
      var n := s.snap.value;
      if !IdleDue(n.rt, verifyWants, nowUs) then s
      else
        UpdateRt(PostMsg(s, ReqMsg(IdleRequest(n))), n.bank, AppLeftUpdate(n.rt.appLeftUs))
  }

  // ---- One event -------------------------------------------------------------------------

  function Step(s: Sys, e: Event): Sys {
    match e
    case Post(m) => PostMsg(s, m)
    case TakeSnapshot(b) =>
      if b < |s.o.rt| then s.(snap := Some(Snapshot(b, s.o.rt[b]))) else s
    case IdleRelease(v, now) => ReleasePass(s, v, now)
    case PromoteBank(b) => if b < |s.o.rt| then UpdateRt(s, b, PromoteUpdate) else s
    case ArbMessage(now) =>
      if s.arbIn == [] then s else Handle(s.(arbIn := s.arbIn[1..]), s.arbIn[0], now)
    case ArbResponse(now, later) =>
      if s.o.rspQ == [] then s else HandleResponse(s, now, later)
    case ArbDispatch(b, now) => DispatchBank(s, b, now)
    case ArbDevReq(b, now) => DevReqPass(s, b, now)
    case ArbGuard(b, now) => GuardPass(s, b, now)
    case BleExec(env, now) =>
      if s.reqQ == [] then s
      else s.(reqQ := s.reqQ[1..], o := Exec(s.o, s.reqQ[0], env, now))
    case BleRadio(r, now) => s.(o := OnRadio(s.o, r, now))
  }

  /** What the surroundings may do: see the module comment. */
  predicate Enabled(s: Sys, e: Event) {
    match e
    case Post(m) => m.ReqMsg? ==> m.req.cmdId == 0 && !m.req.idleOnly
    case BleRadio(r, _) => RadioEnabled(s.o, r)
    case _ => true
  }

  function Run(s: Sys, es: seq<Event>): Sys
    decreases |es|
  {
    if es == [] then s else Step(Run(s, es[..|es| - 1]), es[|es| - 1])
  }

  ghost predicate Possible(s: Sys, es: seq<Event>)
    decreases |es|
  {
    es == [] ||
    (Possible(s, es[..|es| - 1]) && Enabled(Run(s, es[..|es| - 1]), es[|es| - 1]))
  }

  // ---- Tokens -------------------------------------------------------------------------------

  /** The operation a bank is waiting for. */
  function Waiting(p: Pend): Option<nat> { if p.busy then Some(p.activeId) else None }

  function WaitToken(w: Option<nat>, b: nat): multiset<Token> {
    if w.Some? then multiset{Token(b, w.value)} else multiset{}
  }

  /** One token for each busy bank below `n`. */
  function BusyTokens(pend: seq<Pend>, n: nat): multiset<Token>
    requires n <= |pend|
  {
    if n == 0 then multiset{} else BusyTokens(pend, n - 1) + WaitToken(Waiting(pend[n - 1]), n - 1)
  }

  /** Every copy of an operation: queued, held by a slot, or answered and queued. */
  function Tokens(s: Sys): multiset<Token> {
    RequestTokens(s.reqQ) + OwnerTokens(s.o)
  }

  lemma {:induction false} BusyTokensSize(pend: seq<Pend>, n: nat)
    requires n <= |pend|
    ensures |BusyTokens(pend, n)| <= n
  {
    if n > 0 {
      BusyTokensSize(pend, n - 1);
    }
  }

  lemma {:induction false} BusyTokensAt(pend: seq<Pend>, n: nat, b: nat, id: nat)
    requires n <= |pend|
    ensures BusyTokens(pend, n)[Token(b, id)]
            == if b < n && Waiting(pend[b]) == Some(id) then 1 else 0
  {
    if n > 0 {
      var t := Token(b, id);
      BusyTokensAt(pend, n - 1, b, id);
      WaitTokenAt(Waiting(pend[n - 1]), n - 1, b, id);
      PlusAt(BusyTokens(pend, n - 1), WaitToken(Waiting(pend[n - 1]), n - 1), t);
    }
  }

  lemma PlusAt(a: multiset<Token>, b: multiset<Token>, t: Token)
    ensures (a + b)[t] == a[t] + b[t]
  {
  }

  lemma WaitTokenAt(w: Option<nat>, n: nat, b: nat, id: nat)
    ensures WaitToken(w, n)[Token(b, id)] == if b == n && w == Some(id) then 1 else 0
  {
  }

  /** The tokens depend only on what the banks wait for. */
  lemma {:induction false} BusyTokensSame(pend: seq<Pend>, pend': seq<Pend>, n: nat)
    requires n <= |pend| && n <= |pend'|
    requires forall b :: 0 <= b < n ==> Waiting(pend'[b]) == Waiting(pend[b])
    ensures BusyTokens(pend', n) == BusyTokens(pend, n)
  {
    if n > 0 {
      BusyTokensSame(pend, pend', n - 1);
      assert Waiting(pend'[n - 1]) == Waiting(pend[n - 1]);
    }
  }

  /** Making an idle bank wait adds exactly its token. */
  lemma {:induction false} BusyTokensAdd(pend: seq<Pend>, pend': seq<Pend>, n: nat, b: nat)
    requires b < n <= |pend| && n <= |pend'| && Waiting(pend[b]) == None
    requires forall k :: 0 <= k < n && k != b ==> Waiting(pend'[k]) == Waiting(pend[k])
    ensures BusyTokens(pend', n) == BusyTokens(pend, n) + WaitToken(Waiting(pend'[b]), b)
  {
    if n - 1 == b {
      BusyTokensSame(pend, pend', n - 1);
    } else {
      BusyTokensAdd(pend, pend', n - 1, b);
      var last := WaitToken(Waiting(pend[n - 1]), n - 1);
      assert WaitToken(Waiting(pend'[n - 1]), n - 1) == last;
      Extra(BusyTokens(pend, n - 1), last, WaitToken(Waiting(pend'[b]), b));
    }
  }

  // ---- The invariant ---------------------------------------------------------------------------

  /** An idle-release request carries the epoch of an edge count its bank has reached. */
  predicate Fenced(r: Request, rt: seq<Runtime>) {
    && r.bank < |rt|
    && (r.idleOnly ==>
          r.snapEdges <= rt[r.bank].edges && r.idleEpoch == r.snapEdges % TWO_64)
  }

  ghost predicate MsgsOk(q: seq<Msg>, rt: seq<Runtime>) {
    forall i :: 0 <= i < |q| ==>
                  && MsgBank(q[i]) < |rt|
                  && (q[i].ReqMsg? ==> q[i].req.cmdId == 0 && Fenced(q[i].req, rt))
  }

  ghost predicate RingOk(ring: seq<Request>, b: nat, rt: seq<Runtime>) {
    forall i :: 0 <= i < |ring| ==> ring[i].bank == b && Fenced(ring[i], rt)
  }

  ghost predicate QueueOk(q: seq<Request>, rt: seq<Runtime>) {
    forall i :: 0 <= i < |q| ==> Fenced(q[i], rt)
  }

  ghost predicate BanksOk(pend: seq<Pend>, rt: seq<Runtime>) {
    && |pend| == |rt|
    && (forall b :: 0 <= b < |pend| ==> PendOk(pend[b]) && RingOk(pend[b].ring, b, rt))
  }

  ghost predicate SnapOk(snap: Option<Snapshot>, rt: seq<Runtime>) {
    snap.Some? ==>
      && snap.value.bank < |rt|
      && snap.value.rt.edges <= rt[snap.value.bank].edges
      && snap.value.rt.idleEpoch == snap.value.rt.edges % TWO_64
  }

  ghost predicate PathsOk(arbIn: seq<Msg>, reqQ: seq<Request>, snap: Option<Snapshot>,
                          rt: seq<Runtime>)
  {
    MsgsOk(arbIn, rt) && QueueOk(reqQ, rt) && SnapOk(snap, rt)
  }

  /** Every copy of an operation is the one its bank waits for, and there is one per busy bank. */
  ghost predicate Balanced(queued: multiset<Token>, own: multiset<Token>, pend: seq<Pend>) {
    queued + own == BusyTokens(pend, |pend|)
  }

  ghost predicate Inv(s: Sys) {
    && |s.pend| <= QUEUE_DEPTH
    && BanksOk(s.pend, s.o.rt)
    && PathsOk(s.arbIn, s.reqQ, s.snap, s.o.rt)
    && PoolInv(s.o)
    && Balanced(RequestTokens(s.reqQ), OwnerTokens(s.o), s.pend)
  }

  lemma InitInv(units: nat)
    requires units <= QUEUE_DEPTH
    ensures Inv(Init(units))
  {
    var s := Init(units);
    InitBusy(s.pend, units);
    PoolIdle(s.o.slots);
    forall b | 0 <= b < units ensures PendOk(s.pend[b]) && RingOk(s.pend[b].ring, b, s.o.rt) {
      assert s.pend[b] == IDLE;
    }
  }

  lemma {:induction false} InitBusy(pend: seq<Pend>, n: nat)
    requires n <= |pend| && forall b :: 0 <= b < |pend| ==> !pend[b].busy
    ensures BusyTokens(pend, n) == multiset{}
  {
    if n > 0 {
      InitBusy(pend, n - 1);
    }
  }

  lemma {:induction false} PoolIdle(slots: seq<Slot>)
    requires forall i :: 0 <= i < |slots| ==> !slots[i].inUse
    ensures PoolTokens(slots) == multiset{}
  {
    if slots != [] {
      PoolIdle(slots[1..]);
    }
  }

  /** Edge counts only grow, so nothing that was fenced loses its meaning. */
  lemma RtGrows(s: Sys, rt: seq<Runtime>)
    requires BanksOk(s.pend, s.o.rt) && PathsOk(s.arbIn, s.reqQ, s.snap, s.o.rt)
    requires |rt| == |s.o.rt| && forall b :: 0 <= b < |rt| ==> s.o.rt[b].edges <= rt[b].edges
    ensures BanksOk(s.pend, rt) && PathsOk(s.arbIn, s.reqQ, s.snap, rt)
  {
    forall b | 0 <= b < |s.pend| ensures RingOk(s.pend[b].ring, b, rt) {
      assert RingOk(s.pend[b].ring, b, s.o.rt);
    }
  }

  lemma TokenBound(s: Sys)
    requires Inv(s)
    ensures |Tokens(s)| <= |s.pend|
    ensures |s.reqQ| + |OwnerTokens(s.o)| <= |s.pend|
    ensures Pre(s.o)
  {
    BusyTokensSize(s.pend, |s.pend|);
    RequestTokensSize(s.reqQ);
  }

  // ---- BLE steps -----------------------------------------------------------------------------------

  /** A critical section of the owner that keeps its own promises keeps the system's. */
  lemma OwnerStep(s: Sys, o': Owner)
    requires Inv(s) && Keeps(s.o, o')
    ensures Inv(s.(o := o'))
  {
    assert forall b :: 0 <= b < |s.o.rt| ==> Advances(s.o.rt[b], o'.rt[b]);
    RtGrows(s, o'.rt);
  }

  lemma ExecStep(s: Sys, env: ExecEnv, nowUs: int)
    requires Inv(s) && s.reqQ != []
    ensures Inv(s.(reqQ := s.reqQ[1..], o := Exec(s.o, s.reqQ[0], env, nowUs)))
  {
    var req, rest := s.reqQ[0], s.reqQ[1..];
    TokenBound(s);
    ExecTakes(s.o, req, env, nowUs);
    var o' := Exec(s.o, req, env, nowUs);
    assert forall b :: 0 <= b < |s.o.rt| ==> Advances(s.o.rt[b], o'.rt[b]);
    RtGrows(s, o'.rt);
    TakeOver(RequestTokens(rest), multiset{RequestToken(req)}, OwnerTokens(s.o));
  }

  lemma TakeOver(rest: multiset<Token>, t: multiset<Token>, own: multiset<Token>)
    ensures t + rest + own == rest + (own + t)
  {
  }

  // ---- Arbiter steps ----------------------------------------------------------------------------------

  lemma DispatchRing(p: Pend, bank: nat, held: bool, room: bool, nowUs: int, rt: seq<Runtime>)
    requires RingOk(p.ring, bank, rt) && bank < |rt|
    ensures RingOk(Dispatch(p, bank, held, room, nowUs).p.ring, bank, rt)
    ensures var out := Dispatch(p, bank, held, room, nowUs).out;
            out.Some? ==> out.value.bank == bank && Fenced(out.value, rt)
  {
  }

  lemma QueueGrows(q: seq<Request>, r: Request, rt: seq<Runtime>)
    requires QueueOk(q, rt) && Fenced(r, rt)
    ensures QueueOk(q + [r], rt)
  {
  }

  lemma BanksReplace(pend: seq<Pend>, rt: seq<Runtime>, b: nat, p: Pend)
    requires BanksOk(pend, rt) && b < |pend| && PendOk(p) && RingOk(p.ring, b, rt)
    ensures BanksOk(pend[b := p], rt)
  {
  }

  /** Handing a request to the queue, with its bank now waiting for it. */
  lemma SendBalanced(q: seq<Request>, own: multiset<Token>, pend: seq<Pend>, b: nat, p: Pend,
                     r: Request)
    requires Balanced(RequestTokens(q), own, pend) && b < |pend|
    requires Waiting(pend[b]) == None && Waiting(p) == Some(r.cmdId) && r.bank == b
    ensures Balanced(RequestTokens(q + [r]), own, pend[b := p])
  {
    RequestTokensAppend(q, r);
    BusyTokensAdd(pend, pend[b := p], |pend|, b);
    Extra(RequestTokens(q), own, multiset{RequestToken(r)});
  }

  lemma DispatchStep(s: Sys, b: nat, nowUs: int)
    requires Inv(s)
    ensures Inv(DispatchBank(s, b, nowUs))
  {
    if b < |s.pend| {
      DispatchBusy(s, b, Dispatch(s.pend[b], b, s.o.rt[b].linkHeld, |s.reqQ| < QUEUE_DEPTH, nowUs),
                   nowUs);
    }
  }

  lemma DispatchBusy(s: Sys, b: nat, d: Dispatched, nowUs: int)
    requires Inv(s) && b < |s.pend|
    requires d == Dispatch(s.pend[b], b, s.o.rt[b].linkHeld, |s.reqQ| < QUEUE_DEPTH, nowUs)
    ensures Inv(s.(pend := s.pend[b := d.p],
                   reqQ := if d.out.Some? then s.reqQ + [d.out.value] else s.reqQ))
  {
    var p, room, held := s.pend[b], |s.reqQ| < QUEUE_DEPTH, s.o.rt[b].linkHeld;
    DispatchOk(p, b, held, room, nowUs);
    DispatchRing(p, b, held, room, nowUs, s.o.rt);
    BanksReplace(s.pend, s.o.rt, b, d.p);
    DispatchSends(p, b, held, room, nowUs);
    if d.out.Some? {
      QueueGrows(s.reqQ, d.out.value, s.o.rt);
      SendBalanced(s.reqQ, OwnerTokens(s.o), s.pend, b, d.p, d.out.value);
    } else {
      assert s.pend[b := d.p] == s.pend;
    }
  }

  /** Replacing a bank's record without touching its outstanding operation. */
  lemma BankStep(s: Sys, b: nat, p: Pend)
    requires Inv(s) && b < |s.pend|
    requires PendOk(p) && RingOk(p.ring, b, s.o.rt) && Waiting(p) == Waiting(s.pend[b])
    ensures Inv(s.(pend := s.pend[b := p]))
  {
    BanksReplace(s.pend, s.o.rt, b, p);
    BusyTokensSame(s.pend, s.pend[b := p], |s.pend|);
  }

  lemma PostStep(s: Sys, m: Msg)
    requires Inv(s)
    requires m.ReqMsg? ==> m.req.cmdId == 0 && (m.req.bank < |s.o.rt| ==> Fenced(m.req, s.o.rt))
    ensures Inv(PostMsg(s, m))
  {
  }

  /** A runtime update that leaves the held flag alone. */
  lemma RtStep(s: Sys, b: nat, u: Update)
    requires Inv(s) && b < |s.o.rt| && !u.LinkUpdate?
    ensures Inv(UpdateRt(s, b, u))
  {
    var rt' := s.o.rt[b := Updated(s.o.rt[b], u)];
    UpdateKeeps(s.o.rt[b], u);
    RtGrows(s, rt');
    assert CacheOk(s.o.slots, rt');
  }

  lemma PushRing(p: Pend, req: Request, rt: seq<Runtime>)
    requires RingOk(p.ring, req.bank, rt) && Fenced(req, rt)
    ensures RingOk(Push(p, req).ring, req.bank, rt) && Waiting(Push(p, req)) == Waiting(p)
  {
  }

  lemma HandleReq(s: Sys, req: Request, nowUs: int)
    requires Inv(s) && req.bank < |s.pend| && req.cmdId == 0 && Fenced(req, s.o.rt)
    ensures Inv(AcceptReq(s, req.bank, req, nowUs))
  {
    var b, p := req.bank, s.pend[req.bank];
    if |p.ring| < PEND_DEPTH {
      var p' := Push(p, req);
      PushOk(p, req);
      PushRing(p, req, s.o.rt);
      BankStep(s, b, p');
      DispatchStep(s.(pend := s.pend[b := p']), b, nowUs);
    }
  }

  lemma HandleApp(s: Sys, b: nat, connected: bool, nowUs: int)
    requires Inv(s) && b < |s.pend|
    ensures Inv(AppEdge(s, b, connected, nowUs))
  {
    var p := OnAppConn(s.pend[b], connected, nowUs);
    RtStep(s, b, AppUpdate(connected, nowUs));
    var s1 := UpdateRt(s, b, AppUpdate(connected, nowUs));
    BankStep(s1, b, p);
    PostStep(s1.(pend := s1.pend[b := p]), ReqMsg(AppRequest(b, connected)));
  }

  lemma HandleStep(s: Sys, m: Msg, nowUs: int)
    requires Inv(s)
    requires m.ReqMsg? ==> m.req.cmdId == 0 && Fenced(m.req, s.o.rt)
    ensures Inv(Handle(s, m, nowUs))
  {
    var b := MsgBank(m);
    if b < |s.pend| {
      var p, rt := s.pend[b], s.o.rt[b];
      match m {
        case ReqMsg(req) => HandleReq(s, req, nowUs);
        case AppMsg(_, connected) => HandleApp(s, b, connected, nowUs);
        case ClearMsg(_) =>
          FlushOk(p);
          BankStep(s, b, Flush(p));
        case DevReqMsg(_) => BankStep(s, b, OnDevReq(p, rt.appConnected, rt.linkHeld, nowUs));
        case DevInfoMsg(_) => BankStep(s, b, p.(devreqUs := 0));
      }
    }
  }

  /** The response at the head of the queue always answers what its bank is waiting for. */
  lemma ResponseMatches(s: Sys)
    requires Inv(s) && s.o.rspQ != []
    ensures s.o.rspQ[0].bank < |s.pend| && Matches(s.pend[s.o.rspQ[0].bank], s.o.rspQ[0])
  {
    var rsp := s.o.rspQ[0];
    var t := ResponseToken(rsp);
    assert t in ResponseTokens(s.o.rspQ);
    assert t in Tokens(s);
    BusyTokensAt(s.pend, |s.pend|, rsp.bank, rsp.cmdId);
  }

  lemma ResponseRing(p: Pend, rsp: Response, app: bool, nowUs: int, b: nat, rt: seq<Runtime>)
    requires RingOk(p.ring, b, rt)
    ensures RingOk(OnResponse(p, rsp, app, nowUs).ring, b, rt)
  {
  }

  /** Taking a response off the queue, with its bank no longer waiting for it. */
  lemma ConsumeBalanced(q: multiset<Token>, slots: multiset<Token>, rsps: seq<Response>,
                        pend: seq<Pend>, p: Pend)
    requires rsps != [] && Balanced(q, slots + ResponseTokens(rsps), pend)
    requires rsps[0].bank < |pend| && Waiting(pend[rsps[0].bank]) == Some(rsps[0].cmdId)
    requires Waiting(p) == None
    ensures Balanced(q, slots + ResponseTokens(rsps[1..]), pend[rsps[0].bank := p])
  {
    var b := rsps[0].bank;
    var pend' := pend[b := p];
    BusyTokensAdd(pend', pend, |pend|, b);
    Cancel(q, slots, multiset{ResponseToken(rsps[0])}, ResponseTokens(rsps[1..]),
           BusyTokens(pend', |pend'|));
  }

  /** Consuming a response frees its bank and retires its token. */
  lemma Consume(s: Sys, p: Pend)
    requires Inv(s) && s.o.rspQ != [] && s.o.rspQ[0].bank < |s.pend|
    requires Matches(s.pend[s.o.rspQ[0].bank], s.o.rspQ[0])
    requires !p.busy && PendOk(p) && RingOk(p.ring, s.o.rspQ[0].bank, s.o.rt)
    ensures Inv(s.(o := s.o.(rspQ := s.o.rspQ[1..]), pend := s.pend[s.o.rspQ[0].bank := p]))
  {
    BanksReplace(s.pend, s.o.rt, s.o.rspQ[0].bank, p);
    ConsumeBalanced(RequestTokens(s.reqQ), PoolTokens(s.o.slots), s.o.rspQ, s.pend, p);
  }

  lemma Cancel(q: multiset<Token>, p: multiset<Token>, t: multiset<Token>, r: multiset<Token>,
               busy: multiset<Token>)
    requires q + (p + (t + r)) == busy + t
    ensures q + (p + r) == busy
  {
    forall x ensures (q + (p + r))[x] == busy[x] {
      assert (q + (p + (t + r)))[x] == (busy + t)[x];
    }
  }

  lemma AnsweredInv(s: Sys, nowUs: int)
    requires Inv(s) && s.o.rspQ != [] && s.o.rspQ[0].bank < |s.pend|
    requires Matches(s.pend[s.o.rspQ[0].bank], s.o.rspQ[0])
    ensures Inv(Answered(s, nowUs))
  {
    var rsp, b := s.o.rspQ[0], s.o.rspQ[0].bank;
    var app := s.o.rt[b].appConnected;
    OnResponseOk(s.pend[b], rsp, app, nowUs);
    ConnectRetained(s.pend[b], rsp, app, nowUs);
    ResponseRing(s.pend[b], rsp, app, nowUs, b, s.o.rt);
    Consume(s, OnResponse(s.pend[b], rsp, app, nowUs));
  }

  lemma ResponseStep(s: Sys, nowUs: int, laterUs: int)
    requires Inv(s) && s.o.rspQ != []
    ensures Inv(HandleResponse(s, nowUs, laterUs))
  {
    ResponseMatches(s);
    AnsweredInv(s, nowUs);
    DispatchStep(Answered(s, nowUs), s.o.rspQ[0].bank, laterUs);
  }

  lemma DevReqRing(p: Pend, b: nat, app: bool, held: bool, nowUs: int, rt: seq<Runtime>)
    requires RingOk(p.ring, b, rt) && b < |rt|
    ensures RingOk(CheckDevReq(p, b, app, held, nowUs).ring, b, rt)
  {
    var p2 := p.(devreqUs := 0, devreqRefreshed := true);
    PushRing(p2, BounceRequest(b), rt);
    PushRing(Push(p2, BounceRequest(b)), PollRequest(b, CMD_DEVICE_INFO), rt);
  }

  lemma DevReqStep(s: Sys, b: nat, nowUs: int)
    requires Inv(s)
    ensures Inv(DevReqPass(s, b, nowUs))
  {
    if b < |s.pend| {
      var p, rt := s.pend[b], s.o.rt[b];
      CheckDevReqOk(p, b, rt.appConnected, rt.linkHeld, nowUs);
      DevReqRing(p, b, rt.appConnected, rt.linkHeld, nowUs, s.o.rt);
      BankStep(s, b, CheckDevReq(p, b, rt.appConnected, rt.linkHeld, nowUs));
    }
  }

  lemma GuardStep(s: Sys, b: nat, nowUs: int)
    requires Inv(s)
    ensures Inv(GuardPass(s, b, nowUs))
  {
    if b < |s.pend| {
      var p := Guard(s.pend[b], s.o.rt[b].linkHeld, nowUs);
      FlushOk(s.pend[b]);
      BankStep(s, b, p);
      RtStep(s.(pend := s.pend[b := p]), b, IdleUpdate);
    }
  }

  lemma ReleaseStep(s: Sys, verifyWants: bool, nowUs: int)
    requires Inv(s)
    ensures Inv(ReleasePass(s, verifyWants, nowUs))
  {
    if s.snap.Some? {
      var n := s.snap.value;
      PostStep(s, ReqMsg(IdleRequest(n)));
      RtStep(PostMsg(s, ReqMsg(IdleRequest(n))), n.bank, AppLeftUpdate(n.rt.appLeftUs));
    }
  }

  // ---- Every step, every run ---------------------------------------------------------------------------

  lemma SnapshotStep(s: Sys, b: nat)
    requires Inv(s) && b < |s.o.rt|
    ensures Inv(s.(snap := Some(Snapshot(b, s.o.rt[b]))))
  {
    assert RuntimeOk(s.o.rt[b]);
  }

  lemma LookStep(s: Sys, e: Event)
    requires Inv(s) && (e.PromoteBank? || e.TakeSnapshot?)
    ensures Inv(Step(s, e))
  {
    if e.bank < |s.o.rt| {
      if e.TakeSnapshot? {
        SnapshotStep(s, e.bank);
      } else {
        RtStep(s, e.bank, PromoteUpdate);
      }
    }
  }

  lemma PassStep(s: Sys, e: Event)
    requires Inv(s) && Enabled(s, e)
    requires e.ArbDispatch? || e.ArbDevReq? || e.ArbGuard?
    ensures Inv(Step(s, e))
  {
    match e {
      case ArbDispatch(b, now) => DispatchStep(s, b, now);
      case ArbDevReq(b, now) => DevReqStep(s, b, now);
      case ArbGuard(b, now) => GuardStep(s, b, now);
    }
  }

  lemma QueueStep(s: Sys, e: Event)
    requires Inv(s) && Enabled(s, e)
    requires e.Post? || e.IdleRelease? || e.ArbMessage? || e.ArbResponse?
    ensures Inv(Step(s, e))
  {
    match e {
      case Post(m) => PostStep(s, m);
      case IdleRelease(v, now) => ReleaseStep(s, v, now);
      case ArbMessage(now) =>
        if s.arbIn != [] {
          MessageStep(s, now);
        }
      case ArbResponse(now, later) =>
        if s.o.rspQ != [] {
          ResponseStep(s, now, later);
        }
    }
  }

  lemma MessageStep(s: Sys, nowUs: int)
    requires Inv(s) && s.arbIn != []
    ensures Inv(Handle(s.(arbIn := s.arbIn[1..]), s.arbIn[0], nowUs))
  {
    var s1 := s.(arbIn := s.arbIn[1..]);
    assert MsgsOk(s1.arbIn, s1.o.rt);
    HandleStep(s1, s.arbIn[0], nowUs);
  }

  lemma StepInv(s: Sys, e: Event)
    requires Inv(s) && Enabled(s, e)
    ensures Inv(Step(s, e))
  {
    if e.BleExec? {
      if s.reqQ != [] {
        ExecStep(s, e.env, e.nowUs);
      }
    } else if e.BleRadio? {
      TokenBound(s);
      RadioKeeps(s.o, e.r, e.nowUs);
      OwnerStep(s, OnRadio(s.o, e.r, e.nowUs));
    } else if e.Post? || e.IdleRelease? || e.ArbMessage? || e.ArbResponse? {
      QueueStep(s, e);
    } else if e.PromoteBank? || e.TakeSnapshot? {
      LookStep(s, e);
    } else {
      PassStep(s, e);
    }
  }

  /** Every reachable state of every interleaving satisfies the invariant. */
  lemma {:induction false} RunInv(s: Sys, es: seq<Event>)
    requires Inv(s) && Possible(s, es)
    ensures Inv(Run(s, es))
    decreases |es|
  {
    if es != [] {
      RunInv(s, es[..|es| - 1]);
      StepInv(Run(s, es[..|es| - 1]), es[|es| - 1]);
    }
  }
}
