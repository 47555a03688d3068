/**
 The arbiter's bookkeeping for one bank: an eight-deep ring of pending requests, at most one
 outstanding operation, and the failure backoff.

 `Log` is bookkeeping of this model. It records what the bank accepted since the last flush, how
 much of that has left the ring, the copies handed to the BLE queue, all command ids ever sent,
 and all results consumed.
 */
module Pending {
  import opened Prelude
  import opened JkFrame
  import opened NodeATypes

  const PEND_DEPTH: nat := 8
  const BACKOFF_MS: nat := 2000
  const CAP_MS: nat := 30000
  const FAST_RETRY_MS: nat := 250
  const SPACING_US: int := 100_000
  const LINK_TIMEOUT_US: int := 10_000_000
  const DEVINFO_WAIT_US: int := 1_500_000

  datatype Result = Result(cmdId: nat, status: Status, app: bool, nowUs: int)

  datatype Log = Log(
    accepted: seq<Request>, left: nat, forwarded: seq<Request>,
    sent: seq<nat>, results: seq<Result>)

  datatype Pend = Pend(
    ring: seq<Request>,
    busy: bool,
    connectHead: bool,
    nextId: nat,
    activeId: nat,
    linkWaitUs: int,
    connectAfterUs: int,
    backoffMs: nat,
    dispatchAfterUs: int,
    devreqUs: int,
    devreqRefreshed: bool,
    log: Log)

  const IDLE: Pend := Pend([], false, false, 0, 0, 0, 0, 0, 0, 0, false, Log([], 0, [], [], []))

  /** The request as its submitter wrote it. */
  function Plain(r: Request): Request { r.(cmdId := 0) }

  // ---- Operations -----------------------------------------------------------------

  /** `ring_push`; a full ring drops the request. */
  function Push(p: Pend, r: Request): Pend {
    if |p.ring| >= PEND_DEPTH then p
    else p.(ring := p.ring + [r], log := p.log.(accepted := p.log.accepted + [Plain(r)]))
  }

  /** Flush the ring: an ARB_CLEAR message, or the link-up guard. */
  function Flush(p: Pend): Pend {
    p.(ring := [], log := p.log.(accepted := [], left := 0, forwarded := []))
  }

  /** `ring_pop`. */
  function Pop(p: Pend): Pend
    requires p.ring != []
  {
    p.(ring := p.ring[1..], log := p.log.(left := p.log.left + 1))
  }

  /** Mark the bank busy with the next command id. */
  function Begin(p: Pend, connectHead: bool): Pend {
    var id := p.nextId + 1;
    p.(busy := true, connectHead := connectHead, nextId := id, activeId := id,
       log := p.log.(sent := p.log.sent + [id]))
  }

  predicate NeedsLink(r: Request) { r.kind != Connect && r.kind != Disconnect }

  /** The connect an arbiter issues on its own for a bank whose link is down. */
  function ImplicitConnect(bank: nat, id: nat): Request {
    Request(bank, id, Connect, Internal, 0, 0, 9000, [], false, 0, 0)
  }

  datatype Dispatched = Dispatched(p: Pend, out: Option<Request>)

  /** The bank may hand something to the BLE owner now. */
  predicate MayDispatch(p: Pend, nowUs: int) {
    nowUs >= p.dispatchAfterUs && !p.busy && p.ring != [] && p.nextId != TWO_64 - 1
  }

  /** `dispatch`; `room` says whether the request queue accepts the copy. */
  function Dispatch(p: Pend, bank: nat, linkHeld: bool, room: bool, nowUs: int): Dispatched {
    if !MayDispatch(p, nowUs) then Dispatched(p, None)
    else
      var r := p.ring[0];
      if NeedsLink(r) && !linkHeld then
        if nowUs < p.connectAfterUs || !room then Dispatched(p, None)
        else Dispatched(Begin(p, false), Some(ImplicitConnect(bank, p.nextId + 1)))
      else if !room then Dispatched(p, None)
      else if r.kind == Connect then
        var b := Begin(p, true);
        Dispatched(b.(ring := b.ring[0 := r.(cmdId := b.nextId)]), Some(r.(cmdId := b.nextId)))
      else
        var b := Pop(Begin(p, false));
        Dispatched(b.(log := b.log.(forwarded := b.log.forwarded + [Plain(r)])),
                   Some(r.(cmdId := b.nextId)))
  }

  predicate Failing(s: Status) { s == Timeout || s == LinkDown || s == GattError }

  /** The failure branch of `on_response`. */
  function BackOff(p: Pend, app: bool, nowUs: int): Pend {
    if p.backoffMs == 0 && app then
      p.(backoffMs := 1, connectAfterUs := nowUs + FAST_RETRY_MS * 1000)
    else
      var ms := if p.backoffMs < BACKOFF_MS then BACKOFF_MS
                else if 2 * p.backoffMs > CAP_MS then CAP_MS
                else 2 * p.backoffMs;
      p.(backoffMs := ms, connectAfterUs := nowUs + ms * 1000)
  }

  /** The response answers the outstanding operation. */
  predicate Matches(p: Pend, rsp: Response) { p.busy && rsp.cmdId == p.activeId }

  /** An explicit CONNECT at the head is finished by this response. */
  predicate EndsConnect(p: Pend, rsp: Response) {
    p.connectHead && rsp.status != ConnectWait && p.ring != [] && p.ring[0].cmdId == rsp.cmdId
  }

  /** The bookkeeping half of `on_response`: finish the CONNECT at the head, free the bank. */
  function Settle(p: Pend, rsp: Response, res: Result): Pend {
    var p1 := if EndsConnect(p, rsp) then Pop(p) else p;
    p1.(connectHead := false, busy := false, activeId := 0,
        log := p1.log.(results := p1.log.results + [res]))
  }

  /** The policy half of `on_response`. */
  function Rate(p: Pend, res: Result): Pend {
    if res.status == ConnectWait then p.(dispatchAfterUs := res.nowUs + SPACING_US)
    else if res.status == Ok then p.(backoffMs := 0)
    else if Failing(res.status) then
      BackOff(p, res.app, res.nowUs).(dispatchAfterUs := res.nowUs + SPACING_US)
    else p
  }

  /** `on_response` up to its closing dispatch. */
  function OnResponse(p: Pend, rsp: Response, app: bool, nowUs: int): Pend {
    if !Matches(p, rsp) then p
    else
      var res := Result(rsp.cmdId, rsp.status, app, nowUs);
      Rate(Settle(p, rsp, res), res)
  }

  /** `on_app_conn` for an edge that is acted on; the request it posts is `AppRequest`. */
  function OnAppConn(p: Pend, connected: bool, nowUs: int): Pend {
    p.(devreqUs := 0, devreqRefreshed := false,
       linkWaitUs := if connected then nowUs + LINK_TIMEOUT_US else 0)
  }

  function AppRequest(bank: nat, connected: bool): Request {
    if connected then Request(bank, 0, Connect, App, 0, 0, 9000, [], false, 0, 0)
    else PollRequest(bank, CMD_DEVICE_INFO)
  }

  function PollRequest(bank: nat, opcode: nat): Request {
    Request(bank, 0, Poll, Internal, opcode, 0, 3000, [], false, 0, 0)
  }

  function BounceRequest(bank: nat): Request {
    Request(bank, 0, Disconnect, Internal, 0, 0, 3000, [], false, 0, 0)
  }

  /** `on_app_devreq`. */
  function OnDevReq(p: Pend, app: bool, held: bool, nowUs: int): Pend {
    if p.devreqRefreshed || p.devreqUs != 0 || !app || !held then p
    else p.(devreqUs := nowUs + DEVINFO_WAIT_US)
  }

  /** `check_devreq` up to its closing dispatch. */
  function CheckDevReq(p: Pend, bank: nat, app: bool, held: bool, nowUs: int): Pend {
    if p.devreqUs == 0 || nowUs <= p.devreqUs then p
    else
      var p1 := p.(devreqUs := 0);
      if !app || !held then p1
      else
        var p2 := p1.(devreqRefreshed := true);
        if |p2.ring| >= PEND_DEPTH then p2
        else Push(Push(p2, BounceRequest(bank)), PollRequest(bank, CMD_DEVICE_INFO))
  }

  predicate GuardFires(p: Pend, held: bool, nowUs: int) {
    p.linkWaitUs != 0 && nowUs > p.linkWaitUs && !held
  }

  /** The link-up guard of `check_link_guards`. */
  function Guard(p: Pend, held: bool, nowUs: int): Pend {
    if GuardFires(p, held, nowUs) then Flush(p).(linkWaitUs := 0) else p
  }

  /** The app writes a flush has to report as link-down, in ring order. */
  function AppIndices(ring: seq<Request>): seq<nat> {
    if ring == [] then []
    else (if ring[0].source == App then [ring[0].idx] else []) + AppIndices(ring[1..])
  }

  // ---- Backoff as a function of the result history -----------------------------------

  /** Counted failures since the last success. */
  function Fails(h: seq<Result>): nat {
    if h == [] then 0
    else
      var last := h[|h| - 1];
      if last.status == Ok then 0
      else Fails(h[..|h| - 1]) + if Failing(last.status) then 1 else 0
  }

  /** A phone was attached at the first of those failures. */
  function FirstWithApp(h: seq<Result>): bool {
    if h == [] then false
    else
      var last, front := h[|h| - 1], h[..|h| - 1];
      if last.status == Ok then false
      else if Failing(last.status) && Fails(front) == 0 then last.app
      else FirstWithApp(front)
  }

  function Pow2(n: nat): nat { if n == 0 then 1 else 2 * Pow2(n - 1) }

  function Capped(ms: nat): nat { if ms > CAP_MS then CAP_MS else ms }

  /** Closed form after `k` failures: doubling from 2 s to the cap, one step later with a phone. */
  function ClosedForm(k: nat, app: bool): nat {
    if k == 0 then 0
    else if app then (if k == 1 then 1 else Capped(BACKOFF_MS * Pow2(k - 2)))
    else Capped(BACKOFF_MS * Pow2(k - 1))
  }

  /** How long the latest failure holds off the next connect. */
  function HoldOffUs(k: nat, app: bool): nat {
    if k == 1 && app then FAST_RETRY_MS * 1000 else ClosedForm(k, app) * 1000
  }

  /** The earliest time of the next implicit connect, from the history alone. */
  function EarliestConnect(h: seq<Result>): int {
    if h == [] then 0
    else if Failing(h[|h| - 1].status) then
      h[|h| - 1].nowUs + HoldOffUs(Fails(h), FirstWithApp(h))
    else EarliestConnect(h[..|h| - 1])
  }

  // ---- Invariant --------------------------------------------------------------------------

  /** The requests of a stretch that need an operation of their own on the link. */
  function NonConnect(s: seq<Request>): seq<Request> {
    if s == [] then []
    else
      NonConnect(s[..|s| - 1]) + if s[|s| - 1].kind != Connect then [s[|s| - 1]] else []
  }

  /** First in, first out: what was accepted has left in order, or is still in the ring. */
  predicate Fifo(ring: seq<Request>, accepted: seq<Request>, left: nat, forwarded: seq<Request>) {
    && left + |ring| == |accepted|
    && (forall i :: 0 <= i < |ring| ==> Plain(ring[i]) == accepted[left + i])
    && forwarded == NonConnect(accepted[..left])
  }

  /** Command ids are issued once each, in order, and every one but the active one was answered. */
  predicate Ids(nextId: nat, activeId: nat, busy: bool, sent: seq<nat>, results: seq<Result>) {
    && nextId == |sent| < TWO_64
    && (forall k :: 0 <= k < |sent| ==> sent[k] == k + 1)
    && |sent| == |results| + (if busy then 1 else 0)
    && (forall k :: 0 <= k < |results| ==> results[k].cmdId == sent[k])
    && (busy ==> activeId == nextId)
  }

  /** Only a CONNECT at the head carries the id it was sent with; a new head never does. */
  predicate Stamps(ring: seq<Request>, nextId: nat, activeId: nat, busy: bool, connectHead: bool) {
    && |ring| <= PEND_DEPTH
    && (forall i :: 1 <= i < |ring| ==> ring[i].cmdId == 0)
    && (ring != [] ==> ring[0].cmdId <= nextId)
    && (ring != [] && ring[0].cmdId != 0 ==> ring[0].kind == Connect)
    && (busy && ring != [] && ring[0].cmdId == activeId ==> connectHead)
    && (connectHead ==> busy)
  }

  /** Backoff and hold-off are the closed form of the result history. */
  predicate Backoff(ms: nat, afterUs: int, results: seq<Result>) {
    ms == ClosedForm(Fails(results), FirstWithApp(results)) && afterUs == EarliestConnect(results)
  }

  predicate PendOk(p: Pend) {
    && Fifo(p.ring, p.log.accepted, p.log.left, p.log.forwarded)
    && Ids(p.nextId, p.activeId, p.busy, p.log.sent, p.log.results)
    && Stamps(p.ring, p.nextId, p.activeId, p.busy, p.connectHead)
    && Backoff(p.backoffMs, p.connectAfterUs, p.log.results)
  }

  lemma PrefixKept<T>(s: seq<T>, x: T, n: nat)
    requires n <= |s|
    ensures (s + [x])[..n] == s[..n]
  {
  }

  lemma PushOk(p: Pend, r: Request)
    requires PendOk(p) && r.cmdId == 0
    ensures PendOk(Push(p, r))
  {
    PrefixKept(p.log.accepted, Plain(r), p.log.left);
  }

  lemma FlushOk(p: Pend)
    requires PendOk(p)
    ensures PendOk(Flush(p))
  {
  }

  /** The request that leaves the ring is the next accepted one. */
  lemma PopFifo(p: Pend)
    requires Fifo(p.ring, p.log.accepted, p.log.left, p.log.forwarded) && p.ring != []
    ensures p.log.left < |p.log.accepted|
    ensures Plain(p.ring[0]) == p.log.accepted[p.log.left]
    ensures NonConnect(p.log.accepted[..p.log.left + 1])
            == p.log.forwarded + if p.ring[0].kind != Connect then [Plain(p.ring[0])] else []
    ensures forall i :: 0 <= i < |p.ring[1..]| ==>
                          Plain(p.ring[1..][i]) == p.log.accepted[p.log.left + 1 + i]
  {
    var a, n := p.log.accepted, p.log.left;
    assert Plain(p.ring[0]) == a[n + 0];
    assert a[..n + 1][..n] == a[..n];
    assert Plain(p.ring[0]).kind == p.ring[0].kind;
    forall i | 0 <= i < |p.ring[1..]| ensures Plain(p.ring[1..][i]) == a[n + 1 + i] {
      assert p.ring[1..][i] == p.ring[i + 1];
    }
  }

  /** Sending an implicit connect. */
  lemma BeginOk(p: Pend)
    requires PendOk(p) && !p.busy && p.nextId < TWO_64 - 1
    ensures PendOk(Begin(p, false))
  {
  }

  /** Sending an explicit CONNECT, which stays at the head with its id. */
  lemma BeginConnectOk(p: Pend)
    requires PendOk(p) && !p.busy && p.nextId < TWO_64 - 1
    requires p.ring != [] && p.ring[0].kind == Connect
    ensures PendOk(Begin(p, true).(ring := p.ring[0 := p.ring[0].(cmdId := p.nextId + 1)]))
  {
    BeginOk(p);
    var r := p.ring[0];
    var ring := p.ring[0 := r.(cmdId := p.nextId + 1)];
    forall i | 0 <= i < |ring| ensures Plain(ring[i]) == p.log.accepted[p.log.left + i] {
      assert Plain(p.ring[i]) == p.log.accepted[p.log.left + i];
    }
  }

  /** Sending any other request, which leaves the ring. */
  lemma BeginPopOk(p: Pend)
    requires PendOk(p) && !p.busy && p.nextId < TWO_64 - 1
    requires p.ring != [] && p.ring[0].kind != Connect
    ensures var b := Pop(Begin(p, false));
            PendOk(b.(log := b.log.(forwarded := b.log.forwarded + [Plain(p.ring[0])])))
  {
    BeginOk(p);
    PopFifo(p);
  }

  /** Dispatching keeps everything, and what it sends carries the id the bank is now waiting for. */
  lemma DispatchOk(p: Pend, bank: nat, linkHeld: bool, room: bool, nowUs: int)
    requires PendOk(p)
    ensures PendOk(Dispatch(p, bank, linkHeld, room, nowUs).p)
  {
    if MayDispatch(p, nowUs) {
      BeginOk(p);
      if p.ring[0].kind == Connect {
        BeginConnectOk(p);
      } else {
        BeginPopOk(p);
      }
    }
  }

  /** Exactly when a copy goes out, which copy it is, and when an implicit connect may go out. */
  lemma DispatchSends(p: Pend, bank: nat, linkHeld: bool, room: bool, nowUs: int)
    requires PendOk(p)
    ensures var d := Dispatch(p, bank, linkHeld, room, nowUs);
            && (d.out.None? ==> d.p == p)
            && (d.out.Some? ==>
                  && !p.busy && d.p.busy && room
                  && d.out.value.cmdId == d.p.activeId == p.nextId + 1
                  && (d.p.log.forwarded != p.log.forwarded ==>
                        d.p.log.forwarded == p.log.forwarded + [Plain(d.out.value)])
                  && (d.out.value.kind != Connect ==>
                        d.p.log.forwarded == p.log.forwarded + [Plain(d.out.value)]))
            && (d.out.Some? && Plain(d.out.value) != Plain(p.ring[0]) ==>
                  && d.out.value == ImplicitConnect(bank, p.nextId + 1)
                  && nowUs >= EarliestConnect(p.log.results))
  {
  }

  lemma {:induction false} Pow2Positive(n: nat)
    ensures Pow2(n) >= 1
  {
    if n > 0 {
      Pow2Positive(n - 1);
    }
  }

  /** One more failure doubles the capped closed form. */
  lemma ClosedFormStep(k: nat, app: bool)
    requires k >= 1
    ensures ClosedForm(k, app) != 0
    ensures ClosedForm(k + 1, app)
            == if ClosedForm(k, app) < BACKOFF_MS then BACKOFF_MS
               else if 2 * ClosedForm(k, app) > CAP_MS then CAP_MS
               else 2 * ClosedForm(k, app)
  {
    Pow2Positive(k);
    Pow2Positive(k - 1);
    if k >= 2 {
      Pow2Positive(k - 2);
    }
  }

  /** A counted failure moves backoff and hold-off to the next step of the closed form. */
  lemma BackOffStep(p: Pend, h: seq<Result>, res: Result)
    requires Backoff(p.backoffMs, p.connectAfterUs, h) && Failing(res.status)
    ensures var q := BackOff(p, res.app, res.nowUs);
            Backoff(q.backoffMs, q.connectAfterUs, h + [res])
  {
    assert (h + [res])[..|h|] == h;
    var k := Fails(h);
    if k > 0 {
      ClosedFormStep(k, FirstWithApp(h));
    } else {
      assert Pow2(0) == 1;
    }
  }

  /** Any other result leaves the hold-off; only a success clears the backoff. */
  lemma NoFailureStep(ms: nat, afterUs: int, h: seq<Result>, res: Result)
    requires Backoff(ms, afterUs, h) && !Failing(res.status)
    ensures Backoff(if res.status == Ok then 0 else ms, afterUs, h + [res])
  {
    assert (h + [res])[..|h|] == h;
  }

  /** What a matching response does to ring, ids and stamps. */
  lemma SettleOk(p: Pend, rsp: Response, res: Result)
    requires PendOk(p) && Matches(p, rsp) && res.cmdId == rsp.cmdId
    ensures var q := Settle(p, rsp, res);
            && Fifo(q.ring, q.log.accepted, q.log.left, q.log.forwarded)
            && Ids(q.nextId, q.activeId, q.busy, q.log.sent, q.log.results)
            && Stamps(q.ring, q.nextId, q.activeId, q.busy, q.connectHead)
            && q.backoffMs == p.backoffMs && q.connectAfterUs == p.connectAfterUs
            && q.log.results == p.log.results + [res] && !q.busy
  {
    if EndsConnect(p, rsp) {
      PopFifo(p);
    }
  }

  lemma RateOk(p: Pend, h: seq<Result>, res: Result)
    requires Fifo(p.ring, p.log.accepted, p.log.left, p.log.forwarded)
    requires Ids(p.nextId, p.activeId, p.busy, p.log.sent, p.log.results)
    requires Stamps(p.ring, p.nextId, p.activeId, p.busy, p.connectHead)
    requires Backoff(p.backoffMs, p.connectAfterUs, h) && p.log.results == h + [res]
    ensures PendOk(Rate(p, res))
  {
    if Failing(res.status) {
      BackOffStep(p, h, res);
    } else {
      NoFailureStep(p.backoffMs, p.connectAfterUs, h, res);
    }
  }

  lemma OnResponseOk(p: Pend, rsp: Response, app: bool, nowUs: int)
    requires PendOk(p)
    ensures PendOk(OnResponse(p, rsp, app, nowUs))
  {
    if Matches(p, rsp) {
      var res := Result(rsp.cmdId, rsp.status, app, nowUs);
      SettleOk(p, rsp, res);
      RateOk(Settle(p, rsp, res), p.log.results, res);
    }
  }

  /**
   The explicit CONNECT rule: a `ConnectWait` leaves the ring alone; any other result of a CONNECT
   that is still the head removes exactly it; and once the ring was flushed, the late result
   removes nothing, whatever now stands at the head.
   */
  lemma ConnectRetained(p: Pend, rsp: Response, app: bool, nowUs: int)
    requires PendOk(p) && Matches(p, rsp)
    ensures var p' := OnResponse(p, rsp, app, nowUs);
            && (rsp.status == ConnectWait ==> p'.ring == p.ring)
            && (rsp.status != ConnectWait && p.ring != [] && p.ring[0].cmdId == rsp.cmdId ==>
                  p.ring[0].kind == Connect && p'.ring == p.ring[1..])
            && (p.ring == [] || p.ring[0].cmdId == 0 ==> p'.ring == p.ring)
            && !p'.busy
  {
  }

  /** The check finds the phone's device-info request overdue on a held link. */
  predicate Overdue(p: Pend, app: bool, held: bool, nowUs: int) {
    p.devreqUs != 0 && nowUs > p.devreqUs && app && held
  }

  lemma CheckDevReqOk(p: Pend, bank: nat, app: bool, held: bool, nowUs: int)
    requires PendOk(p)
    ensures PendOk(CheckDevReq(p, bank, app, held, nowUs))
    ensures CheckDevReq(p, bank, app, held, nowUs).busy == p.busy
    ensures CheckDevReq(p, bank, app, held, nowUs).activeId == p.activeId
  {
    var p2 := p.(devreqUs := 0, devreqRefreshed := true);
    PushOk(p2, BounceRequest(bank));
    PushOk(Push(p2, BounceRequest(bank)), PollRequest(bank, CMD_DEVICE_INFO));
  }

  /**
   An overdue device-info request queues a disconnect and a device-info poll behind what is pending,
   as far as the ring has room, and is not checked again; otherwise nothing is queued. Nothing is
   sent and no outstanding operation is touched.
   */
  lemma CheckDevReqQueues(p: Pend, bank: nat, app: bool, held: bool, nowUs: int)
    ensures var q := CheckDevReq(p, bank, app, held, nowUs);
            && q.busy == p.busy && q.activeId == p.activeId && q.log.sent == p.log.sent
            && (!Overdue(p, app, held, nowUs) ==> q.ring == p.ring)
            && (Overdue(p, app, held, nowUs) ==>
                  && q.ring == p.ring + Room(p, [BounceRequest(bank), PollRequest(bank, CMD_DEVICE_INFO)])
                  && q.devreqUs == 0 && q.devreqRefreshed)
    ensures BounceRequest(bank).kind == Disconnect && !BounceRequest(bank).idleOnly && BounceRequest(bank).bank == bank
    ensures var q := PollRequest(bank, CMD_DEVICE_INFO); q.kind == Poll && q.opcode == 0x97 && q.bank == bank
  {
    if |p.ring| + 2 <= PEND_DEPTH {
      Assoc(p.ring, [BounceRequest(bank)], [PollRequest(bank, CMD_DEVICE_INFO)]);
    }
  }

  /** As many of `more` as the ring still takes. */
  function Room(p: Pend, more: seq<Request>): seq<Request> {
    if |p.ring| >= PEND_DEPTH then []
    else if |more| <= PEND_DEPTH - |p.ring| then more
    else more[..PEND_DEPTH - |p.ring|]
  }
}
