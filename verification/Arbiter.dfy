/**
 The arbiter's per-bank record as the original keeps it: a circular array with head, tail and
 count, updated in place. Every operation is shown to do exactly what `Pending` specifies.
 */
module Arbiter {
  import opened Prelude
  import opened NodeATypes
  import opened Pending

  /** The array cell of the `i`-th pending request. */
  function Cell(head: nat, i: nat): (c: nat)
    requires head < PEND_DEPTH && i <= PEND_DEPTH
    ensures c < PEND_DEPTH && c == (head + i) % PEND_DEPTH
  {
    if head + i < PEND_DEPTH then head + i else head + i - PEND_DEPTH
  }

  /** The pending requests, oldest first. */
  function RingSeq(a: seq<Request>, head: nat, count: nat): (s: seq<Request>)
    requires |a| == PEND_DEPTH && head < PEND_DEPTH && count <= PEND_DEPTH
    ensures |s| == count
    ensures forall i :: 0 <= i < count ==> s[i] == a[Cell(head, i)]
  {
    seq(count, i requires 0 <= i < count => a[Cell(head, i)])
  }

  lemma RingPush(a: seq<Request>, head: nat, count: nat, r: Request)
    requires |a| == PEND_DEPTH && head < PEND_DEPTH && count < PEND_DEPTH
    ensures RingSeq(a[Cell(head, count) := r], head, count + 1) == RingSeq(a, head, count) + [r]
  {
    assert forall i :: 0 <= i < count ==> Cell(head, i) != Cell(head, count);
  }

  lemma RingPop(a: seq<Request>, head: nat, count: nat)
    requires |a| == PEND_DEPTH && head < PEND_DEPTH && 0 < count <= PEND_DEPTH
    ensures RingSeq(a, Cell(head, 1), count - 1) == RingSeq(a, head, count)[1..]
  {
    forall i | 0 <= i < count - 1 ensures Cell(Cell(head, 1), i) == Cell(head, i + 1) {
    }
  }

  lemma RingStamp(a: seq<Request>, head: nat, count: nat, r: Request)
    requires |a| == PEND_DEPTH && head < PEND_DEPTH && 0 < count <= PEND_DEPTH
    ensures RingSeq(a[head := r], head, count) == RingSeq(a, head, count)[0 := r]
  {
    assert Cell(head, 0) == head;
    assert forall i :: 1 <= i < count ==> Cell(head, i) != head;
  }

  /** Mirror of `pend_t`. */
  class Unit {
    const bank: nat
    const ring: array<Request>
    var head: nat
    var tail: nat
    var count: nat
    var busy: bool
    var connectHead: bool
    var nextId: nat
    var activeId: nat
    var linkWaitUs: int
    var connectAfterUs: int
    var backoffMs: nat
    var dispatchAfterUs: int
    var devreqUs: int
    var devreqRefreshed: bool
    ghost var log: Log

    ghost predicate Valid()
      reads this
    {
      && ring.Length == PEND_DEPTH
      && head < PEND_DEPTH && count <= PEND_DEPTH
      && tail == Cell(head, count)
    }

    ghost function View(): Pend
      requires Valid()
      reads this, ring
    {
      Pend(RingSeq(ring[..], head, count), busy, connectHead, nextId, activeId, linkWaitUs,
           connectAfterUs, backoffMs, dispatchAfterUs, devreqUs, devreqRefreshed, log)
    }

    constructor (bank: nat, blank: Request)
      ensures Valid() && View() == IDLE && this.bank == bank && fresh(ring)
    {
      this.bank := bank;
      ring := new Request[PEND_DEPTH](_ => blank);
      head, tail, count := 0, 0, 0;
      busy, connectHead := false, false;
      nextId, activeId := 0, 0;
      linkWaitUs, connectAfterUs, backoffMs := 0, 0, 0;
      dispatchAfterUs, devreqUs, devreqRefreshed := 0, 0, false;
      log := IDLE.log;
    }

    /** `ring_push`. */
    method PushReq(r: Request) returns (ok: bool)
      requires Valid()
      modifies this, ring
      ensures Valid() && View() == Push(old(View()), r)
      ensures ok == (|old(View()).ring| < PEND_DEPTH)
    {
      if count >= PEND_DEPTH {
        return false;
      }
      RingPush(ring[..], head, count, r);
      ring[tail] := r;
      tail := (tail + 1) % PEND_DEPTH;
      count := count + 1;
      log := log.(accepted := log.accepted + [Plain(r)]);
      assert ring[..] == old(ring[..])[Cell(head, old(count)) := r];
      return true;
    }

    /** `ring_pop`. */
    method PopReq() returns (r: Option<Request>)
      requires Valid()
      modifies this
      ensures Valid()
      ensures old(View()).ring == [] ==> r == None && View() == old(View())
      ensures old(View()).ring != [] ==>
                r == Some(old(View()).ring[0]) && View() == Pop(old(View()))
    {
      if count == 0 {
        return None;
      }
      RingPop(ring[..], head, count);
      assert Cell(head, 0) == head;
      r := Some(ring[head]);
      head := (head + 1) % PEND_DEPTH;
      count := count - 1;
      log := log.(left := log.left + 1);
    }

    /** ARB_CLEAR. */
    method Clear()
      requires Valid()
      modifies this
      ensures Valid() && View() == Flush(old(View()))
    {
      head, tail, count := 0, 0, 0;
      log := log.(accepted := [], left := 0, forwarded := []);
    }

    /** The common tail of the two sends in `dispatch`. */
    method Start(id: nat, connect: bool)
      requires Valid() && id == nextId + 1
      modifies this
      ensures Valid() && View() == Begin(old(View()), connect)
      ensures head == old(head) && count == old(count)
    {
      connectHead := connect;
      nextId := id;
      activeId := id;
      busy := true;
      log := log.(sent := log.sent + [id]);
    }

    /** `dispatch`: at most one copy goes to the BLE queue, and only if the queue takes it. */
    method DispatchReq(linkHeld: bool, room: bool, nowUs: int) returns (out: Option<Request>)
      requires Valid()
      modifies this, ring
      ensures Valid()
      ensures View() == Dispatch(old(View()), bank, linkHeld, room, nowUs).p
      ensures out == Dispatch(old(View()), bank, linkHeld, room, nowUs).out
    {
      if nowUs < dispatchAfterUs || busy || count == 0 || nextId == TWO_64 - 1 {
        return None;
      }
      assert Cell(head, 0) == head;
      var r := ring[head];
      var id := nextId + 1;
      if r.kind != Connect && r.kind != Disconnect && !linkHeld {
        if nowUs < connectAfterUs || !room {
          return None;
        }
        Start(id, false);
        return Some(ImplicitConnect(bank, id));
      }
      if !room {
        return None;
      }
      out := Some(r.(cmdId := id));
      if r.kind == Connect {
        Start(id, true);
        RingStamp(ring[..], head, count, r.(cmdId := id));
        ring[head] := r.(cmdId := id);
        assert ring[..] == old(ring[..])[head := r.(cmdId := id)];
      } else {
        Start(id, false);
        var _ := PopReq();
        log := log.(forwarded := log.forwarded + [Plain(r)]);
      }
    }

    /** The bookkeeping half of `on_response`. */
    method FreeBank(rsp: Response, ghost res: Result)
      requires Valid() && busy && rsp.cmdId == activeId
      modifies this
      ensures Valid() && View() == Settle(old(View()), rsp, res)
    {
      assert Cell(head, 0) == head;
      if connectHead && rsp.status != ConnectWait && count > 0 && ring[head].cmdId == rsp.cmdId {
        var _ := PopReq();
      }
      connectHead := false;
      busy := false;
      activeId := 0;
      log := log.(results := log.results + [res]);
    }

    /** The failure branch of `on_response`. */
    method Fail(app: bool, nowUs: int)
      requires Valid()
      modifies this
      ensures Valid() && View() == BackOff(old(View()), app, nowUs)
    {
      if backoffMs == 0 && app {
        backoffMs := 1;
        connectAfterUs := nowUs + FAST_RETRY_MS * 1000;
      } else {
        if backoffMs < BACKOFF_MS {
          backoffMs := BACKOFF_MS;
        } else {
          backoffMs := 2 * backoffMs;
          if backoffMs > CAP_MS {
            backoffMs := CAP_MS;
          }
        }
        connectAfterUs := nowUs + backoffMs * 1000;
      }
    }

    /** `on_response` up to its closing dispatch. */
    method Respond(rsp: Response, app: bool, nowUs: int)
      requires Valid()
      modifies this
      ensures Valid() && View() == OnResponse(old(View()), rsp, app, nowUs)
    {
      if !busy || rsp.cmdId != activeId {
        return;
      }
      FreeBank(rsp, Result(rsp.cmdId, rsp.status, app, nowUs));
      match rsp.status {
        case ConnectWait =>
          dispatchAfterUs := nowUs + SPACING_US;
        case Ok =>
          backoffMs := 0;
        case Rejected =>
        case _ =>
          Fail(app, nowUs);
          dispatchAfterUs := nowUs + SPACING_US;
      }
    }

    /** `check_devreq` up to its closing dispatch. */
    method CheckDevInfo(app: bool, held: bool, nowUs: int)
      requires Valid()
      modifies this, ring
      ensures Valid() && View() == CheckDevReq(old(View()), bank, app, held, nowUs)
    {
      if devreqUs == 0 || nowUs <= devreqUs {
        return;
      }
      devreqUs := 0;
      if !app || !held {
        return;
      }
      devreqRefreshed := true;
      var ok := PushReq(BounceRequest(bank));
      if ok {
        ok := PushReq(PollRequest(bank, CMD_DEVICE_INFO));
      }
    }

    /** Reporting the head and then the rest reports the ring. */
    static lemma DrainStep(results: seq<nat>, ring: seq<Request>)
      requires ring != []
      ensures results + (if ring[0].source == App then [ring[0].idx] else []) + AppIndices(ring[1..])
              == results + AppIndices(ring)
    {
    }

    /** Pop everything, collecting the indices of app writes. */
    method Drain() returns (results: seq<nat>)
      requires Valid()
      modifies this
      ensures Valid() && View() == Flush(old(View()))
      ensures results == AppIndices(old(View()).ring)
    {
      ghost var start := View();
      results := [];
      while count > 0
        invariant Valid()
        invariant results + AppIndices(View().ring) == AppIndices(start.ring)
        invariant Flush(View()) == Flush(start)
        decreases count
      {
        ghost var ring := View().ring;
        var r := PopReq();
        DrainStep(results, ring);
        results := results + if r.value.source == App then [r.value.idx] else [];
      }
      log := log.(accepted := [], left := 0, forwarded := []);
    }

    /** The link-up guard: on expiry every pending request goes, app writes as link-down results. */
    method CheckGuard(held: bool, nowUs: int) returns (results: seq<nat>)
      requires Valid()
      modifies this
      ensures Valid() && View() == Guard(old(View()), held, nowUs)
      ensures results == if GuardFires(old(View()), held, nowUs) then AppIndices(old(View()).ring)
                         else []
    {
      if linkWaitUs == 0 || nowUs <= linkWaitUs || held {
        return [];
      }
      linkWaitUs := 0;
      results := Drain();
    }
  }
}
