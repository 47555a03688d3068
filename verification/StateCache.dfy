/**
 Node A's per-bank runtime record and the targeted updates other tasks make to it.

 `edges` is bookkeeping of this model: the unbounded number of app or held-link edges, of which
 the 64-bit `idleEpoch` of the original is the remainder.
 */
module StateCache {
  import opened Prelude

  datatype LinkState = Unreachable | ReachableIdle | Up

  datatype Runtime = Runtime(
    link: LinkState,
    appConnected: bool,
    linkHeld: bool,
    lastSeenUs: int,
    lastFrameUs: int,
    appLeftUs: int,
    idleEpoch: nat,
    linkUpUs: int,
    edges: nat)

  /** `state_cache_init`: optimistic boot. */
  const BOOT: Runtime := Runtime(ReachableIdle, false, false, 0, 0, 0, 0, 0, 0)

  /** A held link is exactly a link reported up, and the epoch counts the edges modulo 2^64. */
  predicate RuntimeOk(rt: Runtime) {
    && (rt.linkHeld <==> rt.link == Up)
    && rt.idleEpoch == rt.edges % TWO_64
  }

  function Edge(rt: Runtime): Runtime {
    rt.(idleEpoch := (rt.idleEpoch + 1) % TWO_64, edges := rt.edges + 1)
  }

  /** `state_set_app_connected`. */
  function SetApp(rt: Runtime, connected: bool, nowUs: int): Runtime {
    var e := if rt.appConnected != connected then Edge(rt) else rt;
    e.(appConnected := connected, appLeftUs := if connected then 0 else nowUs)
  }

  /** `state_set_link_state`; every caller passes held exactly for `Up`, and time only then. */
  function SetLink(rt: Runtime, link: LinkState, nowUs: int): Runtime {
    var held := link == Up;
    var seen := if held then nowUs else 0;
    var e := if rt.linkHeld != held then
               Edge(rt).(linkUpUs := if held && seen > rt.linkUpUs then seen else rt.linkUpUs)
             else rt;
    e.(link := link, linkHeld := held,
       lastSeenUs := if seen > rt.lastSeenUs then seen else rt.lastSeenUs)
  }

  /** `state_note_frame`. */
  function NoteFrame(rt: Runtime, seenUs: int): Runtime {
    rt.(lastSeenUs := if seenUs > rt.lastSeenUs then seenUs else rt.lastSeenUs,
        lastFrameUs := if seenUs > rt.lastFrameUs then seenUs else rt.lastFrameUs)
  }

  /** `state_promote_unreachable`. */
  function Promote(rt: Runtime): Runtime {
    if !rt.linkHeld && rt.link == Unreachable then rt.(link := ReachableIdle) else rt
  }

  /** `state_mark_idle_if_unheld`. */
  function MarkIdle(rt: Runtime): Runtime {
    if !rt.linkHeld then rt.(link := ReachableIdle) else rt
  }

  /** `state_clear_app_left_if`. */
  function ClearAppLeft(rt: Runtime, expectedUs: int): Runtime {
    if !rt.appConnected && rt.appLeftUs == expectedUs then rt.(appLeftUs := 0) else rt
  }

  /** Time stamps never move back, and edges that were made are never forgotten. */
  predicate Advances(before: Runtime, after: Runtime) {
    && before.lastSeenUs <= after.lastSeenUs
    && before.lastFrameUs <= after.lastFrameUs
    && before.linkUpUs <= after.linkUpUs
    && before.edges <= after.edges
    && (before.edges == after.edges ==>
          before.appConnected == after.appConnected && before.linkHeld == after.linkHeld)
  }

  /** The app or the held link changed. */
  predicate EdgeBetween(before: Runtime, after: Runtime) {
    before.appConnected != after.appConnected || before.linkHeld != after.linkHeld
  }

  /** One runtime update, as any task may issue it. */
  datatype Update =
    | AppUpdate(connected: bool, nowUs: int)
    | LinkUpdate(link: LinkState, nowUs: int)
    | FrameUpdate(nowUs: int)
    | PromoteUpdate
    | IdleUpdate
    | AppLeftUpdate(expectedUs: int)

  function Updated(rt: Runtime, u: Update): Runtime {
    match u
    case AppUpdate(c, now) => SetApp(rt, c, now)
    case LinkUpdate(l, now) => SetLink(rt, l, now)
    case FrameUpdate(now) => NoteFrame(rt, now)
    case PromoteUpdate => Promote(rt)
    case IdleUpdate => MarkIdle(rt)
    case AppLeftUpdate(t) => ClearAppLeft(rt, t)
  }

  lemma EpochStep(edges: nat)
    ensures (edges % TWO_64 + 1) % TWO_64 == (edges + 1) % TWO_64
  {
  }

  /** Every update keeps the record consistent, and counts exactly the edges it makes. */
  lemma UpdateKeeps(rt: Runtime, u: Update)
    requires RuntimeOk(rt)
    ensures RuntimeOk(Updated(rt, u)) && Advances(rt, Updated(rt, u))
    ensures Updated(rt, u).edges == rt.edges + if EdgeBetween(rt, Updated(rt, u)) then 1 else 0
  {
    EpochStep(rt.edges);
  }

  /**
   What the updates put on record: an attached app clears its departure and a departing one leaves its
   time; the link's time is that of coming up, and a link going down leaves it; frames and link-ups
   are seen; a promotion and an idle mark make an unheld bank reachable and idle.
   */
  lemma RecordRules(rt: Runtime, connected: bool, link: LinkState, nowUs: int)
    requires RuntimeOk(rt)
    ensures var a := Updated(rt, AppUpdate(connected, nowUs));
            a.appConnected == connected && a.appLeftUs == (if connected then 0 else nowUs) && a.link == rt.link
    ensures var l := Updated(rt, LinkUpdate(link, nowUs));
            && l.link == link && l.appConnected == rt.appConnected && l.appLeftUs == rt.appLeftUs
            && (link == Up && !rt.linkHeld && nowUs > rt.linkUpUs ==> l.linkUpUs == nowUs)
            && (link != Up || rt.linkHeld ==> l.linkUpUs == rt.linkUpUs)
            && l.lastFrameUs == rt.lastFrameUs
    ensures var f := Updated(rt, FrameUpdate(nowUs));
            f.lastFrameUs == (if nowUs > rt.lastFrameUs then nowUs else rt.lastFrameUs) && f.link == rt.link
    ensures rt.link == Unreachable ==> Updated(rt, PromoteUpdate).link == ReachableIdle
    ensures rt.link != Unreachable ==> Updated(rt, PromoteUpdate) == rt
    ensures rt.linkHeld ==> Updated(rt, IdleUpdate) == rt
    ensures !rt.linkHeld ==> Updated(rt, IdleUpdate).link == ReachableIdle
    ensures Updated(rt, AppLeftUpdate(nowUs)).appLeftUs
            == (if !rt.appConnected && rt.appLeftUs == nowUs then 0 else rt.appLeftUs)
  {
  }

  /** Every record is consistent. */
  ghost predicate RecordsOk(units: seq<Runtime>) {
    forall i :: 0 <= i < |units| ==> RuntimeOk(units[i])
  }

  /** No record moved back. */
  ghost predicate RecordsAdvance(before: seq<Runtime>, after: seq<Runtime>) {
    |after| == |before| && forall i :: 0 <= i < |before| ==> Advances(before[i], after[i])
  }

  /** The table after an update of bank `id`; unknown banks are ignored. */
  function WithUpdate(units: seq<Runtime>, id: nat, u: Update): seq<Runtime> {
    if id < |units| then units[id := Updated(units[id], u)] else units
  }

  /** An update of any bank keeps a consistent table consistent, and moves nothing back. */
  lemma RecordsKept(units: seq<Runtime>, id: nat, u: Update)
    requires RecordsOk(units)
    ensures RecordsOk(WithUpdate(units, id, u)) && RecordsAdvance(units, WithUpdate(units, id, u))
  {
    if id < |units| {
      UpdateKeeps(units[id], u);
    }
  }

  /** The mutable table, one record per bank; unknown banks are ignored. */
  class Cache {
    var units: seq<Runtime>

    constructor (n: nat)
      ensures |units| == n && forall i :: 0 <= i < n ==> units[i] == BOOT
    {
      units := seq(n, _ => BOOT);
    }

    method SetAppConnected(id: nat, connected: bool, nowUs: int)
      modifies this
      ensures units == WithUpdate(old(units), id, AppUpdate(connected, nowUs))
      ensures old(RecordsOk(units)) ==> RecordsOk(units) && RecordsAdvance(old(units), units)
    {
      if RecordsOk(units) {
        RecordsKept(units, id, AppUpdate(connected, nowUs));
      }
      if id < |units| {
        var rt := units[id];
        if rt.appConnected != connected {
          rt := rt.(idleEpoch := (rt.idleEpoch + 1) % TWO_64, edges := rt.edges + 1);
        }
        rt := rt.(appConnected := connected);
        rt := rt.(appLeftUs := if connected then 0 else nowUs);
        units := units[id := rt];
      }
    }

    method SetLinkState(id: nat, link: LinkState, nowUs: int)
      modifies this
      ensures units == WithUpdate(old(units), id, LinkUpdate(link, nowUs))
      ensures old(RecordsOk(units)) ==> RecordsOk(units) && RecordsAdvance(old(units), units)
    {
      if RecordsOk(units) {
        RecordsKept(units, id, LinkUpdate(link, nowUs));
      }
      if id < |units| {
        var held := link == Up;
        var seen := if held then nowUs else 0;
        var rt := units[id];
        if rt.linkHeld != held {
          rt := rt.(idleEpoch := (rt.idleEpoch + 1) % TWO_64, edges := rt.edges + 1);
          if held && seen > rt.linkUpUs {
            rt := rt.(linkUpUs := seen);
          }
        }
        rt := rt.(link := link, linkHeld := held);
        if seen > rt.lastSeenUs {
          rt := rt.(lastSeenUs := seen);
        }
        units := units[id := rt];
      }
    }

    method NoteFrameAt(id: nat, seenUs: int)
      modifies this
      ensures units == WithUpdate(old(units), id, FrameUpdate(seenUs))
      ensures old(RecordsOk(units)) ==> RecordsOk(units) && RecordsAdvance(old(units), units)
    {
      if RecordsOk(units) {
        RecordsKept(units, id, FrameUpdate(seenUs));
      }
      if id < |units| {
        var rt := units[id];
        if seenUs > rt.lastSeenUs {
          rt := rt.(lastSeenUs := seenUs);
        }
        if seenUs > rt.lastFrameUs {
          rt := rt.(lastFrameUs := seenUs);
        }
        units := units[id := rt];
      }
    }

    /** `state_promote_unreachable`; says whether the bank was promoted. */
    method PromoteUnreachable(id: nat) returns (promoted: bool)
      modifies this
      ensures units == WithUpdate(old(units), id, PromoteUpdate)
      ensures promoted <==> id < |units| && !old(units)[id].linkHeld && old(units)[id].link == Unreachable
      ensures old(RecordsOk(units)) ==> RecordsOk(units) && RecordsAdvance(old(units), units)
    {
      if RecordsOk(units) {
        RecordsKept(units, id, PromoteUpdate);
      }
      promoted := false;
      if id < |units| && !units[id].linkHeld && units[id].link == Unreachable {
        units := units[id := units[id].(link := ReachableIdle)];
        promoted := true;
      }
    }
  }
}
