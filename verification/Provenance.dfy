/**
 Where idle releases come from. Over every run, an idle release in the arbiter's inbox, in a ring or
 in the request queue was built from a record the supervisor copied at some moment of that run;
 so an authorised one is fenced back to that very moment.
 */
module Provenance {
  import opened Prelude
  import opened NodeATypes
  import opened StateCache
  import opened Links
  import opened LinkPool
  import opened Pending
  import opened NodeA
  import opened NodeATheorems

  /** Request `r`, but for its command id, is the idle release built from copy `n`. */
  predicate BuiltFrom(r: Request, n: Snapshot) {
    Plain(r) == IdleRequest(n)
  }

  /** An idle release was built from one of the copies made so far. */
  ghost predicate Known(r: Request, copies: set<Snapshot>) {
    r.idleOnly ==> exists n :: n in copies && BuiltFrom(r, n)
  }

  ghost predicate AllKnown(q: seq<Request>, copies: set<Snapshot>) {
    forall i :: 0 <= i < |q| ==> Known(q[i], copies)
  }

  ghost predicate MsgsKnown(q: seq<Msg>, copies: set<Snapshot>) {
    forall i :: 0 <= i < |q| && q[i].ReqMsg? ==> Known(q[i].req, copies)
  }

  /** Every place an idle release can be. */
  ghost predicate Traced(s: Sys, copies: set<Snapshot>) {
    && MsgsKnown(s.arbIn, copies)
    && (forall b :: 0 <= b < |s.pend| ==> AllKnown(s.pend[b].ring, copies))
    && AllKnown(s.reqQ, copies)
    && (s.snap.Some? ==> s.snap.value in copies)
  }

  /** The copy an event makes. */
  function Copied(s: Sys, e: Event): set<Snapshot> {
    if e.TakeSnapshot? && e.bank < |s.o.rt| then {Snapshot(e.bank, s.o.rt[e.bank])} else {}
  }

  // ---- Steps -----------------------------------------------------------------------------

  lemma KnownLater(q: seq<Request>, copies: set<Snapshot>, more: set<Snapshot>)
    requires AllKnown(q, copies)
    ensures AllKnown(q, copies + more)
  {
    forall i | 0 <= i < |q| ensures Known(q[i], copies + more) {
      if q[i].idleOnly {
        var n :| n in copies && BuiltFrom(q[i], n);
        assert n in copies + more;
      }
    }
  }

  lemma MsgsKnownLater(q: seq<Msg>, copies: set<Snapshot>, more: set<Snapshot>)
    requires MsgsKnown(q, copies)
    ensures MsgsKnown(q, copies + more)
  {
    forall i | 0 <= i < |q| && q[i].ReqMsg? ensures Known(q[i].req, copies + more) {
      if q[i].req.idleOnly {
        var n :| n in copies && BuiltFrom(q[i].req, n);
        assert n in copies + more;
      }
    }
  }

  lemma TracedLater(s: Sys, copies: set<Snapshot>, more: set<Snapshot>)
    requires Traced(s, copies)
    ensures Traced(s, copies + more)
  {
    MsgsKnownLater(s.arbIn, copies, more);
    KnownLater(s.reqQ, copies, more);
    forall b | 0 <= b < |s.pend| ensures AllKnown(s.pend[b].ring, copies + more) {
      KnownLater(s.pend[b].ring, copies, more);
    }
  }

  /** What dispatching keeps in the ring and puts on the queue was in the ring, or is no idle release. */
  lemma DispatchKnown(p: Pend, bank: nat, held: bool, room: bool, nowUs: int, copies: set<Snapshot>)
    requires AllKnown(p.ring, copies)
    ensures var d := Dispatch(p, bank, held, room, nowUs);
            AllKnown(d.p.ring, copies) && (d.out.Some? ==> Known(d.out.value, copies))
  {
    if p.ring != [] {
      assert Known(p.ring[0], copies);
      forall id ensures Known(p.ring[0].(cmdId := id), copies) {
        assert Plain(p.ring[0].(cmdId := id)) == Plain(p.ring[0]);
      }
    }
  }

  lemma DispatchTraced(s: Sys, b: nat, nowUs: int, copies: set<Snapshot>)
    requires Traced(s, copies)
    ensures Traced(DispatchBank(s, b, nowUs), copies)
  {
    if b < |s.pend| && b < |s.o.rt| {
      DispatchKnown(s.pend[b], b, s.o.rt[b].linkHeld, |s.reqQ| < QUEUE_DEPTH, nowUs, copies);
    }
  }

  /** A bank whose ring gained only known requests. */
  lemma BankTraced(s: Sys, b: nat, p: Pend, copies: set<Snapshot>)
    requires Traced(s, copies) && b < |s.pend| && AllKnown(p.ring, copies)
    ensures Traced(s.(pend := s.pend[b := p]), copies)
  {
  }

  lemma PostTraced(s: Sys, m: Msg, copies: set<Snapshot>)
    requires Traced(s, copies) && (m.ReqMsg? ==> Known(m.req, copies))
    ensures Traced(PostMsg(s, m), copies)
  {
  }

  lemma HandleTraced(s: Sys, m: Msg, nowUs: int, copies: set<Snapshot>)
    requires Traced(s, copies) && (m.ReqMsg? ==> Known(m.req, copies))
    ensures Traced(Handle(s, m, nowUs), copies)
  {
    var b := MsgBank(m);
    if b < |s.pend| && b < |s.o.rt| {
      match m
      case ReqMsg(req) =>
        if |s.pend[b].ring| < PEND_DEPTH {
          var p := Push(s.pend[b], req);
          BankTraced(s, b, p, copies);
          DispatchTraced(s.(pend := s.pend[b := p]), b, nowUs, copies);
        }
      case AppMsg(_, connected) =>
        if connected || s.o.rt[b].appConnected {
          var s1 := UpdateRt(s, b, AppUpdate(connected, nowUs));
          BankTraced(s1, b, OnAppConn(s1.pend[b], connected, nowUs), copies);
          PostTraced(s1.(pend := s1.pend[b := OnAppConn(s1.pend[b], connected, nowUs)]),
                     ReqMsg(AppRequest(b, connected)), copies);
        }
      case _ =>
    }
  }

  lemma ResponseTraced(s: Sys, nowUs: int, laterUs: int, copies: set<Snapshot>)
    requires Traced(s, copies) && s.o.rspQ != []
    ensures Traced(HandleResponse(s, nowUs, laterUs), copies)
  {
    var b := s.o.rspQ[0].bank;
    if b < |s.pend| && b < |s.o.rt| && Matches(s.pend[b], s.o.rspQ[0]) {
      BankTraced(s.(o := s.o.(rspQ := s.o.rspQ[1..])), b,
                 OnResponse(s.pend[b], s.o.rspQ[0], s.o.rt[b].appConnected, nowUs), copies);
      DispatchTraced(Answered(s, nowUs), b, laterUs, copies);
    }
  }

  lemma PassTraced(s: Sys, e: Event, copies: set<Snapshot>)
    requires Traced(s, copies) && (e.ArbDevReq? || e.ArbGuard?)
    ensures Traced(Step(s, e), copies)
  {
  }

  lemma ReleaseTraced(s: Sys, verifyWants: bool, nowUs: int, copies: set<Snapshot>)
    requires Traced(s, copies)
    ensures Traced(ReleasePass(s, verifyWants, nowUs), copies)
  {
    if s.snap.Some? {
      assert BuiltFrom(IdleRequest(s.snap.value), s.snap.value);
      PostTraced(s, ReqMsg(IdleRequest(s.snap.value)), copies);
    }
  }

  /** Every step keeps every idle release traced to a copy. */
  lemma StepTraced(s: Sys, e: Event, copies: set<Snapshot>)
    requires Traced(s, copies) && Enabled(s, e)
    ensures Traced(Step(s, e), copies + Copied(s, e))
  {
    TracedLater(s, copies, Copied(s, e));
    var c := copies + Copied(s, e);
    match e
    case Post(m) => PostTraced(s, m, c);
    case IdleRelease(v, now) => ReleaseTraced(s, v, now, c);
    case ArbMessage(now) =>
      if s.arbIn != [] {
        HandleTraced(s.(arbIn := s.arbIn[1..]), s.arbIn[0], now, c);
      }
    case ArbResponse(now, later) => if s.o.rspQ != [] { ResponseTraced(s, now, later, c); }
    case ArbDispatch(b, now) => DispatchTraced(s, b, now, c);
    case ArbDevReq(_, _) => PassTraced(s, e, c);
    case ArbGuard(_, _) => PassTraced(s, e, c);
    case _ =>
  }

  // ---- Runs --------------------------------------------------------------------------------

  /** The copies the supervisor made during a run. */
  function Copies(s: Sys, es: seq<Event>): set<Snapshot>
    decreases |es|
  {
    if es == [] then {}
    else Copies(s, es[..|es| - 1]) + Copied(Run(s, es[..|es| - 1]), es[|es| - 1])
  }

  lemma {:induction false} RunTraced(units: nat, es: seq<Event>)
    requires Possible(Init(units), es)
    ensures Traced(Run(Init(units), es), Copies(Init(units), es))
    decreases |es|
  {
    if es != [] {
      var front := es[..|es| - 1];
      RunTraced(units, front);
      StepTraced(Run(Init(units), front), es[|es| - 1], Copies(Init(units), front));
    }
  }

  /** Event `k` is the supervisor's look at bank `n.bank`, and what it saw is `n`. */
  predicate LooksAt(s: Sys, e: Event, n: Snapshot) {
    e == TakeSnapshot(n.bank) && n.bank < |s.o.rt| && s.o.rt[n.bank] == n.rt
  }

  /** A copy was made by an event of the run. */
  lemma {:induction false} CopyMade(s: Sys, es: seq<Event>, n: Snapshot) returns (k: nat)
    requires n in Copies(s, es)
    ensures k < |es| && LooksAt(Run(s, es[..k]), es[k], n)
    decreases |es|
  {
    var m := |es| - 1;
    if n in Copies(s, es[..m]) {
      k := CopyMade(s, es[..m], n);
      assert es[..m][..k] == es[..k];
    } else {
      k := m;
    }
  }

  /** Bank `b` has its link held and no app attached. */
  predicate HeldIdle(s: Sys, b: nat) {
    b < |s.o.rt| && s.o.rt[b].linkHeld && !s.o.rt[b].appConnected
  }

  /**
   The fence, from the supervisor's look to the authorisation: an idle release authorised where it
   runs was built from what the supervisor saw at some event of the run, and at every moment from
   that event on the link was held and no app attached, with not one edge in between.
   */
  lemma IdleFence(units: nat, es: seq<Event>) returns (k: nat)
    requires Boot(units, es)
    requires var s := Run(Init(units), es);
             && s.reqQ != [] && s.reqQ[0].idleOnly && Authorised(s.o.rt, s.reqQ[0])
             && s.o.rt[s.reqQ[0].bank].edges < TWO_64
    ensures var r := Run(Init(units), es).reqQ[0];
            && k < |es| && es[k] == TakeSnapshot(r.bank)
            && r.bank < |Run(Init(units), es[..k]).o.rt|
            && Run(Init(units), es[..k]).o.rt[r.bank].idleEpoch == r.idleEpoch
            && Run(Init(units), es[..k]).o.rt[r.bank].edges == Run(Init(units), es).o.rt[r.bank].edges
            && forall n :: k <= n <= |es| ==> HeldIdle(Run(Init(units), es[..n]), r.bank)
  {
    var s := Run(Init(units), es);
    var r := s.reqQ[0];
    RunTraced(units, es);
    assert Known(r, Copies(Init(units), es));
    var copy :| copy in Copies(Init(units), es) && BuiltFrom(r, copy);
    k := CopyMade(Init(units), es, copy);
    Reachable(units, es);
    AuthorisedMeansNoEdge(s);
    forall n | k <= n <= |es| ensures HeldIdle(Run(Init(units), es[..n]), r.bank) {
      Between(units, es, k, n, r.bank);
    }
  }

  /** With equal edge counts at its ends, nothing changed inside a stretch that ends held and idle. */
  lemma Between(units: nat, es: seq<Event>, k: nat, n: nat, b: nat)
    requires Boot(units, es) && k <= n <= |es| && HeldIdle(Run(Init(units), es), b)
    requires b < |Run(Init(units), es[..k]).o.rt|
    requires Run(Init(units), es[..k]).o.rt[b].edges == Run(Init(units), es).o.rt[b].edges
    ensures HeldIdle(Run(Init(units), es[..n]), b)
  {
    InitInv(units);
    RunSplit(Init(units), es, k);
    RunInv(Init(units), es[..k]);
    Nested(Init(units), es, k, n);
    QuietMiddle(Run(Init(units), es[..k]), es[k..], n - k, b);
  }

  lemma QuietMiddle(s: Sys, es: seq<Event>, n: nat, b: nat)
    requires Inv(s) && Possible(s, es) && n <= |es| && b < |s.o.rt|
    requires HeldIdle(Run(s, es), b) && s.o.rt[b].edges == Run(s, es).o.rt[b].edges
    ensures HeldIdle(Run(s, es[..n]), b)
  {
    QuietStretch(s, es, n, b);
  }

  /** The state after `n` events, counted from the state after `k`. */
  lemma Nested(s: Sys, es: seq<Event>, k: nat, n: nat)
    requires Possible(s, es) && k <= n <= |es|
    ensures Run(s, es[..n]) == Run(Run(s, es[..k]), es[k..][..n - k])
  {
    RunSplit(s, es, n);
    RunSplit(s, es[..n], k);
    assert es[..n][..k] == es[..k] && es[..n][k..] == es[k..][..n - k];
  }
}
