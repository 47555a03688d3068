/**
 What Node A guarantees over whole runs. Every theorem quantifies over all boots with at most
 twelve banks and all event sequences the environment may choose.
 */
module NodeATheorems {
  import opened Prelude
  import opened NodeATypes
  import opened StateCache
  import opened Links
  import opened LinkPool
  import opened PoolInvariant
  import opened Pending
  import opened NodeA

  /** The run is possible from a boot with a supported number of banks. */
  ghost predicate Boot(units: nat, es: seq<Event>) {
    units <= QUEUE_DEPTH && Possible(Init(units), es)
  }

  lemma Reachable(units: nat, es: seq<Event>)
    requires Boot(units, es)
    ensures Inv(Run(Init(units), es))
  {
    InitInv(units);
    RunInv(Init(units), es);
  }

  // ---- Token conservation ------------------------------------------------------------

  /**
   A bank is busy exactly when one copy of its operation exists across the request queue, the
   slots and the response queue, and there is no copy of anything else; so nothing is in flight
   twice, answered twice or lost, and neither queue can overflow.
   */
  lemma TokenConservation(units: nat, es: seq<Event>, b: nat, id: nat)
    requires Boot(units, es)
    ensures var s := Run(Init(units), es);
            && Tokens(s)[Token(b, id)]
               == (if b < |s.pend| && s.pend[b].busy && s.pend[b].activeId == id then 1 else 0)
            && |s.reqQ| + |s.o.rspQ| <= |s.pend| <= QUEUE_DEPTH
            && (b < |s.pend| && !s.pend[b].busy ==> |s.reqQ| < QUEUE_DEPTH)
  {
    Reachable(units, es);
    OneCopyEach(Run(Init(units), es), b, id);
  }

  lemma OneCopyEach(s: Sys, b: nat, id: nat)
    requires Inv(s)
    ensures Tokens(s)[Token(b, id)]
            == if b < |s.pend| && s.pend[b].busy && s.pend[b].activeId == id then 1 else 0
    ensures |s.reqQ| + |s.o.rspQ| <= |s.pend| <= QUEUE_DEPTH
    ensures b < |s.pend| && !s.pend[b].busy ==> |s.reqQ| < QUEUE_DEPTH
  {
    BusyTokensAt(s.pend, |s.pend|, b, id);
    TokenBound(s);
    ResponseTokensSize(s.o.rspQ);
    RequestTokensSize(s.reqQ);
    if b < |s.pend| && !s.pend[b].busy {
      IdleBankRoom(s.pend, |s.pend|, b);
    }
  }

  lemma {:induction false} IdleBankRoom(pend: seq<Pend>, n: nat, b: nat)
    requires b < n <= |pend| && !pend[b].busy
    ensures |BusyTokens(pend, n)| < n
  {
    if n - 1 == b {
      BusyTokensSize(pend, n - 1);
    } else {
      IdleBankRoom(pend, n - 1, b);
    }
  }

  /** Every response that reaches the arbiter is the one its bank waits for. */
  lemma NoUnsolicitedResult(units: nat, es: seq<Event>)
    requires Boot(units, es) && Run(Init(units), es).o.rspQ != []
    ensures var s := Run(Init(units), es);
            && s.o.rspQ[0].bank < |s.pend|
            && Matches(s.pend[s.o.rspQ[0].bank], s.o.rspQ[0])
  {
    Reachable(units, es);
    ResponseMatches(Run(Init(units), es));
  }

  /** The ids of the results consumed so far. */
  function AnsweredIds(h: seq<Result>): seq<nat> {
    seq(|h|, k requires 0 <= k < |h| => h[k].cmdId)
  }

  /**
   Per bank: the ids sent are 1, 2, 3, ..., each answered once and in order, with at most the last
   one still open; non-CONNECT requests accepted since the last flush went out once each in
   acceptance order, and the rest of what was accepted is the ring; backoff and hold-off are the
   closed form of the results.
   */
  lemma BankDiscipline(units: nat, es: seq<Event>, b: nat)
    requires Boot(units, es) && b < |Run(Init(units), es).pend|
    ensures var p := Run(Init(units), es).pend[b];
            && (forall k :: 0 <= k < |p.log.sent| ==> p.log.sent[k] == k + 1)
            && p.log.sent == AnsweredIds(p.log.results) + (if p.busy then [p.activeId] else [])
            && Fifo(p.ring, p.log.accepted, p.log.left, p.log.forwarded)
            && Backoff(p.backoffMs, p.connectAfterUs, p.log.results)
  {
    Reachable(units, es);
    AllAnswered(Run(Init(units), es).pend[b]);
  }

  lemma AllAnswered(p: Pend)
    requires PendOk(p)
    ensures forall k :: 0 <= k < |p.log.sent| ==> p.log.sent[k] == k + 1
    ensures p.log.sent == AnsweredIds(p.log.results) + (if p.busy then [p.activeId] else [])
  {
  }

  // ---- Slots ----------------------------------------------------------------------------

  /**
   At most one slot per bank; each slot in use in exactly one of its four phases; and for every
   bank a ready slot, a held link and a link reported up are the same thing.
   */
  lemma SlotPhases(units: nat, es: seq<Event>)
    requires Boot(units, es)
    ensures var o := Run(Init(units), es).o;
            && |o.slots| == POOL
            && OneSlotPerBank(o.slots)
            && (forall i :: 0 <= i < POOL && o.slots[i].inUse ==>
                              PhaseOk(o.slots[i], o.inflight == Some(i)))
            && (forall b :: 0 <= b < |o.rt| ==>
                              && (o.rt[b].linkHeld <==> ReadyBank(o.slots, b))
                              && (o.rt[b].linkHeld <==> o.rt[b].link == Up))
  {
    Reachable(units, es);
    var o := Run(Init(units), es).o;
    forall i | 0 <= i < POOL && o.slots[i].inUse
      ensures PhaseOk(o.slots[i], o.inflight == Some(i))
    {
      InSlot(o, i);
    }
    forall b | 0 <= b < |o.rt|
      ensures (o.rt[b].linkHeld <==> ReadyBank(o.slots, b)) && (o.rt[b].linkHeld <==> o.rt[b].link == Up)
    {
      assert RuntimeOk(o.rt[b]);
    }
  }

  /** With no more banks than slots, allocating a slot never fails. */
  lemma AllocationSucceeds(units: nat, es: seq<Event>, b: nat)
    requires Boot(units, es)
    requires var o := Run(Init(units), es).o;
             |o.rt| <= POOL && b < |o.rt| && ByBank(o.slots, b).None?
    ensures FreeSlot(Run(Init(units), es).o.slots).Some?
  {
    Reachable(units, es);
    PoolNeverFull(Run(Init(units), es).o, b);
  }

  /** The slot searches FFE1's or FFE2's descriptors, or is ready. */
  predicate Searched(l: Slot) {
    l.inUse && (l.ready || (l.pending && l.gatt.phase != DscNone))
  }

  /**
   From the start of the first descriptor search to the end of the link, no declaration or value
   handle of any discovered characteristic lies in a range that is searched, both ranges lie in
   the service, and a CCCD found lies strictly after its value and in its range; a slot in the
   FFE2 search has FFE1's CCCD, and so has a ready one; and the recorded handles are the value
   handles, with the properties, of the latest characteristics reported as FFE1 and FFE2.
   */
  lemma DescriptorRanges(units: nat, es: seq<Event>, i: nat)
    requires Boot(units, es)
    requires var o := Run(Init(units), es).o; i < |o.slots| && Searched(o.slots[i])
    ensures var l := Run(Init(units), es).o.slots[i];
            var g := l.gatt;
            && 0 < g.val < g.ffe1End <= g.serviceEnd
            && ClearOfChrs(g.chars, g.val, g.ffe1End)
            && (g.ffe2 != 0 ==> g.ffe2End <= g.serviceEnd && ClearOfChrs(g.chars, g.ffe2, g.ffe2End))
            && (g.cccd != 0 ==> g.val < g.cccd <= g.ffe1End)
            && (g.ffe2Cccd != 0 ==> g.ffe2 < g.ffe2Cccd <= g.ffe2End)
            && (l.ready || g.phase == DscFfe2 ==> g.cccd != 0)
            && (g.phase == DscFfe2 ==> g.ffe2 != 0)
            && (var ffe1, ffe2 := LastOf(g.chars, Ffe1), LastOf(g.chars, Ffe2);
                && ffe1.Some? && ffe1.value.val == g.val && ffe1.value.props == g.ffe1Props
                && (g.ffe2 != 0 ==> ffe2.Some? && ffe2.value.val == g.ffe2 && ffe2.value.props == g.ffe2Props))
  {
    Reachable(units, es);
    InSlot(Run(Init(units), es).o, i);
  }

  // ---- Growth along a run ------------------------------------------------------------------

  lemma RtEvolves(o: Owner, b: nat, u: Update)
    requires PoolInv(o) && b < |o.rt|
    ensures Evolves(o, o.(rt := o.rt[b := Updated(o.rt[b], u)]))
  {
    UpdateKeeps(o.rt[b], u);
  }

  lemma HandleEvolves(s: Sys, m: Msg, nowUs: int)
    requires Inv(s)
    ensures Evolves(s.o, Handle(s, m, nowUs).o)
  {
    Unchanged(s.o);
    if m.AppMsg? && MsgBank(m) < |s.o.rt| {
      RtEvolves(s.o, m.bank, AppUpdate(m.connected, nowUs));
      assert AppEdge(s, m.bank, m.connected, nowUs).o in
             {s.o, UpdateRt(s, m.bank, AppUpdate(m.connected, nowUs)).o};
    }
  }

  lemma StepEvolves(s: Sys, e: Event)
    requires Inv(s) && Enabled(s, e)
    ensures Evolves(s.o, Step(s, e).o)
  {
    Unchanged(s.o);
    TokenBound(s);
    if e.BleExec? {
      if s.reqQ != [] {
        ExecTakes(s.o, s.reqQ[0], e.env, e.nowUs);
      }
    } else if e.BleRadio? {
      RadioKeeps(s.o, e.r, e.nowUs);
    } else if e.ArbMessage? {
      if s.arbIn != [] {
        MessageEvolves(s, e.nowUs);
      }
    } else {
      RuntimeEvolves(s, e);
    }
  }

  lemma MessageEvolves(s: Sys, nowUs: int)
    requires Inv(s) && s.arbIn != []
    ensures Evolves(s.o, Handle(s.(arbIn := s.arbIn[1..]), s.arbIn[0], nowUs).o)
  {
    var s1 := s.(arbIn := s.arbIn[1..]);
    assert MsgsOk(s1.arbIn, s1.o.rt);
    HandleEvolves(s1, s.arbIn[0], nowUs);
  }

  lemma ReleaseEvolves(s: Sys, verifyWants: bool, nowUs: int)
    requires Inv(s)
    ensures Evolves(s.o, ReleasePass(s, verifyWants, nowUs).o)
  {
    Unchanged(s.o);
    if s.snap.Some? {
      RtEvolves(s.o, s.snap.value.bank, AppLeftUpdate(s.snap.value.rt.appLeftUs));
    }
  }

  lemma GuardEvolves(s: Sys, b: nat, nowUs: int)
    requires Inv(s)
    ensures Evolves(s.o, GuardPass(s, b, nowUs).o)
  {
    Unchanged(s.o);
    if b < |s.o.rt| {
      RtEvolves(s.o, b, IdleUpdate);
    }
  }

  lemma RuntimeEvolves(s: Sys, e: Event)
    requires Inv(s) && !e.BleExec? && !e.BleRadio? && !e.ArbMessage?
    ensures Evolves(s.o, Step(s, e).o)
  {
    if e.IdleRelease? {
      ReleaseEvolves(s, e.verifyWants, e.nowUs);
    } else if e.ArbGuard? {
      GuardEvolves(s, e.bank, e.nowUs);
    } else if e.PromoteBank? && e.bank < |s.o.rt| {
      RtEvolves(s.o, e.bank, PromoteUpdate);
    } else {
      SlotsKept(s, e);
    }
  }

  lemma SlotsKept(s: Sys, e: Event)
    requires e.Post? || e.TakeSnapshot? || e.ArbResponse? || e.ArbDispatch? || e.ArbDevReq?
             || (e.PromoteBank? && e.bank >= |s.o.rt|)
    ensures Evolves(s.o, Step(s, e).o)
  {
    Unchanged(s.o);
    assert Step(s, e).o == s.o.(rspQ := Step(s, e).o.rspQ);
  }

  lemma RunSplit(s: Sys, es: seq<Event>, n: nat)
    requires n <= |es| && Possible(s, es)
    ensures Possible(s, es[..n]) && Possible(Run(s, es[..n]), es[n..])
    ensures Run(s, es) == Run(Run(s, es[..n]), es[n..])
    decreases |es|
  {
    if n == |es| {
      assert es[..n] == es;
    } else {
      var front := es[..|es| - 1];
      RunSplit(s, front, n);
      assert front[..n] == es[..n];
      assert front[n..] == es[n..][..|es[n..]| - 1];
    }
  }

  lemma {:induction false} RunEvolves(s: Sys, es: seq<Event>)
    requires Inv(s) && Possible(s, es)
    ensures Evolves(s.o, Run(s, es).o)
    decreases |es|
  {
    if es == [] {
      Unchanged(s.o);
    } else {
      var front := es[..|es| - 1];
      RunInv(s, front);
      RunEvolves(s, front);
      StepEvolves(Run(s, front), es[|es| - 1]);
      EvolvesTransitive(s.o, Run(s, front).o, Run(s, es).o);
    }
  }

  // ---- Stale callbacks ------------------------------------------------------------------------

  /**
   A write token that is no longer waited for stays inert for the rest of the run: a callback with
   it changes no slot and sends no response, whatever slot, bank and handle were reused meanwhile.
   */
  lemma StaleWriteInert(s: Sys, es: seq<Event>, token: nat, h: nat, err: Err, attr: Option<nat>,
                        nowUs: int)
    requires Inv(s) && Possible(s, es) && WriteRetired(s.o, token)
    ensures Step(Run(s, es), BleRadio(GattWritten(h, err, attr, token), nowUs)) == Run(s, es)
  {
    StaysRetired(s, es, token);
    WrittenInert(Run(s, es), token, h, err, attr, nowUs);
  }

  lemma WrittenInert(s: Sys, token: nat, h: nat, err: Err, attr: Option<nat>, nowUs: int)
    requires WriteRetired(s.o, token)
    ensures Step(s, BleRadio(GattWritten(h, err, attr, token), nowUs)) == s
  {
    RetiredWriteInert(s.o, h, err, attr, token, nowUs);
  }

  lemma StaysRetired(s: Sys, es: seq<Event>, token: nat)
    requires Inv(s) && Possible(s, es)
    ensures WriteRetired(s.o, token) ==> WriteRetired(Run(s, es).o, token)
    ensures GenerationRetired(s.o, token) && Run(s, es).o.generations < TWO_32 ==>
              GenerationRetired(Run(s, es).o, token)
  {
    RunEvolves(s, es);
    RetiredStays(s.o, Run(s, es).o, token);
  }

  /** The same for every discovery callback, below 2^32 discoveries since boot. */
  lemma StaleDiscoveryInert(s: Sys, es: seq<Event>, token: nat, e: Radio, nowUs: int)
    requires Inv(s) && Possible(s, es) && GenerationRetired(s.o, token)
    requires CarriesGeneration(e, token) && Run(s, es).o.generations < TWO_32
    ensures Step(Run(s, es), BleRadio(e, nowUs)) == Run(s, es)
  {
    StaysRetired(s, es, token);
    DiscoveryInert(Run(s, es), token, e, nowUs);
  }

  lemma DiscoveryInert(s: Sys, token: nat, e: Radio, nowUs: int)
    requires GenerationRetired(s.o, token) && CarriesGeneration(e, token)
    ensures Step(s, BleRadio(e, nowUs)) == s
  {
    RetiredDiscoveryInert(s.o, e, token, nowUs);
  }

  // ---- The idle-release fence -----------------------------------------------------------------------

  /**
   If an idle release is authorised where it runs, its bank has made no edge since the
   supervisor's snapshot, for fewer than 2^64 edges.
   */
  lemma AuthorisedMeansNoEdge(s: Sys)
    requires Inv(s) && s.reqQ != [] && s.reqQ[0].idleOnly && Authorised(s.o.rt, s.reqQ[0])
    requires s.o.rt[s.reqQ[0].bank].edges < TWO_64
    ensures s.reqQ[0].snapEdges == s.o.rt[s.reqQ[0].bank].edges
  {
    var r := s.reqQ[0];
    assert Fenced(r, s.o.rt);
    assert RuntimeOk(s.o.rt[r.bank]);
  }

  /** Between two moments with equal edge counts, the app and held flags never changed. */
  lemma QuietStretch(s: Sys, es: seq<Event>, n: nat, b: nat)
    requires Inv(s) && Possible(s, es) && n <= |es| && b < |s.o.rt|
    ensures var mid, end := Run(s, es[..n]), Run(s, es);
            && b < |mid.o.rt| && b < |end.o.rt|
            && s.o.rt[b].edges <= mid.o.rt[b].edges <= end.o.rt[b].edges
            && (mid.o.rt[b].edges == end.o.rt[b].edges ==>
                  && mid.o.rt[b].appConnected == end.o.rt[b].appConnected
                  && mid.o.rt[b].linkHeld == end.o.rt[b].linkHeld)
  {
    RunSplit(s, es, n);
    RunInv(s, es[..n]);
    RunEvolves(s, es[..n]);
    RunEvolves(Run(s, es[..n]), es[n..]);
  }
}
