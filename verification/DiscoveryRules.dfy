/**
 Discovery, step by step, on one slot: what each callback of the stack records, when it starts the next
 search, and when it fails the link. Together the rules lead from a new connection to the
 subscription whose acknowledgement makes the link ready.
 */
module DiscoveryRules {
  import opened Prelude
  import opened JkFrame
  import opened NodeATypes
  import opened StateCache
  import opened Links
  import opened LinkPool

  /** The slot is discovering, in its search phase `phase`. */
  predicate In(l: Slot, phase: DscPhase) { l.inUse && l.pending && l.gatt.phase == phase }

  /** Only the discovery table of the slot changed. */
  predicate OnlyTable(l: Slot, e: Effect) {
    e.slot == l.(gatt := e.slot.gatt) && e.link == None && e.rsps == []
  }

  /** Discovery failed: the slot is kept as failed, the bank is reported idle, a waiting CONNECT gets GATT error. */
  predicate Fails(l: Slot, e: Effect) {
    && e.slot.failed && !e.slot.pending && !e.slot.ready && !e.slot.subscribing && e.slot.inUse == l.inUse
    && e.slot.gatt.val == 0 && e.slot.gatt.cccd == 0 && e.link == Some(ReachableIdle)
    && e.rsps == (if l.txn.active && l.txn.req.kind == Connect
                  then [Response(l.bank, l.txn.req.cmdId, GattError, NoRecord)] else [])
  }

  /** A connection starts discovery in a new generation, or fails at once if the stack refuses. */
  lemma StartRule(l: Slot, h: nat, cookie: nat, rc: Rc, nowUs: int)
    requires l.inUse
    ensures var e := ConnectEvent(l, Some(h), cookie, rc, nowUs);
            && (rc == RcOk ==>
                  && e.slot.conn == h && e.slot.cookie == cookie && In(e.slot, DscNone) && !e.slot.ready && !e.slot.failed
                  && !e.slot.gatt.serviceSeen && e.slot.gatt.lastChr == 0 && e.slot.txn == l.txn && e.rsps == [])
            && (rc != RcOk ==> Fails(l, e))
  {
  }

  /** The JK service is recorded with its end if its range is not empty; any other service is passed over. */
  lemma SvcRule(l: Slot, svc: Svc, rc: Rc, nowUs: int)
    requires In(l, DscNone)
    ensures var e := SvcStep(l, ErrOk, Some(svc), rc, nowUs);
            && (!svc.jk || l.gatt.serviceSeen ==> e == Quiet(l))
            && (svc.jk && !l.gatt.serviceSeen && 0 < svc.first < svc.last && rc == RcOk ==>
                  OnlyTable(l, e) && e.slot.gatt == l.gatt.(serviceSeen := true, serviceEnd := svc.last))
            && (svc.jk && !l.gatt.serviceSeen && !(0 < svc.first < svc.last && rc == RcOk) ==> Fails(l, e))
    ensures Fails(l, SvcStep(l, ErrOther, None, rc, nowUs)) && Fails(l, SvcStep(l, NullErr, None, rc, nowUs))
    ensures !l.gatt.serviceSeen ==> Fails(l, SvcStep(l, ErrDone, None, rc, nowUs))
  {
  }

  /** A characteristic is recorded if it comes after the last one and inside the service; else discovery fails. */
  lemma ChrRule(l: Slot, c: Chr, rc: Rc, nowUs: int)
    requires In(l, DscNone)
    ensures var e, g := ChrStep(l, ErrOk, Some(c), rc, nowUs), l.gatt;
            && (g.lastChr < c.def < c.val <= g.serviceEnd ==>
                  && OnlyTable(l, e) && e.slot.gatt.chars == g.chars + [c] && e.slot.gatt.lastChr == c.val
                  && (c.uuid == Ffe1 ==> e.slot.gatt.val == c.val && e.slot.gatt.ffe1Props == c.props && e.slot.gatt.ffe1End == g.serviceEnd)
                  && (c.uuid != Ffe1 ==> e.slot.gatt.val == g.val)
                  && (c.uuid == Ffe2 ==> e.slot.gatt.ffe2 == c.val && e.slot.gatt.ffe2Props == c.props && e.slot.gatt.ffe2End == g.serviceEnd)
                  && (c.uuid != Ffe2 ==> e.slot.gatt.ffe2 == g.ffe2))
            && (!(g.lastChr < c.def < c.val <= g.serviceEnd) ==> Fails(l, e))
  {
  }

  /** At the end of the characteristics FFE1's descriptors are searched, if FFE1 was found with room behind it. */
  lemma ChrEndRule(l: Slot, rc: Rc, nowUs: int)
    requires In(l, DscNone)
    ensures var e, g := ChrStep(l, ErrDone, None, rc, nowUs), l.gatt;
            && (0 < g.val < g.ffe1End && rc == RcOk ==> OnlyTable(l, e) && e.slot.gatt == g.(phase := DscFfe1))
            && (!(0 < g.val < g.ffe1End && rc == RcOk) ==> Fails(l, e))
  {
  }

  /** The subscription is requested, or the discovery fails. */
  predicate Subscribing(l: Slot, e: Effect, rc: Rc) {
    if rc == RcOk then
      e.slot == l.(gatt := l.gatt.(phase := DscDone), subscribing := true) && e.link == None && e.rsps == []
    else Fails(l, e)
  }

  /**
   At the end of FFE1's descriptors: without a CCCD the discovery fails; with one, FFE2's descriptors are
   searched if FFE2 can notify and has room for one, and the subscription is requested otherwise.
   */
  lemma DscEndRule(l: Slot, rcDsc: Rc, rcSub: Rc, nowUs: int)
    requires In(l, DscFfe1)
    ensures var e, g := DescriptorStep(l, ErrDone, l.gatt.val, None, rcDsc, rcSub, nowUs), l.gatt;
            var more := g.ffe2 != 0 && g.ffe2Props.notify && g.ffe2End > g.ffe2;
            && (g.cccd == 0 ==> Fails(l, e))
            && (g.cccd != 0 && more && rcDsc == RcOk ==> OnlyTable(l, e) && e.slot.gatt == g.(phase := DscFfe2))
            && (g.cccd != 0 && more && rcDsc == RcNotConn ==> Fails(l, e))
            && (g.cccd != 0 && !more ==> Subscribing(l, e, rcSub))
  {
  }

  /** At the end of FFE2's descriptors, found or not, the subscription is requested. */
  lemma OptionalEndRule(l: Slot, rcDsc: Rc, rcSub: Rc, nowUs: int)
    requires In(l, DscFfe2) && l.gatt.ffe2 != 0
    ensures Subscribing(l, DescriptorStep(l, ErrDone, l.gatt.ffe2, None, rcDsc, rcSub, nowUs), rcSub)
  {
    var g := l.gatt;
    assert l.(gatt := g.(ffe2Cccd := NewCccd(None, g.ffe2Cccd))) == l;
    assert OptionalStep(l, ErrDone, None, rcSub, nowUs) == SubscriptionStart(l, rcSub, nowUs);
  }

  /**
   A descriptor reported while FFE1's are searched: a CCCD inside the range is recorded, a CCCD outside
   it or a second one fails the discovery, and any other descriptor changes nothing.
   */
  lemma CccdRule(l: Slot, d: Dsc, rcDsc: Rc, rcSub: Rc, nowUs: int)
    requires In(l, DscFfe1)
    ensures var e, g := DescriptorStep(l, ErrOk, l.gatt.val, Some(d), rcDsc, rcSub, nowUs), l.gatt;
            var fits := g.val < d.handle <= g.ffe1End && (g.cccd == 0 || g.cccd == d.handle);
            && (!d.cccd ==> e == Quiet(l))
            && (d.cccd && fits ==> OnlyTable(l, e) && e.slot.gatt == g.(cccd := d.handle))
            && (d.cccd && !fits ==> Fails(l, e))
  {
  }

  /**
   The way to a ready link: connected, the service found, FFE1 found in it, its CCCD found behind it, the
   subscription requested and acknowledged, each without an error.
   */
  lemma WayToReady(l0: Slot, h: nat, cookie: nat, svc: Svc, c: Chr, d: Dsc, nowUs: int)
    requires l0.inUse && l0.gatt == NO_GATT
    requires svc.jk && 0 < svc.first < svc.last && c.uuid == Ffe1 && 0 < c.def < c.val < svc.last
    requires d.cccd && c.val < d.handle <= svc.last
    ensures var l1 := ConnectEvent(l0, Some(h), cookie, RcOk, nowUs).slot;
            var l2 := SvcStep(l1, ErrOk, Some(svc), RcOk, nowUs).slot;
            var l3 := ChrStep(l2, ErrOk, Some(c), RcOk, nowUs).slot;
            var l4 := ChrStep(l3, ErrDone, None, RcOk, nowUs).slot;
            var l5 := DescriptorStep(l4, ErrOk, c.val, Some(d), RcOk, RcOk, nowUs).slot;
            var l6 := DescriptorStep(l5, ErrDone, c.val, None, RcOk, RcOk, nowUs).slot;
            var l7 := SubscribeDone(l6, ErrOk, Some(d.handle), nowUs);
            Ready(l7.slot) && l7.link == Some(Up) && l7.slot.gatt.val == c.val && l7.slot.gatt.cccd == d.handle
  {
    StartRule(l0, h, cookie, RcOk, nowUs);
    var l1 := ConnectEvent(l0, Some(h), cookie, RcOk, nowUs).slot;
    SvcRule(l1, svc, RcOk, nowUs);
    var l2 := SvcStep(l1, ErrOk, Some(svc), RcOk, nowUs).slot;
    ChrRule(l2, c, RcOk, nowUs);
    var l3 := ChrStep(l2, ErrOk, Some(c), RcOk, nowUs).slot;
    ChrEndRule(l3, RcOk, nowUs);
    var l4 := ChrStep(l3, ErrDone, None, RcOk, nowUs).slot;
    CccdRule(l4, d, RcOk, RcOk, nowUs);
    var l5 := DescriptorStep(l4, ErrOk, c.val, Some(d), RcOk, RcOk, nowUs).slot;
    assert l1.gatt.ffe2 == 0;
    DscEndRule(l5, RcOk, RcOk, nowUs);
  }

  /**
   A failed link is torn down until it is gone: the first attempt falls due one second after the failure,
   a sweep repeats it exactly when it is due, and then again a second later; nothing else of the slot
   changes.
   */
  lemma TeardownRule(l: Slot, status: Status, nowUs: int)
    ensures l.pending ==> DiscoveryFail(l, status, nowUs).slot.retryUs == nowUs + 1_000_000
    ensures l.inUse && l.failed && !l.txn.active ==>
              SweepSlot(l, nowUs) == Quiet(if nowUs >= l.retryUs then l.(retryUs := nowUs + 1_000_000) else l)
  {
  }
}
