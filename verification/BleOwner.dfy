/**
 The BLE owner as the original runs it: a fixed array of slots searched by loops and updated in
 place. Every callback, the deadline sweep and the execution of a request keep the pool valid
 (slots well formed, cache truthful, no more operations than the queues hold), conserve its
 operations and forget no token, and compute exactly the transition that `LinkPool` specifies, so
 the run theorems are about this code.
 */
module BleOwner {
  import opened Prelude
  import opened JkFrame
  import opened NodeATypes
  import opened StateCache
  import opened Links
  import opened LinkPool
  import opened Reassembly
  import PoolInvariant
  import NodeA

  /** Writing a slot twice keeps the last write. */
  lemma Overwrite(o: Owner, i: nat, l: Slot, e: Effect, nowUs: int)
    requires i < |o.slots|
    ensures Apply(o.(slots := o.slots[i := l]), i, e, nowUs) == Apply(o, i, e, nowUs)
  {
    assert o.slots[i := l][i := e.slot] == o.slots[i := e.slot];
  }

  lemma {:induction false} RespondConcat(q: seq<Response>, rs: seq<Response>, more: seq<Response>)
    ensures LinkPool.Respond(q, rs + more) == LinkPool.Respond(LinkPool.Respond(q, rs), more)
    decreases |rs|
  {
    if rs == [] {
      assert rs + more == more;
    } else {
      assert (rs + more)[1..] == rs[1..] + more;
      RespondConcat(if |q| < QUEUE_DEPTH then q + [rs[0]] else q, rs[1..], more);
    }
  }

  lemma NoteTwice(rt: seq<Runtime>, b: nat, nowUs: int)
    ensures Report(Report(rt, b, None, true, nowUs), b, None, true, nowUs)
            == Report(rt, b, None, true, nowUs)
  {
  }

  /** Noting a frame before or after the slot is written is the same. */
  lemma Noted(o: Owner, i: nat, l: Slot, e: Effect, nowUs: int)
    requires i < |o.slots| && e.link == None && !e.noted && e.slot.bank == l.bank
    ensures Apply(o.(slots := o.slots[i := l], rt := Report(o.rt, l.bank, None, true, nowUs)),
                  i, e, nowUs)
            == Apply(o, i, e.(noted := true), nowUs)
  {
    assert o.slots[i := l][i := e.slot] == o.slots[i := e.slot];
    var rt := Report(o.rt, l.bank, None, true, nowUs);
    assert Report(rt, l.bank, None, false, nowUs) == rt;
  }

  /** The owner after completing the frames one at a time. */
  ghost function InTurn(o: Owner, i: nat, frames: seq<seq<Byte>>, nowUs: int): Owner
    requires i < |o.slots|
    decreases |frames|
  {
    if frames == [] then o
    else InTurn(Apply(o, i, FrameDone(o.slots[i], RecordOf(frames[0])), nowUs), i, frames[1..], nowUs)
  }

  /** Two effects on the same slot that report no link state. */
  lemma Joined(o: Owner, i: nat, e: Effect, rest: Effect, nowUs: int)
    requires i < |o.slots| && e.link == None && rest.link == None && e.noted
    requires rest.slot.bank == e.slot.bank
    ensures Apply(Apply(o, i, e, nowUs), i, rest, nowUs)
            == Apply(o, i, rest.(noted := true, rsps := e.rsps + rest.rsps), nowUs)
  {
    assert o.slots[i := e.slot][i := rest.slot] == o.slots[i := rest.slot];
    RespondConcat(o.rspQ, e.rsps, rest.rsps);
    NoteTwice(o.rt, e.slot.bank, nowUs);
    var rt := Report(o.rt, e.slot.bank, None, true, nowUs);
    assert Report(rt, e.slot.bank, None, false, nowUs) == rt;
  }

  /** A chunk reports no link state and keeps its bank. */
  lemma {:induction false} FramesOutcome(l: Slot, frames: seq<seq<Byte>>)
    ensures FramesDone(l, frames).link == None && FramesDone(l, frames).slot.bank == l.bank
    decreases |frames|
  {
    if frames != [] {
      FramesOutcome(FrameDone(l, RecordOf(frames[0])).slot, frames[1..]);
    }
  }

  lemma {:induction false} FramesInTurn(o: Owner, i: nat, frames: seq<seq<Byte>>, nowUs: int)
    requires i < |o.slots|
    ensures InTurn(o, i, frames, nowUs) == Apply(o, i, FramesDone(o.slots[i], frames), nowUs)
    decreases |frames|
  {
    if frames == [] {
      PoolInvariant.InertReport(o, i, nowUs);
    } else {
      var e := FrameDone(o.slots[i], RecordOf(frames[0]));
      FramesInTurn(Apply(o, i, e, nowUs), i, frames[1..], nowUs);
      FramesOutcome(e.slot, frames[1..]);
      Joined(o, i, e, FramesDone(e.slot, frames[1..]), nowUs);
    }
  }

  /** Whatever keeps its promises leaves a pool that can keep them again. */
  lemma Remains(o: Owner, o': Owner)
    requires PoolInvariant.Pre(o) && PoolInvariant.Keeps(o, o')
    ensures PoolInvariant.Pre(o')
  {
  }

  class Pool {
    const slots: array<Slot>
    const cache: Cache
    var inflight: Option<nat>
    var discCtr: nat
    var writeCtr: nat
    var rspQ: seq<Response>
    ghost var generations: nat

    /** The array has its fixed size; the parts of a callback need no more. */
    ghost predicate Shaped()
      reads this
    {
      slots.Length == POOL
    }

    /** The pool as Node A relies on it: well formed, and no more operations than the queues hold. */
    ghost predicate Valid()
      reads this, slots, cache
    {
      Shaped() && PoolInvariant.Pre(View())
    }

    ghost function View(): Owner
      requires Shaped()
      reads this, slots, cache
    {
      Owner(slots[..], inflight, discCtr, generations, writeCtr, cache.units, rspQ)
    }

    constructor (c: Cache)
      ensures Shaped() && fresh(slots) && cache == c
      ensures View() == Owner(seq(POOL, _ => FreshSlot(0).(inUse := false)), None, 0, 0, 0,
                              c.units, [])
      ensures |c.units| <= QUEUE_DEPTH && (forall b :: 0 <= b < |c.units| ==> c.units[b] == BOOT) ==> Valid()
    {
      slots := new Slot[POOL](_ => FreshSlot(0).(inUse := false));
      cache := c;
      inflight, discCtr, writeCtr, rspQ, generations := None, 0, 0, [], 0;
      new;
      assert slots[..] == seq(POOL, _ => FreshSlot(0).(inUse := false));
      if |c.units| <= QUEUE_DEPTH && forall b :: 0 <= b < |c.units| ==> c.units[b] == BOOT {
        NodeA.InitInv(|c.units|);
        NodeA.TokenBound(NodeA.Init(|c.units|));
        assert View() == NodeA.Init(|c.units|).o;
      }
    }

    // ---- Lookups --------------------------------------------------------------------

    method LinkByConn(h: nat) returns (r: Option<nat>)
      requires Shaped()
      ensures r == ByConn(slots[..], h)
    {
      var i := 0;
      while i < slots.Length
        invariant 0 <= i <= slots.Length
        invariant ByConn(slots[..], h) == ByConn(slots[..], h, i)
      {
        var l := slots[i];
        if l.inUse && l.conn == h && (l.pending || l.failed || l.ready) {
          return Some(i);
        }
        i := i + 1;
      }
      return None;
    }

    method LinkByBank(b: nat) returns (r: Option<nat>)
      requires Shaped()
      ensures r == ByBank(slots[..], b)
    {
      var i := 0;
      while i < slots.Length
        invariant 0 <= i <= slots.Length
        invariant ByBank(slots[..], b) == ByBank(slots[..], b, i)
      {
        if slots[i].inUse && slots[i].bank == b {
          return Some(i);
        }
        i := i + 1;
      }
      return None;
    }

    /** `link_alloc`: the first free slot, cleared and given to the bank. */
    method LinkAlloc(b: nat) returns (r: Option<nat>)
      requires Shaped()
      modifies slots
      ensures r == FreeSlot(old(slots[..]))
      ensures slots[..] == if r.Some? then old(slots[..])[r.value := FreshSlot(b)]
                           else old(slots[..])
    {
      var i := 0;
      while i < slots.Length
        invariant 0 <= i <= slots.Length
        invariant slots[..] == old(slots[..])
        invariant FreeSlot(slots[..]) == FreeSlot(slots[..], i)
      {
        if !slots[i].inUse {
          slots[i] := FreshSlot(b);
          return Some(i);
        }
        i := i + 1;
      }
      return None;
    }

    /** `discovery_link`. */
    method DiscoveryLink(h: nat, cookie: nat) returns (r: Option<nat>)
      requires Shaped()
      ensures r == if cookie == 0 then None else ByCookie(slots[..], h, cookie)
    {
      if cookie == 0 {
        return None;
      }
      var i := 0;
      while i < slots.Length
        invariant 0 <= i <= slots.Length
        invariant ByCookie(slots[..], h, cookie) == ByCookie(slots[..], h, cookie, i)
      {
        var l := slots[i];
        if l.inUse && l.pending && l.conn == h && l.cookie == cookie {
          return Some(i);
        }
        i := i + 1;
      }
      return None;
    }

    // ---- Responses and link reports ---------------------------------------------------

    method Respond(bank: nat, cmdId: nat, status: Status, record: Record)
      requires Shaped()
      modifies this`rspQ
      ensures rspQ == LinkPool.Respond(old(rspQ), [Response(bank, cmdId, status, record)])
    {
      var r := Response(bank, cmdId, status, record);
      assert [r][1..] == [];
      if |rspQ| < QUEUE_DEPTH {
        rspQ := rspQ + [r];
      }
    }

    method SetLinkState(bank: nat, link: LinkState, nowUs: int)
      modifies cache
      ensures cache.units == Report(old(cache.units), bank, Some(link), false, nowUs)
    {
      cache.SetLinkState(bank, link, nowUs);
    }

    // ---- Discovery ---------------------------------------------------------------------

    method DiscoveryFail(i: nat, status: Status, nowUs: int)
      requires Shaped() && i < POOL
      modifies this`rspQ, slots, cache
      ensures View() == Apply(old(View()), i, Links.DiscoveryFail(old(slots[i]), status, nowUs), nowUs)
    {
      var l := slots[i];
      if !l.pending {
        PoolInvariant.InertReport(View(), i, nowUs);
        return;
      }
      slots[i] := l.(pending := false, subscribing := false, failed := true, ready := false,
                     gatt := l.gatt.(val := 0, ffe2 := 0, cccd := 0, ffe2Cccd := 0));
      SetLinkState(l.bank, ReachableIdle, nowUs);
      if l.txn.active && l.txn.req.kind == Connect {
        slots[i] := slots[i].(txn := l.txn.(active := false));
        Respond(l.bank, l.txn.req.cmdId, status, NoRecord);
      }
      slots[i] := slots[i].(retryUs := nowUs + RETRY_US);
    }

    /** Replace the discovery table of slot `i`. */
    method SetGatt(i: nat, g: Gatt)
      requires Shaped() && i < POOL
      modifies slots
      ensures slots[..] == old(slots[..])[i := old(slots[i]).(gatt := g)]
    {
      slots[i] := slots[i].(gatt := g);
    }

    method SubscriptionStart(i: nat, rc: Rc, nowUs: int)
      requires Shaped() && i < POOL
      modifies this`rspQ, slots, cache
      ensures View() == Apply(old(View()), i, Links.SubscriptionStart(old(slots[i]), rc, nowUs), nowUs)
    {
      ghost var o := View();
      var l := slots[i].(gatt := slots[i].gatt.(phase := DscDone), subscribing := true);
      slots[i] := l;
      PoolInvariant.InertReport(View(), i, nowUs);
      Overwrite(o, i, l, Quiet(l), nowUs);
      Overwrite(o, i, l, Links.DiscoveryFail(l, GattError, nowUs), nowUs);
      if rc != RcOk {
        DiscoveryFail(i, GattError, nowUs);
      }
    }

    method SecondaryDescriptorsOrSubscribe(i: nat, rcDsc: Rc, rcSub: Rc, nowUs: int)
      requires Shaped() && i < POOL
      modifies this`rspQ, slots, cache
      ensures View() == Apply(old(View()), i,
                              SecondaryOrSubscribe(old(slots[i]), rcDsc, rcSub, nowUs), nowUs)
    {
      ghost var o := View();
      var g := slots[i].gatt;
      if g.ffe2 != 0 && g.ffe2Props.notify && g.ffe2End > g.ffe2 {
        SetGatt(i, g.(phase := DscFfe2));
        ghost var l := slots[i];
        if rcDsc == RcOk {
          PoolInvariant.InertReport(View(), i, nowUs);
          Overwrite(o, i, l, Quiet(l), nowUs);
          return;
        }
        if rcDsc == RcNotConn {
          Overwrite(o, i, l, Links.DiscoveryFail(l, GattError, nowUs), nowUs);
          DiscoveryFail(i, GattError, nowUs);
          return;
        }
        Overwrite(o, i, l, Links.SubscriptionStart(l, rcSub, nowUs), nowUs);
      }
      SubscriptionStart(i, rcSub, nowUs);
    }

    /** `on_subscribe_done`. */
    method SubscribeAck(h: nat, err: Err, attr: Option<nat>, cookie: nat, nowUs: int)
      requires Valid()
      modifies this`rspQ, slots, cache
      ensures Valid() && PoolInvariant.Keeps(old(View()), View())
      ensures View() == OnSubscribeDone(old(View()), h, err, attr, cookie, nowUs)
    {
      ghost var o := View();
      var r := DiscoveryLink(h, cookie);
      if r.Some? {
        SubscribeAckAt(r.value, err, attr, nowUs);
      }
      PoolInvariant.SubscribeDoneKeeps(o, h, err, attr, cookie, nowUs);
      Remains(o, View());
    }

    /** The same, once its link has been found. */
    method SubscribeAckAt(i: nat, err: Err, attr: Option<nat>, nowUs: int)
      requires Shaped() && i < POOL
      modifies this`rspQ, slots, cache
      ensures View() == Apply(old(View()), i, SubscribeDone(old(slots[i]), err, attr, nowUs), nowUs)
    {
      var l := slots[i];
      if !l.subscribing {
        PoolInvariant.InertReport(View(), i, nowUs);
        return;
      }
      if err != ErrOk || attr != Some(l.gatt.cccd) {
        DiscoveryFail(i, GattError, nowUs);
        return;
      }
      slots[i] := l.(subscribing := false, pending := false, ready := true);
      SetLinkState(l.bank, Up, nowUs);
      if l.txn.active && l.txn.req.kind == Connect {
        slots[i] := slots[i].(txn := l.txn.(active := false));
        Respond(l.bank, l.txn.req.cmdId, Ok, NoRecord);
      }
    }

    /** `on_dsc_disc` for the primary characteristic. */
    method PrimaryDsc(i: nat, err: Err, dsc: Option<Dsc>, rcDsc: Rc, rcSub: Rc, nowUs: int)
      requires Shaped() && i < POOL
      modifies this`rspQ, slots, cache
      ensures View() == Apply(old(View()), i,
                              PrimaryStep(old(slots[i]), err, dsc, rcDsc, rcSub, nowUs), nowUs)
    {
      ghost var o := View();
      var g := slots[i].gatt;
      if err != ErrOk && err != ErrDone {
        DiscoveryFail(i, GattError, nowUs);
        return;
      }
      if BadCccd(dsc, g.val, g.ffe1End, g.cccd) {
        DiscoveryFail(i, GattError, nowUs);
        return;
      }
      SetGatt(i, g.(cccd := NewCccd(dsc, g.cccd)));
      ghost var l := slots[i];
      assert View() == o.(slots := o.slots[i := l]);
      if err != ErrDone {
        PoolInvariant.InertReport(View(), i, nowUs);
        Overwrite(o, i, l, Quiet(l), nowUs);
      } else if slots[i].gatt.cccd == 0 {
        Overwrite(o, i, l, Links.DiscoveryFail(l, GattError, nowUs), nowUs);
        DiscoveryFail(i, GattError, nowUs);
      } else {
        Overwrite(o, i, l, SecondaryOrSubscribe(l, rcDsc, rcSub, nowUs), nowUs);
        SecondaryDescriptorsOrSubscribe(i, rcDsc, rcSub, nowUs);
      }
    }

    /** `on_dsc_disc` for the optional characteristic. */
    method OptionalDsc(i: nat, err: Err, dsc: Option<Dsc>, rcSub: Rc, nowUs: int)
      requires Shaped() && i < POOL
      modifies this`rspQ, slots, cache
      ensures View() == Apply(old(View()), i,
                              OptionalStep(old(slots[i]), err, dsc, rcSub, nowUs), nowUs)
    {
      ghost var o := View();
      var g := slots[i].gatt;
      if err == NullErr || err == ErrNotConn {
        DiscoveryFail(i, GattError, nowUs);
        return;
      }
      if err == ErrOther {
        SetGatt(i, g.(ffe2Cccd := 0));
        Overwrite(o, i, slots[i], Links.SubscriptionStart(slots[i], rcSub, nowUs), nowUs);
        SubscriptionStart(i, rcSub, nowUs);
        return;
      }
      if BadCccd(dsc, g.ffe2, g.ffe2End, g.ffe2Cccd) {
        DiscoveryFail(i, GattError, nowUs);
        return;
      }
      SetGatt(i, g.(ffe2Cccd := NewCccd(dsc, g.ffe2Cccd)));
      ghost var l := slots[i];
      assert View() == o.(slots := o.slots[i := l]);
      if err == ErrDone {
        Overwrite(o, i, l, Links.SubscriptionStart(l, rcSub, nowUs), nowUs);
        SubscriptionStart(i, rcSub, nowUs);
      } else {
        PoolInvariant.InertReport(View(), i, nowUs);
        Overwrite(o, i, l, Quiet(l), nowUs);
      }
    }

    /** `on_dsc_disc`: the search phase decides whose descriptor this is. */
    method DescriptorAt(i: nat, err: Err, chrVal: nat, dsc: Option<Dsc>, rcDsc: Rc, rcSub: Rc,
                        nowUs: int)
      requires Shaped() && i < POOL
      modifies this`rspQ, slots, cache
      ensures View() == Apply(old(View()), i, DescriptorStep(old(slots[i]), err, chrVal, dsc, rcDsc,
                                                             rcSub, nowUs), nowUs)
    {
      ghost var l := slots[i];
      ghost var goal := DescriptorStep(l, err, chrVal, dsc, rcDsc, rcSub, nowUs);
      var g := slots[i].gatt;
      if g.phase == DscFfe1 && chrVal == g.val {
        assert goal == PrimaryStep(l, err, dsc, rcDsc, rcSub, nowUs);
        PrimaryDsc(i, err, dsc, rcDsc, rcSub, nowUs);
      } else if g.phase == DscFfe2 && chrVal == g.ffe2 {
        assert goal == OptionalStep(l, err, dsc, rcSub, nowUs);
        OptionalDsc(i, err, dsc, rcSub, nowUs);
      } else {
        assert goal == Quiet(l);
        PoolInvariant.InertReport(View(), i, nowUs);
      }
    }

    method DescriptorFound(h: nat, err: Err, chrVal: nat, dsc: Option<Dsc>, cookie: nat,
                           rcDsc: Rc, rcSub: Rc, nowUs: int)
      requires Valid()
      modifies this`rspQ, slots, cache
      ensures Valid() && PoolInvariant.Keeps(old(View()), View())
      ensures View() == OnDscDisc(old(View()), h, err, chrVal, dsc, cookie, rcDsc, rcSub, nowUs)
    {
      ghost var o := View();
      var r := DiscoveryLink(h, cookie);
      if r.Some? {
        DescriptorAt(r.value, err, chrVal, dsc, rcDsc, rcSub, nowUs);
      }
      PoolInvariant.DscDiscKeeps(o, h, err, chrVal, dsc, cookie, rcDsc, rcSub, nowUs);
      Remains(o, View());
    }

    /** The table update of `on_chr_disc`. */
    method RecordChr(i: nat, c: Chr)
      requires Shaped() && i < POOL
      modifies slots
      ensures slots[..] == old(slots[..])[i := old(slots[i]).(gatt := AddChr(old(slots[i]).gatt, c))]
    {
      var g := slots[i].gatt;
      var end := g.serviceEnd;
      if g.val != 0 && c.def > g.val && c.def <= g.ffe1End {
        g := g.(ffe1End := c.def - 1);
      }
      if g.ffe2 != 0 && c.def > g.ffe2 && c.def <= g.ffe2End {
        g := g.(ffe2End := c.def - 1);
      }
      g := g.(lastChr := c.val, chars := g.chars + [c]);
      if c.uuid == Ffe2 {
        g := g.(ffe2 := c.val, ffe2Props := c.props, ffe2End := end);
      }
      if c.uuid == Ffe1 {
        g := g.(val := c.val, ffe1Props := c.props, ffe1End := end);
      }
      SetGatt(i, g);
    }

    /** `on_chr_disc`. */
    method CharacteristicFound(h: nat, err: Err, chr: Option<Chr>, cookie: nat, rc: Rc, nowUs: int)
      requires Valid()
      modifies this`rspQ, slots, cache
      ensures Valid() && PoolInvariant.Keeps(old(View()), View())
      ensures View() == OnChrDisc(old(View()), h, err, chr, cookie, rc, nowUs)
    {
      ghost var o := View();
      var r := DiscoveryLink(h, cookie);
      if r.Some? {
        CharacteristicAt(r.value, err, chr, rc, nowUs);
      }
      PoolInvariant.ChrDiscKeeps(o, h, err, chr, cookie, rc, nowUs);
      Remains(o, View());
    }

    /** The same, once its link has been found. */
    method CharacteristicAt(i: nat, err: Err, chr: Option<Chr>, rc: Rc, nowUs: int)
      requires Shaped() && i < POOL
      modifies this`rspQ, slots, cache
      ensures View() == Apply(old(View()), i, ChrStep(old(slots[i]), err, chr, rc, nowUs), nowUs)
    {
      ghost var o := View();
      if slots[i].gatt.phase != DscNone {
        PoolInvariant.InertReport(View(), i, nowUs);
        return;
      }
      if err != ErrOk && err != ErrDone {
        DiscoveryFail(i, GattError, nowUs);
        return;
      }
      if chr.Some? {
        var c, g := chr.value, slots[i].gatt;
        if c.def <= g.lastChr || c.val <= c.def || c.val > g.serviceEnd {
          DiscoveryFail(i, GattError, nowUs);
          return;
        }
        RecordChr(i, c);
      }
      assert View() == o.(slots := o.slots[i := slots[i]]);
      FinishChr(o, i, err, rc, nowUs);
    }

    /** The tail of `on_chr_disc`. */
    method FinishChr(ghost o: Owner, i: nat, err: Err, rc: Rc, nowUs: int)
      requires Shaped() && i < POOL && |o.slots| == POOL
      requires View() == o.(slots := o.slots[i := slots[i]])
      requires slots[i] == o.slots[i].(gatt := slots[i].gatt)
      modifies this`rspQ, slots, cache
      ensures View() == Apply(o, i, ChrTail(o.slots[i], old(slots[i]).gatt, err, rc, nowUs), nowUs)
    {
      if err != ErrDone {
        PoolInvariant.InertReport(View(), i, nowUs);
        Overwrite(o, i, slots[i], Quiet(slots[i]), nowUs);
        return;
      }
      if slots[i].gatt.val == 0 || slots[i].gatt.ffe1End <= slots[i].gatt.val {
        Overwrite(o, i, slots[i], Links.DiscoveryFail(slots[i], GattError, nowUs), nowUs);
        DiscoveryFail(i, GattError, nowUs);
        return;
      }
      SetGatt(i, slots[i].gatt.(phase := DscFfe1));
      ghost var l := slots[i];
      assert View() == o.(slots := o.slots[i := l]);
      if rc != RcOk {
        Overwrite(o, i, l, Links.DiscoveryFail(l, GattError, nowUs), nowUs);
        DiscoveryFail(i, GattError, nowUs);
      } else {
        PoolInvariant.InertReport(View(), i, nowUs);
        Overwrite(o, i, l, Quiet(l), nowUs);
      }
    }

    /** `on_svc_disc`. */
    method ServiceFound(h: nat, err: Err, svc: Option<Svc>, cookie: nat, rc: Rc, nowUs: int)
      requires Valid()
      modifies this`rspQ, slots, cache
      ensures Valid() && PoolInvariant.Keeps(old(View()), View())
      ensures View() == OnSvcDisc(old(View()), h, err, svc, cookie, rc, nowUs)
    {
      ghost var o := View();
      var r := DiscoveryLink(h, cookie);
      if r.Some? {
        ServiceAt(r.value, err, svc, rc, nowUs);
      }
      PoolInvariant.SvcDiscKeeps(o, h, err, svc, cookie, rc, nowUs);
      Remains(o, View());
    }

    /** The same, once its link has been found. */
    method ServiceAt(i: nat, err: Err, svc: Option<Svc>, rc: Rc, nowUs: int)
      requires Shaped() && i < POOL
      modifies this`rspQ, slots, cache
      ensures View() == Apply(old(View()), i, SvcStep(old(slots[i]), err, svc, rc, nowUs), nowUs)
    {
      ghost var o := View();
      var l := slots[i];
      PoolInvariant.InertReport(View(), i, nowUs);
      if err != ErrOk && err != ErrDone {
        DiscoveryFail(i, GattError, nowUs);
        return;
      }
      if svc.Some? && svc.value.jk {
        if l.gatt.serviceSeen {
          return;
        }
        if svc.value.first == 0 || svc.value.last <= svc.value.first {
          DiscoveryFail(i, GattError, nowUs);
          return;
        }
        SetGatt(i, l.gatt.(serviceSeen := true, serviceEnd := svc.value.last));
        ghost var l1 := slots[i];
        PoolInvariant.InertReport(View(), i, nowUs);
        Overwrite(o, i, l1, Quiet(l1), nowUs);
        Overwrite(o, i, l1, Links.DiscoveryFail(l1, GattError, nowUs), nowUs);
        if rc != RcOk {
          DiscoveryFail(i, GattError, nowUs);
        }
      } else if err == ErrDone && !l.gatt.serviceSeen {
        DiscoveryFail(i, GattError, nowUs);
      }
    }

    // ---- Connection lifecycle --------------------------------------------------------------

    /** `discovery_start` with the next generation token. */
    method DiscoveryStart(i: nat, rc: Rc, nowUs: int)
      requires Shaped() && i < POOL
      modifies this, slots, cache
      ensures Shaped()
      ensures var o := old(View()).(discCtr := NextCookie(old(discCtr)),
                                    generations := old(generations) + 1);
              View() == Apply(o, i, Links.DiscoveryStart(old(slots[i]), o.discCtr, rc, nowUs), nowUs)
    {
      discCtr := (discCtr + 1) % TWO_32;
      if discCtr == 0 {
        discCtr := discCtr + 1;
      }
      generations := generations + 1;
      ghost var o := View();
      var l := slots[i];
      slots[i] := l.(pending := true, subscribing := false, failed := false, ready := false,
                     cookie := discCtr,
                     gatt := l.gatt.(phase := DscNone, lastChr := 0, cccd := 0, ffe2Cccd := 0,
                                     serviceSeen := false));
      ghost var l1 := slots[i];
      PoolInvariant.InertReport(View(), i, nowUs);
      Overwrite(o, i, l1, Quiet(l1), nowUs);
      Overwrite(o, i, l1, Links.DiscoveryFail(l1, GattError, nowUs), nowUs);
      if rc != RcOk {
        DiscoveryFail(i, GattError, nowUs);
      }
    }

    /** The CONNECT branch of `gap_event`. */
    method Connected(arg: nat, handle: Option<nat>, rc: Rc, nowUs: int)
      requires Valid() && arg < POOL
      modifies this, slots, cache
      ensures Shaped() && View() == OnConnect(old(View()), arg, handle, rc, nowUs)
      ensures old(inflight) == Some(arg) ==> Valid() && PoolInvariant.Keeps(old(View()), View())
    {
      ghost var o := View();
      var l := slots[arg];
      var expected := inflight == Some(arg) && l.inUse && l.conn == 0;
      inflight := None;
      if expected {
        ConnectedAt(arg, handle, rc, nowUs);
      }
      assert View() == OnConnect(o, arg, handle, rc, nowUs);
      if o.inflight == Some(arg) {
        PoolInvariant.ConnectKeeps(o, arg, handle, rc, nowUs);
        Remains(o, View());
      }
    }

    /** The same, once the event is known to be the expected one. */
    method ConnectedAt(arg: nat, handle: Option<nat>, rc: Rc, nowUs: int)
      requires Shaped() && arg < POOL
      modifies this, slots, cache
      ensures Shaped()
      ensures var o := if handle.Some? then old(View()).(discCtr := NextCookie(old(discCtr)),
                                                         generations := old(generations) + 1)
                       else old(View());
              View() == Apply(o, arg, ConnectEvent(old(slots[arg]), handle, o.discCtr, rc, nowUs), nowUs)
    {
      var l := slots[arg];
      if handle.Some? {
        ghost var o := View().(discCtr := NextCookie(discCtr), generations := generations + 1);
        slots[arg] := l.(conn := handle.value);
        Overwrite(o, arg, slots[arg],
                  Links.DiscoveryStart(slots[arg], NextCookie(discCtr), rc, nowUs), nowUs);
        DiscoveryStart(arg, rc, nowUs);
      } else {
        SetLinkState(l.bank, Unreachable, nowUs);
        if l.txn.active {
          slots[arg] := l.(txn := l.txn.(active := false));
          Respond(l.bank, l.txn.req.cmdId, LinkDown, NoRecord);
        }
        slots[arg] := slots[arg].(inUse := false);
      }
    }

    /** The DISCONNECT branch of `gap_event`. */
    method Disconnected(h: nat, nowUs: int)
      requires Valid()
      modifies this`rspQ, slots, cache
      ensures Valid() && PoolInvariant.Keeps(old(View()), View())
      ensures View() == OnDisconnect(old(View()), h, nowUs)
    {
      ghost var o := View();
      var r := LinkByConn(h);
      if r.Some? {
        DisconnectedAt(r.value, nowUs);
      }
      PoolInvariant.DisconnectKeeps(o, h, nowUs);
      Remains(o, View());
    }

    /** The same, once its link has been found. */
    method DisconnectedAt(i: nat, nowUs: int)
      requires Shaped() && i < POOL
      modifies this`rspQ, slots, cache
      ensures View() == Apply(old(View()), i, DisconnectEvent(old(slots[i])), nowUs)
    {
      var l := slots[i];
      SetLinkState(l.bank, ReachableIdle, nowUs);
      if l.txn.active {
        slots[i] := l.(txn := l.txn.(active := false));
        Respond(l.bank, l.txn.req.cmdId, LinkDown, NoRecord);
      }
      slots[i] := slots[i].(inUse := false, pending := false, subscribing := false);
    }

    // ---- Transactions ---------------------------------------------------------------------------

    method CompletePollIfReady(i: nat, nowUs: int)
      requires Shaped() && i < POOL
      modifies this`rspQ, slots
      ensures View() == Apply(old(View()), i, CompletePoll(old(slots[i])), nowUs)
    {
      PoolInvariant.InertReport(View(), i, nowUs);
      var t := slots[i].txn;
      if t.active && t.req.kind == Poll && t.recordSeen && t.writeCookie == 0 {
        slots[i] := slots[i].(txn := t.(active := false));
        Respond(slots[i].bank, t.req.cmdId, Ok, t.want);
      }
    }

    /** The bookkeeping of `on_complete_frame`: the frame is noted, and may be the wanted one. */
    method Hear(i: nat, rec: Record, nowUs: int)
      requires Shaped() && i < POOL
      modifies slots, cache
      ensures slots[..] == old(slots[..])[i := Heard(old(slots[i]), rec)]
      ensures cache.units == Report(old(cache.units), old(slots[i]).bank, None, true, nowUs)
    {
      var l := slots[i];
      cache.NoteFrameAt(l.bank, nowUs);
      var t := l.txn;
      if rec == l.txn.want {
        t := t.(heard := true);
      }
      if l.txn.active && l.txn.req.kind == Poll && rec == l.txn.want {
        t := t.(recordSeen := true);
      }
      slots[i] := l.(txn := t);
    }

    /** `on_complete_frame`. */
    method CompleteFrame(i: nat, rec: Record, nowUs: int)
      requires Shaped() && i < POOL
      modifies this`rspQ, slots, cache
      ensures View() == Apply(old(View()), i, FrameDone(old(slots[i]), rec), nowUs)
    {
      ghost var o, l := View(), slots[i];
      var wanted := Wanted(slots[i], rec);
      Hear(i, rec, nowUs);
      ghost var l1 := Heard(l, rec);
      assert View() == o.(slots := o.slots[i := l1], rt := Report(o.rt, l.bank, None, true, nowUs));
      if wanted {
        Noted(o, i, l1, CompletePoll(l1), nowUs);
        CompletePollIfReady(i, nowUs);
      } else {
        Noted(o, i, l1, Quiet(l1), nowUs);
        PoolInvariant.InertReport(View(), i, nowUs);
      }
    }

    /** `on_notify`: reassemble the chunk and complete its frames in order. */
    method Notified(h: nat, data: seq<Byte>, nowUs: int)
      requires Valid()
      modifies this`rspQ, slots, cache
      ensures Valid() && PoolInvariant.Keeps(old(View()), View())
      ensures View() == OnNotify(old(View()), h, data, nowUs)
    {
      ghost var o := View();
      var r := LinkByConn(h);
      if r.Some? {
        NotifiedAt(r.value, data, nowUs);
      }
      PoolInvariant.NotifyKeeps(o, h, data, nowUs);
      Remains(o, View());
    }

    /** The same, once its link has been found. */
    method NotifiedAt(i: nat, data: seq<Byte>, nowUs: int)
      requires Shaped() && i < POOL
      modifies this`rspQ, slots, cache
      ensures View() == Apply(old(View()), i, NotifyChunk(old(slots[i]), data), nowUs)
    {
      ghost var o0 := View();
      var o := Feed(Out(slots[i].reasm, []), data);
      slots[i] := slots[i].(reasm := o.next);
      ghost var start := View();
      Overwrite(o0, i, slots[i], FramesDone(slots[i], o.frames), nowUs);
      FramesInTurn(start, i, o.frames, nowUs);
      var k := 0;
      while k < |o.frames|
        invariant 0 <= k <= |o.frames|
        invariant InTurn(View(), i, o.frames[k..], nowUs) == InTurn(start, i, o.frames, nowUs)
      {
        assert o.frames[k..][0] == o.frames[k] && o.frames[k..][1..] == o.frames[k + 1..];
        CompleteFrame(i, RecordOf(o.frames[k]), nowUs);
        k := k + 1;
      }
      assert o.frames[k..] == [];
    }

    /** `on_gatt_write_done`. */
    method WriteAck(h: nat, err: Err, attr: Option<nat>, cookie: nat, nowUs: int)
      requires Valid()
      modifies this`rspQ, slots, cache
      ensures Valid() && PoolInvariant.Keeps(old(View()), View())
      ensures View() == OnWriteDone(old(View()), h, err, attr, cookie, nowUs)
    {
      ghost var o := View();
      var r := LinkByConn(h);
      if r.Some? {
        WriteAckAt(r.value, err, attr, cookie, nowUs);
      }
      PoolInvariant.WriteDoneKeeps(o, h, err, attr, cookie, nowUs);
      Remains(o, View());
    }

    /** The acknowledgement of a Write Request, once its link has been found. */
    method WriteAckAt(i: nat, err: Err, attr: Option<nat>, cookie: nat, nowUs: int)
      requires Shaped() && i < POOL
      modifies this`rspQ, slots, cache
      ensures View() == Apply(old(View()), i, WriteDone(old(slots[i]), err, attr, cookie), nowUs)
    {
      ghost var o := View();
      var l := slots[i];
      if cookie == 0 || cookie != l.txn.writeCookie {
        PoolInvariant.InertReport(View(), i, nowUs);
        return;
      }
      var ok := err == ErrOk && attr == Some(l.txn.writeHandle);
      slots[i] := l.(txn := l.txn.(writeCookie := 0, acked := ok));
      ghost var l1 := slots[i];
      if !l.txn.active {
        PoolInvariant.InertReport(View(), i, nowUs);
        Overwrite(o, i, l1, Quiet(l1), nowUs);
      } else if !ok || l.txn.req.kind != Poll {
        var status := if ok then Ok else GattError;
        Overwrite(o, i, l1, Finish(l1, status, NoRecord), nowUs);
        FinishAt(i, status, nowUs);
      } else {
        Overwrite(o, i, l1, CompletePoll(l1), nowUs);
        CompletePollIfReady(i, nowUs);
      }
    }

    /** End the active transaction of a slot and report its status. */
    method FinishAt(i: nat, status: Status, nowUs: int)
      requires Shaped() && i < POOL
      modifies this`rspQ, slots
      ensures View() == Apply(old(View()), i, Finish(old(slots[i]), status, NoRecord), nowUs)
    {
      PoolInvariant.InertReport(View(), i, nowUs);
      var t := slots[i].txn;
      slots[i] := slots[i].(txn := t.(active := false));
      Respond(slots[i].bank, t.req.cmdId, status, NoRecord);
    }

    /** One slot of `sweep_timeouts`. */
    method SweepAt(i: nat, nowUs: int)
      requires Shaped() && i < POOL
      modifies this`rspQ, slots, cache
      ensures View() == Apply(old(View()), i, SweepSlot(old(slots[i]), nowUs), nowUs)
    {
      PoolInvariant.InertReport(View(), i, nowUs);
      var l := slots[i];
      if l.inUse && l.failed && nowUs >= l.retryUs {
        slots[i] := l.(retryUs := nowUs + RETRY_US);
      } else if l.inUse && l.txn.active && nowUs > l.txn.deadlineUs {
        if l.pending && l.txn.req.kind == Connect {
          DiscoveryFail(i, Timeout, nowUs);
        } else {
          slots[i] := l.(txn := l.txn.(active := false));
          Respond(l.bank, l.txn.req.cmdId, Timeout, NoRecord);
        }
      }
    }

    /** `sweep_timeouts`. */
    method SweepTimeouts(nowUs: int)
      requires Valid()
      modifies this`rspQ, slots, cache
      ensures Valid() && PoolInvariant.Keeps(old(View()), View())
      ensures View() == Sweep(old(View()), nowUs)
    {
      ghost var o := View();
      var i := 0;
      while i < POOL
        invariant 0 <= i <= POOL
        invariant Sweep(View(), nowUs, i) == Sweep(old(View()), nowUs)
      {
        SweepAt(i, nowUs);
        i := i + 1;
      }
      PoolInvariant.RadioKeeps(o, SweepDue, nowUs);
      Remains(o, View());
    }

    // ---- Requests -----------------------------------------------------------------------------------

    method Answer(req: Request, status: Status)
      requires Shaped()
      modifies this`rspQ
      ensures View() == Reply(old(View()), req, status)
    {
      Respond(req.bank, req.cmdId, status, NoRecord);
    }

    /** `start_connect`, with the request already in the slot. */
    method ConnectSlot(i: nat, req: Request, env: ExecEnv)
      requires Shaped() && i < POOL && slots[i].txn.req == req && slots[i].bank == req.bank
      modifies this, slots
      ensures Shaped()
      ensures View() == StartConnect(old(View()), i, old(slots[i]), req, env)
    {
      if !env.gateOpen {
        slots[i] := GiveBack(slots[i]);
        Answer(req, LinkDown);
        return;
      }
      if inflight.Some? || env.scanActive {
        slots[i] := GiveBack(slots[i]);
        Answer(req, ConnectWait);
        return;
      }
      inflight := Some(i);
      if env.rcConnect != RcOk {
        inflight := None;
        slots[i] := GiveBack(slots[i]);
        Answer(req, LinkDown);
      } else {
        assert slots[..] == old(slots[..])[i := slots[i]];
      }
    }

    /** The TXN_CONNECT branch of `exec_request`. */
    method ConnectRequest(req: Request, env: ExecEnv, nowUs: int)
      requires Shaped()
      modifies this, slots
      ensures Shaped() && View() == ExecConnect(old(View()), req, env, nowUs)
    {
      ghost var o := View();
      var r := LinkByBank(req.bank);
      if r.Some? {
        var l := slots[r.value];
        if l.pending || l.failed {
          Answer(req, LinkDown);
          return;
        }
        if l.ready {
          Answer(req, Ok);
          return;
        }
        if inflight == r {
          Answer(req, LinkDown);
          return;
        }
      } else {
        r := LinkAlloc(req.bank);
        if r.None? {
          Answer(req, LinkDown);
          return;
        }
      }
      var i := r.value;
      slots[i] := Install(slots[i], req, nowUs);
      ConnectSame(o, i, slots[i], req, env);
      assert View() == o.(slots := o.slots[i := slots[i]]);
      ConnectSlot(i, req, env);
    }

    static lemma ConnectSame(o: Owner, i: nat, l: Slot, req: Request, env: ExecEnv)
      requires i < |o.slots|
      ensures StartConnect(o.(slots := o.slots[i := l]), i, l, req, env)
              == StartConnect(o, i, l, req, env)
    {
      assert o.slots[i := l][i := GiveBack(l)] == o.slots[i := GiveBack(l)];
      assert o.slots[i := l][i := l] == o.slots[i := l];
    }

    /** `submit_write`. */
    method SubmitOn(i: nat, req: Request, handle: nat, useRequest: bool, want: Record, rc: Rc,
                    nowUs: int)
      requires Shaped() && i < POOL
      modifies this, slots, cache
      ensures Shaped()
      ensures View() == Submit(old(View()), i, req, handle, useRequest, want, rc, nowUs)
    {
      PoolInvariant.InertReport(View(), i, nowUs);
      if useRequest && writeCtr + 1 >= TWO_32 {
        Respond(req.bank, req.cmdId, Rejected, NoRecord);
        return;
      }
      if useRequest {
        writeCtr := writeCtr + 1;
      }
      var t := Txn(useRequest || req.kind == Poll, req, nowUs + req.timeoutMs * 1000, want, false,
                   if useRequest then writeCtr else 0, handle, useRequest, false, false);
      slots[i] := slots[i].(txn := t);
      if rc != RcOk {
        slots[i] := slots[i].(txn := slots[i].txn.(active := false, writeCookie := 0));
        Respond(req.bank, req.cmdId, GattError, NoRecord);
      } else if !slots[i].txn.active {
        Respond(req.bank, req.cmdId, Ok, NoRecord);
      }
    }

    /** The kind switch of `exec_request`, on a ready slot. */
    method RunOnLink(i: nat, req: Request, env: ExecEnv, nowUs: int)
      requires Shaped() && i < POOL
      modifies this, slots, cache
      ensures Shaped() && View() == ExecOnLink(old(View()), i, req, env, nowUs)
    {
      var g := slots[i].gatt;
      match req.kind {
        case Disconnect =>
          Answer(req, Ok);
        case Poll =>
          var want := Expected(req.opcode);
          if want == NoRecord {
            Answer(req, Rejected);
          } else {
            SubmitOn(i, req, g.val, Ffe1UsesRequest(g), want, env.rcWrite, nowUs);
          }
        case RawWrite =>
          var ffe2 := req.idx == 1 && g.ffe2 != 0;
          SubmitOn(i, req, if ffe2 then g.ffe2 else g.val,
                   if ffe2 then Ffe2UsesRequest(g) else Ffe1UsesRequest(g), NoRecord,
                   env.rcWrite, nowUs);
        case BalanceWrite =>
          SubmitOn(i, req, g.val, Ffe1UsesRequest(g), NoRecord, env.rcWrite, nowUs);
        case Connect =>
      }
    }

    /** `exec_request`. */
    method ExecRequest(req: Request, env: ExecEnv, nowUs: int)
      requires Valid()
      modifies this, slots, cache
      ensures Shaped() && View() == Exec(old(View()), req, env, nowUs)
      ensures PoolInvariant.PreExec(old(View()), req) ==>
                Valid() && PoolInvariant.Takes(old(View()), req, View())
    {
      if PoolInvariant.PreExec(View(), req) {
        PoolInvariant.ExecTakes(View(), req, env, nowUs);
      }
      var r := LinkByBank(req.bank);
      if req.idleOnly {
        if req.kind != Disconnect || req.source != Internal || req.bank >= |cache.units| ||
           !cache.units[req.bank].linkHeld || cache.units[req.bank].appConnected ||
           cache.units[req.bank].idleEpoch != req.idleEpoch {
          Answer(req, Rejected);
          return;
        }
      }
      if r.Some? && slots[r.value].ready &&
         (slots[r.value].txn.active ||
          (slots[r.value].txn.writeCookie != 0 && req.kind != Disconnect)) {
        Answer(req, Rejected);
        return;
      }
      if req.kind == Connect {
        ConnectRequest(req, env, nowUs);
        return;
      }
      if r.None? || !slots[r.value].ready || slots[r.value].gatt.val == 0 {
        Answer(req, LinkDown);
        return;
      }
      RunOnLink(r.value, req, env, nowUs);
    }
  }
}
