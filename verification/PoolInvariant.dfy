/**
 What every critical section of the BLE owner keeps: one slot per bank, each slot in exactly one
 phase, a cache that reports a link as held exactly while a ready slot exists, and the operations
 it was given, each either held by a slot or answered once.
 */
module PoolInvariant {
  import opened Prelude
  import opened JkFrame
  import opened NodeATypes
  import opened StateCache
  import opened Links
  import opened LinkPool
  import opened Reassembly

  predicate GoodSlot(l: Slot, inflight: bool, units: nat) {
    SlotOk(l, inflight) && DiscoveryOk(l, inflight) && l.bank < units
  }

  ghost predicate SlotsOk(slots: seq<Slot>, inflight: Option<nat>, units: nat) {
    && |slots| == POOL
    && (inflight.Some? ==> inflight.value < POOL && slots[inflight.value].inUse)
    && (forall i :: 0 <= i < |slots| && slots[i].inUse ==>
                      GoodSlot(slots[i], inflight == Some(i), units))
  }

  ghost predicate OneSlotPerBank(slots: seq<Slot>) {
    forall i, j :: 0 <= i < j < |slots| && slots[i].inUse && slots[j].inUse ==>
                     slots[i].bank != slots[j].bank
  }

  ghost predicate ReadyBank(slots: seq<Slot>, b: nat) {
    exists i :: 0 <= i < |slots| && Ready(slots[i]) && slots[i].bank == b
  }

  /** A held link is a link reported up is a ready slot. */
  ghost predicate CacheOk(slots: seq<Slot>, rt: seq<Runtime>) {
    forall b :: 0 <= b < |rt| ==> RuntimeOk(rt[b]) && (rt[b].linkHeld <==> ReadyBank(slots, b))
  }

  ghost predicate PoolInv(o: Owner) {
    && SlotsOk(o.slots, o.inflight, |o.rt|)
    && OneSlotPerBank(o.slots)
    && CacheOk(o.slots, o.rt)
    && (o.generations < TWO_32 ==> o.discCtr == o.generations)
  }

  // ---- What only grows ----------------------------------------------------------------------

  /** A write token of `l'` was there before, or is newer than `w`. */
  predicate WriteFence(l: Slot, l': Slot, w: nat) {
    l'.inUse ==>
      || l'.txn.writeCookie == 0
      || (l.inUse && l.txn.writeCookie == l'.txn.writeCookie)
      || l'.txn.writeCookie > w
  }

  /** A live discovery generation of `l'` was live before, or is newer than `c`. */
  predicate GenerationFence(l: Slot, l': Slot, c: nat) {
    l'.inUse && l'.pending ==>
      (l.inUse && l.pending && l.cookie == l'.cookie) || l'.cookie > c
  }

  /** Counters and edges only grow, and every token in use is old or newer than all before. */
  ghost predicate Evolves(o: Owner, o': Owner) {
    && |o'.slots| == |o.slots| && |o'.rt| == |o.rt|
    && o.writeCtr <= o'.writeCtr
    && o.generations <= o'.generations
    && (forall i :: 0 <= i < |o.slots| ==> WriteFence(o.slots[i], o'.slots[i], o.writeCtr))
    && (o'.generations < TWO_32 ==>
          forall i :: 0 <= i < |o.slots| ==>
                        GenerationFence(o.slots[i], o'.slots[i], o.generations))
    && (forall b :: 0 <= b < |o.rt| ==> Advances(o.rt[b], o'.rt[b]))
  }

  lemma EvolvesTransitive(o: Owner, o1: Owner, o2: Owner)
    requires Evolves(o, o1) && Evolves(o1, o2)
    ensures Evolves(o, o2)
  {
    forall i | 0 <= i < |o.slots| ensures WriteFence(o.slots[i], o2.slots[i], o.writeCtr) {
      assert WriteFence(o.slots[i], o1.slots[i], o.writeCtr);
      assert WriteFence(o1.slots[i], o2.slots[i], o1.writeCtr);
    }
    if o2.generations < TWO_32 {
      forall i | 0 <= i < |o.slots|
        ensures GenerationFence(o.slots[i], o2.slots[i], o.generations)
      {
        assert GenerationFence(o.slots[i], o1.slots[i], o.generations);
        assert GenerationFence(o1.slots[i], o2.slots[i], o1.generations);
      }
    }
    forall b | 0 <= b < |o.rt| ensures Advances(o.rt[b], o2.rt[b]) {
      assert Advances(o.rt[b], o1.rt[b]) && Advances(o1.rt[b], o2.rt[b]);
    }
  }

  lemma ReportAdvances(rt: seq<Runtime>, b: nat, link: Option<LinkState>, noted: bool, nowUs: int)
    requires forall k :: 0 <= k < |rt| ==> RuntimeOk(rt[k])
    ensures forall k :: 0 <= k < |rt| ==> Advances(rt[k], Report(rt, b, link, noted, nowUs)[k])
  {
    if b < |rt| && link.Some? {
      UpdateKeeps(rt[b], LinkUpdate(link.value, nowUs));
    }
  }

  lemma ReplaceEvolves(o: Owner, i: nat, e: Effect, o': Owner, nowUs: int)
    requires CacheOk(o.slots, o.rt) && i < |o.slots|
    requires o'.slots == o.slots[i := e.slot]
    requires o'.rt == Report(o.rt, e.slot.bank, e.link, e.noted, nowUs)
    requires o.writeCtr <= o'.writeCtr && o.generations <= o'.generations
    requires WriteFence(o.slots[i], e.slot, o.writeCtr)
    requires o'.generations < TWO_32 ==> GenerationFence(o.slots[i], e.slot, o.generations)
    ensures Evolves(o, o')
  {
    ReportAdvances(o.rt, e.slot.bank, e.link, e.noted, nowUs);
  }

  // ---- Replacing one slot ---------------------------------------------------------------

  /** No other slot belongs to the bank of the slot being replaced. */
  ghost predicate Alone(slots: seq<Slot>, i: nat, bank: nat) {
    forall j :: 0 <= j < |slots| && j != i && slots[j].inUse ==> slots[j].bank != bank
  }

  lemma AloneInUse(slots: seq<Slot>, i: nat)
    requires OneSlotPerBank(slots) && i < |slots| && slots[i].inUse
    ensures Alone(slots, i, slots[i].bank)
  {
  }

  lemma ReplaceReady(slots: seq<Slot>, i: nat, l: Slot, b: nat)
    requires i < |slots| && Alone(slots, i, l.bank)
    requires slots[i].inUse ==> slots[i].bank == l.bank
    ensures b != l.bank ==> ReadyBank(slots[i := l], b) == ReadyBank(slots, b)
    ensures ReadyBank(slots[i := l], l.bank) == Ready(l)
    ensures ReadyBank(slots, l.bank) == Ready(slots[i]) || !slots[i].inUse
  {
    var slots' := slots[i := l];
    if b != l.bank {
      if ReadyBank(slots, b) {
        var j :| 0 <= j < |slots| && Ready(slots[j]) && slots[j].bank == b;
        assert slots'[j] == slots[j];
      }
      if ReadyBank(slots', b) {
        var j :| 0 <= j < |slots'| && Ready(slots'[j]) && slots'[j].bank == b;
        assert slots'[j] == slots[j];
      }
    }
    if Ready(l) {
      assert slots'[i] == l;
    }
    if Ready(slots[i]) {
      assert ReadyBank(slots, slots[i].bank);
    }
  }

  lemma ReportOk(rt: Runtime, link: Option<LinkState>, noted: bool, nowUs: int)
    requires RuntimeOk(rt)
    ensures RuntimeOk(Report([rt], 0, link, noted, nowUs)[0])
    ensures Report([rt], 0, link, noted, nowUs)[0].linkHeld
            == if link.Some? then link.value == Up else rt.linkHeld
  {
    if link.Some? {
      UpdateKeeps(rt, LinkUpdate(link.value, nowUs));
    }
  }

  lemma ReplaceCache(slots: seq<Slot>, rt: seq<Runtime>, i: nat, l: Slot, link: Option<LinkState>,
                     noted: bool, nowUs: int)
    requires CacheOk(slots, rt) && i < |slots| && Alone(slots, i, l.bank)
    requires slots[i].inUse ==> slots[i].bank == l.bank
    requires Ready(l) == if link.Some? then link.value == Up else Ready(slots[i])
    requires link.Some? ==> slots[i].inUse
    ensures CacheOk(slots[i := l], Report(rt, l.bank, link, noted, nowUs))
  {
    var rt' := Report(rt, l.bank, link, noted, nowUs);
    forall b | 0 <= b < |rt'|
      ensures RuntimeOk(rt'[b]) && (rt'[b].linkHeld <==> ReadyBank(slots[i := l], b))
    {
      ReplaceReady(slots, i, l, b);
      if b == l.bank {
        ReportOk(rt[b], link, noted, nowUs);
        assert Report([rt[b]], 0, link, noted, nowUs)[0] == rt'[b];
        if !slots[i].inUse {
          assert !ReadyBank(slots, b);
        }
      }
    }
  }

  /** The invariant after slot `i` has been replaced and the connect in flight updated. */
  lemma ReplaceInv(o: Owner, i: nat, e: Effect, inflight: Option<nat>, o': Owner, nowUs: int)
    requires PoolInv(o) && i < POOL && Alone(o.slots, i, e.slot.bank) && e.slot.bank < |o.rt|
    requires o.slots[i].inUse ==> o.slots[i].bank == e.slot.bank
    requires Ready(e.slot) == if e.link.Some? then e.link.value == Up else Ready(o.slots[i])
    requires e.link.Some? ==> o.slots[i].inUse
    requires e.slot.inUse ==> GoodSlot(e.slot, inflight == Some(i), |o.rt|)
    requires inflight == o.inflight || inflight == Some(i) || inflight == None
    requires o.inflight.Some? && o.inflight != Some(i) ==> inflight == o.inflight
    requires inflight == Some(i) ==> e.slot.inUse
    requires o'.generations < TWO_32 ==> o'.discCtr == o'.generations
    requires o'.slots == o.slots[i := e.slot] && o'.inflight == inflight
    requires o'.rt == Report(o.rt, e.slot.bank, e.link, e.noted, nowUs)
    ensures PoolInv(o')
  {
    ReplaceCache(o.slots, o.rt, i, e.slot, e.link, e.noted, nowUs);
  }

  /** `ReplaceInv` for the effect of a callback or deadline on the slot it found. */
  lemma SoundInv(o: Owner, i: nat, e: Effect, nowUs: int)
    requires PoolInv(o) && i < POOL && o.slots[i].inUse
    requires Sound(o.slots[i], e, o.inflight == Some(i))
    requires e.slot.inUse ==> DiscoveryOk(e.slot, o.inflight == Some(i))
    requires o.inflight == Some(i) ==> e.slot.inUse
    ensures PoolInv(Apply(o, i, e, nowUs))
  {
    AloneInUse(o.slots, i);
    ReplaceInv(o, i, e, o.inflight, Apply(o, i, e, nowUs), nowUs);
  }

  // ---- Tokens -----------------------------------------------------------------------------

  function SlotTokens(l: Slot): multiset<Token> {
    if Holds(l) then multiset{Token(l.bank, l.txn.req.cmdId)} else multiset{}
  }

  function PoolTokens(slots: seq<Slot>): multiset<Token> {
    if slots == [] then multiset{} else SlotTokens(slots[0]) + PoolTokens(slots[1..])
  }

  /** Every operation the owner is responsible for: held by a slot, or answered and in the queue. */
  function OwnerTokens(o: Owner): multiset<Token> {
    PoolTokens(o.slots) + ResponseTokens(o.rspQ)
  }

  /** Adding the same tokens on both sides. */
  lemma Common(h: multiset<Token>, a: multiset<Token>, s: multiset<Token>, b: multiset<Token>,
               l: multiset<Token>)
    requires a + s == b + l
    ensures h + a + s == h + b + l
  {
    forall x ensures (h + a + s)[x] == (h + b + l)[x] {
      assert (a + s)[x] == (b + l)[x];
    }
  }

  lemma Extra(p: multiset<Token>, r: multiset<Token>, t: multiset<Token>)
    ensures p + t + r == p + r + t
    ensures p + (r + t) == p + r + t
  {
  }

  /** Tokens `t` that leave a slot for the queue keep the total. */
  lemma Move(p': multiset<Token>, s: multiset<Token>, p: multiset<Token>, l: multiset<Token>,
             r: multiset<Token>, t: multiset<Token>)
    requires p' + s == p + l && s == l + t
    ensures p' + (r + t) == p + r
  {
    forall x ensures (p' + (r + t))[x] == (p + r)[x] {
      assert (p' + s)[x] == (p + l)[x];
    }
  }

  lemma {:induction false} PoolTokensReplace(slots: seq<Slot>, i: nat, l: Slot)
    requires i < |slots|
    ensures PoolTokens(slots[i := l]) + SlotTokens(slots[i]) == PoolTokens(slots) + SlotTokens(l)
  {
    if i > 0 {
      PoolTokensReplace(slots[1..], i - 1, l);
      assert slots[i := l][1..] == slots[1..][i - 1 := l];
      Common(SlotTokens(slots[0]), PoolTokens(slots[1..][i - 1 := l]), SlotTokens(slots[i]),
             PoolTokens(slots[1..]), SlotTokens(l));
    } else {
      assert slots[0 := l][1..] == slots[1..];
    }
  }

  /** Giving an idle slot an operation adds its token. */
  lemma PoolTokensAdd(slots: seq<Slot>, i: nat, l: Slot)
    requires i < |slots| && !Holds(slots[i])
    ensures PoolTokens(slots[i := l]) == PoolTokens(slots) + SlotTokens(l)
  {
    PoolTokensReplace(slots, i, l);
    assert SlotTokens(slots[i]) == multiset{};
  }

  lemma {:induction false} PoolTokensHas(slots: seq<Slot>, i: nat)
    requires i < |slots|
    ensures SlotTokens(slots[i]) <= PoolTokens(slots)
  {
    if i > 0 {
      PoolTokensHas(slots[1..], i - 1);
    }
  }

  lemma OneResponse(q: seq<Response>, r: Response)
    requires |q| < QUEUE_DEPTH
    ensures Respond(q, [r]) == q + [r]
    ensures ResponseTokens(Respond(q, [r])) == ResponseTokens(q) + multiset{ResponseToken(r)}
  {
    assert [r][1..] == [];
    ResponseTokensAppend(q, r);
  }

  /** A slot that holds an operation leaves room in the response queue to answer it. */
  lemma RoomToAnswer(o: Owner, i: nat)
    requires i < |o.slots| && Holds(o.slots[i]) && |OwnerTokens(o)| <= QUEUE_DEPTH
    ensures |o.rspQ| < QUEUE_DEPTH
  {
    PoolTokensHas(o.slots, i);
    ResponseTokensSize(o.rspQ);
    assert |PoolTokens(o.slots)| >= 1;
  }

  lemma ConservesTokens(l: Slot, e: Effect)
    requires e.slot.bank == l.bank && Conserves(l, e)
    ensures SlotTokens(l) == SlotTokens(e.slot) + ResponseTokens(e.rsps)
    ensures |e.rsps| <= 1 && (e.rsps != [] ==> Holds(l))
  {
    if e.rsps != [] {
      assert e.rsps[1..] == [];
    }
  }

  lemma RespondTokens(q: seq<Response>, rs: seq<Response>)
    requires |rs| <= 1 && |q| + |rs| <= QUEUE_DEPTH
    ensures ResponseTokens(Respond(q, rs)) == ResponseTokens(q) + ResponseTokens(rs)
  {
    if rs != [] {
      assert rs == [rs[0]];
      OneResponse(q, rs[0]);
      OneResponse([], rs[0]);
    } else {
      assert rs == [];
    }
  }

  /** A callback or deadline moves tokens, and neither makes nor loses one. */
  lemma SoundConserves(o: Owner, i: nat, e: Effect, nowUs: int)
    requires i < |o.slots| && |OwnerTokens(o)| <= QUEUE_DEPTH
    requires e.slot.bank == o.slots[i].bank && Conserves(o.slots[i], e)
    ensures OwnerTokens(Apply(o, i, e, nowUs)) == OwnerTokens(o)
  {
    ConservesTokens(o.slots[i], e);
    ResponseTokensSize(o.rspQ);
    if e.rsps != [] {
      RoomToAnswer(o, i);
    }
    RespondTokens(o.rspQ, e.rsps);
    PoolTokensReplace(o.slots, i, e.slot);
    Move(PoolTokens(o.slots[i := e.slot]), SlotTokens(o.slots[i]), PoolTokens(o.slots),
         SlotTokens(e.slot), ResponseTokens(o.rspQ), ResponseTokens(e.rsps));
  }

  /** What a critical section of the owner guarantees. */
  ghost predicate Keeps(o: Owner, o': Owner) {
    PoolInv(o') && Evolves(o, o') && OwnerTokens(o') == OwnerTokens(o)
  }

  ghost predicate Pre(o: Owner) { PoolInv(o) && |OwnerTokens(o)| <= QUEUE_DEPTH }

  lemma SoundKeeps(o: Owner, i: nat, e: Effect, nowUs: int)
    requires Pre(o) && i < POOL && o.slots[i].inUse
    requires Sound(o.slots[i], e, o.inflight == Some(i))
    requires e.slot.inUse ==> DiscoveryOk(e.slot, o.inflight == Some(i))
    requires o.inflight == Some(i) ==> e.slot.inUse
    requires KeepsCookie(o.slots[i], e)
    ensures Keeps(o, Apply(o, i, e, nowUs))
  {
    SoundInv(o, i, e, nowUs);
    ReplaceEvolves(o, i, e, Apply(o, i, e, nowUs), nowUs);
    SoundConserves(o, i, e, nowUs);
  }

  // ---- Host callbacks ---------------------------------------------------------------------

  lemma InSlot(o: Owner, i: nat)
    requires PoolInv(o) && i < POOL && o.slots[i].inUse
    ensures GoodSlot(o.slots[i], o.inflight == Some(i), |o.rt|)
    ensures Connected(o.slots[i]) ==> o.inflight != Some(i)
  {
  }

  lemma SvcDiscKeeps(o: Owner, h: nat, err: Err, svc: Option<Svc>, cookie: nat, rc: Rc, nowUs: int)
    requires Pre(o)
    ensures Keeps(o, OnSvcDisc(o, h, err, svc, cookie, rc, nowUs))
  {
    var r := if cookie == 0 then None else ByCookie(o.slots, h, cookie);
    if r.Some? {
      var l := o.slots[r.value];
      InSlot(o, r.value);
      SvcSound(l, err, svc, rc, nowUs);
      SvcTable(l, err, svc, rc, nowUs);
      SoundKeeps(o, r.value, SvcStep(l, err, svc, rc, nowUs), nowUs);
    }
  }

  lemma ChrDiscKeeps(o: Owner, h: nat, err: Err, chr: Option<Chr>, cookie: nat, rc: Rc, nowUs: int)
    requires Pre(o)
    ensures Keeps(o, OnChrDisc(o, h, err, chr, cookie, rc, nowUs))
  {
    var r := if cookie == 0 then None else ByCookie(o.slots, h, cookie);
    if r.Some? {
      var l := o.slots[r.value];
      InSlot(o, r.value);
      ChrSound(l, err, chr, rc, nowUs);
      ChrTable(l, err, chr, rc, nowUs);
      SoundKeeps(o, r.value, ChrStep(l, err, chr, rc, nowUs), nowUs);
    }
  }

  lemma DscDiscKeeps(o: Owner, h: nat, err: Err, chrVal: nat, dsc: Option<Dsc>, cookie: nat,
                     rcDsc: Rc, rcSub: Rc, nowUs: int)
    requires Pre(o)
    ensures Keeps(o, OnDscDisc(o, h, err, chrVal, dsc, cookie, rcDsc, rcSub, nowUs))
  {
    var r := if cookie == 0 then None else ByCookie(o.slots, h, cookie);
    if r.Some? {
      var l := o.slots[r.value];
      InSlot(o, r.value);
      DescriptorSound(l, err, chrVal, dsc, rcDsc, rcSub, nowUs);
      DescriptorTable(l, err, chrVal, dsc, rcDsc, rcSub, nowUs);
      SoundKeeps(o, r.value, DescriptorStep(l, err, chrVal, dsc, rcDsc, rcSub, nowUs), nowUs);
    }
  }

  lemma SubscribeDoneKeeps(o: Owner, h: nat, err: Err, attr: Option<nat>, cookie: nat, nowUs: int)
    requires Pre(o)
    ensures Keeps(o, OnSubscribeDone(o, h, err, attr, cookie, nowUs))
  {
    var r := if cookie == 0 then None else ByCookie(o.slots, h, cookie);
    if r.Some? {
      var l := o.slots[r.value];
      InSlot(o, r.value);
      SubscribeDoneSound(l, err, attr, nowUs);
      SubscribeDoneTable(l, err, attr, nowUs);
      SoundKeeps(o, r.value, SubscribeDone(l, err, attr, nowUs), nowUs);
    }
  }

  lemma DisconnectKeeps(o: Owner, h: nat, nowUs: int)
    requires Pre(o)
    ensures Keeps(o, OnDisconnect(o, h, nowUs))
  {
    var r := ByConn(o.slots, h);
    if r.Some? {
      InSlot(o, r.value);
      DisconnectSound(o.slots[r.value]);
      SoundKeeps(o, r.value, DisconnectEvent(o.slots[r.value]), nowUs);
    }
  }

  lemma NotifyKeeps(o: Owner, h: nat, data: seq<Byte>, nowUs: int)
    requires Pre(o)
    ensures Keeps(o, OnNotify(o, h, data, nowUs))
  {
    var r := ByConn(o.slots, h);
    if r.Some? {
      var l := o.slots[r.value];
      InSlot(o, r.value);
      NotifySound(l, data);
      NotifyTable(l, data);
      SoundKeeps(o, r.value, NotifyChunk(l, data), nowUs);
    }
  }

  lemma WriteDoneKeeps(o: Owner, h: nat, err: Err, attr: Option<nat>, cookie: nat, nowUs: int)
    requires Pre(o)
    ensures Keeps(o, OnWriteDone(o, h, err, attr, cookie, nowUs))
  {
    var r := ByConn(o.slots, h);
    if r.Some? {
      var l := o.slots[r.value];
      InSlot(o, r.value);
      WriteDoneSound(l, err, attr, cookie);
      SoundKeeps(o, r.value, WriteDone(l, err, attr, cookie), nowUs);
    }
  }

  lemma HeardTable(l: Slot, rec: Record)
    requires DiscoveryOk(l, false)
    ensures DiscoveryOk(Heard(l, rec), false)
  {
  }

  lemma CompletePollTable(l: Slot)
    requires DiscoveryOk(l, false)
    ensures DiscoveryOk(CompletePoll(l).slot, false)
  {
  }

  lemma FrameTable(l: Slot, rec: Record)
    requires DiscoveryOk(l, false)
    ensures DiscoveryOk(FrameDone(l, rec).slot, false)
  {
    HeardTable(l, rec);
    var l1 := Heard(l, rec);
    if Wanted(l, rec) {
      CompletePollTable(l1);
    } else {
      assert Quiet(l1).slot == l1;
    }
  }

  /** Frames never touch what discovery established. */
  lemma {:induction false} FramesTable(l: Slot, frames: seq<seq<Byte>>)
    requires DiscoveryOk(l, false)
    ensures DiscoveryOk(FramesDone(l, frames).slot, false)
    decreases |frames|
  {
    if frames != [] {
      FrameTable(l, RecordOf(frames[0]));
      FramesTable(FrameDone(l, RecordOf(frames[0])).slot, frames[1..]);
    }
  }

  lemma NotifyTable(l: Slot, data: seq<Byte>)
    requires DiscoveryOk(l, false)
    ensures DiscoveryOk(NotifyChunk(l, data).slot, false)
  {
    var o := Feed(Out(l.reasm, []), data);
    FramesTable(l.(reasm := o.next), o.frames);
  }

  /** A CONNECT event for the connect in flight. */
  lemma ConnectKeeps(o: Owner, arg: nat, handle: Option<nat>, rc: Rc, nowUs: int)
    requires Pre(o) && arg < POOL && o.inflight == Some(arg)
    ensures Keeps(o, OnConnect(o, arg, handle, rc, nowUs))
  {
    var l := o.slots[arg];
    InSlot(o, arg);
    var o' := OnConnect(o, arg, handle, rc, nowUs);
    var e := ConnectEvent(l, handle, o'.discCtr, rc, nowUs);
    ConnectSound(l, handle, o'.discCtr, rc, nowUs);
    ConnectTable(l, handle, o'.discCtr, rc, nowUs);
    AloneInUse(o.slots, arg);
    ReplaceInv(o, arg, e, None, o', nowUs);
    ReplaceEvolves(o, arg, e, o', nowUs);
    SoundConserves(o.(inflight := None, discCtr := o'.discCtr, generations := o'.generations),
                   arg, e, nowUs);
  }

  lemma SweepOneKeeps(o: Owner, nowUs: int, i: nat)
    requires Pre(o) && i < POOL
    ensures Keeps(o, Apply(o, i, SweepSlot(o.slots[i], nowUs), nowUs))
  {
    var l := o.slots[i];
    if l.inUse {
      InSlot(o, i);
      SweepSound(l, nowUs, o.inflight == Some(i));
      SweepTable(l, nowUs, o.inflight == Some(i));
      SoundKeeps(o, i, SweepSlot(l, nowUs), nowUs);
    } else {
      assert o.slots[i := l] == o.slots;
      assert Report(o.rt, l.bank, None, false, nowUs) == o.rt;
      ReplaceEvolves(o, i, Quiet(l), o, nowUs);
    }
  }

  lemma {:induction false} SweepKeeps(o: Owner, nowUs: int, i: nat)
    requires Pre(o) && i <= POOL
    ensures Keeps(o, Sweep(o, nowUs, i))
    decreases POOL - i
  {
    if i < POOL {
      SweepOneKeeps(o, nowUs, i);
      var o1 := Apply(o, i, SweepSlot(o.slots[i], nowUs), nowUs);
      SweepKeeps(o1, nowUs, i + 1);
      EvolvesTransitive(o, o1, Sweep(o1, nowUs, i + 1));
    } else {
      Unchanged(o);
    }
  }

  lemma Unchanged(o: Owner)
    ensures Evolves(o, o)
  {
  }

  lemma SweepTable(l: Slot, nowUs: int, inflight: bool)
    requires l.inUse && PhaseOk(l, inflight) && DiscoveryOk(l, inflight)
    ensures DiscoveryOk(SweepSlot(l, nowUs).slot, inflight)
  {
  }

  /** Every event of the radio side keeps the owner's promises. */
  lemma RadioKeeps(o: Owner, e: Radio, nowUs: int)
    requires Pre(o) && RadioEnabled(o, e)
    ensures Keeps(o, OnRadio(o, e, nowUs))
  {
    if e.SweepDue? || e.GapConnect? || e.GapDisconnect? || e.GapNotify? {
      GapKeeps(o, e, nowUs);
    } else {
      GattKeeps(o, e, nowUs);
    }
  }

  lemma GapKeeps(o: Owner, e: Radio, nowUs: int)
    requires Pre(o) && RadioEnabled(o, e)
    requires e.SweepDue? || e.GapConnect? || e.GapDisconnect? || e.GapNotify?
    ensures Keeps(o, OnRadio(o, e, nowUs))
  {
    match e {
      case SweepDue => SweepKeeps(o, nowUs, 0);
      case GapConnect(i, h, rc) => ConnectKeeps(o, i, h, rc, nowUs);
      case GapDisconnect(h) => DisconnectKeeps(o, h, nowUs);
      case GapNotify(h, data) => NotifyKeeps(o, h, data, nowUs);
    }
  }

  lemma GattKeeps(o: Owner, e: Radio, nowUs: int)
    requires Pre(o)
    requires e.GattSvc? || e.GattChr? || e.GattDsc? || e.GattSubscribed? || e.GattWritten?
    ensures Keeps(o, OnRadio(o, e, nowUs))
  {
    match e {
      case GattSvc(h, err, svc, c, rc) => SvcDiscKeeps(o, h, err, svc, c, rc, nowUs);
      case GattChr(h, err, chr, c, rc) => ChrDiscKeeps(o, h, err, chr, c, rc, nowUs);
      case GattDsc(h, err, v, dsc, c, rc1, rc2) =>
        DscDiscKeeps(o, h, err, v, dsc, c, rc1, rc2, nowUs);
      case GattSubscribed(h, err, attr, c) => SubscribeDoneKeeps(o, h, err, attr, c, nowUs);
      case GattWritten(h, err, attr, c) => WriteDoneKeeps(o, h, err, attr, c, nowUs);
    }
  }

  // ---- Requests ------------------------------------------------------------------------------

  /** A request becomes one more operation of the owner, held or answered. */
  ghost predicate Takes(o: Owner, req: Request, o': Owner) {
    && PoolInv(o')
    && Evolves(o, o')
    && OwnerTokens(o') == OwnerTokens(o) + multiset{RequestToken(req)}
  }

  ghost predicate PreExec(o: Owner, req: Request) {
    PoolInv(o) && |OwnerTokens(o)| < QUEUE_DEPTH && req.bank < |o.rt|
  }

  lemma ReplyTakes(o: Owner, req: Request, status: Status)
    requires PreExec(o, req)
    ensures Takes(o, req, Reply(o, req, status))
  {
    ResponseTokensSize(o.rspQ);
    OneResponse(o.rspQ, Response(req.bank, req.cmdId, status, NoRecord));
    Unchanged(o);
  }

  /** A fresh slot becomes the connect in flight and holds the request. */
  lemma HoldTakes(o: Owner, i: nat, req: Request, l: Slot, nowUs: int)
    requires PreExec(o, req) && req.kind == Connect && i < POOL && !o.slots[i].inUse
    requires ByBank(o.slots, req.bank).None? && o.inflight.None?
    requires l == Install(FreshSlot(req.bank), req, nowUs)
    ensures Takes(o, req, o.(slots := o.slots[i := l], inflight := Some(i)))
  {
    var o' := o.(slots := o.slots[i := l], inflight := Some(i));
    ReplaceInv(o, i, Quiet(l), Some(i), o', nowUs);
    ReplaceEvolves(o, i, Quiet(l), o', nowUs);
    PoolTokensAdd(o.slots, i, l);
    Extra(PoolTokens(o.slots), ResponseTokens(o.rspQ), SlotTokens(l));
  }

  /** A fresh slot is given back at once, with an answer. */
  lemma FreeTakes(o: Owner, i: nat, req: Request, l: Slot, status: Status, nowUs: int)
    requires PreExec(o, req) && i < POOL && !o.slots[i].inUse && !l.inUse && l.bank == req.bank
    requires ByBank(o.slots, req.bank).None?
    ensures Takes(o, req, Reply(o.(slots := o.slots[i := l]), req, status))
  {
    var o1 := o.(slots := o.slots[i := l]);
    ReplaceInv(o, i, Quiet(l), o.inflight, o1, nowUs);
    ReplaceEvolves(o, i, Quiet(l), o1, nowUs);
    PoolTokensAdd(o.slots, i, l);
    assert OwnerTokens(o1) == OwnerTokens(o);
    ReplyTakes(o1, req, status);
    EvolvesTransitive(o, o1, Reply(o1, req, status));
  }

  /** A connect attempt on a slot that was free. */
  lemma StartConnectTakes(o: Owner, i: nat, req: Request, l: Slot, env: ExecEnv, nowUs: int)
    requires PreExec(o, req) && req.kind == Connect && i < POOL && !o.slots[i].inUse
    requires ByBank(o.slots, req.bank).None?
    requires l == Install(FreshSlot(req.bank), req, nowUs)
    ensures Takes(o, req, StartConnect(o, i, l, req, env))
  {
    if env.gateOpen && o.inflight.None? && !env.scanActive && env.rcConnect == RcOk {
      HoldTakes(o, i, req, l, nowUs);
    } else if env.gateOpen && (o.inflight.Some? || env.scanActive) {
      FreeTakes(o, i, req, GiveBack(l), ConnectWait, nowUs);
    } else {
      FreeTakes(o, i, req, GiveBack(l), LinkDown, nowUs);
    }
  }

  lemma ExecConnectTakes(o: Owner, req: Request, env: ExecEnv, nowUs: int)
    requires PreExec(o, req) && req.kind == Connect
    ensures Takes(o, req, ExecConnect(o, req, env, nowUs))
  {
    match ByBank(o.slots, req.bank) {
      case Some(i) =>
        InSlot(o, i);
        ReplyTakes(o, req, LinkDown);
        ReplyTakes(o, req, Ok);
      case None =>
        match FreeSlot(o.slots) {
          case None => ReplyTakes(o, req, LinkDown);
          case Some(i) =>
            StartConnectTakes(o, i, req, Install(FreshSlot(req.bank), req, nowUs), env, nowUs);
        }
    }
  }

  /** A submission on a ready slot with nothing outstanding. */
  lemma SubmitSlotOk(l: Slot, req: Request, handle: nat, useRequest: bool, want: Record,
                     cookie: Option<nat>, rc: Rc, nowUs: int)
    requires SlotOk(l, false) && l.ready && !l.txn.active && req.bank == l.bank
    requires req.kind == Poll || req.kind == RawWrite || req.kind == BalanceWrite
    requires req.kind == Poll ==> Asks(req.opcode, want)
    requires cookie.Some? ==> cookie.value != 0
    ensures SlotOk(SubmitWrite(l, req, handle, useRequest, want, cookie, rc, nowUs).slot, false)
    ensures SubmitWrite(l, req, handle, useRequest, want, cookie, rc, nowUs).slot
            == l.(txn := SubmitWrite(l, req, handle, useRequest, want, cookie, rc, nowUs).slot.txn)
  {
  }

  /** A submission either installs the operation or answers it at once. */
  lemma SubmitTokens(o: Owner, i: nat, req: Request, e: Effect, nowUs: int)
    requires i < |o.slots| && |OwnerTokens(o)| < QUEUE_DEPTH && !Holds(o.slots[i])
    requires e.slot.inUse && e.slot.bank == req.bank
    requires e.slot.txn.active ==> e.slot.txn.req == req && e.rsps == []
    requires !e.slot.txn.active ==> |e.rsps| == 1 && ResponseToken(e.rsps[0]) == RequestToken(req)
    ensures OwnerTokens(Apply(o, i, e, nowUs)) == OwnerTokens(o) + multiset{RequestToken(req)}
  {
    PoolTokensAdd(o.slots, i, e.slot);
    ResponseTokensSize(o.rspQ);
    Extra(PoolTokens(o.slots), ResponseTokens(o.rspQ), multiset{RequestToken(req)});
    if !e.slot.txn.active {
      assert e.rsps == [e.rsps[0]];
      OneResponse(o.rspQ, e.rsps[0]);
    }
  }

  lemma SubmitTakes(o: Owner, i: nat, req: Request, handle: nat, useRequest: bool, want: Record,
                    rc: Rc, nowUs: int)
    requires PreExec(o, req) && i < POOL && Ready(o.slots[i]) && !o.slots[i].txn.active
    requires o.slots[i].bank == req.bank
    requires req.kind == Poll || req.kind == RawWrite || req.kind == BalanceWrite
    requires req.kind == Poll ==> Asks(req.opcode, want)
    ensures Takes(o, req, Submit(o, i, req, handle, useRequest, want, rc, nowUs))
  {
    var l := o.slots[i];
    InSlot(o, i);
    var tok := WriteToken(o);
    var e := SubmitWrite(l, req, handle, useRequest, want, tok, rc, nowUs);
    SubmitSlotOk(l, req, handle, useRequest, want, tok, rc, nowUs);
    var o1 := o.(writeCtr := if useRequest && tok.Some? then tok.value else o.writeCtr);
    SubmitTokens(o1, i, req, e, nowUs);
    AloneInUse(o.slots, i);
    ReplaceInv(o, i, e, o.inflight, Apply(o1, i, e, nowUs), nowUs);
    ReplaceEvolves(o, i, e, Apply(o1, i, e, nowUs), nowUs);
  }

  lemma ExecOnLinkTakes(o: Owner, i: nat, req: Request, env: ExecEnv, nowUs: int)
    requires PreExec(o, req) && i < POOL && Ready(o.slots[i]) && !o.slots[i].txn.active
    requires o.slots[i].bank == req.bank && req.kind != Connect
    ensures Takes(o, req, ExecOnLink(o, i, req, env, nowUs))
  {
    var g := o.slots[i].gatt;
    match req.kind {
      case Poll =>
        if Expected(req.opcode) == NoRecord {
          ReplyTakes(o, req, Rejected);
        } else {
          SubmitTakes(o, i, req, g.val, Ffe1UsesRequest(g), Expected(req.opcode), env.rcWrite, nowUs);
        }
      case RawWrite =>
        var ffe2 := req.idx == 1 && g.ffe2 != 0;
        SubmitTakes(o, i, req, if ffe2 then g.ffe2 else g.val,
                    if ffe2 then Ffe2UsesRequest(g) else Ffe1UsesRequest(g), NoRecord,
                    env.rcWrite, nowUs);
      case BalanceWrite =>
        SubmitTakes(o, i, req, g.val, Ffe1UsesRequest(g), NoRecord, env.rcWrite, nowUs);
      case Disconnect =>
        ReplyTakes(o, req, Ok);
    }
  }

  /** `exec_request` takes responsibility for its request, whatever the state of the bank. */
  lemma ExecTakes(o: Owner, req: Request, env: ExecEnv, nowUs: int)
    requires PreExec(o, req)
    ensures Takes(o, req, Exec(o, req, env, nowUs))
  {
    var l := ByBank(o.slots, req.bank);
    if req.idleOnly && !Authorised(o.rt, req) {
      ReplyTakes(o, req, Rejected);
    } else if l.Some? && o.slots[l.value].ready && (o.slots[l.value].txn.active ||
              (o.slots[l.value].txn.writeCookie != 0 && req.kind != Disconnect)) {
      ReplyTakes(o, req, Rejected);
    } else if req.kind == Connect {
      ExecConnectTakes(o, req, env, nowUs);
    } else if l.None? || !o.slots[l.value].ready || o.slots[l.value].gatt.val == 0 {
      ReplyTakes(o, req, LinkDown);
    } else {
      ExecOnLinkTakes(o, l.value, req, env, nowUs);
    }
  }

  /** The operation of a slot keeps its bank's requests out. */
  lemma OwnBankWaits(o: Owner, req: Request, env: ExecEnv, nowUs: int, i: nat)
    requires PoolInv(o) && i < POOL && Holds(o.slots[i]) && req.bank == o.slots[i].bank
    ensures Exec(o, req, env, nowUs).slots == o.slots
  {
    InSlot(o, i);
    assert ByBank(o.slots, req.bank) == Some(i);
  }

  lemma OtherConnectLeaves(o: Owner, req: Request, env: ExecEnv, nowUs: int, i: nat)
    requires i < |o.slots| && o.slots[i].inUse && req.bank != o.slots[i].bank
    ensures |ExecConnect(o, req, env, nowUs).slots| == |o.slots|
    ensures ExecConnect(o, req, env, nowUs).slots[i] == o.slots[i]
  {
  }

  lemma OtherLinkLeaves(o: Owner, j: nat, req: Request, env: ExecEnv, nowUs: int, i: nat)
    requires i < |o.slots| && j < |o.slots| && i != j
    ensures |ExecOnLink(o, j, req, env, nowUs).slots| == |o.slots|
    ensures ExecOnLink(o, j, req, env, nowUs).slots[i] == o.slots[i]
  {
  }

  /** A request of any bank leaves a slot that holds an operation as it is. */
  lemma ExecLeavesHolding(o: Owner, req: Request, env: ExecEnv, nowUs: int, i: nat)
    requires PoolInv(o) && i < POOL && Holds(o.slots[i])
    ensures |Exec(o, req, env, nowUs).slots| == POOL && Exec(o, req, env, nowUs).slots[i] == o.slots[i]
  {
    if req.bank == o.slots[i].bank {
      OwnBankWaits(o, req, env, nowUs, i);
    } else {
      OtherConnectLeaves(o, req, env, nowUs, i);
      var l := ByBank(o.slots, req.bank);
      if l.Some? {
        OtherLinkLeaves(o, l.value, req, env, nowUs, i);
      }
    }
  }

  /** With no more banks than slots, a bank without a slot always finds a free one. */
  lemma PoolNeverFull(o: Owner, b: nat)
    requires PoolInv(o) && |o.rt| <= POOL && b < |o.rt| && ByBank(o.slots, b).None?
    ensures FreeSlot(o.slots).Some?
  {
    var s := o.slots;
    assert s[0].inUse ==> s[0].bank < 4 && s[0].bank != b;
    assert s[1].inUse ==> s[1].bank < 4 && s[1].bank != b;
    assert s[2].inUse ==> s[2].bank < 4 && s[2].bank != b;
    assert s[3].inUse ==> s[3].bank < 4 && s[3].bank != b;
  }

  // ---- Stale callbacks --------------------------------------------------------------------------

  /** The write token was issued, and no slot waits for it any more. */
  ghost predicate WriteRetired(o: Owner, token: nat) {
    && 0 < token <= o.writeCtr
    && forall i :: 0 <= i < |o.slots| && o.slots[i].inUse ==> o.slots[i].txn.writeCookie != token
  }

  /** The discovery token was issued, and its discovery is over. */
  ghost predicate GenerationRetired(o: Owner, token: nat) {
    && 0 < token <= o.generations
    && forall i :: 0 <= i < |o.slots| && o.slots[i].inUse && o.slots[i].pending ==>
                     o.slots[i].cookie != token
  }

  lemma RetiredStays(o: Owner, o': Owner, token: nat)
    requires Evolves(o, o')
    ensures WriteRetired(o, token) ==> WriteRetired(o', token)
    ensures GenerationRetired(o, token) && o'.generations < TWO_32 ==> GenerationRetired(o', token)
  {
    if WriteRetired(o, token) {
      forall i | 0 <= i < |o'.slots| && o'.slots[i].inUse
        ensures o'.slots[i].txn.writeCookie != token
      {
        assert WriteFence(o.slots[i], o'.slots[i], o.writeCtr);
      }
    }
    if GenerationRetired(o, token) && o'.generations < TWO_32 {
      forall i | 0 <= i < |o'.slots| && o'.slots[i].inUse && o'.slots[i].pending
        ensures o'.slots[i].cookie != token
      {
        assert GenerationFence(o.slots[i], o'.slots[i], o.generations);
      }
    }
  }

  /** A write callback with a retired token changes nothing and answers nothing. */
  lemma RetiredWriteInert(o: Owner, h: nat, err: Err, attr: Option<nat>, token: nat, nowUs: int)
    requires WriteRetired(o, token)
    ensures OnWriteDone(o, h, err, attr, token, nowUs) == o
  {
    var r := ByConn(o.slots, h);
    if r.Some? {
      InertReport(o, r.value, nowUs);
    }
  }

  lemma InertReport(o: Owner, i: nat, nowUs: int)
    requires i < |o.slots|
    ensures Apply(o, i, Quiet(o.slots[i]), nowUs) == o
  {
    assert o.slots[i := o.slots[i]] == o.slots;
    assert Report(o.rt, o.slots[i].bank, None, false, nowUs) == o.rt;
  }

  /** The event is a discovery callback carrying this token. */
  predicate CarriesGeneration(e: Radio, token: nat) {
    (e.GattSvc? || e.GattChr? || e.GattDsc? || e.GattSubscribed?) && e.cookie == token
  }

  /** A discovery callback of any kind with a retired token changes nothing and answers nothing. */
  lemma RetiredDiscoveryInert(o: Owner, e: Radio, token: nat, nowUs: int)
    requires GenerationRetired(o, token) && CarriesGeneration(e, token)
    ensures OnRadio(o, e, nowUs) == o
  {
    assert ByCookie(o.slots, e.h, token).None?;
  }
}
