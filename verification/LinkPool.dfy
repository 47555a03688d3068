/**
 The BLE owner of Node A as a state machine: four link slots, the connect in flight, the token
 counters, the runtime cache it reports to and the response queue it feeds. Each function below
 is one critical section of the original.
 */
module LinkPool {
  import opened Prelude
  import opened JkFrame
  import opened NodeATypes
  import opened StateCache
  import opened Links
  import opened Reassembly

  /** `CFG_LINK_POOL_SIZE`. */
  const POOL: nat := 4

  /** `generations` is model bookkeeping: how many discoveries were started since boot. */
  datatype Owner = Owner(
    slots: seq<Slot>,
    inflight: Option<nat>,
    discCtr: nat,
    generations: nat,
    writeCtr: nat,
    rt: seq<Runtime>,
    rspQ: seq<Response>)

  // ---- Lookups ---------------------------------------------------------------

  /** The slot's physical connection exists. */
  predicate Connected(l: Slot) { l.inUse && (l.pending || l.failed || l.ready) }

  /** `link_by_conn` from index `i` on. */
  function ByConn(slots: seq<Slot>, h: nat, i: nat := 0): (r: Option<nat>)
    requires i <= |slots|
    ensures r.Some? ==> i <= r.value < |slots| && Connected(slots[r.value]) && slots[r.value].conn == h
    decreases |slots| - i
  {
    if i == |slots| then None
    else if Connected(slots[i]) && slots[i].conn == h then Some(i)
    else ByConn(slots, h, i + 1)
  }

  /** `link_by_bms` from index `i` on. */
  function ByBank(slots: seq<Slot>, b: nat, i: nat := 0): (r: Option<nat>)
    requires i <= |slots|
    ensures r.Some? ==> i <= r.value < |slots| && slots[r.value].inUse && slots[r.value].bank == b
    ensures r.None? ==> forall j :: i <= j < |slots| ==> !(slots[j].inUse && slots[j].bank == b)
    decreases |slots| - i
  {
    if i == |slots| then None
    else if slots[i].inUse && slots[i].bank == b then Some(i)
    else ByBank(slots, b, i + 1)
  }

  /** The slot `link_alloc` would take. */
  function FreeSlot(slots: seq<Slot>, i: nat := 0): (r: Option<nat>)
    requires i <= |slots|
    ensures r.Some? ==> i <= r.value < |slots| && !slots[r.value].inUse
    ensures r.None? ==> forall j :: i <= j < |slots| ==> slots[j].inUse
    decreases |slots| - i
  {
    if i == |slots| then None else if !slots[i].inUse then Some(i) else FreeSlot(slots, i + 1)
  }

  /** A discovery callback for connection `h` with generation token `cookie` concerns this slot. */
  predicate InGeneration(l: Slot, h: nat, cookie: nat) {
    l.inUse && l.pending && l.conn == h && l.cookie == cookie
  }

  /** `discovery_link` from index `i` on, for a token that is not zero. */
  function ByCookie(slots: seq<Slot>, h: nat, cookie: nat, i: nat := 0): (r: Option<nat>)
    requires i <= |slots|
    ensures r.Some? ==> i <= r.value < |slots| && InGeneration(slots[r.value], h, cookie)
    decreases |slots| - i
  {
    if i == |slots| then None
    else if InGeneration(slots[i], h, cookie) then Some(i)
    else ByCookie(slots, h, cookie, i + 1)
  }

  // ---- Effects on the owner -----------------------------------------------------

  /** `respond`: a full queue drops the response. */
  function Respond(q: seq<Response>, rs: seq<Response>): seq<Response>
    decreases |rs|
  {
    if rs == [] then q
    else Respond(if |q| < QUEUE_DEPTH then q + [rs[0]] else q, rs[1..])
  }

  function Report(rt: seq<Runtime>, b: nat, link: Option<LinkState>, noted: bool, nowUs: int)
    : (rt': seq<Runtime>)
    ensures |rt'| == |rt|
  {
    if b >= |rt| then rt
    else
      var r1 := if link.Some? then SetLink(rt[b], link.value, nowUs) else rt[b];
      rt[b := if noted then NoteFrame(r1, nowUs) else r1]
  }

  function Apply(o: Owner, i: nat, e: Effect, nowUs: int): Owner
    requires i < |o.slots|
  {
    o.(slots := o.slots[i := e.slot],
       rt := Report(o.rt, e.slot.bank, e.link, e.noted, nowUs),
       rspQ := Respond(o.rspQ, e.rsps))
  }

  // ---- Host callbacks -------------------------------------------------------------

  function OnSvcDisc(o: Owner, h: nat, err: Err, svc: Option<Svc>, cookie: nat, rc: Rc, nowUs: int)
    : Owner
  {
    var l := if cookie == 0 then None else ByCookie(o.slots, h, cookie);
    if l.None? then o
    else Apply(o, l.value, SvcStep(o.slots[l.value], err, svc, rc, nowUs), nowUs)
  }

  function OnChrDisc(o: Owner, h: nat, err: Err, chr: Option<Chr>, cookie: nat, rc: Rc, nowUs: int)
    : Owner
  {
    var l := if cookie == 0 then None else ByCookie(o.slots, h, cookie);
    if l.None? then o
    else Apply(o, l.value, ChrStep(o.slots[l.value], err, chr, rc, nowUs), nowUs)
  }

  function OnDscDisc(o: Owner, h: nat, err: Err, chrVal: nat, dsc: Option<Dsc>, cookie: nat,
                     rcDsc: Rc, rcSub: Rc, nowUs: int): Owner
  {
    var l := if cookie == 0 then None else ByCookie(o.slots, h, cookie);
    if l.None? then o
    else
      Apply(o, l.value,
            DescriptorStep(o.slots[l.value], err, chrVal, dsc, rcDsc, rcSub, nowUs), nowUs)
  }

  function OnSubscribeDone(o: Owner, h: nat, err: Err, attr: Option<nat>, cookie: nat, nowUs: int)
    : Owner
  {
    var l := if cookie == 0 then None else ByCookie(o.slots, h, cookie);
    if l.None? then o
    else Apply(o, l.value, SubscribeDone(o.slots[l.value], err, attr, nowUs), nowUs)
  }

  /** `++s_discovery_cookie`, skipping zero, in 32 bits. */
  function NextCookie(c: nat): nat {
    var n := (c + 1) % TWO_32;
    if n == 0 then 1 else n
  }

  /** The CONNECT event for slot `arg`; a status other than success carries no handle. */
  function OnConnect(o: Owner, arg: nat, handle: Option<nat>, rc: Rc, nowUs: int): Owner {
    var o1 := o.(inflight := None);
    if o.inflight != Some(arg) || arg >= |o.slots| || !o.slots[arg].inUse || o.slots[arg].conn != 0
    then o1
    else
      var l := o.slots[arg];
      var o2 := if handle.Some?
                then o1.(discCtr := NextCookie(o.discCtr), generations := o.generations + 1)
                else o1;
      Apply(o2, arg, ConnectEvent(l, handle, o2.discCtr, rc, nowUs), nowUs)
  }

  function OnDisconnect(o: Owner, h: nat, nowUs: int): Owner {
    var l := ByConn(o.slots, h);
    if l.None? then o else Apply(o, l.value, DisconnectEvent(o.slots[l.value]), nowUs)
  }

  function OnNotify(o: Owner, h: nat, data: seq<Byte>, nowUs: int): Owner {
    var l := ByConn(o.slots, h);
    if l.None? then o else Apply(o, l.value, NotifyChunk(o.slots[l.value], data), nowUs)
  }

  function OnWriteDone(o: Owner, h: nat, err: Err, attr: Option<nat>, cookie: nat, nowUs: int)
    : Owner
  {
    var l := ByConn(o.slots, h);
    if l.None? then o
    else Apply(o, l.value, WriteDone(o.slots[l.value], err, attr, cookie), nowUs)
  }

  /** `sweep_timeouts` from slot `i` on. */
  function Sweep(o: Owner, nowUs: int, i: nat := 0): Owner
    requires i <= |o.slots|
    decreases |o.slots| - i
  {
    if i == |o.slots| then o
    else Sweep(Apply(o, i, SweepSlot(o.slots[i], nowUs), nowUs), nowUs, i + 1)
  }

  // ---- Executing a request ----------------------------------------------------------

  /** What the surroundings decide while a request runs. */
  datatype ExecEnv = ExecEnv(gateOpen: bool, scanActive: bool, rcConnect: Rc, rcWrite: Rc)

  function Reply(o: Owner, req: Request, status: Status): Owner {
    o.(rspQ := Respond(o.rspQ, [Response(req.bank, req.cmdId, status, NoRecord)]))
  }

  /** The idle-release fence, rechecked where the request runs. */
  predicate Authorised(rt: seq<Runtime>, req: Request) {
    && req.kind == Disconnect && req.source == Internal
    && req.bank < |rt| && rt[req.bank].linkHeld && !rt[req.bank].appConnected
    && rt[req.bank].idleEpoch == req.idleEpoch
  }

  /** The slot with the request as its active transaction. */
  function Install(l: Slot, req: Request, nowUs: int): Slot {
    l.(txn := l.txn.(active := true, req := req, deadlineUs := nowUs + req.timeoutMs * 1000))
  }

  /** The slot given back without its transaction. */
  function GiveBack(l: Slot): Slot {
    l.(txn := l.txn.(active := false), inUse := false)
  }

  /** `start_connect` on slot `i`, which holds `l` with the request installed. */
  function StartConnect(o: Owner, i: nat, l: Slot, req: Request, env: ExecEnv): Owner
    requires i < |o.slots|
  {
    if !env.gateOpen then Reply(o.(slots := o.slots[i := GiveBack(l)]), req, LinkDown)
    else if o.inflight.Some? || env.scanActive then
      Reply(o.(slots := o.slots[i := GiveBack(l)]), req, ConnectWait)
    else if env.rcConnect != RcOk then
      Reply(o.(slots := o.slots[i := GiveBack(l)]), req, LinkDown)
    else o.(slots := o.slots[i := l], inflight := Some(i))
  }

  function ExecConnect(o: Owner, req: Request, env: ExecEnv, nowUs: int): Owner {
    match ByBank(o.slots, req.bank)
    case Some(i) =>
      var l := o.slots[i];
      if l.pending || l.failed then Reply(o, req, LinkDown)
      else if l.ready then Reply(o, req, Ok)
      else if o.inflight == Some(i) then Reply(o, req, LinkDown)
      else StartConnect(o, i, Install(l, req, nowUs), req, env)
    case None =>
      match FreeSlot(o.slots)
      case None => Reply(o, req, LinkDown)
      case Some(i) => StartConnect(o, i, Install(FreshSlot(req.bank), req, nowUs), req, env)
  }

  /** The token a Write Request would use. */
  function WriteToken(o: Owner): Option<nat> {
    if o.writeCtr + 1 >= TWO_32 then None else Some(o.writeCtr + 1)
  }

  /** `submit_write` on slot `i`. */
  function Submit(o: Owner, i: nat, req: Request, handle: nat, useRequest: bool, want: Record,
                  rc: Rc, nowUs: int): Owner
    requires i < |o.slots|
  {
    var tok := WriteToken(o);
    var e := SubmitWrite(o.slots[i], req, handle, useRequest, want, tok, rc, nowUs);
    Apply(o.(writeCtr := if useRequest && tok.Some? then tok.value else o.writeCtr), i, e, nowUs)
  }

  function ExecOnLink(o: Owner, i: nat, req: Request, env: ExecEnv, nowUs: int): Owner
    requires i < |o.slots|
  {
    var g := o.slots[i].gatt;
    match req.kind
    case Poll =>
      if Expected(req.opcode) == NoRecord then Reply(o, req, Rejected)
      else Submit(o, i, req, g.val, Ffe1UsesRequest(g), Expected(req.opcode), env.rcWrite, nowUs)
    case RawWrite =>
      var ffe2 := req.idx == 1 && g.ffe2 != 0;
      Submit(o, i, req, if ffe2 then g.ffe2 else g.val,
             if ffe2 then Ffe2UsesRequest(g) else Ffe1UsesRequest(g), NoRecord, env.rcWrite, nowUs)
    case BalanceWrite =>
      Submit(o, i, req, g.val, Ffe1UsesRequest(g), NoRecord, env.rcWrite, nowUs)
    case Disconnect => Reply(o, req, Ok)
    case Connect => o
  }

  /** `exec_request`. */
  function Exec(o: Owner, req: Request, env: ExecEnv, nowUs: int): Owner {
    var l := ByBank(o.slots, req.bank);
    if req.idleOnly && !Authorised(o.rt, req) then Reply(o, req, Rejected)
    else if l.Some? && o.slots[l.value].ready &&
            (o.slots[l.value].txn.active ||
             (o.slots[l.value].txn.writeCookie != 0 && req.kind != Disconnect)) then
      Reply(o, req, Rejected)
    else if req.kind == Connect then ExecConnect(o, req, env, nowUs)
    else if l.None? || !o.slots[l.value].ready || o.slots[l.value].gatt.val == 0 then
      Reply(o, req, LinkDown)
    else ExecOnLink(o, l.value, req, env, nowUs)
  }

  // ---- One event of the BLE side ------------------------------------------------------

  /** A timer pass or a callback of the radio stack, with everything the stack chooses. */
  datatype Radio =
    | SweepDue
    | GapConnect(slot: nat, handle: Option<nat>, rc: Rc)
    | GapDisconnect(h: nat)
    | GapNotify(h: nat, data: seq<Byte>)
    | GattSvc(h: nat, err: Err, svc: Option<Svc>, cookie: nat, rc: Rc)
    | GattChr(h: nat, err: Err, chr: Option<Chr>, cookie: nat, rc: Rc)
    | GattDsc(h: nat, err: Err, chrVal: nat, dsc: Option<Dsc>, cookie: nat, rcDsc: Rc, rcSub: Rc)
    | GattSubscribed(h: nat, err: Err, attr: Option<nat>, cookie: nat)
    | GattWritten(h: nat, err: Err, attr: Option<nat>, cookie: nat)

  function OnRadio(o: Owner, e: Radio, nowUs: int): Owner {
    match e
    case SweepDue => Sweep(o, nowUs)
    case GapConnect(i, h, rc) => OnConnect(o, i, h, rc, nowUs)
    case GapDisconnect(h) => OnDisconnect(o, h, nowUs)
    case GapNotify(h, data) => OnNotify(o, h, data, nowUs)
    case GattSvc(h, err, svc, c, rc) => OnSvcDisc(o, h, err, svc, c, rc, nowUs)
    case GattChr(h, err, chr, c, rc) => OnChrDisc(o, h, err, chr, c, rc, nowUs)
    case GattDsc(h, err, v, dsc, c, rc1, rc2) =>
      OnDscDisc(o, h, err, v, dsc, c, rc1, rc2, nowUs)
    case GattSubscribed(h, err, attr, c) => OnSubscribeDone(o, h, err, attr, c, nowUs)
    case GattWritten(h, err, attr, c) => OnWriteDone(o, h, err, attr, c, nowUs)
  }

  /** The stack delivers a CONNECT event for the connect in flight; nothing else is assumed. */
  predicate RadioEnabled(o: Owner, e: Radio) {
    e.GapConnect? ==> o.inflight == Some(e.slot)
  }
}
