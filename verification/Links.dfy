/**
 One slot of Node A's BLE link pool: what each host callback, deadline and request does to it.

 Every operation is a function from the slot to an `Effect`: the new slot, the link state it
 reports, whether a frame was noted, and the responses it sends. Results of NimBLE calls and the
 arguments of its callbacks are inputs, so an operation covers everything the stack may do.

 `chars`, `usedRequest`, `acked` and `heard` are bookkeeping of this model: the accepted
 characteristics of the discovery, how the current transaction was submitted, whether its own
 acknowledgement arrived well, and whether a record of the type it wants was completed since it
 was submitted.
 */
module Links {
  import opened Prelude
  import opened JkFrame
  import opened NodeATypes
  import opened StateCache
  import opened Reassembly

  datatype Props = Props(write: bool, writeNoRsp: bool, notify: bool)
  datatype ChrUuid = Ffe1 | Ffe2 | OtherChr
  datatype Chr = Chr(uuid: ChrUuid, def: nat, val: nat, props: Props)
  datatype Svc = Svc(jk: bool, first: nat, last: nat)
  datatype Dsc = Dsc(cccd: bool, handle: nat)

  /** The error argument of a GATT callback; `NullErr` is a missing error structure. */
  datatype Err = NullErr | ErrOk | ErrDone | ErrNotConn | ErrOther

  /** Return code of a NimBLE call. */
  datatype Rc = RcOk | RcNotConn | RcOther

  datatype DscPhase = DscNone | DscFfe1 | DscFfe2 | DscDone

  datatype Gatt = Gatt(
    val: nat, ffe2: nat, cccd: nat, ffe2Cccd: nat,
    serviceEnd: nat, ffe1End: nat, ffe2End: nat, lastChr: nat,
    phase: DscPhase, ffe1Props: Props, ffe2Props: Props,
    serviceSeen: bool, chars: seq<Chr>)

  datatype Txn = Txn(
    active: bool, req: Request, deadlineUs: int,
    want: Record, recordSeen: bool, writeCookie: nat, writeHandle: nat,
    usedRequest: bool, acked: bool, heard: bool)

  datatype Slot = Slot(
    inUse: bool, bank: nat, conn: nat, gatt: Gatt, reasm: Machine,
    ready: bool, pending: bool, subscribing: bool, failed: bool,
    cookie: nat, retryUs: int, txn: Txn)

  const NO_PROPS: Props := Props(false, false, false)
  const NO_REQUEST: Request := Request(0, 0, Poll, App, 0, 0, 0, [], false, 0, 0)
  const NO_TXN: Txn := Txn(false, NO_REQUEST, 0, NoRecord, false, 0, 0, false, false, false)
  const NO_GATT: Gatt := Gatt(0, 0, 0, 0, 0, 0, 0, 0, DscNone, NO_PROPS, NO_PROPS, false, [])

  /** The zeroed slot that `link_alloc` hands out. */
  function FreshSlot(bank: nat): Slot {
    Slot(true, bank, 0, NO_GATT, Hunting(0), false, false, false, false, 0, 0, NO_TXN)
  }

  datatype Effect = Effect(slot: Slot, link: Option<LinkState>, noted: bool, rsps: seq<Response>)

  function Quiet(l: Slot): Effect { Effect(l, None, false, []) }

  /** Clear the active transaction and answer it. */
  function Finish(l: Slot, status: Status, record: Record): Effect {
    Effect(l.(txn := l.txn.(active := false)), None, false,
           [Response(l.bank, l.txn.req.cmdId, status, record)])
  }

  // ---- Discovery -----------------------------------------------------------

  const RETRY_US: int := 1_000_000

  /** `discovery_fail`, including the first `discovery_terminate`. */
  function DiscoveryFail(l: Slot, status: Status, nowUs: int): Effect {
    if !l.pending then Quiet(l)
    else
      var l1 := l.(pending := false, subscribing := false, failed := true, ready := false,
                   gatt := l.gatt.(val := 0, ffe2 := 0, cccd := 0, ffe2Cccd := 0),
                   retryUs := nowUs + RETRY_US);
      if l.txn.active && l.txn.req.kind == Connect
      then Finish(l1, status, NoRecord).(link := Some(ReachableIdle))
      else Quiet(l1).(link := Some(ReachableIdle))
  }

  /** `on_subscribe_done`, once its link has been found. */
  function SubscribeDone(l: Slot, err: Err, attr: Option<nat>, nowUs: int): Effect {
    if !l.subscribing then Quiet(l)
    else if err != ErrOk || attr != Some(l.gatt.cccd) then DiscoveryFail(l, GattError, nowUs)
    else
      var l1 := l.(subscribing := false, pending := false, ready := true);
      if l.txn.active && l.txn.req.kind == Connect
      then Finish(l1, Ok, NoRecord).(link := Some(Up))
      else Quiet(l1).(link := Some(Up))
  }

  /** `subscription_start`; the optional FFE2 subscription has no effect on the slot. */
  function SubscriptionStart(l: Slot, rc: Rc, nowUs: int): Effect {
    var l1 := l.(gatt := l.gatt.(phase := DscDone), subscribing := true);
    if rc != RcOk then DiscoveryFail(l1, GattError, nowUs) else Quiet(l1)
  }

  /** `secondary_descriptors_or_subscribe`. */
  function SecondaryOrSubscribe(l: Slot, rcDsc: Rc, rcSub: Rc, nowUs: int): Effect {
    var g := l.gatt;
    if g.ffe2 != 0 && g.ffe2Props.notify && g.ffe2End > g.ffe2 then
      var l1 := l.(gatt := g.(phase := DscFfe2));
      if rcDsc == RcOk then Quiet(l1)
      else if rcDsc == RcNotConn then DiscoveryFail(l1, GattError, nowUs)
      else SubscriptionStart(l1, rcSub, nowUs)
    else SubscriptionStart(l, rcSub, nowUs)
  }

  /** A reported CCCD outside its range, or a second one, fails the discovery. */
  predicate BadCccd(dsc: Option<Dsc>, value: nat, end: nat, cccd: nat) {
    && dsc.Some? && dsc.value.cccd
    && (dsc.value.handle <= value || dsc.value.handle > end ||
        (cccd != 0 && cccd != dsc.value.handle))
  }

  function NewCccd(dsc: Option<Dsc>, cccd: nat): nat {
    if dsc.Some? && dsc.value.cccd then dsc.value.handle else cccd
  }

  /** `on_dsc_disc` while FFE1's descriptors are searched. */
  function PrimaryStep(l: Slot, err: Err, dsc: Option<Dsc>, rcDsc: Rc, rcSub: Rc, nowUs: int): Effect
  {
    var g := l.gatt;
    if err != ErrOk && err != ErrDone then DiscoveryFail(l, GattError, nowUs)
    else if BadCccd(dsc, g.val, g.ffe1End, g.cccd) then DiscoveryFail(l, GattError, nowUs)
    else
      var l1 := l.(gatt := g.(cccd := NewCccd(dsc, g.cccd)));
      if err != ErrDone then Quiet(l1)
      else if l1.gatt.cccd == 0 then DiscoveryFail(l1, GattError, nowUs)
      else SecondaryOrSubscribe(l1, rcDsc, rcSub, nowUs)
  }

  /** `on_dsc_disc` while FFE2's optional descriptors are searched. */
  function OptionalStep(l: Slot, err: Err, dsc: Option<Dsc>, rcSub: Rc, nowUs: int): Effect {
    var g := l.gatt;
    if err == NullErr || err == ErrNotConn then DiscoveryFail(l, GattError, nowUs)
    else if err == ErrOther then SubscriptionStart(l.(gatt := g.(ffe2Cccd := 0)), rcSub, nowUs)
    else if BadCccd(dsc, g.ffe2, g.ffe2End, g.ffe2Cccd) then DiscoveryFail(l, GattError, nowUs)
    else
      var l1 := l.(gatt := g.(ffe2Cccd := NewCccd(dsc, g.ffe2Cccd)));
      if err != ErrDone then Quiet(l1) else SubscriptionStart(l1, rcSub, nowUs)
  }

  /** `on_dsc_disc`, once its link has been found: a callback of an earlier phase is ignored. */
  function DescriptorStep(l: Slot, err: Err, chrVal: nat, dsc: Option<Dsc>, rcDsc: Rc, rcSub: Rc,
                          nowUs: int): Effect
  {
    if l.gatt.phase == DscFfe1 && chrVal == l.gatt.val then
      PrimaryStep(l, err, dsc, rcDsc, rcSub, nowUs)
    else if l.gatt.phase == DscFfe2 && chrVal == l.gatt.ffe2 then
      OptionalStep(l, err, dsc, rcSub, nowUs)
    else Quiet(l)
  }

  /** A characteristic is accepted only after the previous one and inside the service. */
  predicate ChrInOrder(g: Gatt, c: Chr) {
    g.lastChr < c.def < c.val <= g.serviceEnd
  }

  /** The next declaration ends the descriptor ranges before it. */
  function Narrow(g: Gatt, c: Chr): Gatt {
    g.(lastChr := c.val, chars := g.chars + [c],
       ffe1End := if g.val != 0 && g.val < c.def <= g.ffe1End then c.def - 1 else g.ffe1End,
       ffe2End := if g.ffe2 != 0 && g.ffe2 < c.def <= g.ffe2End then c.def - 1 else g.ffe2End)
  }

  /** The table after an accepted characteristic. */
  function AddChr(g: Gatt, c: Chr): Gatt {
    var n := Narrow(g, c);
    match c.uuid
    case Ffe2 => n.(ffe2 := c.val, ffe2Props := c.props, ffe2End := g.serviceEnd)
    case Ffe1 => n.(val := c.val, ffe1Props := c.props, ffe1End := g.serviceEnd)
    case OtherChr => n
  }

  /** The tail of `on_chr_disc`: go on, or start FFE1's descriptor search at the end. */
  function ChrTail(l: Slot, g: Gatt, err: Err, rc: Rc, nowUs: int): Effect {
    if err != ErrDone then Quiet(l.(gatt := g))
    else if g.val == 0 || g.ffe1End <= g.val then
      DiscoveryFail(l.(gatt := g), GattError, nowUs)
    else
      var l1 := l.(gatt := g.(phase := DscFfe1));
      if rc != RcOk then DiscoveryFail(l1, GattError, nowUs) else Quiet(l1)
  }

  /** `on_chr_disc`, once its link has been found. */
  function ChrStep(l: Slot, err: Err, chr: Option<Chr>, rc: Rc, nowUs: int): Effect {
    if l.gatt.phase != DscNone then Quiet(l)
    else if err != ErrOk && err != ErrDone then DiscoveryFail(l, GattError, nowUs)
    else if chr.None? then ChrTail(l, l.gatt, err, rc, nowUs)
    else if !ChrInOrder(l.gatt, chr.value) then DiscoveryFail(l, GattError, nowUs)
    else ChrTail(l, AddChr(l.gatt, chr.value), err, rc, nowUs)
  }

  /** `on_svc_disc`, once its link has been found. */
  function SvcStep(l: Slot, err: Err, svc: Option<Svc>, rc: Rc, nowUs: int): Effect {
    if err != ErrOk && err != ErrDone then DiscoveryFail(l, GattError, nowUs)
    else if svc.Some? && svc.value.jk then
      if l.gatt.serviceSeen then Quiet(l)
      else if svc.value.first == 0 || svc.value.last <= svc.value.first then
        DiscoveryFail(l, GattError, nowUs)
      else
        var l1 := l.(gatt := l.gatt.(serviceSeen := true, serviceEnd := svc.value.last));
        if rc != RcOk then DiscoveryFail(l1, GattError, nowUs) else Quiet(l1)
    else if err == ErrDone && !l.gatt.serviceSeen then DiscoveryFail(l, GattError, nowUs)
    else Quiet(l)
  }

  /** `discovery_start` with a new generation token. */
  function DiscoveryStart(l: Slot, cookie: nat, rc: Rc, nowUs: int): Effect {
    var l1 := l.(pending := true, subscribing := false, failed := false, ready := false,
                 cookie := cookie,
                 gatt := l.gatt.(phase := DscNone, lastChr := 0, cccd := 0, ffe2Cccd := 0,
                                 serviceSeen := false));
    if rc != RcOk then DiscoveryFail(l1, GattError, nowUs) else Quiet(l1)
  }

  // ---- Connection lifecycle -------------------------------------------------

  /** The CONNECT event of the connect in flight. */
  function ConnectEvent(l: Slot, handle: Option<nat>, cookie: nat, rc: Rc, nowUs: int): Effect {
    match handle
    case Some(h) => DiscoveryStart(l.(conn := h), cookie, rc, nowUs)
    case None => Release(l).(link := Some(Unreachable))
  }

  /** Answer an active transaction with `LinkDown` and give the slot back. */
  function Release(l: Slot): Effect {
    var e := if l.txn.active then Finish(l, LinkDown, NoRecord) else Quiet(l);
    e.(slot := e.slot.(inUse := false))
  }

  /** The DISCONNECT event of a slot's connection. */
  function DisconnectEvent(l: Slot): Effect {
    var e := Release(l);
    e.(link := Some(ReachableIdle), slot := e.slot.(pending := false, subscribing := false))
  }

  // ---- Transactions ---------------------------------------------------------

  /** `complete_poll_if_ready`. */
  function CompletePoll(l: Slot): Effect {
    if l.txn.active && l.txn.req.kind == Poll && l.txn.recordSeen && l.txn.writeCookie == 0
    then Finish(l, Ok, l.txn.want)
    else Quiet(l)
  }

  /** The frame is the one the slot's poll waits for. */
  predicate Wanted(l: Slot, rec: Record) {
    l.txn.active && l.txn.req.kind == Poll && rec == l.txn.want
  }

  function Heard(l: Slot, rec: Record): Slot {
    var t := if rec == l.txn.want then l.txn.(heard := true) else l.txn;
    l.(txn := if Wanted(l, rec) then t.(recordSeen := true) else t)
  }

  /** `on_complete_frame` for a frame of type `rec`. */
  function FrameDone(l: Slot, rec: Record): Effect {
    if Wanted(l, rec) then CompletePoll(Heard(l, rec)).(noted := true)
    else Quiet(Heard(l, rec)).(noted := true)
  }

  /** The frames of one chunk, in order. */
  function FramesDone(l: Slot, frames: seq<seq<Byte>>): Effect
    decreases |frames|
  {
    if frames == [] then Quiet(l)
    else
      var e := FrameDone(l, RecordOf(frames[0]));
      var rest := FramesDone(e.slot, frames[1..]);
      rest.(noted := true, rsps := e.rsps + rest.rsps)
  }

  /** The reassembly half of `on_notify`. */
  function NotifyChunk(l: Slot, data: seq<Byte>): Effect {
    var o := Feed(Out(l.reasm, []), data);
    FramesDone(l.(reasm := o.next), o.frames)
  }

  /** `on_gatt_write_done`, once its link has been found. */
  function WriteDone(l: Slot, err: Err, attr: Option<nat>, cookie: nat): Effect {
    if cookie == 0 || cookie != l.txn.writeCookie then Quiet(l)
    else
      var ok := err == ErrOk && attr == Some(l.txn.writeHandle);
      var l1 := l.(txn := l.txn.(writeCookie := 0, acked := ok));
      if !l.txn.active then Quiet(l1)
      else if !ok || l.txn.req.kind != Poll then
        Finish(l1, if ok then Ok else GattError, NoRecord)
      else CompletePoll(l1)
  }

  /** One slot of `sweep_timeouts`. */
  function SweepSlot(l: Slot, nowUs: int): Effect {
    if l.inUse && l.failed && nowUs >= l.retryUs then Quiet(l.(retryUs := nowUs + RETRY_US))
    else if l.inUse && l.txn.active && nowUs > l.txn.deadlineUs then
      if l.pending && l.txn.req.kind == Connect then DiscoveryFail(l, Timeout, nowUs)
      else Finish(l, Timeout, NoRecord)
    else Quiet(l)
  }

  /** `ffe1_needs_write_cmd` negated: which ATT operation the FFE1 characteristic permits. */
  function Ffe1UsesRequest(g: Gatt): bool { g.ffe1Props.write || !g.ffe1Props.writeNoRsp }

  /** `ffe2_needs_write_req`. */
  function Ffe2UsesRequest(g: Gatt): bool { !g.ffe2Props.writeNoRsp && g.ffe2Props.write }

  /** The record a poll opcode asks for. */
  function Expected(opcode: nat): Record {
    if opcode == CMD_DEVICE_INFO then DeviceInfo
    else if opcode == CMD_CELL_INFO then CellInfo
    else NoRecord
  }

  /** `submit_write`; `cookie` is the token a Write Request would use, `None` when exhausted. */
  function SubmitWrite(l: Slot, req: Request, handle: nat, useRequest: bool, want: Record,
                       cookie: Option<nat>, rc: Rc, nowUs: int): Effect
  {
    if useRequest && cookie.None? then
      Effect(l, None, false, [Response(req.bank, req.cmdId, Rejected, NoRecord)])
    else
      var t := Txn(useRequest || req.kind == Poll, req, nowUs + req.timeoutMs * 1000, want, false,
                   if useRequest then cookie.value else 0, handle, useRequest, false, false);
      if rc != RcOk then
        Effect(l.(txn := t.(active := false, writeCookie := 0)), None, false,
               [Response(req.bank, req.cmdId, GattError, NoRecord)])
      else
        Effect(l.(txn := t), None, false,
               if t.active then [] else [Response(req.bank, req.cmdId, Ok, NoRecord)])
  }

  // ---- What every slot in use satisfies -------------------------------------

  /** Exactly one of: connect in flight, discovering, failed, ready. */
  predicate PhaseOk(l: Slot, inflight: bool) {
    && (inflight ==> !l.pending && !l.failed && !l.ready)
    && (l.pending ==> !l.failed && !l.ready)
    && (l.failed ==> !l.ready)
    && (inflight || l.pending || l.failed || l.ready)
    && (l.subscribing ==> l.pending)
  }

  /** No declaration or value handle of a discovered characteristic lies in `(v, e]`. */
  predicate ClearOfChrs(chars: seq<Chr>, v: nat, e: nat) {
    forall i :: 0 <= i < |chars| ==> !(v < chars[i].def <= e) && !(v < chars[i].val <= e)
  }

  /** Every accepted characteristic lies at or below the last value handle seen. */
  predicate ChrsUpTo(chars: seq<Chr>, last: nat) {
    forall i :: 0 <= i < |chars| ==> 0 < chars[i].def < chars[i].val <= last
  }

  /** A descriptor range starts at a discovered value and stays clear of all characteristics. */
  predicate RangeOk(chars: seq<Chr>, last: nat, serviceEnd: nat, v: nat, e: nat) {
    v != 0 ==> v <= last && e <= serviceEnd && ClearOfChrs(chars, v, e)
  }

  /** The latest reported characteristic with a UUID. */
  function LastOf(chars: seq<Chr>, u: ChrUuid): Option<Chr> {
    if chars == [] then None
    else if chars[|chars| - 1].uuid == u then Some(chars[|chars| - 1])
    else LastOf(chars[..|chars| - 1], u)
  }

  /** A recorded handle is the value handle, with the properties, of the characteristic of that UUID. */
  predicate NamesOf(chars: seq<Chr>, u: ChrUuid, v: nat, props: Props) {
    v != 0 ==> LastOf(chars, u).Some? && LastOf(chars, u).value.val == v && LastOf(chars, u).value.props == props
  }

  lemma LastOfAdd(chars: seq<Chr>, c: Chr, u: ChrUuid)
    ensures LastOf(chars + [c], u) == if c.uuid == u then Some(c) else LastOf(chars, u)
  {
    assert (chars + [c])[..|chars|] == chars;
  }

  /** The recorded handles belong to the characteristics they are used as. */
  predicate TableOk(g: Gatt) {
    && RangesOk(g)
    && NamesOf(g.chars, Ffe1, g.val, g.ffe1Props)
    && NamesOf(g.chars, Ffe2, g.ffe2, g.ffe2Props)
  }

  /** The two ranges searched for descriptors, as far as characteristic discovery determines them. */
  predicate RangesOk(g: Gatt) {
    && g.lastChr <= g.serviceEnd
    && ChrsUpTo(g.chars, g.lastChr)
    && RangeOk(g.chars, g.lastChr, g.serviceEnd, g.val, g.ffe1End)
    && RangeOk(g.chars, g.lastChr, g.serviceEnd, g.ffe2, g.ffe2End)
    && (!g.serviceSeen ==> g.serviceEnd == 0)
  }

  /** What descriptor discovery has established so far. */
  predicate DescriptorsOk(g: Gatt) {
    && (g.phase == DscNone ==> g.cccd == 0)
    && (g.phase != DscNone ==> 0 < g.val < g.ffe1End)
    && (g.cccd != 0 ==> g.val < g.cccd <= g.ffe1End)
    && (g.phase == DscFfe2 || g.phase == DscDone ==> g.cccd != 0)
    && (g.ffe2Cccd != 0 ==> 0 < g.ffe2 < g.ffe2Cccd <= g.ffe2End)
    && (g.phase == DscFfe1 || g.phase == DscNone ==> g.ffe2Cccd == 0)
    && (g.phase == DscFfe2 ==> g.ffe2 != 0)
  }

  predicate GattOk(g: Gatt) {
    TableOk(g) && DescriptorsOk(g)
  }

  /** A poll with this opcode waits for this record: 0x97 for device info, 0x96 for cell info. */
  predicate Asks(opcode: nat, want: Record) {
    (opcode == 0x97 && want == DeviceInfo) || (opcode == 0x96 && want == CellInfo)
  }

  /** What the transaction fields of a ready slot say about the submission. */
  predicate SubmissionOk(t: Txn) {
    && (t.req.kind == Poll || t.req.kind == RawWrite || t.req.kind == BalanceWrite)
    && (t.req.kind == Poll ==>
          && Asks(t.req.opcode, t.want)
          && (t.recordSeen <==> t.heard)
          && (t.writeCookie == 0 ==> !t.usedRequest || t.acked)
          && !(t.recordSeen && t.writeCookie == 0))
    && (t.req.kind != Poll ==> t.writeCookie != 0)
  }

  predicate TxnOk(l: Slot, inflight: bool) {
    && (l.txn.active ==> l.txn.req.bank == l.bank)
    && (l.txn.active && (inflight || l.pending) ==> l.txn.req.kind == Connect)
    && (l.failed ==> !l.txn.active)
    && (l.ready && l.txn.active ==> SubmissionOk(l.txn))
    && (!l.ready ==> l.txn.writeCookie == 0)
  }

  predicate SlotOk(l: Slot, inflight: bool) {
    PhaseOk(l, inflight) && TxnOk(l, inflight)
  }

  /** What discovery has established: a ready link went through all of it. */
  predicate DiscoveryOk(l: Slot, inflight: bool) {
    && (inflight ==> l.gatt == NO_GATT && l.conn == 0)
    && (l.pending || l.ready ==> GattOk(l.gatt))
    && (l.ready || l.subscribing ==> l.gatt.phase == DscDone)
  }

  /** How a poll may be answered, given the transaction after the answer. */
  predicate PollAnswerOk(t: Txn, r: Response) {
    && (r.status == Ok || r.status == GattError || r.status == Timeout || r.status == LinkDown)
    && (r.status == Ok ==>
          r.record == t.want && t.heard && (t.usedRequest ==> t.acked))
  }

  predicate Holds(l: Slot) { l.inUse && l.txn.active }

  predicate Ready(l: Slot) { l.inUse && l.ready }

  /** The slot's operation is either still there, untouched, or answered exactly once. */
  predicate Conserves(l: Slot, e: Effect) {
    if !Holds(l) then !Holds(e.slot) && e.rsps == []
    else if Holds(e.slot) then e.slot.txn.req == l.txn.req && e.rsps == []
    else |e.rsps| == 1 && ResponseToken(e.rsps[0]) == Token(l.bank, l.txn.req.cmdId)
  }

  /** The reported link state is `Up` exactly when the slot ends up ready; silence changes nothing. */
  predicate Reports(l: Slot, e: Effect) {
    Ready(e.slot) == if e.link.Some? then e.link.value == Up else Ready(l)
  }

  /**
   What every callback and deadline guarantees for the slot it touches: the bank stays, the slot
   stays well formed, its operation is conserved, link reports are truthful, write tokens are only
   kept or retired, and polls are answered only when they may be.
   */
  predicate Sound(l: Slot, e: Effect, inflight: bool) {
    && e.slot.bank == l.bank
    && (e.slot.inUse ==> SlotOk(e.slot, inflight))
    && Conserves(l, e)
    && Reports(l, e)
    && (e.slot.txn.writeCookie == 0 || e.slot.txn.writeCookie == l.txn.writeCookie)
    && (Ready(l) && l.txn.active && l.txn.req.kind == Poll && e.rsps != [] ==>
          PollAnswerOk(e.slot.txn, e.rsps[0]))
  }

  /** A callback keeps the discovery token of its generation and never reopens discovery. */
  predicate KeepsCookie(l: Slot, e: Effect) {
    e.slot.cookie == l.cookie && (e.slot.pending ==> l.pending) && (e.slot.inUse ==> l.inUse)
  }

  lemma FailSound(l: Slot, status: Status, nowUs: int)
    requires l.inUse && l.pending && SlotOk(l, false)
    ensures Sound(l, DiscoveryFail(l, status, nowUs), false)
    ensures KeepsCookie(l, DiscoveryFail(l, status, nowUs))
  {
  }

  /** A discovery step either goes on with an updated table, or fails the discovery. */
  predicate Moves(l: Slot, e: Effect, nowUs: int) {
    || e == Quiet(l.(gatt := e.slot.gatt, subscribing := e.slot.subscribing))
    || e == DiscoveryFail(l, GattError, nowUs)
            .(slot := DiscoveryFail(l, GattError, nowUs).slot.(gatt := e.slot.gatt))
  }

  lemma MovesSound(l: Slot, e: Effect, nowUs: int)
    requires l.inUse && l.pending && SlotOk(l, false) && Moves(l, e, nowUs)
    ensures Sound(l, e, false) && KeepsCookie(l, e)
  {
    FailSound(l, GattError, nowUs);
  }

  lemma FailMoves(l: Slot, l1: Slot, nowUs: int)
    requires l.pending && l1 == l.(gatt := l1.gatt, subscribing := l1.subscribing)
    ensures Moves(l, DiscoveryFail(l1, GattError, nowUs), nowUs)
  {
  }

  lemma SubscriptionMoves(l: Slot, l1: Slot, rc: Rc, nowUs: int)
    requires l.pending && l1 == l.(gatt := l1.gatt)
    ensures Moves(l, SubscriptionStart(l1, rc, nowUs), nowUs)
  {
    FailMoves(l, l1.(gatt := l1.gatt.(phase := DscDone), subscribing := true), nowUs);
  }

  lemma SecondaryMoves(l: Slot, l1: Slot, rcDsc: Rc, rcSub: Rc, nowUs: int)
    requires l.pending && l1 == l.(gatt := l1.gatt)
    ensures Moves(l, SecondaryOrSubscribe(l1, rcDsc, rcSub, nowUs), nowUs)
  {
    var l2 := l1.(gatt := l1.gatt.(phase := DscFfe2));
    FailMoves(l, l2, nowUs);
    SubscriptionMoves(l, l2, rcSub, nowUs);
    SubscriptionMoves(l, l1, rcSub, nowUs);
  }

  lemma DescriptorSound(l: Slot, err: Err, chrVal: nat, dsc: Option<Dsc>, rcDsc: Rc, rcSub: Rc,
                        nowUs: int)
    requires l.inUse && l.pending && SlotOk(l, false)
    ensures Sound(l, DescriptorStep(l, err, chrVal, dsc, rcDsc, rcSub, nowUs), false)
    ensures KeepsCookie(l, DescriptorStep(l, err, chrVal, dsc, rcDsc, rcSub, nowUs))
  {
    DescriptorMoves(l, err, chrVal, dsc, rcDsc, rcSub, nowUs);
    MovesSound(l, DescriptorStep(l, err, chrVal, dsc, rcDsc, rcSub, nowUs), nowUs);
  }

  lemma DescriptorMoves(l: Slot, err: Err, chrVal: nat, dsc: Option<Dsc>, rcDsc: Rc, rcSub: Rc,
                        nowUs: int)
    requires l.pending
    ensures Moves(l, DescriptorStep(l, err, chrVal, dsc, rcDsc, rcSub, nowUs), nowUs)
  {
    PrimaryMoves(l, err, dsc, rcDsc, rcSub, nowUs);
    OptionalMoves(l, err, dsc, rcSub, nowUs);
  }

  lemma PrimaryMoves(l: Slot, err: Err, dsc: Option<Dsc>, rcDsc: Rc, rcSub: Rc, nowUs: int)
    requires l.pending
    ensures Moves(l, PrimaryStep(l, err, dsc, rcDsc, rcSub, nowUs), nowUs)
  {
    var l1 := l.(gatt := l.gatt.(cccd := NewCccd(dsc, l.gatt.cccd)));
    FailMoves(l, l, nowUs);
    FailMoves(l, l1, nowUs);
    SecondaryMoves(l, l1, rcDsc, rcSub, nowUs);
  }

  lemma OptionalMoves(l: Slot, err: Err, dsc: Option<Dsc>, rcSub: Rc, nowUs: int)
    requires l.pending
    ensures Moves(l, OptionalStep(l, err, dsc, rcSub, nowUs), nowUs)
  {
    var g := l.gatt;
    FailMoves(l, l, nowUs);
    SubscriptionMoves(l, l.(gatt := g.(ffe2Cccd := 0)), rcSub, nowUs);
    SubscriptionMoves(l, l.(gatt := g.(ffe2Cccd := NewCccd(dsc, g.ffe2Cccd))), rcSub, nowUs);
  }

  lemma ChrTailMoves(l: Slot, g: Gatt, err: Err, rc: Rc, nowUs: int)
    requires l.pending
    ensures Moves(l, ChrTail(l, g, err, rc, nowUs), nowUs)
  {
    FailMoves(l, l.(gatt := g), nowUs);
    FailMoves(l, l.(gatt := g.(phase := DscFfe1)), nowUs);
  }

  lemma ChrSound(l: Slot, err: Err, chr: Option<Chr>, rc: Rc, nowUs: int)
    requires l.inUse && l.pending && SlotOk(l, false)
    ensures Sound(l, ChrStep(l, err, chr, rc, nowUs), false)
    ensures KeepsCookie(l, ChrStep(l, err, chr, rc, nowUs))
  {
    FailMoves(l, l, nowUs);
    ChrTailMoves(l, l.gatt, err, rc, nowUs);
    if chr.Some? && ChrInOrder(l.gatt, chr.value) {
      ChrTailMoves(l, AddChr(l.gatt, chr.value), err, rc, nowUs);
    }
    MovesSound(l, ChrStep(l, err, chr, rc, nowUs), nowUs);
  }

  lemma SvcSound(l: Slot, err: Err, svc: Option<Svc>, rc: Rc, nowUs: int)
    requires l.inUse && l.pending && SlotOk(l, false)
    ensures Sound(l, SvcStep(l, err, svc, rc, nowUs), false)
    ensures KeepsCookie(l, SvcStep(l, err, svc, rc, nowUs))
  {
    FailMoves(l, l, nowUs);
    if svc.Some? {
      FailMoves(l, l.(gatt := l.gatt.(serviceSeen := true, serviceEnd := svc.value.last)), nowUs);
    }
    MovesSound(l, SvcStep(l, err, svc, rc, nowUs), nowUs);
  }

  lemma SubscribeDoneSound(l: Slot, err: Err, attr: Option<nat>, nowUs: int)
    requires l.inUse && l.pending && SlotOk(l, false)
    ensures Sound(l, SubscribeDone(l, err, attr, nowUs), false)
    ensures KeepsCookie(l, SubscribeDone(l, err, attr, nowUs))
  {
    if l.subscribing && (err != ErrOk || attr != Some(l.gatt.cccd)) {
      FailSound(l, GattError, nowUs);
    }
  }

  // ---- What discovery establishes ---------------------------------------------

  /** One range after an accepted characteristic, before that characteristic may replace it. */
  lemma RangeShrinks(chars: seq<Chr>, last: nat, serviceEnd: nat, v: nat, e: nat, c: Chr)
    requires last < c.def < c.val <= serviceEnd
    requires RangeOk(chars, last, serviceEnd, v, e)
    ensures RangeOk(chars + [c], c.val, serviceEnd, v,
                    if v != 0 && v < c.def <= e then c.def - 1 else e)
  {
  }

  /** The range opened by the characteristic itself. */
  lemma RangeOpens(chars: seq<Chr>, last: nat, serviceEnd: nat, c: Chr)
    requires last < c.def < c.val <= serviceEnd && ChrsUpTo(chars, last)
    ensures ChrsUpTo(chars + [c], c.val)
    ensures RangeOk(chars + [c], c.val, serviceEnd, c.val, serviceEnd)
  {
  }

  lemma NarrowOk(g: Gatt, c: Chr)
    requires RangesOk(g) && ChrInOrder(g, c)
    ensures RangesOk(Narrow(g, c))
    ensures RangeOk(Narrow(g, c).chars, c.val, g.serviceEnd, c.val, g.serviceEnd)
  {
    RangeShrinks(g.chars, g.lastChr, g.serviceEnd, g.val, g.ffe1End, c);
    RangeShrinks(g.chars, g.lastChr, g.serviceEnd, g.ffe2, g.ffe2End, c);
    RangeOpens(g.chars, g.lastChr, g.serviceEnd, c);
  }

  /** An accepted characteristic keeps every descriptor range clear of all characteristics. */
  lemma AddChrOk(g: Gatt, c: Chr)
    requires GattOk(g) && g.phase == DscNone && ChrInOrder(g, c)
    ensures GattOk(AddChr(g, c)) && AddChr(g, c).phase == DscNone
  {
    NarrowOk(g, c);
    LastOfAdd(g.chars, c, Ffe1);
    LastOfAdd(g.chars, c, Ffe2);
  }

  /** A failed slot makes no claim about its table. */
  lemma FailTable(l: Slot, status: Status, nowUs: int)
    requires l.pending && !l.ready
    ensures DiscoveryOk(DiscoveryFail(l, status, nowUs).slot, false)
  {
  }

  lemma ChrTable(l: Slot, err: Err, chr: Option<Chr>, rc: Rc, nowUs: int)
    requires l.pending && PhaseOk(l, false) && DiscoveryOk(l, false)
    ensures DiscoveryOk(ChrStep(l, err, chr, rc, nowUs).slot, false)
  {
    if l.gatt.phase == DscNone {
      if chr.Some? && ChrInOrder(l.gatt, chr.value) {
        AddChrOk(l.gatt, chr.value);
        ChrTailTable(l, AddChr(l.gatt, chr.value), err, rc, nowUs);
      } else {
        ChrTailTable(l, l.gatt, err, rc, nowUs);
      }
    }
  }

  lemma ChrTailTable(l: Slot, g: Gatt, err: Err, rc: Rc, nowUs: int)
    requires l.pending && !l.ready && !l.subscribing && GattOk(g) && g.phase == DscNone
    ensures DiscoveryOk(ChrTail(l, g, err, rc, nowUs).slot, false)
  {
  }

  lemma SvcTable(l: Slot, err: Err, svc: Option<Svc>, rc: Rc, nowUs: int)
    requires l.pending && PhaseOk(l, false) && DiscoveryOk(l, false)
    ensures DiscoveryOk(SvcStep(l, err, svc, rc, nowUs).slot, false)
  {
  }

  lemma SubscriptionTable(l: Slot, rc: Rc, nowUs: int)
    requires l.pending && !l.ready && GattOk(l.gatt.(phase := DscDone))
    ensures DiscoveryOk(SubscriptionStart(l, rc, nowUs).slot, false)
  {
    FailTable(l.(gatt := l.gatt.(phase := DscDone), subscribing := true), GattError, nowUs);
  }

  lemma SecondaryTable(l: Slot, rcDsc: Rc, rcSub: Rc, nowUs: int)
    requires l.pending && !l.ready && !l.subscribing && GattOk(l.gatt)
    requires l.gatt.phase == DscFfe1 && l.gatt.cccd != 0
    ensures DiscoveryOk(SecondaryOrSubscribe(l, rcDsc, rcSub, nowUs).slot, false)
  {
    var g := l.gatt;
    if g.ffe2 != 0 && g.ffe2Props.notify && g.ffe2End > g.ffe2 {
      var l1 := l.(gatt := g.(phase := DscFfe2));
      if rcDsc == RcNotConn {
        FailTable(l1, GattError, nowUs);
      } else if rcDsc == RcOther {
        SubscriptionTable(l1, rcSub, nowUs);
      }
    } else {
      SubscriptionTable(l, rcSub, nowUs);
    }
  }

  lemma DescriptorTable(l: Slot, err: Err, chrVal: nat, dsc: Option<Dsc>, rcDsc: Rc, rcSub: Rc,
                        nowUs: int)
    requires l.pending && PhaseOk(l, false) && DiscoveryOk(l, false)
    ensures DiscoveryOk(DescriptorStep(l, err, chrVal, dsc, rcDsc, rcSub, nowUs).slot, false)
  {
    if l.gatt.phase == DscFfe1 {
      PrimaryTable(l, err, dsc, rcDsc, rcSub, nowUs);
    } else if l.gatt.phase == DscFfe2 {
      OptionalTable(l, err, dsc, rcSub, nowUs);
    }
  }

  /** FFE1: the accepted CCCD lies after the value and inside its range. */
  lemma PrimaryTable(l: Slot, err: Err, dsc: Option<Dsc>, rcDsc: Rc, rcSub: Rc, nowUs: int)
    requires l.pending && PhaseOk(l, false) && DiscoveryOk(l, false) && l.gatt.phase == DscFfe1
    ensures DiscoveryOk(PrimaryStep(l, err, dsc, rcDsc, rcSub, nowUs).slot, false)
  {
    var g := l.gatt;
    var l1 := l.(gatt := g.(cccd := NewCccd(dsc, g.cccd)));
    if err == ErrDone && !BadCccd(dsc, g.val, g.ffe1End, g.cccd) && l1.gatt.cccd != 0 {
      SecondaryTable(l1, rcDsc, rcSub, nowUs);
    }
  }

  /** FFE2, whose descriptors are optional. */
  lemma OptionalTable(l: Slot, err: Err, dsc: Option<Dsc>, rcSub: Rc, nowUs: int)
    requires l.pending && PhaseOk(l, false) && DiscoveryOk(l, false) && l.gatt.phase == DscFfe2
    ensures DiscoveryOk(OptionalStep(l, err, dsc, rcSub, nowUs).slot, false)
  {
    var g := l.gatt;
    if err == ErrOther {
      SubscriptionTable(l.(gatt := g.(ffe2Cccd := 0)), rcSub, nowUs);
    } else if err == ErrDone && !BadCccd(dsc, g.ffe2, g.ffe2End, g.ffe2Cccd) {
      SubscriptionTable(l.(gatt := g.(ffe2Cccd := NewCccd(dsc, g.ffe2Cccd))), rcSub, nowUs);
    }
  }

  lemma SubscribeDoneTable(l: Slot, err: Err, attr: Option<nat>, nowUs: int)
    requires l.pending && PhaseOk(l, false) && DiscoveryOk(l, false)
    ensures DiscoveryOk(SubscribeDone(l, err, attr, nowUs).slot, false)
  {
  }

  lemma ConnectTable(l: Slot, handle: Option<nat>, cookie: nat, rc: Rc, nowUs: int)
    requires PhaseOk(l, true) && DiscoveryOk(l, true)
    ensures DiscoveryOk(ConnectEvent(l, handle, cookie, rc, nowUs).slot, false)
  {
  }

  lemma ConnectSound(l: Slot, handle: Option<nat>, cookie: nat, rc: Rc, nowUs: int)
    requires l.inUse && SlotOk(l, true)
    ensures Sound(l, ConnectEvent(l, handle, cookie, rc, nowUs), false)
    ensures handle.Some? ==> ConnectEvent(l, handle, cookie, rc, nowUs).slot.cookie == cookie
    ensures handle.None? ==> !ConnectEvent(l, handle, cookie, rc, nowUs).slot.inUse
  {
  }

  lemma DisconnectSound(l: Slot)
    requires l.inUse
    ensures Sound(l, DisconnectEvent(l), false) && KeepsCookie(l, DisconnectEvent(l))
  {
  }

  /** What one frame guarantees. */
  predicate FrameOk(l: Slot, e: Effect) {
    && Sound(l, e, false) && KeepsCookie(l, e)
    && e.slot.inUse && e.link.None? && PollFieldsKept(l.txn, e.slot.txn)
  }

  lemma FrameSound(l: Slot, rec: Record)
    requires l.inUse && SlotOk(l, false)
    ensures FrameOk(l, FrameDone(l, rec))
  {
    if Wanted(l, rec) {
      WantedSound(l, rec);
    } else {
      UnwantedSound(l, rec);
    }
  }

  lemma WantedSound(l: Slot, rec: Record)
    requires l.inUse && SlotOk(l, false) && Wanted(l, rec)
    ensures FrameOk(l, FrameDone(l, rec))
  {
    assert l.ready;
  }

  lemma UnwantedSound(l: Slot, rec: Record)
    requires l.inUse && SlotOk(l, false) && !Wanted(l, rec)
    ensures FrameOk(l, FrameDone(l, rec))
  {
  }

  /** Fields on which a poll's answer depends only grow more favourable as frames arrive. */
  predicate PollFieldsKept(t: Txn, t': Txn) {
    && t'.want == t.want && t'.usedRequest == t.usedRequest && t'.acked == t.acked
    && (t.heard ==> t'.heard)
  }

  /** Several frames in one chunk still answer the poll at most once. */
  lemma {:induction false} FramesSound(l: Slot, frames: seq<seq<Byte>>)
    requires l.inUse && SlotOk(l, false)
    ensures Sound(l, FramesDone(l, frames), false) && KeepsCookie(l, FramesDone(l, frames))
    ensures FramesDone(l, frames).slot.inUse && FramesDone(l, frames).link.None?
    ensures PollFieldsKept(l.txn, FramesDone(l, frames).slot.txn)
    decreases |frames|
  {
    if frames != [] {
      var e := FrameDone(l, RecordOf(frames[0]));
      FrameSound(l, RecordOf(frames[0]));
      FramesSound(e.slot, frames[1..]);
      JoinSound(l, e, FramesDone(e.slot, frames[1..]));
    }
  }

  /** Two frame effects in a row make one. */
  lemma JoinSound(l: Slot, e: Effect, rest: Effect)
    requires l.inUse && SlotOk(l, false)
    requires Sound(l, e, false) && KeepsCookie(l, e) && e.slot.inUse && e.link.None?
    requires Sound(e.slot, rest, false) && KeepsCookie(e.slot, rest)
    requires rest.slot.inUse && rest.link.None?
    requires PollFieldsKept(l.txn, e.slot.txn) && PollFieldsKept(e.slot.txn, rest.slot.txn)
    ensures Sound(l, rest.(noted := true, rsps := e.rsps + rest.rsps), false)
    ensures KeepsCookie(l, rest.(noted := true, rsps := e.rsps + rest.rsps))
    ensures PollFieldsKept(l.txn, rest.slot.txn)
  {
    if e.rsps == [] {
      assert e.rsps + rest.rsps == rest.rsps;
    } else {
      assert e.rsps + rest.rsps == e.rsps;
    }
  }

  lemma NotifySound(l: Slot, data: seq<Byte>)
    requires l.inUse && SlotOk(l, false)
    ensures Sound(l, NotifyChunk(l, data), false) && KeepsCookie(l, NotifyChunk(l, data))
    ensures NotifyChunk(l, data).slot.inUse && NotifyChunk(l, data).link.None?
  {
    var o := Feed(Out(l.reasm, []), data);
    FramesSound(l.(reasm := o.next), o.frames);
  }

  lemma WriteDoneSound(l: Slot, err: Err, attr: Option<nat>, cookie: nat)
    requires l.inUse && SlotOk(l, false)
    ensures Sound(l, WriteDone(l, err, attr, cookie), false)
    ensures KeepsCookie(l, WriteDone(l, err, attr, cookie))
  {
  }

  lemma SweepSound(l: Slot, nowUs: int, inflight: bool)
    requires l.inUse && SlotOk(l, inflight)
    ensures Sound(l, SweepSlot(l, nowUs), inflight) && KeepsCookie(l, SweepSlot(l, nowUs))
    ensures SweepSlot(l, nowUs).slot.inUse
  {
    if l.pending && l.txn.active && l.txn.req.kind == Connect {
      FailSound(l, Timeout, nowUs);
    }
  }
}
