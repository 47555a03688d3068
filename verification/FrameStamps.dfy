/**
 Where a bank's frame time stamp comes from: in every run of Node A it moves only when a
 notification of that bank completes a whole, checksum-valid frame. This is what makes a "fine"
 verdict of the boot-verify round mean something.
 */
module FrameStamps {
  import opened Prelude
  import opened JkFrame
  import Reassembly
  import opened StateCache
  import opened NodeATypes
  import opened Links
  import opened LinkPool
  import opened NodeA

  /** The time stamps of all banks, and nothing else of their records. */
  predicate SameStamps(rt: seq<Runtime>, rt': seq<Runtime>) {
    |rt'| == |rt| && forall b :: 0 <= b < |rt| ==> rt'[b].lastFrameUs == rt[b].lastFrameUs
  }

  lemma SvcNotesNothing(l: Slot, err: Err, svc: Option<Svc>, rc: Rc, nowUs: int)
    ensures !SvcStep(l, err, svc, rc, nowUs).noted
  {
  }

  lemma ChrNotesNothing(l: Slot, err: Err, chr: Option<Chr>, rc: Rc, nowUs: int)
    ensures !ChrStep(l, err, chr, rc, nowUs).noted
  {
  }

  lemma SubscribeNotesNothing(l: Slot, rc: Rc, rc2: Rc, nowUs: int)
    ensures !SubscriptionStart(l, rc2, nowUs).noted
    ensures !SecondaryOrSubscribe(l, rc, rc2, nowUs).noted
  {
  }

  lemma PrimaryNotesNothing(l: Slot, err: Err, dsc: Option<Dsc>, rc: Rc, rc2: Rc, nowUs: int)
    ensures !PrimaryStep(l, err, dsc, rc, rc2, nowUs).noted
  {
    forall l': Slot ensures !SecondaryOrSubscribe(l', rc, rc2, nowUs).noted {
      SubscribeNotesNothing(l', rc, rc2, nowUs);
    }
  }

  lemma OptionalNotesNothing(l: Slot, err: Err, dsc: Option<Dsc>, rc2: Rc, nowUs: int)
    ensures !OptionalStep(l, err, dsc, rc2, nowUs).noted
  {
    forall l': Slot ensures !SubscriptionStart(l', rc2, nowUs).noted {
      SubscribeNotesNothing(l', RcOk, rc2, nowUs);
    }
  }

  lemma DscNotesNothing(l: Slot, err: Err, chrVal: nat, dsc: Option<Dsc>, rc: Rc, rc2: Rc, nowUs: int)
    ensures !DescriptorStep(l, err, chrVal, dsc, rc, rc2, nowUs).noted
  {
    PrimaryNotesNothing(l, err, dsc, rc, rc2, nowUs);
    OptionalNotesNothing(l, err, dsc, rc2, nowUs);
  }

  lemma OthersNoteNothing(l: Slot, handle: Option<nat>, cookie: nat, err: Err, attr: Option<nat>, rc: Rc, nowUs: int)
    ensures !ConnectEvent(l, handle, cookie, rc, nowUs).noted
    ensures !DisconnectEvent(l).noted
    ensures !WriteDone(l, err, attr, cookie).noted
    ensures !SweepSlot(l, nowUs).noted
  {
  }

  lemma SubmitNotesNothing(l: Slot, req: Request, handle: nat, useRequest: bool, want: Record,
                           tok: Option<nat>, rc: Rc, nowUs: int)
    ensures !SubmitWrite(l, req, handle, useRequest, want, tok, rc, nowUs).noted
  {
  }

  lemma HeardKeepsBank(l: Slot, rec: Record)
    ensures Heard(l, rec).bank == l.bank
  {
  }

  lemma PollKeepsBank(l: Slot)
    ensures CompletePoll(l).slot.bank == l.bank
  {
  }

  lemma FrameKeepsBank(l: Slot, rec: Record)
    ensures FrameDone(l, rec).slot.bank == l.bank
  {
    HeardKeepsBank(l, rec);
    var l1 := Heard(l, rec);
    if Wanted(l, rec) {
      PollKeepsBank(l1);
    } else {
      assert Quiet(l1).slot == l1;
    }
  }

  lemma {:induction false} FramesNoted(l: Slot, frames: seq<seq<Byte>>)
    ensures FramesDone(l, frames).noted <==> frames != []
    ensures FramesDone(l, frames).slot.bank == l.bank
    decreases |frames|
  {
    if frames != [] {
      FrameKeepsBank(l, RecordOf(frames[0]));
      FramesNoted(FrameDone(l, RecordOf(frames[0])).slot, frames[1..]);
    }
  }

  /** Reporting without a noted frame leaves every stamp alone. */
  lemma ReportStamps(rt: seq<Runtime>, b: nat, link: Option<LinkState>, noted: bool, nowUs: int)
    ensures !noted ==> SameStamps(rt, Report(rt, b, link, noted, nowUs))
    ensures forall k :: 0 <= k < |rt| ==>
              Report(rt, b, link, noted, nowUs)[k].lastFrameUs
              == if noted && k == b && nowUs > rt[k].lastFrameUs then nowUs else rt[k].lastFrameUs
  {
  }

  lemma {:induction false} SweepStamps(o: Owner, nowUs: int, i: nat)
    requires i <= |o.slots|
    ensures SameStamps(o.rt, Sweep(o, nowUs, i).rt)
    decreases |o.slots| - i
  {
    if i < |o.slots| {
      var e := SweepSlot(o.slots[i], nowUs);
      OthersNoteNothing(o.slots[i], None, 0, ErrOk, None, RcOk, nowUs);
      ReportStamps(o.rt, e.slot.bank, e.link, e.noted, nowUs);
      SweepStamps(Apply(o, i, e, nowUs), nowUs, i + 1);
    }
  }

  /** Discovery callbacks. */
  lemma DiscoveryStamps(o: Owner, e: Radio, nowUs: int)
    requires e.GattSvc? || e.GattChr? || e.GattDsc? || e.GattSubscribed?
    ensures SameStamps(o.rt, OnRadio(o, e, nowUs).rt)
  {
    var i := if e.cookie == 0 then None else ByCookie(o.slots, e.h, e.cookie);
    if i.Some? {
      var l := o.slots[i.value];
      var f := match e
        case GattSvc(_, err, svc, _, rc) => SvcStep(l, err, svc, rc, nowUs)
        case GattChr(_, err, chr, _, rc) => ChrStep(l, err, chr, rc, nowUs)
        case GattDsc(_, err, v, dsc, _, rc1, rc2) => DescriptorStep(l, err, v, dsc, rc1, rc2, nowUs)
        case GattSubscribed(_, err, attr, _) => SubscribeDone(l, err, attr, nowUs);
      match e {
        case GattSvc(_, err, svc, _, rc) => SvcNotesNothing(l, err, svc, rc, nowUs);
        case GattChr(_, err, chr, _, rc) => ChrNotesNothing(l, err, chr, rc, nowUs);
        case GattDsc(_, err, v, dsc, _, rc1, rc2) => DscNotesNothing(l, err, v, dsc, rc1, rc2, nowUs);
        case GattSubscribed(_, _, _, _) =>
      }
      ReportStamps(o.rt, f.slot.bank, f.link, f.noted, nowUs);
    }
  }

  /** Everything else but a notification. */
  lemma OtherStamps(o: Owner, e: Radio, nowUs: int)
    requires e.SweepDue? || e.GapConnect? || e.GapDisconnect? || e.GattWritten?
    ensures SameStamps(o.rt, OnRadio(o, e, nowUs).rt)
  {
    match e
    case SweepDue => SweepStamps(o, nowUs, 0);
    case GapConnect(i, h, rc) =>
      if i < |o.slots| {
        forall cookie ensures SameStamps(o.rt, ConnectReport(o, i, h, cookie, rc, nowUs)) {
          var f := ConnectEvent(o.slots[i], h, cookie, rc, nowUs);
          OthersNoteNothing(o.slots[i], h, cookie, ErrOk, None, rc, nowUs);
          ReportStamps(o.rt, f.slot.bank, f.link, f.noted, nowUs);
        }
        var ctr := if h.Some? then NextCookie(o.discCtr) else o.discCtr;
        assert SameStamps(o.rt, ConnectReport(o, i, h, ctr, rc, nowUs));
      }
    case GapDisconnect(h) =>
      var i := ByConn(o.slots, h);
      if i.Some? {
        var f := DisconnectEvent(o.slots[i.value]);
        OthersNoteNothing(o.slots[i.value], None, 0, ErrOk, None, RcOk, nowUs);
        ReportStamps(o.rt, f.slot.bank, f.link, f.noted, nowUs);
      }
    case GattWritten(h, err, attr, cookie) =>
      var i := ByConn(o.slots, h);
      if i.Some? {
        var f := WriteDone(o.slots[i.value], err, attr, cookie);
        OthersNoteNothing(o.slots[i.value], None, cookie, err, attr, RcOk, nowUs);
        ReportStamps(o.rt, f.slot.bank, f.link, f.noted, nowUs);
      }
  }

  function ConnectReport(o: Owner, i: nat, h: Option<nat>, cookie: nat, rc: Rc, nowUs: int): seq<Runtime>
    requires i < |o.slots|
  {
    var f := ConnectEvent(o.slots[i], h, cookie, rc, nowUs);
    Report(o.rt, f.slot.bank, f.link, f.noted, nowUs)
  }

  /** Executing a request notes no frame. */
  lemma ExecStamps(o: Owner, req: Request, env: ExecEnv, nowUs: int)
    ensures SameStamps(o.rt, Exec(o, req, env, nowUs).rt)
  {
    var l := ByBank(o.slots, req.bank);
    if l.Some? {
      OnLinkStamps(o, l.value, req, env, nowUs);
    }
  }

  lemma OnLinkStamps(o: Owner, i: nat, req: Request, env: ExecEnv, nowUs: int)
    requires i < |o.slots|
    ensures SameStamps(o.rt, ExecOnLink(o, i, req, env, nowUs).rt)
  {
    var g := o.slots[i].gatt;
    var ffe2 := req.idx == 1 && g.ffe2 != 0;
    match req.kind
    case Poll =>
      SubmitStamps(o, i, req, g.val, Ffe1UsesRequest(g), Expected(req.opcode), env.rcWrite, nowUs);
    case RawWrite =>
      SubmitStamps(o, i, req, if ffe2 then g.ffe2 else g.val,
                   if ffe2 then Ffe2UsesRequest(g) else Ffe1UsesRequest(g), NoRecord, env.rcWrite, nowUs);
    case BalanceWrite =>
      SubmitStamps(o, i, req, g.val, Ffe1UsesRequest(g), NoRecord, env.rcWrite, nowUs);
    case _ =>
  }

  lemma SubmitStamps(o: Owner, i: nat, req: Request, handle: nat, useRequest: bool, want: Record, rc: Rc, nowUs: int)
    requires i < |o.slots|
    ensures SameStamps(o.rt, Submit(o, i, req, handle, useRequest, want, rc, nowUs).rt)
  {
    var e := SubmitWrite(o.slots[i], req, handle, useRequest, want, WriteToken(o), rc, nowUs);
    SubmitNotesNothing(o.slots[i], req, handle, useRequest, want, WriteToken(o), rc, nowUs);
    ReportStamps(o.rt, e.slot.bank, e.link, e.noted, nowUs);
  }

  // ---- Runs ---------------------------------------------------------------------------------

  /** There are frames, each of 300 bytes, with the magic and a valid checksum. */
  predicate Whole(frames: seq<seq<Byte>>) {
    frames != [] && forall k :: 0 <= k < |frames| ==> ValidFrame(frames[k])
  }

  /** What the reassembler delivers is whole, whatever the stream before it. */
  lemma DeliveredWhole(r: Reassembly.Machine, data: seq<Byte>)
    ensures var frames := Reassembly.Feed(Reassembly.Out(r, []), data).frames;
            frames != [] ==> Whole(frames)
  {
    Reassembly.DeliveredComplete(Reassembly.Out(r, []), data, 0, |data|);
  }

  /** In state `s`, event `e` is a notification of bank `b`, after time `t`, that completes valid frames. */
  predicate CompletesFrame(s: Sys, e: Event, b: nat, t: int) {
    && e.BleRadio? && e.r.GapNotify? && e.nowUs > t
    && var i := ByConn(s.o.slots, e.r.h);
       && i.Some? && s.o.slots[i.value].bank == b
       && Whole(Reassembly.Feed(Reassembly.Out(s.o.slots[i.value].reasm, []), e.r.data).frames)
  }

  lemma NotifyStamps(o: Owner, h: nat, data: seq<Byte>, nowUs: int, b: nat)
    requires b < |o.rt|
    ensures var r := OnNotify(o, h, data, nowUs).rt;
            && |r| == |o.rt|
            && (r[b].lastFrameUs != o.rt[b].lastFrameUs ==>
                  var i := ByConn(o.slots, h);
                  && r[b].lastFrameUs == nowUs
                  && i.Some? && o.slots[i.value].bank == b
                  && Whole(Reassembly.Feed(Reassembly.Out(o.slots[i.value].reasm, []), data).frames))
  {
    var i := ByConn(o.slots, h);
    if i.Some? {
      var l := o.slots[i.value];
      var out := Reassembly.Feed(Reassembly.Out(l.reasm, []), data);
      var e := NotifyChunk(l, data);
      FramesNoted(l.(reasm := out.next), out.frames);
      DeliveredWhole(l.reasm, data);
      ReportStamps(o.rt, e.slot.bank, e.link, e.noted, nowUs);
    }
  }

  /** An update of a record without a frame moves no frame stamp. */
  lemma UpdateStamps(s: Sys, b: nat, u: Update)
    requires b < |s.o.rt| && !u.FrameUpdate?
    ensures SameStamps(s.o.rt, UpdateRt(s, b, u).o.rt)
  {
  }

  lemma HandleStamps(s: Sys, m: Msg, nowUs: int)
    ensures SameStamps(s.o.rt, Handle(s, m, nowUs).o.rt)
  {
    var b := MsgBank(m);
    if b < |s.pend| && b < |s.o.rt| && m.AppMsg? {
      UpdateStamps(s, b, AppUpdate(m.connected, nowUs));
    }
  }

  lemma ReleaseStamps(s: Sys, verifyWants: bool, nowUs: int)
    ensures SameStamps(s.o.rt, ReleasePass(s, verifyWants, nowUs).o.rt)
  {
    if s.snap.Some? && s.snap.value.bank < |s.o.rt| {
      UpdateStamps(s, s.snap.value.bank, AppLeftUpdate(s.snap.value.rt.appLeftUs));
    }
  }

  lemma GuardStamps(s: Sys, b: nat, nowUs: int)
    ensures SameStamps(s.o.rt, GuardPass(s, b, nowUs).o.rt)
  {
    if b < |s.pend| && b < |s.o.rt| {
      UpdateStamps(s, b, IdleUpdate);
    }
  }

  /** The steps of the arbiter and the supervisor move no frame stamp. */
  lemma OffRadioStamps(s: Sys, e: Event)
    requires !e.BleExec? && !e.BleRadio?
    ensures SameStamps(s.o.rt, Step(s, e).o.rt)
  {
    match e
    case ArbMessage(now) =>
      if s.arbIn != [] {
        HandleStamps(s.(arbIn := s.arbIn[1..]), s.arbIn[0], now);
      }
    case IdleRelease(v, now) => ReleaseStamps(s, v, now);
    case ArbGuard(b, now) => GuardStamps(s, b, now);
    case PromoteBank(b) => if b < |s.o.rt| { UpdateStamps(s, b, PromoteUpdate); }
    case _ =>
  }

  lemma LengthKept(s: Sys, e: Event)
    ensures |Step(s, e).o.rt| == |s.o.rt|
  {
    if s.o.rt != [] {
      StepStamps(s, e, 0, s.o.rt[0].lastFrameUs);
    } else if e.BleRadio? && e.r.SweepDue? {
      SweepStamps(s.o, e.nowUs, 0);
    } else if e.BleExec? && s.reqQ != [] {
      ExecStamps(s.o, s.reqQ[0], e.env, e.nowUs);
    }
  }

  /** One step moves a stamp past `t` only by completing a frame. */
  lemma StepStamps(s: Sys, e: Event, b: nat, t: int)
    requires b < |s.o.rt| && s.o.rt[b].lastFrameUs <= t
    ensures |Step(s, e).o.rt| == |s.o.rt|
    ensures Step(s, e).o.rt[b].lastFrameUs > t ==> CompletesFrame(s, e, b, t)
  {
    if e.BleRadio? {
      if e.r.GapNotify? {
        NotifyStamps(s.o, e.r.h, e.r.data, e.nowUs, b);
      } else if e.r.SweepDue? || e.r.GapConnect? || e.r.GapDisconnect? || e.r.GattWritten? {
        OtherStamps(s.o, e.r, e.nowUs);
      } else {
        DiscoveryStamps(s.o, e.r, e.nowUs);
      }
    } else if e.BleExec? {
      if s.reqQ != [] {
        ExecStamps(s.o, s.reqQ[0], e.env, e.nowUs);
      }
    } else {
      OffRadioStamps(s, e);
    }
  }

  /** Some event of the run completed a frame of bank `b` after `t`. */
  ghost predicate Backed(s: Sys, es: seq<Event>, b: nat, t: int) {
    exists n :: 0 <= n < |es| && CompletesFrame(Run(s, es[..n]), es[n], b, t)
  }

  lemma BackedLonger(s: Sys, es: seq<Event>, m: nat, b: nat, t: int)
    requires m <= |es| && Backed(s, es[..m], b, t)
    ensures Backed(s, es, b, t)
  {
    var n :| 0 <= n < m && CompletesFrame(Run(s, es[..m][..n]), es[..m][n], b, t);
    assert es[..m][..n] == es[..n];
  }

  /** The last step takes the stamp past `t`, or it stays where it is. */
  lemma Crosses(s: Sys, es: seq<Event>, m: nat, b: nat, t: int)
    requires |es| == m + 1 && b < |Run(s, es[..m]).o.rt| && Run(s, es[..m]).o.rt[b].lastFrameUs <= t
    ensures |Run(s, es).o.rt| == |Run(s, es[..m]).o.rt|
    ensures Run(s, es).o.rt[b].lastFrameUs > t ==> Backed(s, es, b, t)
  {
    StepStamps(Run(s, es[..m]), es[m], b, t);
  }

  lemma LastLengthKept(s: Sys, es: seq<Event>, m: nat)
    requires |es| == m + 1
    ensures |Run(s, es).o.rt| == |Run(s, es[..m]).o.rt|
  {
    LengthKept(Run(s, es[..m]), es[m]);
  }

  /** Over a run: a stamp past `t` was put there by a completed frame after `t`. */
  lemma {:induction false} StampBacked(s: Sys, es: seq<Event>, b: nat, t: int)
    requires b < |s.o.rt| && s.o.rt[b].lastFrameUs <= t
    ensures |Run(s, es).o.rt| == |s.o.rt|
    ensures Run(s, es).o.rt[b].lastFrameUs > t ==> Backed(s, es, b, t)
    decreases |es|
  {
    if es != [] {
      var m := |es| - 1;
      StampBacked(s, es[..m], b, t);
      if Run(s, es[..m]).o.rt[b].lastFrameUs > t {
        BackedLonger(s, es, m, b, t);
        LastLengthKept(s, es, m);
      } else {
        Crosses(s, es, m, b, t);
      }
    }
  }

  /** The table keeps its length along a run. */
  lemma {:induction false} RunLength(units: nat, es: seq<Event>)
    ensures |Run(Init(units), es).o.rt| == units
    decreases |es|
  {
    if es != [] {
      RunLength(units, es[..|es| - 1]);
      LastLengthKept(Init(units), es, |es| - 1);
    }
  }
}
