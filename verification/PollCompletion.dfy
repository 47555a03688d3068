/**
 How polls end. A poll on a ready link is answered exactly once, and with OK only if a complete,
 checksum-valid record of the requested type was finished after its submission and, when it was
 sent as a Write Request, its own acknowledgement arrived for the handle it was written to.
 */
module PollCompletion {
  import opened Prelude
  import opened JkFrame
  import opened NodeATypes
  import opened Links
  import opened LinkPool
  import opened PoolInvariant

  /** Slot `l` waits for a poll. */
  predicate Polling(l: Slot) { Ready(l) && l.txn.active && l.txn.req.kind == Poll }

  predicate AnswerAt(l: Slot, t: Txn, q: seq<Response>, k: nat)
    requires k < |q|
  {
    ResponseToken(q[k]) == Token(l.bank, l.txn.req.cmdId) && PollAnswerOk(t, q[k])
  }

  /** The poll is still waited for, or its one answer is in the queue and was due. */
  ghost predicate Outcome(l: Slot, o: Owner, i: nat)
    requires i < |o.slots|
  {
    || (Polling(o.slots[i]) && o.slots[i].txn.req == l.txn.req && o.slots[i].bank == l.bank)
    || (!Holds(o.slots[i]) &&
        exists k :: 0 <= k < |o.rspQ| && AnswerAt(l, o.slots[i].txn, o.rspQ, k))
  }

  lemma Grows(q: seq<Response>, rs: seq<Response>)
    requires |rs| <= 1
    ensures q <= LinkPool.Respond(q, rs)
  {
  }

  /** An effect on any slot respects the poll waiting on slot `i`. */
  lemma EffectOutcome(o: Owner, j: nat, e: Effect, inflight: bool, nowUs: int, i: nat)
    requires i < |o.slots| && j < |o.slots| && Polling(o.slots[i])
    requires |OwnerTokens(o)| <= QUEUE_DEPTH
    requires Sound(o.slots[j], e, inflight)
    ensures Outcome(o.slots[i], Apply(o, j, e, nowUs), i)
  {
    var o' := Apply(o, j, e, nowUs);
    if i == j && !Holds(e.slot) {
      RoomToAnswer(o, i);
      assert e.rsps == [e.rsps[0]];
      OneResponse(o.rspQ, e.rsps[0]);
      assert AnswerAt(o.slots[i], o'.slots[i].txn, o'.rspQ, |o.rspQ|);
    }
  }

  /** Once the answer is queued, effects on other slots leave it there. */
  lemma AnswerStays(l: Slot, o: Owner, j: nat, e: Effect, nowUs: int, i: nat)
    requires i < |o.slots| && j < |o.slots| && j != i && |e.rsps| <= 1
    requires Outcome(l, o, i)
    ensures Outcome(l, Apply(o, j, e, nowUs), i)
  {
    var o' := Apply(o, j, e, nowUs);
    Grows(o.rspQ, e.rsps);
    if !Holds(o.slots[i]) {
      var k :| 0 <= k < |o.rspQ| && AnswerAt(l, o.slots[i].txn, o.rspQ, k);
      assert AnswerAt(l, o'.slots[i].txn, o'.rspQ, k);
    }
  }

  /** What a callback does, as an effect on the one slot it found. */
  lemma CallbackEffect(o: Owner, e: Radio, nowUs: int) returns (hit: Option<nat>, f: Effect)
    requires Pre(o) && !e.SweepDue? && !e.GapConnect?
    ensures hit.None? ==> OnRadio(o, e, nowUs) == o
    ensures hit.Some? ==>
              && hit.value < POOL
              && OnRadio(o, e, nowUs) == Apply(o, hit.value, f, nowUs)
              && Sound(o.slots[hit.value], f, false)
  {
    f := Quiet(FreshSlot(0));
    if e.GapDisconnect? || e.GapNotify? || e.GattWritten? {
      hit := ByConn(o.slots, e.h);
      if hit.Some? {
        f := ConnEffect(o, e, hit.value, nowUs);
      }
    } else {
      hit := if e.cookie == 0 then None else ByCookie(o.slots, e.h, e.cookie);
      if hit.Some? {
        f := GattEffect(o, e, hit.value, nowUs);
      }
    }
  }

  lemma ConnEffect(o: Owner, e: Radio, i: nat, nowUs: int) returns (f: Effect)
    requires Pre(o) && (e.GapDisconnect? || e.GapNotify? || e.GattWritten?)
    requires ByConn(o.slots, e.h) == Some(i)
    ensures i < POOL && OnRadio(o, e, nowUs) == Apply(o, i, f, nowUs) && Sound(o.slots[i], f, false)
  {
    var l := o.slots[i];
    InSlot(o, i);
    match e {
      case GapDisconnect(h) =>
        DisconnectSound(l);
        f := DisconnectEvent(l);
      case GapNotify(h, data) =>
        NotifySound(l, data);
        f := NotifyChunk(l, data);
      case GattWritten(h, err, attr, c) =>
        WriteDoneSound(l, err, attr, c);
        f := WriteDone(l, err, attr, c);
    }
  }

  lemma GattEffect(o: Owner, e: Radio, i: nat, nowUs: int) returns (f: Effect)
    requires Pre(o) && (e.GattSvc? || e.GattChr? || e.GattDsc? || e.GattSubscribed?)
    requires e.cookie != 0 && ByCookie(o.slots, e.h, e.cookie) == Some(i)
    ensures i < POOL && OnRadio(o, e, nowUs) == Apply(o, i, f, nowUs) && Sound(o.slots[i], f, false)
  {
    var l := o.slots[i];
    InSlot(o, i);
    match e {
      case GattSvc(h, err, svc, c, rc) =>
        SvcSound(l, err, svc, rc, nowUs);
        f := SvcStep(l, err, svc, rc, nowUs);
      case GattChr(h, err, chr, c, rc) =>
        ChrSound(l, err, chr, rc, nowUs);
        f := ChrStep(l, err, chr, rc, nowUs);
      case GattDsc(h, err, v, dsc, c, rc1, rc2) =>
        DescriptorSound(l, err, v, dsc, rc1, rc2, nowUs);
        f := DescriptorStep(l, err, v, dsc, rc1, rc2, nowUs);
      case GattSubscribed(h, err, attr, c) =>
        SubscribeDoneSound(l, err, attr, nowUs);
        f := SubscribeDone(l, err, attr, nowUs);
    }
  }

  lemma SweepRsps(l: Slot, nowUs: int)
    ensures |SweepSlot(l, nowUs).rsps| <= 1
  {
  }

  /** Later slots of a sweep leave the outcome alone. */
  lemma {:induction false} SweepLater(l: Slot, o: Owner, nowUs: int, k: nat, i: nat)
    requires i < k <= |o.slots| && Outcome(l, o, i)
    ensures |Sweep(o, nowUs, k).slots| == |o.slots| && Outcome(l, Sweep(o, nowUs, k), i)
    decreases |o.slots| - k
  {
    if k < |o.slots| {
      var e := SweepSlot(o.slots[k], nowUs);
      SweepRsps(o.slots[k], nowUs);
      AnswerStays(l, o, k, e, nowUs, i);
      SweepLater(l, Apply(o, k, e, nowUs), nowUs, k + 1, i);
    }
  }

  /** Earlier slots of a sweep leave the polling slot alone. */
  lemma {:induction false} SweepOutcome(o: Owner, nowUs: int, k: nat, i: nat)
    requires Pre(o) && k <= i < POOL && Polling(o.slots[i])
    ensures |Sweep(o, nowUs, k).slots| == POOL && Outcome(o.slots[i], Sweep(o, nowUs, k), i)
    decreases i - k
  {
    var e := SweepSlot(o.slots[k], nowUs);
    var o1 := Apply(o, k, e, nowUs);
    SweepOneKeeps(o, nowUs, k);
    if k == i {
      InSlot(o, i);
      SweepSound(o.slots[i], nowUs, false);
      EffectOutcome(o, i, e, false, nowUs, i);
      SweepLater(o.slots[i], o1, nowUs, k + 1, i);
    } else {
      SweepOutcome(o1, nowUs, k + 1, i);
    }
  }

  /** Every event of the radio side, from every well-formed state of the owner. */
  lemma PollOutcome(o: Owner, e: Radio, nowUs: int, i: nat)
    requires Pre(o) && RadioEnabled(o, e) && i < POOL && Polling(o.slots[i])
    ensures |OnRadio(o, e, nowUs).slots| == POOL && Outcome(o.slots[i], OnRadio(o, e, nowUs), i)
  {
    if e.SweepDue? {
      SweepOutcome(o, nowUs, 0, i);
    } else if e.GapConnect? {
      InSlot(o, i);
      assert OnRadio(o, e, nowUs).slots[i] == o.slots[i];
    } else {
      var hit, f := CallbackEffect(o, e, nowUs);
      if hit.Some? {
        EffectOutcome(o, hit.value, f, false, nowUs, i);
      }
    }
  }

  /** A poll begins on a ready slot with nothing heard and nothing acknowledged. */
  lemma PollBegins(o: Owner, req: Request, env: ExecEnv, nowUs: int, i: nat)
    requires PreExec(o, req) && req.kind == Poll && i < POOL
    requires ByBank(o.slots, req.bank) == Some(i)
    requires Polling(Exec(o, req, env, nowUs).slots[i]) && !Polling(o.slots[i])
    ensures var t := Exec(o, req, env, nowUs).slots[i].txn;
            t.req == req && Asks(req.opcode, t.want) && !t.heard && !t.acked
  {
  }
}
