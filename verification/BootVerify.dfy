/**
 The boot-verify round on the table it really reads: supervisor passes interleaved with the steps of
 Node A. A published "ok" is traced to the frame it stands for.
 */
module BootVerify {
  import opened Prelude
  import opened StateCache
  import opened NodeA
  import opened VerifyRound
  import opened FrameStamps

  /** One step of Node A, or one supervisor pass. */
  datatype Item = NodeStep(e: Event) | VerifyPass(nowUs: int, enabled: bool, mqttUp: bool)

  /** The steps Node A has made, the round, and the time of the last pass. */
  datatype Course = Course(es: seq<Event>, v: Round, lastUs: int)

  /** The promotions of a publication, as steps of Node A. */
  function Promotions(parked: seq<bool>, n: nat): seq<Event>
    requires n <= |parked|
  {
    if n == 0 then []
    else Promotions(parked, n - 1) + if parked[n - 1] then [] else [PromoteBank(n - 1)]
  }

  /** A pass reads the table of Node A as it is at that moment. */
  function PassNow(units: nat, c: Course, nowUs: int, enabled: bool, mqttUp: bool): (p: Pass)
    ensures |p.rts| == units
  {
    RunLength(units, c.es);
    Pass(nowUs, enabled, mqttUp, Run(Init(units), c.es).o.rt)
  }

  function Play(units: nat, parked: seq<bool>, items: seq<Item>): (c: Course)
    requires |parked| == units
    ensures |c.v.results| == units
    decreases |items|
  {
    if items == [] then Course([], Fresh(units), 0)
    else
      var c := Play(units, parked, items[..|items| - 1]);
      match items[|items| - 1]
      case NodeStep(e) => c.(es := c.es + [e])
      case VerifyPass(nowUs, enabled, mqttUp) =>
        var p := PassNow(units, c, nowUs, enabled, mqttUp);
        Course(if Publishes(c.v, p) then c.es + Promotions(parked, units) else c.es,
               Tick(c.v, parked, p), nowUs)
  }

  /** Passes do not run backwards in time. */
  ghost predicate Timely(units: nat, parked: seq<bool>, items: seq<Item>)
    requires |parked| == units
    decreases |items|
  {
    items == [] ||
    (var front, last := items[..|items| - 1], items[|items| - 1];
     && Timely(units, parked, front)
     && (last.VerifyPass? ==> Play(units, parked, front).lastUs <= last.nowUs))
  }

  /** Every bank judged fine so far had a frame completed after its own start. */
  ghost predicate AllBacked(units: nat, es: seq<Event>, v: Round) {
    forall b :: 0 <= b < |v.starts| && b < |v.results| && v.results[b] == Some(Fine) ==>
                  Backed(Init(units), es, b, v.starts[b])
  }

  lemma BackedStays(units: nat, es: seq<Event>, more: seq<Event>, v: Round)
    requires AllBacked(units, es, v)
    ensures AllBacked(units, es + more, v)
  {
    assert (es + more)[..|es|] == es;
    forall b | 0 <= b < |v.starts| && b < |v.results| && v.results[b] == Some(Fine)
      ensures Backed(Init(units), es + more, b, v.starts[b])
    {
      BackedLonger(Init(units), es + more, |es|, b, v.starts[b]);
    }
  }

  /** Every frame stamp of the table is backed by the run. */
  ghost predicate StampsBacked(units: nat, es: seq<Event>, rts: seq<Runtime>) {
    forall b: nat, t: nat :: b < |rts| && rts[b].lastFrameUs > t ==> Backed(Init(units), es, b, t)
  }

  lemma TableBacked(units: nat, es: seq<Event>)
    ensures StampsBacked(units, es, Run(Init(units), es).o.rt)
  {
    RunLength(units, es);
    forall b: nat, t: nat | b < units && Run(Init(units), es).o.rt[b].lastFrameUs > t
      ensures Backed(Init(units), es, b, t)
    {
      StampBacked(Init(units), es, b, t);
    }
  }

  /** One pass adds at most one verdict, and a fine one is backed. */
  lemma PassBacked(units: nat, parked: seq<bool>, es: seq<Event>, v: Round, p: Pass)
    requires |parked| == units && RoundOk(v, parked) && |p.rts| == units
    requires StampsBacked(units, es, p.rts) && AllBacked(units, es, v)
    requires v.next >= 0 ==> p.nowUs >= v.startUs
    ensures AllBacked(units, es, Tick(v, parked, p))
  {
    var w, v' := Begin(v, p), Tick(v, parked, p);
    forall b | 0 <= b < |v'.starts| && b < |v'.results| && v'.results[b] == Some(Fine)
      ensures Backed(Init(units), es, b, v'.starts[b])
    {
      if b < |v.starts| {
        assert v'.results[b] == v.results[b] && v'.starts[b] == v.starts[b];
      } else {
        assert b == w.next && v'.starts[b] == w.startUs && p.rts[b].lastFrameUs > w.startUs;
      }
    }
  }

  lemma PassKeeps(units: nat, parked: seq<bool>, c: Course, p: Pass)
    requires |parked| == units && RoundOk(c.v, parked) && AllBacked(units, c.es, c.v)
    requires p.rts == Run(Init(units), c.es).o.rt && |p.rts| == units
    requires c.v.next >= 0 ==> p.nowUs >= c.v.startUs
    ensures var v' := Tick(c.v, parked, p);
            && RoundOk(v', parked) && (v'.next >= 0 ==> v'.startUs <= p.nowUs)
            && AllBacked(units, c.es, v') && AllBacked(units, c.es + Promotions(parked, units), v')
  {
    TableBacked(units, c.es);
    TickKeeps(c.v, parked, p);
    PassBacked(units, parked, c.es, c.v, p);
    BackedStays(units, c.es, Promotions(parked, units), Tick(c.v, parked, p));
  }

  lemma {:induction false} RoundBacked(units: nat, parked: seq<bool>, items: seq<Item>)
    requires |parked| == units && Timely(units, parked, items)
    ensures var c := Play(units, parked, items);
            && RoundOk(c.v, parked) && (c.v.next >= 0 ==> c.v.startUs <= c.lastUs)
            && AllBacked(units, c.es, c.v)
    decreases |items|
  {
    if items != [] {
      var front, last := items[..|items| - 1], items[|items| - 1];
      RoundBacked(units, parked, front);
      var c := Play(units, parked, front);
      match last
      case NodeStep(e) => BackedStays(units, c.es, [e], c.v);
      case VerifyPass(nowUs, enabled, mqttUp) =>
        var p := PassNow(units, c, nowUs, enabled, mqttUp);
        PassKeeps(units, parked, c, p);
    }
  }

  /**
   The published round: at most one publication, a verdict for every bank, and for every bank
   reported fine a notification of that very bank which, after the bank's own start, completed
   frames of 300 bytes with valid checksums.
   */
  lemma PublishedIsBacked(units: nat, parked: seq<bool>, items: seq<Item>)
    requires |parked| == units && Timely(units, parked, items)
    ensures var c := Play(units, parked, items);
            && |c.v.published| <= 1
            && (c.v.published != [] ==>
                  && |c.v.published[0]| == |c.v.starts| == units
                  && forall b :: 0 <= b < units ==>
                       && c.v.published[0][b].Some?
                       && (c.v.published[0][b] == Some(Fine) ==> Backed(Init(units), c.es, b, c.v.starts[b])))
  {
    RoundBacked(units, parked, items);
  }

  /** One promotion, as a step of Node A. */
  lemma OnePromotion(units: nat, es: seq<Event>, b: nat)
    requires b < units
    ensures |Run(Init(units), es).o.rt| == units
    ensures var rt := Run(Init(units), es).o.rt;
            Run(Init(units), es + [PromoteBank(b)]).o.rt == rt[b := Promote(rt[b])]
  {
    RunLength(units, es);
    assert (es + [PromoteBank(b)])[..|es|] == es;
  }

  /** The first `n` banks promoted. */
  function PromotedTo(rts: seq<Runtime>, parked: seq<bool>, n: nat): seq<Runtime>
    requires |parked| == |rts|
  {
    seq(|rts|, i requires 0 <= i < |rts| => if i < n && !parked[i] then Promote(rts[i]) else rts[i])
  }

  lemma PromotedNext(rts: seq<Runtime>, parked: seq<bool>, n: nat)
    requires |parked| == |rts| && 0 < n <= |rts|
    ensures var sofar := PromotedTo(rts, parked, n - 1);
            PromotedTo(rts, parked, n) == if parked[n - 1] then sofar else sofar[n - 1 := Promote(sofar[n - 1])]
  {
  }

  lemma {:induction false} PromotionsSoFar(units: nat, parked: seq<bool>, es: seq<Event>, n: nat)
    requires |parked| == units && n <= units
    ensures |Run(Init(units), es).o.rt| == units
    ensures Run(Init(units), es + Promotions(parked, n)).o.rt == PromotedTo(Run(Init(units), es).o.rt, parked, n)
    decreases n
  {
    RunLength(units, es);
    var rt := Run(Init(units), es).o.rt;
    if n == 0 {
      assert es + [] == es;
      assert PromotedTo(rt, parked, 0) == rt;
    } else {
      PromotionsSoFar(units, parked, es, n - 1);
      PromotedNext(rt, parked, n);
      var before := es + Promotions(parked, n - 1);
      if parked[n - 1] {
        assert es + Promotions(parked, n) == before;
      } else {
        assert es + Promotions(parked, n) == before + [PromoteBank(n - 1)];
        OnePromotion(units, before, n - 1);
      }
    }
  }

  /** The promotions of a publication change the table exactly as the supervisor's loop does. */
  lemma PromotionsPromote(units: nat, parked: seq<bool>, es: seq<Event>)
    requires |parked| == units
    ensures |Run(Init(units), es).o.rt| == units
    ensures Run(Init(units), es + Promotions(parked, units)).o.rt == Promoted(Run(Init(units), es).o.rt, parked)
  {
    PromotionsSoFar(units, parked, es, units);
    var rt := Run(Init(units), es).o.rt;
    assert PromotedTo(rt, parked, units) == Promoted(rt, parked);
  }
}
