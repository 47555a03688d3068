/**
 The boot-verify round of Node A's supervisor: once per boot, each bank in turn is raised and must
 produce a frame; the verdicts are published once.

 `starts`, `evidence` and `published` are bookkeeping of this model: when each concluded bank was
 started, the frame time stamp read when it was concluded, and every publication made.
 */
module VerifyRound {
  import opened Prelude
  import opened StateCache

  datatype Verdict = Parked | Fine | NoFrames | NoConnect

  const SETTLE_US: int := 20_000_000
  const LIMIT_US: int := 45_000_000
  const DRIVE_US: int := 5_000_000

  /** `next` is -1 before the round starts, then the bank being verified. */
  datatype Round = Round(
    next: int,
    done: bool,
    startUs: int,
    driveUs: int,
    results: seq<Option<Verdict>>,
    starts: seq<int>,
    evidence: seq<int>,
    published: seq<seq<Option<Verdict>>>)

  function Fresh(units: nat): Round {
    Round(-1, false, 0, 0, seq(units, _ => None), [], [], [])
  }

  /** What one supervisor pass sees: the time, the radio switch, MQTT, and every bank's record. */
  datatype Pass = Pass(nowUs: int, enabled: bool, mqttUp: bool, rts: seq<Runtime>)

  /** The verdict for the current bank, if it can be concluded. */
  function Judge(parked: bool, rt: Runtime, startUs: int, nowUs: int): Option<Verdict> {
    if parked then Some(Parked)
    else if rt.lastFrameUs > startUs then Some(Fine)
    else if nowUs - startUs > LIMIT_US then Some(if rt.linkHeld then NoFrames else NoConnect)
    else None
  }

  /** The round starts once MQTT is up and the boot has settled. */
  function Begin(v: Round, p: Pass): Round {
    if v.next < 0 && p.mqttUp && p.nowUs >= SETTLE_US then v.(next := 0, startUs := p.nowUs) else v
  }

  /** `verify_tick`. */
  function Tick(v: Round, parked: seq<bool>, p: Pass): Round
    requires |parked| == |v.results| == |p.rts|
  {
    if v.done || !p.enabled then v
    else
      var b := Begin(v, p);
      if b.next < 0 then b
      else if b.next >= |b.results| then b.(done := true, published := b.published + [b.results])
      else
        match Judge(parked[b.next], p.rts[b.next], b.startUs, p.nowUs)
        case Some(r) =>
          b.(results := b.results[b.next := Some(r)], next := b.next + 1, startUs := p.nowUs,
             starts := b.starts + [b.startUs], evidence := b.evidence + [p.rts[b.next].lastFrameUs])
        case None => if p.nowUs - b.driveUs > DRIVE_US then b.(driveUs := p.nowUs) else b
  }

  function Ticks(v: Round, parked: seq<bool>, ps: seq<Pass>): (v': Round)
    requires |parked| == |v.results| && forall i :: 0 <= i < |ps| ==> |ps[i].rts| == |v.results|
    ensures |v'.results| == |v.results|
    decreases |ps|
  {
    if ps == [] then v else Tick(Ticks(v, parked, ps[..|ps| - 1]), parked, ps[|ps| - 1])
  }

  /** Banks below `next` are concluded, in order; a fine bank has a frame after its own start. */
  predicate RoundOk(v: Round, parked: seq<bool>) {
    && |parked| == |v.results|
    && -1 <= v.next <= |v.results|
    && |v.starts| == |v.evidence| == (if v.next < 0 then 0 else v.next)
    && (forall b :: 0 <= b < |v.results| ==> (v.results[b].Some? <==> b < v.next))
    && (forall b :: 0 <= b < |v.starts| ==>
                      && v.starts[b] >= SETTLE_US
                      && (v.results[b] == Some(Fine) ==> v.evidence[b] > v.starts[b])
                      && (v.results[b] == Some(Parked) <==> parked[b]))
    && (v.next >= 0 ==> v.startUs >= SETTLE_US)
    && (v.done ==> v.next == |v.results| && v.published == [v.results])
    && (!v.done ==> v.published == [])
  }

  lemma TickKeeps(v: Round, parked: seq<bool>, p: Pass)
    requires RoundOk(v, parked) && |p.rts| == |v.results|
    requires v.next >= 0 ==> p.nowUs >= v.startUs
    ensures RoundOk(Tick(v, parked, p), parked)
  {
  }

  /** Time does not run backwards along the passes. */
  ghost predicate Ordered(ps: seq<Pass>) {
    forall i, j :: 0 <= i < j < |ps| ==> ps[i].nowUs <= ps[j].nowUs
  }

  /** The current bank was started at some pass already made. */
  lemma {:induction false} RoundInvariant(units: nat, parked: seq<bool>, ps: seq<Pass>)
    requires |parked| == units && Ordered(ps)
    requires forall i :: 0 <= i < |ps| ==> |ps[i].rts| == units
    ensures RoundOk(Ticks(Fresh(units), parked, ps), parked)
    ensures var v := Ticks(Fresh(units), parked, ps);
            v.next >= 0 ==> ps != [] && v.startUs <= ps[|ps| - 1].nowUs
    decreases |ps|
  {
    if ps != [] {
      var front := ps[..|ps| - 1];
      assert forall i :: 0 <= i < |front| ==> front[i] == ps[i];
      RoundInvariant(units, parked, front);
      TickKeeps(Ticks(Fresh(units), parked, front), parked, ps[|ps| - 1]);
    }
  }

  /**
   Over every run of passes: at most one publication, with a verdict for every bank; "ok" only on
   a frame strictly after that bank's own start; and parked exactly for parked banks.
   */
  lemma PublishedOnce(units: nat, parked: seq<bool>, ps: seq<Pass>)
    requires |parked| == units && Ordered(ps)
    requires forall i :: 0 <= i < |ps| ==> |ps[i].rts| == units
    ensures var v := Ticks(Fresh(units), parked, ps);
            && |v.published| <= 1
            && (v.published != [] ==>
                  && v.done && |v.published[0]| == |v.starts| == |v.evidence| == units
                  && forall b :: 0 <= b < units ==>
                       && v.published[0][b].Some?
                       && (v.published[0][b] == Some(Fine) ==> v.evidence[b] > v.starts[b] >= SETTLE_US)
                       && (v.published[0][b] == Some(Parked) <==> parked[b]))
  {
    RoundInvariant(units, parked, ps);
  }

  /** Banks are visited in order, one conclusion per pass, and never revisited. */
  lemma InOrder(v: Round, parked: seq<bool>, p: Pass)
    requires RoundOk(v, parked) && |p.rts| == |v.results|
    ensures var v' := Tick(v, parked, p);
            && v.next <= v'.next <= (if v.next < 0 then 1 else v.next + 1)
            && (forall b :: 0 <= b < v.next ==> v'.results[b] == v.results[b])
  {
  }

  /**
   What an enabled pass makes of the current bank, in figures: parked for a bank without a name; ok with a
   frame later than its start; after more than 45 s no_frames with the link held and no_connect
   without; and otherwise nothing yet.
   */
  lemma VerdictExact(v: Round, parked: seq<bool>, p: Pass)
    requires RoundOk(v, parked) && |p.rts| == |v.results|
    requires !v.done && p.enabled && 0 <= v.next < |v.results|
    ensures var b, v' := v.next, Tick(v, parked, p);
            var late := p.nowUs - v.startUs > 45_000_000;
            var heard := p.rts[b].lastFrameUs > v.startUs;
            && (v'.results[b] == Some(Parked) <==> parked[b])
            && (v'.results[b] == Some(Fine) <==> !parked[b] && heard)
            && (v'.results[b] == Some(NoFrames) <==> !parked[b] && !heard && late && p.rts[b].linkHeld)
            && (v'.results[b] == Some(NoConnect) <==> !parked[b] && !heard && late && !p.rts[b].linkHeld)
            && (v'.results[b] == None <==> !parked[b] && !heard && !late)
            && (v'.next == b + 1 <==> v'.results[b].Some?)
            && (v'.next == b + 1 ==> v'.startUs == p.nowUs && v'.starts == v.starts + [v.startUs])
  {
  }

  /** The round starts with bank 0 at the first enabled pass with MQTT up, not before 20 s after boot. */
  lemma StartExact(v: Round, parked: seq<bool>, p: Pass)
    requires RoundOk(v, parked) && |p.rts| == |v.results| && v.next == -1 && !v.done
    ensures p.enabled && p.mqttUp && p.nowUs >= 20_000_000 <==> Tick(v, parked, p).next >= 0
  {
  }

  /** An enabled pass more than 45 s after a bank's start concludes it. */
  lemma ConcludedInTime(v: Round, parked: seq<bool>, p: Pass)
    requires RoundOk(v, parked) && |p.rts| == |v.results|
    requires !v.done && p.enabled && 0 <= v.next < |v.results|
    ensures p.nowUs - v.startUs > LIMIT_US ==> Tick(v, parked, p).next == v.next + 1
    ensures Tick(v, parked, p).next == v.next ==>
              p.nowUs - v.startUs <= LIMIT_US && p.rts[v.next].lastFrameUs <= v.startUs
              && !parked[v.next]
  {
  }

  /** The name under which a result is published. */
  predicate NamedFor(name: string, r: Option<Verdict>) {
    && (name == "ok" <==> r == Some(Fine))
    && (name == "parked" <==> r == Some(Parked))
    && (name == "no_frames" <==> r == Some(NoFrames))
    && (name == "no_connect" <==> r == Some(NoConnect))
    && (name == "skipped" <==> r == None)
  }

  /** This pass ends the round. */
  predicate Publishes(v: Round, p: Pass)
    requires |p.rts| == |v.results|
  {
    !v.done && p.enabled && Begin(v, p).next >= |v.results|
  }

  /** Publication leaves every configured bank that was given up on reachable again. */
  function Promoted(rts: seq<Runtime>, parked: seq<bool>): seq<Runtime>
    requires |parked| == |rts|
  {
    seq(|rts|, i requires 0 <= i < |rts| => if parked[i] then rts[i] else Promote(rts[i]))
  }

  /** The configured banks that are reported reachable on publication. */
  predicate GivenUp(rts: seq<Runtime>, parked: seq<bool>, i: nat)
    requires |parked| == |rts|
  {
    i < |rts| && !parked[i] && !rts[i].linkHeld && rts[i].link == Unreachable
  }

  /** The supervisor's static variables, advanced in place by each pass. */
  class Supervisor {
    const parked: seq<bool>
    var next: int
    var done: bool
    var startUs: int
    var driveUs: int
    var results: seq<Option<Verdict>>
    ghost var starts: seq<int>
    ghost var evidence: seq<int>
    ghost var published: seq<seq<Option<Verdict>>>

    ghost predicate Valid()
      reads this
    {
      |results| == |parked|
    }

    ghost function View(): Round
      reads this
    {
      Round(next, done, startUs, driveUs, results, starts, evidence, published)
    }

    constructor (parked: seq<bool>)
      ensures Valid() && View() == Fresh(|parked|) && this.parked == parked
    {
      this.parked := parked;
      next, done, startUs, driveUs := -1, false, 0, 0;
      results := seq(|parked|, _ => None);
      starts, evidence, published := [], [], [];
    }

    /** The verdict names, "skipped" standing for a bank without one. */
    method Report() returns (names: seq<string>)
      requires Valid()
      ensures |names| == |results|
      ensures forall i :: 0 <= i < |results| ==> NamedFor(names[i], results[i])
    {
      names := [];
      for i := 0 to |results|
        invariant |names| == i
        invariant forall j :: 0 <= j < i ==> NamedFor(names[j], results[j])
      {
        var name := match results[i]
          case None => "skipped"
          case Some(Parked) => "parked"
          case Some(Fine) => "ok"
          case Some(NoFrames) => "no_frames"
          case Some(NoConnect) => "no_connect";
        assert |"no_frames"| == 9 && |"no_connect"| == 10 && |"skipped"| == 7 && |"parked"| == 6 && |"ok"| == 2;
        names := names + [name];
      }
    }

    /** The promotion loop at publication; `told` are the banks whose new state goes to Node B. */
    method PromoteAll(cache: Cache) returns (told: seq<nat>)
      requires |cache.units| == |parked|
      modifies cache
      ensures cache.units == Promoted(old(cache.units), parked)
      ensures forall i: nat :: i in told <==> GivenUp(old(cache.units), parked, i)
    {
      told := [];
      for i := 0 to |parked|
        invariant |cache.units| == |parked|
        invariant forall j :: 0 <= j < i ==> cache.units[j] == Promoted(old(cache.units), parked)[j]
        invariant forall j :: i <= j < |parked| ==> cache.units[j] == old(cache.units)[j]
        invariant forall j: nat :: j in told <==> j < i && GivenUp(old(cache.units), parked, j)
      {
        if !parked[i] {
          var promoted := cache.PromoteUnreachable(i);
          if promoted {
            told := told + [i];
          }
        }
      }
    }

    /** `verify_tick` on the shared table; the poll it may drive is for the current bank. */
    method VerifyTick(cache: Cache, nowUs: int, enabled: bool, mqttUp: bool)
      returns (report: Option<seq<string>>, poll: Option<nat>, told: seq<nat>)
      requires Valid() && |cache.units| == |parked|
      modifies this, cache
      ensures Valid() && View() == Tick(old(View()), parked, Pass(nowUs, enabled, mqttUp, old(cache.units)))
      ensures report.Some? <==> Publishes(old(View()), Pass(nowUs, enabled, mqttUp, old(cache.units)))
      ensures report.Some? <==> !old(done) && done
      ensures report.Some? ==> |report.value| == |results| && forall i :: 0 <= i < |results| ==> NamedFor(report.value[i], results[i])
      ensures cache.units == if report.Some? then Promoted(old(cache.units), parked) else old(cache.units)
      ensures forall i: nat :: i in told <==> report.Some? && GivenUp(old(cache.units), parked, i)
      ensures poll.Some? ==> 0 <= next < |parked| && poll.value == next && driveUs == nowUs
      ensures poll.Some? <==>
                && !old(done) && enabled && next < |parked| && next == (if old(next) < 0 then 0 else old(next))
                && nowUs - old(driveUs) > 5_000_000
    {
      report, poll, told := None, None, [];
      if done || !enabled {
        return;
      }
      if next < 0 {
        if !mqttUp || nowUs < SETTLE_US {
          return;
        }
        next, startUs := 0, nowUs;
      }
      if next >= |parked| {
        var names := Report();
        report := Some(names);
        told := PromoteAll(cache);
        done := true;
        published := published + [results];
        return;
      }
      poll := Conclude(cache.units[next], nowUs);
    }

    /** The current bank is concluded, or driven and left for a later pass. */
    method Conclude(rt: Runtime, nowUs: int) returns (poll: Option<nat>)
      requires Valid() && 0 <= next < |parked|
      modifies this
      ensures Valid() && done == old(done) && published == old(published)
      ensures View() == match Judge(parked[old(next)], rt, old(startUs), nowUs)
                        case Some(r) => old(View()).(results := old(results)[old(next) := Some(r)],
                                                     next := old(next) + 1, startUs := nowUs,
                                                     starts := old(starts) + [old(startUs)],
                                                     evidence := old(evidence) + [rt.lastFrameUs])
                        case None => if nowUs - old(driveUs) > DRIVE_US then old(View()).(driveUs := nowUs)
                                     else old(View())
      ensures poll.Some? ==> poll.value == next == old(next) && driveUs == nowUs
      ensures poll.Some? <==> next == old(next) && nowUs - old(driveUs) > 5_000_000
    {
      poll := None;
      if parked[next] {
        results := results[next := Some(Parked)];
      } else if rt.lastFrameUs > startUs {
        results := results[next := Some(Fine)];
      } else if nowUs - startUs > LIMIT_US {
        results := results[next := Some(if rt.linkHeld then NoFrames else NoConnect)];
      } else {
        if nowUs - driveUs > DRIVE_US {
          driveUs := nowUs;
          poll := Some(next);
        }
        return;
      }
      starts, evidence := starts + [startUs], evidence + [rt.lastFrameUs];
      next, startUs := next + 1, nowUs;
    }
  }
}
