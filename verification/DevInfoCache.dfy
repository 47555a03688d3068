/**
 Node B's device-info cache: the richest frame wins, and a copy survives in flash.

 Frames are offered one after the other by the tunnel task. Whether a flash write succeeds is a
 parameter of each offer.
 */
module DevInfoCache {
  import opened Prelude
  import opened JkFrame

  const SCORE_FROM: nat := 38
  const SCORE_TO: nat := 160
  const PUBLIC_FROM: nat := 6

  /** Richness: how many of the private identity bytes are set. */
  function Score(f: seq<Byte>): nat { |Rich(f, SCORE_TO)| }

  function Rich(f: seq<Byte>, to: nat): set<nat> {
    set j: nat | SCORE_FROM <= j < to && j < |f| && f[j] != 0
  }

  /** The cache holds 320 bytes; longer frames are cut. */
  function Cap(f: seq<Byte>): (c: seq<Byte>)
    ensures |c| <= 320 && c <= f && (|f| <= 320 ==> c == f) && (|f| > 320 ==> |c| == 320)
  {
    if |f| > FRAME_MAX then f[..FRAME_MAX] else f
  }

  /** Same length, long enough to compare, and the same public identity bytes. */
  predicate SamePublic(a: seq<Byte>, b: seq<Byte>) {
    |a| == |b| && |b| >= SCORE_FROM && a[PUBLIC_FROM..SCORE_FROM] == b[PUBLIC_FROM..SCORE_FROM]
  }

  /** The cached frame (empty when there is none) and its copy in flash. */
  datatype Store = Store(ram: seq<Byte>, flash: Option<seq<Byte>>)

  /** A frame on offer, and whether a flash write would succeed. */
  datatype Offer = Offer(frame: seq<Byte>, writeOk: bool)

  /** `nb_set_warm` for a device-info frame. */
  function Take(s: Store, o: Offer): Store {
    var f := Cap(o.frame);
    if s.ram != [] && Score(f) < Score(s.ram) then s
    else if (Score(f) > Score(s.ram) || !SamePublic(s.ram, f)) && o.writeOk then Store(f, Some(f))
    else Store(f, s.flash)
  }

  function TakeAll(s: Store, os: seq<Offer>): Store {
    if os == [] then s else Take(TakeAll(s, os[..|os| - 1]), os[|os| - 1])
  }

  /** `nb_state_init`: what flash holds is restored. */
  function Reboot(flash: Option<seq<Byte>>): Store {
    Store(if flash.Some? then flash.value else [], flash)
  }

  /** The restored frame, then everything offered. */
  function Candidates(s: Store, os: seq<Offer>): seq<seq<Byte>> {
    if os == [] then [s.ram] else Candidates(s, os[..|os| - 1]) + [Cap(os[|os| - 1].frame)]
  }

  /** Candidate `k` is the richest, and the latest of the richest. */
  ghost predicate LatestRichest(all: seq<seq<Byte>>, k: nat) {
    && k < |all|
    && (forall j :: 0 <= j < |all| ==> Score(all[j]) <= Score(all[k]))
    && (forall j :: k < j < |all| ==> Score(all[j]) < Score(all[k]))
  }

  /** An empty frame has no richness. */
  lemma EmptyScore()
    ensures Score([]) == 0
  {
    assert Rich([], SCORE_TO) == {};
  }

  /** The cached frame is the latest of the richest among the restored one and all offers. */
  lemma {:induction false} CacheIsRichest(s: Store, os: seq<Offer>) returns (k: nat)
    ensures LatestRichest(Candidates(s, os), k)
    ensures TakeAll(s, os).ram == Candidates(s, os)[k]
    decreases |os|
  {
    k := 0;
    if os != [] {
      var n := |os| - 1;
      k := CacheIsRichest(s, os[..n]);
      EmptyScore();
      if Score(Cap(os[n].frame)) >= Score(Candidates(s, os[..n])[k]) {
        k := |Candidates(s, os[..n])|;
      }
    }
  }

  /** Only one position is the latest of the richest, so the cached frame is determined. */
  lemma RichestUnique(all: seq<seq<Byte>>, j: nat, k: nat)
    requires LatestRichest(all, j) && LatestRichest(all, k)
    ensures j == k
  {
    assert Score(all[j]) == Score(all[k]);
  }

  /** The copy in flash agrees with the cache in everything that is compared. */
  predicate Mirrors(s: Store) {
    match s.flash
    case None => s.ram == []
    case Some(f) =>
      && Score(f) == Score(s.ram)
      && |f| == |s.ram|
      && (|f| >= SCORE_FROM ==> SamePublic(f, s.ram))
  }

  /** While flash writes succeed, every offer keeps the copy in agreement. */
  lemma {:induction false} FlashMirrors(s: Store, os: seq<Offer>)
    requires Mirrors(s) && forall i :: 0 <= i < |os| ==> os[i].writeOk
    ensures Mirrors(TakeAll(s, os))
    decreases |os|
  {
    if os != [] {
      FlashMirrors(s, os[..|os| - 1]);
    }
  }

  /** So a reboot at any moment loses neither richness nor length nor the public identity bytes. */
  lemma RebootKeeps(flash: Option<seq<Byte>>, os: seq<Offer>)
    requires forall i :: 0 <= i < |os| ==> os[i].writeOk
    ensures var s := TakeAll(Reboot(flash), os);
            var r := Reboot(s.flash);
            && Score(r.ram) == Score(s.ram) && |r.ram| == |s.ram|
            && (|s.ram| >= SCORE_FROM ==> SamePublic(r.ram, s.ram))
            && Mirrors(r)
  {
    FlashMirrors(Reboot(flash), os);
  }

  /**
   Flash is spared: it is written only when the frame is taken and is richer than the cached one, or
   differs from it in length or in bytes 6 to 37, or is shorter than 38 bytes; and then with that frame.
   */
  lemma FlashSpared(s: Store, o: Offer)
    ensures var t, f := Take(s, o), Cap(o.frame);
            t.flash != s.flash ==>
              && o.writeOk && t.ram == f && t.flash == Some(f)
              && (Score(f) > Score(s.ram) || |f| != |s.ram| || |f| < 38 || f[6..38] != s.ram[6..38])
  {
  }

  /** Richness of the copy in flash. */
  function FlashScore(s: Store): nat { Score(Reboot(s.flash).ram) }

  /** Even when writes fail, the copy never gets poorer and is never richer than the cache. */
  lemma {:induction false} FlashNeverPoorer(s: Store, os: seq<Offer>, n: nat)
    requires n <= |os| && FlashScore(s) <= Score(s.ram)
    ensures FlashScore(TakeAll(s, os[..n])) <= FlashScore(TakeAll(s, os)) <= Score(TakeAll(s, os).ram)
    decreases |os|
  {
    if os == [] {
      assert os[..n] == os;
    } else {
      var front := os[..|os| - 1];
      EmptyScore();
      FlashNeverPoorer(s, front, |front|);
      assert front[..|front|] == front;
      if n < |os| {
        FlashNeverPoorer(s, front, n);
        assert front[..n] == os[..n];
      } else {
        assert os[..n] == os;
      }
    }
  }

  /** One more position to look at. */
  lemma RichStep(f: seq<Byte>, i: nat)
    requires SCORE_FROM <= i < |f|
    ensures |Rich(f, i + 1)| == |Rich(f, i)| + if f[i] != 0 then 1 else 0
  {
    assert Rich(f, i + 1) == if f[i] != 0 then Rich(f, i) + {i} else Rich(f, i);
  }

  /** `devinfo_score`. */
  method ScoreOf(data: array<Byte>, len: nat) returns (n: nat)
    requires len <= data.Length
    ensures n == Score(data[..len])
  {
    n := 0;
    var i := SCORE_FROM;
    assert Rich(data[..len], i) == {};
    while i < SCORE_TO && i < len
      invariant SCORE_FROM <= i <= SCORE_TO
      invariant n == |Rich(data[..len], i)|
    {
      RichStep(data[..len], i);
      if data[i] != 0 {
        n := n + 1;
      }
      i := i + 1;
    }
    assert Rich(data[..len], i) == Rich(data[..len], SCORE_TO);
  }

  /** The slot `warm_dev[0]` and its flash blob. */
  class WarmDevice {
    const data: array<Byte>
    var len: nat
    var flash: Option<seq<Byte>>

    ghost predicate Valid()
      reads this
    {
      data.Length == FRAME_MAX && len <= FRAME_MAX
    }

    ghost function View(): Store
      requires Valid()
      reads this, data
    {
      Store(data[..len], flash)
    }

    constructor (stored: Option<seq<Byte>>)
      requires stored.Some? ==> |stored.value| <= FRAME_MAX
      ensures Valid() && fresh(data) && View() == Reboot(stored)
    {
      var bytes := if stored.Some? then stored.value else [];
      data := new Byte[FRAME_MAX](i => if 0 <= i < |bytes| then bytes[i] else 0);
      len := |bytes|;
      flash := stored;
    }

    /** `memcpy(w->data, frame, len)`. */
    method Copy(frame: array<Byte>, n: nat)
      requires Valid() && n <= frame.Length && n <= FRAME_MAX && frame != data
      modifies this`len, data
      ensures Valid() && data[..len] == old(frame[..n])
    {
      for i := 0 to n
        invariant data[..i] == frame[..i]
        invariant frame[..n] == old(frame[..n])
      {
        data[i] := frame[i];
        assert data[..i + 1] == data[..i] + [data[i]];
        assert frame[..i + 1] == frame[..i] + [frame[i]];
      }
      len := n;
    }

    /** `nb_set_warm` with record type 3. */
    method SetWarm(frame: array<Byte>, writeOk: bool)
      requires Valid() && frame != data
      modifies this`len, this`flash, data
      ensures Valid() && View() == Take(old(View()), Offer(old(frame[..]), writeOk))
    {
      var n := if frame.Length > FRAME_MAX then FRAME_MAX else frame.Length;
      assert frame[..n] == Cap(frame[..]);
      var news := ScoreOf(frame, n);
      var olds := ScoreOf(data, len);
      if len != 0 && news < olds {
        return;
      }
      var same := len == n && n >= SCORE_FROM && data[PUBLIC_FROM..SCORE_FROM] == frame[PUBLIC_FROM..SCORE_FROM];
      assert same == SamePublic(data[..len], frame[..n]) by {
        if len == n && n >= SCORE_FROM {
          assert data[..len][PUBLIC_FROM..SCORE_FROM] == data[PUBLIC_FROM..SCORE_FROM];
          assert frame[..n][PUBLIC_FROM..SCORE_FROM] == frame[PUBLIC_FROM..SCORE_FROM];
        }
      }
      Copy(frame, n);
      if (news > olds || !same) && writeOk {
        flash := Some(frame[..n]);
      }
    }
  }
}
