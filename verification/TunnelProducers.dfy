/**
 The frames Node A's live producers build: link reports, write results, the announcement of
 blueprint, names and links, and notifications. Each is shown to be a well-formed message, from
 what the producers' own inputs can be.
 */
module TunnelProducers {
  import opened Prelude
  import opened JkFrame
  import opened StateCache
  import opened Tunnel
  import opened TunnelMessages
  import Reassembly

  datatype WriteStatus = WriteOk | WriteTimeout | WriteLinkDown | WriteGattError

  function LinkCode(link: LinkState): nat {
    match link
    case Unreachable => 0
    case ReachableIdle => 1
    case Up => 2
  }

  function StatusCode(st: WriteStatus): nat {
    match st
    case WriteOk => 0
    case WriteTimeout => 1
    case WriteLinkDown => 2
    case WriteGattError => 3
  }

  /** `tunnel_send_link`. */
  function LinkFrame(id: Byte, link: LinkState): Frame { Frame(LINK, id, [LinkCode(link)]) }

  /** `tunnel_send_write_result`. */
  function ResultFrame(id: Byte, idx: Byte, st: WriteStatus): Frame {
    Frame(WRITE_RESULT, id, [idx, StatusCode(st)])
  }

  /** A link report of a configured bank arrives as that report. */
  lemma LinkHeard(id: Byte, link: LinkState, units: nat)
    requires id < units
    ensures ValidToB(LinkFrame(id, link), units)
    ensures HearB(LinkFrame(id, link), units) == Reach(id, LinkCode(link))
    ensures LinkFrame(id, link).payload == [if link == Up then 2 else if link == ReachableIdle then 1 else 0]
  {
  }

  /** The result of any app write that Node A accepted arrives as that result. */
  lemma ResultHeard(write: Frame, st: WriteStatus, units: nat)
    requires ValidToA(write, units) && write.kind == WRITE
    ensures var m := HearA(write, units);
            && m.AppWrite? && m.id < 256 && m.idx < 256
            && ValidToB(ResultFrame(m.id, m.idx, st), units)
            && HearB(ResultFrame(m.id, m.idx, st), units) == Result(m.id, m.idx, StatusCode(st))
            && m.id == write.id && m.idx == write.payload[0]
            && (StatusCode(st) == 0 <==> st.WriteOk?) && (StatusCode(st) == 1 <==> st.WriteTimeout?)
            && (StatusCode(st) == 2 <==> st.WriteLinkDown?) && (StatusCode(st) == 3 <==> st.WriteGattError?)
  {
  }

  // ---- Notifications --------------------------------------------------------------------

  /** A queued notification: a complete frame, or a raw chunk. */
  datatype Item = Item(id: Byte, raw: bool, data: seq<Byte>)

  /** The frame the serve loop sends for it; the characteristic index is always 0. */
  function ItemFrame(it: Item): Frame { Frame(if it.raw then RAW else NOTIFY, it.id, [0] + it.data) }

  /**
   `on_notify` for bank `id`: the chunk itself while an app is attached and if it fits, then every
   frame it completes.
   */
  function Notifications(id: Byte, r: Reassembly.Machine, data: seq<Byte>, app: bool): seq<Item> {
    var frames := Reassembly.Feed(Reassembly.Out(r, []), data).frames;
    (if app && |data| <= FRAME_MAX then [Item(id, true, data)] else [])
    + seq(|frames|, i requires 0 <= i < |frames| => Item(id, false, frames[i]))
  }

  /** Whatever a bank sends, Node B accepts what is queued for it, unchanged. */
  lemma NotificationsHeard(id: Byte, r: Reassembly.Machine, data: seq<Byte>, app: bool, units: nat, k: nat)
    requires id < units && k < |Notifications(id, r, data, app)|
    ensures var it := Notifications(id, r, data, app)[k];
            && |it.data| <= FRAME_MAX && Fits(ItemFrame(it))
            && ValidToB(ItemFrame(it), units)
            && HearB(ItemFrame(it), units) == Value(if it.raw then RAW else NOTIFY, id, 0, it.data)
  {
    Reassembly.DeliveredComplete(Reassembly.Out(r, []), data, 0, |data|);
    var it := Notifications(id, r, data, app)[k];
    assert ([0] + it.data)[1..] == it.data;
  }

  // ---- The announcement -----------------------------------------------------------------

  /** A stored harvest: the name without its terminator, and the packed descriptors. */
  datatype Harvest = Harvest(name: seq<Byte>, descs: seq<Byte>)

  /** What a discovered link with these FFE1 properties stores: a 32-byte name field, one descriptor. */
  function Harvested(cfgName: seq<Byte>, props: Byte): Harvest {
    Harvest(if |cfgName| > 31 then cfgName[..31] else cfgName, [0xE0, 0xFF, 0xE1, 0xFF, props])
  }

  predicate HarvestOk(h: Harvest) {
    |h.name| <= 31 && |h.descs| % DESC_LEN == 0 && 0 < |h.descs| <= MAX_CHARS * DESC_LEN
  }

  lemma HarvestedOk(cfgName: seq<Byte>, props: Byte)
    ensures HarvestOk(Harvested(cfgName, props))
  {
  }

  /** One unit as the announcement sees it. */
  datatype Unit = Unit(parked: bool, harvest: Option<Harvest>, link: LinkState)

  predicate UnitsOk(us: seq<Unit>) {
    |us| < 256 && forall i :: 0 <= i < |us| && us[i].harvest.Some? ==> HarvestOk(us[i].harvest.value)
  }

  /** What is meant for unit `i`: its name if it is configured and has one, and its effective link. */
  function Meant(us: seq<Unit>, bleOn: bool, i: nat): seq<FromA>
    requires i < |us|
  {
    var u := us[i];
    (if !u.parked && u.harvest.Some? && u.harvest.value.name != [] then [Name(i, u.harvest.value.name)] else [])
    + [Reach(i, LinkCode(if u.parked || !bleOn then Unreachable else u.link))]
  }

  function MeantUpTo(us: seq<Unit>, bleOn: bool, n: nat): seq<FromA>
    requires n <= |us|
  {
    if n == 0 then [] else MeantUpTo(us, bleOn, n - 1) + Meant(us, bleOn, n - 1)
  }

  /** Parked banks, and all banks while the radio is off, are announced as unreachable; parked ones without a name. */
  lemma DarkBanks(us: seq<Unit>, bleOn: bool, i: nat)
    requires i < |us|
    ensures us[i].parked ==> Meant(us, bleOn, i) == [Reach(i, 0)]
    ensures !bleOn ==> Meant(us, bleOn, i)[|Meant(us, bleOn, i)| - 1] == Reach(i, 0)
    ensures !us[i].parked && bleOn ==>
              Meant(us, bleOn, i)[|Meant(us, bleOn, i)| - 1]
              == Reach(i, if us[i].link == Up then 2 else if us[i].link == ReachableIdle then 1 else 0)
    ensures Name(i, []) !in Meant(us, bleOn, i)
  {
  }

  /** Hearing one more frame. */
  lemma HearOneMore(fs: seq<Frame>, f: Frame, units: nat)
    requires ValidToB(f, units)
    ensures HeardAllB(fs + [f], units) == HeardAllB(fs, units) + [HearB(f, units)]
  {
    assert (fs + [f])[..|fs|] == fs;
  }

  /** `tunnel_srv_refresh`: Node B hears exactly the names and links that are meant, in order. */
  method Refresh(us: seq<Unit>, bleOn: bool) returns (fs: seq<Frame>)
    requires UnitsOk(us)
    ensures forall k :: 0 <= k < |fs| ==> ValidToB(fs[k], |us|)
    ensures HeardAllB(fs, |us|) == MeantUpTo(us, bleOn, |us|)
  {
    fs := [];
    for i := 0 to |us|
      invariant forall k :: 0 <= k < |fs| ==> ValidToB(fs[k], |us|)
      invariant HeardAllB(fs, |us|) == MeantUpTo(us, bleOn, i)
    {
      ghost var before := HeardAllB(fs, |us|);
      var u := us[i];
      ghost var names: seq<FromA> := [];
      if !u.parked && u.harvest.Some? && u.harvest.value.name != [] {
        var f := Frame(IDENT, i, u.harvest.value.name);
        HearOneMore(fs, f, |us|);
        fs := fs + [f];
        names := [Name(i, u.harvest.value.name)];
      }
      var eff := if u.parked || !bleOn then Unreachable else u.link;
      LinkHeard(i, eff, |us|);
      HearOneMore(fs, LinkFrame(i, eff), |us|);
      fs := fs + [LinkFrame(i, eff)];
      Assoc(before, names, [Reach(i, LinkCode(eff))]);
    }
  }

  /** The first stored harvest, from unit `i` on. */
  function FirstHarvest(us: seq<Unit>, i: nat): (h: Option<Harvest>)
    requires i <= |us|
    decreases |us| - i
  {
    if i == |us| then None else if us[i].harvest.Some? then us[i].harvest else FirstHarvest(us, i + 1)
  }

  /** `tunnel_srv_announce`: the first stored blueprint, if there is one, then the refresh. */
  method Announce(us: seq<Unit>, bleOn: bool) returns (fs: seq<Frame>)
    requires UnitsOk(us)
    ensures forall k :: 0 <= k < |fs| ==> ValidToB(fs[k], |us|)
    ensures var h := FirstHarvest(us, 0);
            HeardAllB(fs, |us|)
            == (if h.Some? then [Blueprint(h.value.descs)] else []) + MeantUpTo(us, bleOn, |us|)
  {
    var table := [];
    var i := 0;
    while i < |us| && us[i].harvest.None?
      invariant 0 <= i <= |us| && FirstHarvest(us, 0) == FirstHarvest(us, i)
    {
      i := i + 1;
    }
    if i < |us| {
      var h := us[i].harvest.value;
      var f := Frame(TABLE, ID_LINK, [|h.descs| / DESC_LEN] + h.descs);
      HeardFromA(Blueprint(h.descs), |us|);
      HearOneMore([], f, |us|);
      table := [f];
    }
    var rest := Refresh(us, bleOn);
    HearConcat(table, rest, |us|);
    fs := table + rest;
  }

  lemma {:induction false} HearConcat(a: seq<Frame>, b: seq<Frame>, units: nat)
    ensures HeardAllB(a + b, units) == HeardAllB(a, units) + HeardAllB(b, units)
    decreases |b|
  {
    if b == [] {
      assert a + b == a;
    } else {
      var n := |b| - 1;
      HearConcat(a, b[..n], units);
      assert (a + b)[..|a + b| - 1] == a + b[..n];
      Assoc(HeardAllB(a, units), HeardAllB(b[..n], units), if ValidToB(b[n], units) then [HearB(b[n], units)] else []);
    }
  }
}
