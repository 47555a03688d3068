/**
 What the two nodes say to each other. The validators are shown to accept exactly the frames that
 spell a well-formed message, and the frames the nodes build are shown to be among them.
 */
module TunnelMessages {
  import opened Prelude
  import opened JkFrame
  import opened Tunnel

  /** `tunnel_to_a_valid`. */
  predicate ValidToA(f: Frame, units: nat) {
    var p := f.payload;
    if |p| > MAX_PAYLOAD then false
    else if f.kind == PING || f.kind == TABLE_REQ then f.id == ID_LINK && |p| == 0
    else if f.kind == CLIENT then f.id < units && |p| == 1 && p[0] <= 1
    else if f.kind == WRITE then
      f.id < units && 3 <= |p| <= 2 + MAX_WRITE_DATA && p[0] <= 1 && p[1] <= 1
    else false
  }

  /** `tunnel_to_b_valid`, with Node B's limits for characteristics and cached bytes. */
  predicate ValidToB(f: Frame, units: nat) {
    var p := f.payload;
    if |p| > MAX_PAYLOAD then false
    else if f.kind == PING then f.id == ID_LINK && |p| == 0
    else if f.kind == TABLE then
      f.id == ID_LINK && |p| >= 1 && 0 < p[0] <= MAX_CHARS && |p| == 1 + Times(p[0], DESC_LEN)
    else if f.id >= units then false
    else if f.kind == IDENT then 0 < |p| < 32
    else if f.kind == READ_CACHE || f.kind == NOTIFY || f.kind == RAW then
      1 <= |p| <= FRAME_MAX + 1 && p[0] < MAX_CHARS
    else if f.kind == WRITE_RESULT then |p| == 2 && p[0] < MAX_CHARS && p[1] <= 3
    else if f.kind == LINK then |p| == 1 && p[0] <= 2
    else false
  }

  function Times(a: int, b: int): int { a * b }

  // ---- Node B speaks ----------------------------------------------------------------------

  datatype FromB =
    | AskTable
    | BeatB
    | Client(id: nat, connected: bool)
    | AppWrite(id: nat, idx: nat, withResponse: bool, data: seq<Byte>)

  predicate GoodFromB(m: FromB, units: nat) {
    match m
    case Client(id, _) => id < units && id < 256
    case AppWrite(id, idx, _, data) => id < units && id < 256 && idx <= 1 && 0 < |data| <= MAX_WRITE_DATA
    case _ => true
  }

  function Flag(b: bool): Byte { if b then 1 else 0 }

  /** The frame of a message of Node B. */
  function SpellB(m: FromB, units: nat): (f: Frame)
    requires GoodFromB(m, units)
    ensures Fits(f)
  {
    match m
    case AskTable => Frame(TABLE_REQ, ID_LINK, [])
    case BeatB => Frame(PING, ID_LINK, [])
    case Client(id, connected) => Frame(CLIENT, id, [Flag(connected)])
    case AppWrite(id, idx, wr, data) => Frame(WRITE, id, [idx, Flag(wr)] + data)
  }

  /** Node A's dispatch of a frame that passed its validator. */
  function HearA(f: Frame, units: nat): (m: FromB)
    requires ValidToA(f, units)
    ensures GoodFromB(m, units)
  {
    if f.kind == TABLE_REQ then AskTable
    else if f.kind == PING then BeatB
    else if f.kind == CLIENT then Client(f.id, f.payload[0] != 0)
    else AppWrite(f.id, f.payload[0], f.payload[1] != 0, f.payload[2..])
  }

  /** Node A accepts every message Node B can send, and understands what was meant. */
  lemma HeardFromB(m: FromB, units: nat)
    requires GoodFromB(m, units)
    ensures ValidToA(SpellB(m, units), units) && HearA(SpellB(m, units), units) == m
  {
    if m.AppWrite? {
      assert ([m.idx, Flag(m.withResponse)] + m.data)[2..] == m.data;
    }
  }

  /** Node A accepts nothing else: a frame that passes is the spelling of what is understood. */
  lemma OnlyFromB(f: Frame, units: nat)
    requires ValidToA(f, units)
    ensures f == SpellB(HearA(f, units), units)
  {
    if f.kind == WRITE {
      assert f.payload == [f.payload[0], f.payload[1]] + f.payload[2..];
    }
  }

  /** `tunnel_cli_send_write`: refused, or queued as one frame. */
  function SendWrite(id: nat, idx: nat, withResponse: bool, data: seq<Byte>, units: nat): (f: Option<Frame>)
    requires units < 256
    ensures f.Some? <==> GoodFromB(AppWrite(id, idx, withResponse, data), units)
    ensures f.Some? ==> ValidToA(f.value, units)
  {
    if id >= units || idx > 1 || |data| == 0 || |data| > MAX_WRITE_DATA then None
    else Some(Frame(WRITE, id, [idx, Flag(withResponse)] + data))
  }

  // ---- Node A speaks ----------------------------------------------------------------------

  datatype FromA =
    | BeatA
    | Blueprint(descs: seq<Byte>)
    | Name(id: nat, name: seq<Byte>)
    | Value(kind: Byte, id: nat, idx: nat, data: seq<Byte>)
    | Result(id: nat, idx: nat, status: nat)
    | Reach(id: nat, state: nat)

  predicate GoodFromA(m: FromA, units: nat) {
    match m
    case BeatA => true
    case Blueprint(descs) => |descs| % DESC_LEN == 0 && 0 < |descs| <= MAX_CHARS * DESC_LEN
    case Name(id, name) => id < units && id < 256 && 0 < |name| < 32
    case Value(kind, id, idx, data) =>
      && id < units && id < 256 && idx < MAX_CHARS && |data| <= FRAME_MAX
      && (kind == READ_CACHE || kind == NOTIFY || kind == RAW)
    case Result(id, idx, status) => id < units && id < 256 && idx < MAX_CHARS && status <= 3
    case Reach(id, state) => id < units && id < 256 && state <= 2
  }

  function SpellA(m: FromA, units: nat): (f: Frame)
    requires GoodFromA(m, units)
    ensures Fits(f)
  {
    match m
    case BeatA => Frame(PING, ID_LINK, [])
    case Blueprint(descs) => Frame(TABLE, ID_LINK, [|descs| / DESC_LEN] + descs)
    case Name(id, name) => Frame(IDENT, id, name)
    case Value(kind, id, idx, data) => Frame(kind, id, [idx] + data)
    case Result(id, idx, status) => Frame(WRITE_RESULT, id, [idx, status])
    case Reach(id, state) => Frame(LINK, id, [state])
  }

  /** Node B's dispatch of a frame that passed its validator. */
  function HearB(f: Frame, units: nat): (m: FromA)
    requires ValidToB(f, units)
    ensures GoodFromA(m, units)
  {
    if f.kind == PING then BeatA
    else if f.kind == TABLE then Blueprint(f.payload[1..])
    else if f.kind == IDENT then Name(f.id, f.payload)
    else if f.kind == WRITE_RESULT then Result(f.id, f.payload[0], f.payload[1])
    else if f.kind == LINK then Reach(f.id, f.payload[0])
    else Value(f.kind, f.id, f.payload[0], f.payload[1..])
  }

  lemma HeardFromA(m: FromA, units: nat)
    requires GoodFromA(m, units)
    ensures ValidToB(SpellA(m, units), units) && HearB(SpellA(m, units), units) == m
  {
    match m
    case Blueprint(descs) => assert ([|descs| / DESC_LEN] + descs)[1..] == descs;
    case Value(_, _, idx, data) => assert ([idx] + data)[1..] == data;
    case _ =>
  }

  lemma OnlyFromA(f: Frame, units: nat)
    requires ValidToB(f, units)
    ensures f == SpellA(HearB(f, units), units)
  {
    if f.payload != [] {
      assert f.payload == [f.payload[0]] + f.payload[1..];
    }
    if f.kind == WRITE_RESULT {
      assert f.payload == [f.payload[0], f.payload[1]];
    }
    if f.kind == LINK {
      assert f.payload == [f.payload[0]];
    }
  }

  /** `tunnel_send_read_cache` cuts to the frame limit, which is above Node B's cache limit. */
  function SendReadCache(id: Byte, idx: Byte, data: seq<Byte>): (f: Frame)
    ensures Fits(f)
  {
    Frame(READ_CACHE, id, [idx] + if |data| > MAX_PAYLOAD - 1 then data[..MAX_PAYLOAD - 1] else data)
  }

  /** So a read-cache frame passes if and only if the data needed no cutting to 320 bytes. */
  lemma ReadCachePasses(id: Byte, idx: Byte, data: seq<Byte>, units: nat)
    ensures ValidToB(SendReadCache(id, idx, data), units)
            <==> id < units && idx < MAX_CHARS && |data| <= FRAME_MAX
  {
  }

  // ---- End to end ---------------------------------------------------------------------------

  function SpellAllA(ms: seq<FromA>, units: nat): (fs: seq<Frame>)
    requires forall i :: 0 <= i < |ms| ==> GoodFromA(ms[i], units)
    ensures |fs| == |ms| && forall i :: 0 <= i < |ms| ==> fs[i] == SpellA(ms[i], units)
  {
    seq(|ms|, i requires 0 <= i < |ms| => SpellA(ms[i], units))
  }

  /** Node B's inbound loop on a whole connection: frames that fail the validator are passed over. */
  method ServeB(wire: seq<Byte>, pieces: seq<nat>, units: nat) returns (heard: seq<FromA>)
    ensures heard == HeardAllB(DecodeFrom(wire, 0), units)
  {
    var frames := Serve(wire, pieces);
    heard := [];
    for i := 0 to |frames|
      invariant heard == HeardAllB(frames[..i], units)
    {
      assert frames[..i + 1][..i] == frames[..i];
      if ValidToB(frames[i], units) {
        heard := heard + [HearB(frames[i], units)];
      }
    }
    assert frames[..|frames|] == frames;
  }

  function HeardAllB(fs: seq<Frame>, units: nat): seq<FromA> {
    if fs == [] then []
    else
      var f := fs[|fs| - 1];
      HeardAllB(fs[..|fs| - 1], units) + if ValidToB(f, units) then [HearB(f, units)] else []
  }

  lemma {:induction false} HeardInOrder(ms: seq<FromA>, units: nat)
    requires forall i :: 0 <= i < |ms| ==> GoodFromA(ms[i], units)
    ensures HeardAllB(SpellAllA(ms, units), units) == ms
    decreases |ms|
  {
    if ms != [] {
      var n := |ms| - 1;
      HeardInOrder(ms[..n], units);
      assert SpellAllA(ms, units)[..n] == SpellAllA(ms[..n], units);
      HeardFromA(ms[n], units);
    }
  }

  /**
   From Node A's producers to Node B's handlers: any messages, sent one after the other and split
   by the socket in any way, arrive as the same messages in the same order.
   */
  lemma TunnelDelivers(ms: seq<FromA>, units: nat)
    requires forall i :: 0 <= i < |ms| ==> GoodFromA(ms[i], units)
    ensures HeardAllB(DecodeFrom(EncodeAll(SpellAllA(ms, units)), 0), units) == ms
  {
    var fs := SpellAllA(ms, units);
    RoundTrip([], fs, []);
    assert [] + EncodeAll(fs) + [] == EncodeAll(fs);
    HeardInOrder(ms, units);
  }

  // ---- End to end, the other way -----------------------------------------------------------

  function SpellAllB(ms: seq<FromB>, units: nat): (fs: seq<Frame>)
    requires forall i :: 0 <= i < |ms| ==> GoodFromB(ms[i], units)
    ensures |fs| == |ms| && forall i :: 0 <= i < |ms| ==> fs[i] == SpellB(ms[i], units)
  {
    seq(|ms|, i requires 0 <= i < |ms| => SpellB(ms[i], units))
  }

  function HeardAllA(fs: seq<Frame>, units: nat): seq<FromB> {
    if fs == [] then []
    else
      var f := fs[|fs| - 1];
      HeardAllA(fs[..|fs| - 1], units) + if ValidToA(f, units) then [HearA(f, units)] else []
  }

  /** Node A's inbound loop on a whole connection. */
  method ServeA(wire: seq<Byte>, pieces: seq<nat>, units: nat) returns (heard: seq<FromB>)
    ensures heard == HeardAllA(DecodeFrom(wire, 0), units)
  {
    var frames := Serve(wire, pieces);
    heard := [];
    for i := 0 to |frames|
      invariant heard == HeardAllA(frames[..i], units)
    {
      assert frames[..i + 1][..i] == frames[..i];
      if ValidToA(frames[i], units) {
        heard := heard + [HearA(frames[i], units)];
      }
    }
    assert frames[..|frames|] == frames;
  }

  lemma {:induction false} HeardInOrderA(ms: seq<FromB>, units: nat)
    requires forall i :: 0 <= i < |ms| ==> GoodFromB(ms[i], units)
    ensures HeardAllA(SpellAllB(ms, units), units) == ms
    decreases |ms|
  {
    if ms != [] {
      var n := |ms| - 1;
      HeardInOrderA(ms[..n], units);
      assert SpellAllB(ms, units)[..n] == SpellAllB(ms[..n], units);
      HeardFromB(ms[n], units);
    }
  }

  /** From Node B's producers to Node A's handlers. */
  lemma TunnelDeliversB(ms: seq<FromB>, units: nat)
    requires forall i :: 0 <= i < |ms| ==> GoodFromB(ms[i], units)
    ensures HeardAllA(DecodeFrom(EncodeAll(SpellAllB(ms, units)), 0), units) == ms
  {
    var fs := SpellAllB(ms, units);
    RoundTrip([], fs, []);
    assert [] + EncodeAll(fs) + [] == EncodeAll(fs);
    HeardInOrderA(ms, units);
  }
}
