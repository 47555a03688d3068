/**
 Node B's notifications to the phone: cutting a buffer into chunks, each authorised on its own;
 stamping and replaying cached records; and the gate that keeps the live stream shut until it is
 aligned on a record.

 No lock is held while chunks are handed to the radio, so what the session table, the buffer pool
 and the radio answer at each chunk is a parameter (`Chance`) and may be anything.
 */
module Notify {
  import opened Prelude
  import opened JkFrame
  import opened StreamStart
  import opened Session

  const NATIVE_CHUNK: nat := 128
  /** The offset is a 16-bit counter; up to this length it cannot wrap. */
  const NOTIFY_MAX: nat := 0xFFFF - NATIVE_CHUNK

  /** What one chunk meets: the session at that moment, whether a buffer is free, the radio's code. */
  datatype Chance = Chance(current: Snapshot, buffer: bool, rc: int)

  /** One notification handed to the radio. */
  datatype Call = Call(handle: nat, bytes: seq<Byte>, rc: int)

  /** The answers one `notify_session` call meets. */
  datatype Air = Air(mtu: nat, chances: seq<Chance>)

  /** Chunk length for an MTU: three bytes of header, never above the module's own chunks. */
  function ChunkLen(mtu: nat): (n: nat)
    ensures 20 <= n <= 128
    ensures mtu < 23 ==> n == 20
    ensures 23 <= mtu <= 131 ==> n + 3 == mtu
    ensures mtu > 131 ==> n == 128
  {
    var m := if mtu < 23 then 23 else mtu;
    if m - 3 > NATIVE_CHUNK then NATIVE_CHUNK else m - 3
  }

  /** A session that may be notified at all. */
  predicate Live(s: Snapshot) { s.connected && s.notifyOn }

  /** Bytes of all calls, and of the calls the radio accepted. */
  function Carried(calls: seq<Call>): seq<Byte> {
    if calls == [] then [] else Carried(calls[..|calls| - 1]) + calls[|calls| - 1].bytes
  }

  function Accepted(calls: seq<Call>): seq<Byte> {
    if calls == [] then []
    else Accepted(calls[..|calls| - 1]) + if calls[|calls| - 1].rc == 0 then calls[|calls| - 1].bytes else []
  }

  predicate AllAccepted(calls: seq<Call>) {
    forall k :: 0 <= k < |calls| ==> calls[k].rc == 0
  }

  /** Every call went to the session's handle, and was authorised by the session of its moment. */
  predicate Authorised(calls: seq<Call>, session: Snapshot, chances: seq<Chance>) {
    && |calls| <= |chances|
    && forall k :: 0 <= k < |calls| ==>
         && calls[k].handle == session.handle
         && calls[k].rc == chances[k].rc
         && Authorises(session, chances[k].current)
  }

  /** Nothing is longer than a chunk, and only the last call may be shorter. */
  predicate Cut(calls: seq<Call>, size: nat) {
    && (forall k :: 0 <= k < |calls| ==> 0 < |calls[k].bytes| <= size)
    && (forall k :: 0 <= k < |calls| - 1 ==> |calls[k].bytes| == size)
  }

  /** A stay in which nothing goes wrong: the session holds, buffers are free, the radio accepts. */
  predicate Smooth(session: Snapshot, air: Air) {
    forall i :: 0 <= i < |air.chances| ==>
      Authorises(session, air.chances[i].current) && air.chances[i].buffer && air.chances[i].rc == 0
  }

  /** All calls are full chunks. */
  predicate Full(calls: seq<Call>, size: nat) {
    forall k :: 0 <= k < |calls| ==> |calls[k].bytes| == size
  }

  /** With every call accepted, the accepted bytes are all the bytes carried. */
  lemma {:induction false} AcceptedAll(calls: seq<Call>)
    requires AllAccepted(calls)
    ensures Accepted(calls) == Carried(calls)
    decreases |calls|
  {
    if calls != [] {
      AcceptedAll(calls[..|calls| - 1]);
    }
  }

  /** One more call, authorised and cut to size. */
  lemma CallOn(calls: seq<Call>, session: Snapshot, chances: seq<Chance>, call: Call, size: nat)
    requires Authorised(calls, session, chances) && |calls| < |chances|
    requires Authorises(session, chances[|calls|].current)
    requires call.handle == session.handle && call.rc == chances[|calls|].rc
    requires Full(calls, size) && 0 < |call.bytes| <= size
    ensures Authorised(calls + [call], session, chances) && Cut(calls + [call], size)
    ensures |call.bytes| == size ==> Full(calls + [call], size)
    ensures AllAccepted(calls + [call]) <==> AllAccepted(calls) && call.rc == 0
  {
    assert (calls + [call])[|calls|] == call;
    assert AllAccepted(calls + [call]) ==> forall k :: 0 <= k < |calls| ==> (calls + [call])[k].rc == 0;
  }

  /** One more call carries one more stretch of the data. */
  lemma CarryOn(calls: seq<Call>, call: Call, data: seq<Byte>, off: nat, n: nat)
    requires off + n <= |data| && Carried(calls) == data[..off] && call.bytes == data[off..off + n]
    ensures Carried(calls + [call]) == data[..off + n]
  {
    assert (calls + [call])[..|calls|] == calls;
  }

  /** The data starts with a device-info header. */
  predicate DeviceHeader(data: seq<Byte>) {
    |data| >= 5 && data[0] == 0x55 && data[1] == 0xAA && data[2] == 0xEB && data[3] == 0x90 && data[4] == 3
  }

  /**
   `notify_session`. The calls carry the data from its start, chunk by chunk, up to the first
   unauthorised or bufferless chunk; a radio error does not stop it. It reports success exactly
   when the data went out whole and every chunk was accepted. `noted` says that the attempt was
   recorded as a forwarded device-info, before the first chunk and only for a live session.
   */
  method NotifySession(data: seq<Byte>, session: Snapshot, air: Air)
    returns (sent: bool, calls: seq<Call>, noted: bool)
    requires |data| <= NOTIFY_MAX && |data| <= |air.chances|
    ensures !Live(session) ==> calls == []
    ensures Authorised(calls, session, air.chances) && Cut(calls, ChunkLen(air.mtu))
    ensures Carried(calls) <= data
    ensures Live(session) && Carried(calls) != data ==>
              && |calls| < |air.chances|
              && !(Authorises(session, air.chances[|calls|].current) && air.chances[|calls|].buffer)
    ensures sent <==> Live(session) && Carried(calls) == data && AllAccepted(calls)
    ensures sent ==> Accepted(calls) == data
    ensures Live(session) && Smooth(session, air) ==> sent
    ensures noted <==> Live(session) && DeviceHeader(data)
  {
    sent, calls, noted := false, [], false;
    if Live(session) {
      noted := DeviceHeader(data);
      sent, calls := SendChunks(data, session, air);
    }
  }

  /** The chunk loop, for a live session. */
  method SendChunks(data: seq<Byte>, session: Snapshot, air: Air) returns (sent: bool, calls: seq<Call>)
    requires Live(session)
    requires |data| <= NOTIFY_MAX && |data| <= |air.chances|
    ensures Authorised(calls, session, air.chances) && Cut(calls, ChunkLen(air.mtu))
    ensures Carried(calls) <= data
    ensures Carried(calls) != data ==>
              && |calls| < |air.chances|
              && !(Authorises(session, air.chances[|calls|].current) && air.chances[|calls|].buffer)
    ensures sent <==> Carried(calls) == data && AllAccepted(calls)
    ensures sent ==> Accepted(calls) == data
    ensures Smooth(session, air) ==> sent
  {
    calls := [];
    var chunk := ChunkLen(air.mtu);
    var off, submitted, errors := 0, 0, 0;
    ghost var done := 0;
    while off < |data|
      invariant done == (if off < |data| then off else |data|)
      invariant |calls| <= done && Carried(calls) == data[..done]
      invariant Authorised(calls, session, air.chances) && Cut(calls, chunk)
      invariant off < |data| ==> Full(calls, chunk)
      invariant errors >= 0 && (errors == 0 <==> AllAccepted(calls))
      invariant Smooth(session, air) ==> errors == 0
      invariant submitted <= done && (errors == 0 ==> submitted == done)
      decreases |data| + chunk - off
    {
      var chance := air.chances[|calls|];
      if !Authorises(session, chance.current) {
        return false, calls;
      }
      var n := if |data| - off < chunk then |data| - off else chunk;
      if !chance.buffer {
        return false, calls;
      }
      var call := Call(session.handle, data[off..off + n], chance.rc);
      CarryOn(calls, call, data, off, n);
      CallOn(calls, session, air.chances, call, chunk);
      calls := calls + [call];
      if chance.rc == 0 {
        submitted := submitted + n;
      } else {
        errors := errors + 1;
      }
      off := off + chunk;
      done := done + n;
    }
    assert data[..|data|] == data;
    sent := submitted == |data| && errors == 0;
    if sent {
      AcceptedAll(calls);
    }
  }

  // ---- Replay of cached records ---------------------------------------------------------

  /** A cached record with a fresh counter in byte 5 and its sum made good; under six bytes it stays. */
  function Stamped(w: seq<Byte>, ctr: Byte): (s: seq<Byte>)
    ensures |s| == |w|
  {
    if |w| < 6 then w
    else w[5 := ctr][|w| - 1 := Sum(w[5 := ctr][..|w| - 1]) % 256]
  }

  /** A stamped record passes the checksum, and differs from the cached one in two bytes at most. */
  lemma StampedOk(w: seq<Byte>, ctr: Byte)
    requires |w| >= 6
    ensures ChecksumOk(Stamped(w, ctr))
    ensures forall k :: 0 <= k < |w| && k != 5 && k != |w| - 1 ==> Stamped(w, ctr)[k] == w[k]
    ensures |w| > 6 ==> Stamped(w, ctr)[5] == ctr
    ensures RecordOf(Stamped(w, ctr)) == RecordOf(w)
    ensures |w| == RECORD_LEN && StartsWithMagic(w) ==> ValidFrame(Stamped(w, ctr))
  {
    assert Stamped(w, ctr)[..|w| - 1] == w[5 := ctr][..|w| - 1];
    assert Stamped(w, ctr)[..4] == w[..4];
  }

  /** The in-place stamp of the replay buffer. */
  method Stamp(w: array<Byte>, ctr: Byte)
    modifies w
    ensures w[..] == Stamped(old(w[..]), ctr)
  {
    if w.Length < 6 {
      return;
    }
    w[5] := ctr;
    ghost var body := old(w[..])[5 := ctr];
    assert w[..] == body;
    var sum := SumOf(w, w.Length - 1);
    assert w[..w.Length - 1] == body[..w.Length - 1];
    w[w.Length - 1] := sum;
    assert w[..] == body[w.Length - 1 := sum];
  }

  /** Delivery order of a burst. */
  const ORDER: seq<Record> := [DeviceInfo, Settings, CellInfo]

  /** The answers met by one burst: one `Air` per record. */
  predicate Airs(airs: seq<Air>) {
    |airs| == 3 && forall i :: 0 <= i < 3 ==> |airs[i].chances| >= FRAME_MAX
  }

  /** The records of a burst, in order, each with its own counter; empty caches are passed over. */
  function Burst(cache: Record -> seq<Byte>, records: set<Record>, ctr: Byte, n: nat): (out: (seq<(nat, seq<Byte>)>, Byte))
    requires n <= 3
  {
    if n == 0 then ([], ctr)
    else
      var (before, c) := Burst(cache, records, ctr, n - 1);
      var w := cache(ORDER[n - 1]);
      if ORDER[n - 1] !in records || w == [] then (before, c)
      else (before + [(n - 1, Stamped(w, c))], if |w| >= 6 then (c + 1) % 256 else c)
  }

  /** The counter after a record: short ones do not use it. */
  function Bumped(ctr: Byte, w: seq<Byte>): Byte { if |w| < 6 then ctr else (ctr + 1) % 256 }

  /** A record is part of the burst: claimed, and in the cache. */
  predicate Picked(cache: Record -> seq<Byte>, records: set<Record>, r: Record) { r in records && cache(r) != [] }

  /**
   The burst, spelt out: device info, then settings, then cell info, each if it is claimed and cached,
   and each stamped with the counter its predecessors left.
   */
  lemma BurstExact(cache: Record -> seq<Byte>, records: set<Record>, ctr: Byte)
    ensures var dev, set1, cell := cache(DeviceInfo), cache(Settings), cache(CellInfo);
            var c1 := if Picked(cache, records, DeviceInfo) then Bumped(ctr, dev) else ctr;
            var c2 := if Picked(cache, records, Settings) then Bumped(c1, set1) else c1;
            && Burst(cache, records, ctr, 3).0
               == (if Picked(cache, records, DeviceInfo) then [(0, Stamped(dev, ctr))] else [])
                + (if Picked(cache, records, Settings) then [(1, Stamped(set1, c1))] else [])
                + (if Picked(cache, records, CellInfo) then [(2, Stamped(cell, c2))] else [])
            && Burst(cache, records, ctr, 3).1 == (if Picked(cache, records, CellInfo) then Bumped(c2, cell) else c2)
  {
    assert Burst(cache, records, ctr, 0) == ([], ctr);
    assert Burst(cache, records, ctr, 1).0 == if Picked(cache, records, DeviceInfo) then [(0, Stamped(cache(DeviceInfo), ctr))] else [];
  }

  /** One record of a burst on its way: which one, the calls made for it, and whether it was noted. */
  datatype Delivery = Delivery(index: nat, calls: seq<Call>, noted: bool)

  /** The chunk after the calls made was unauthorised or without a buffer. */
  predicate Blocked(calls: seq<Call>, session: Snapshot, air: Air) {
    && |calls| < |air.chances|
    && !(Authorises(session, air.chances[|calls|].current) && air.chances[|calls|].buffer)
  }

  /** A stamped record went out: whole, or up to a blocked chunk; whole and accepted if nothing goes wrong. */
  predicate Replayed(d: Delivery, record: seq<Byte>, session: Snapshot, air: Air) {
    && Authorised(d.calls, session, air.chances) && Cut(d.calls, ChunkLen(air.mtu))
    && Carried(d.calls) <= record
    && (Live(session) && Carried(d.calls) != record ==> Blocked(d.calls, session, air))
    && (Live(session) && Smooth(session, air) ==> Accepted(d.calls) == record)
    && (d.noted <==> Live(session) && DeviceHeader(record))
  }

  /** Each record of the burst went out, authorised against the claimed session. */
  predicate Delivered(ds: seq<Delivery>, burst: seq<(nat, seq<Byte>)>, session: Snapshot, airs: seq<Air>) {
    && |ds| == |burst|
    && forall i :: 0 <= i < |ds| ==>
         && ds[i].index == burst[i].0 < |airs|
         && Replayed(ds[i], burst[i].1, session, airs[ds[i].index])
  }

  /** The delivery half of `ble_periph_replay_tick`: one destination for the whole claimed burst. */
  method ReplayBurst(cache: Record -> seq<Byte>, records: set<Record>, session: Snapshot, ctr: Byte, airs: seq<Air>)
    returns (ds: seq<Delivery>, next: Byte)
    requires Airs(airs) && forall r :: |cache(r)| <= FRAME_MAX
    ensures Delivered(ds, Burst(cache, records, ctr, 3).0, session, airs)
    ensures next == Burst(cache, records, ctr, 3).1
  {
    ds, next := [], ctr;
    for r := 0 to 3
      invariant Delivered(ds, Burst(cache, records, ctr, r).0, session, airs)
      invariant next == Burst(cache, records, ctr, r).1
    {
      var cached := cache(ORDER[r]);
      if ORDER[r] in records && cached != [] {
        var d := ReplayRecord(cached, r, next, session, airs[r]);
        ds := ds + [d];
        if |cached| >= 6 {
          next := (next + 1) % 256;
        }
      }
    }
  }

  /** One record: copied, stamped in place and sent. */
  method ReplayRecord(cached: seq<Byte>, index: nat, ctr: Byte, session: Snapshot, air: Air) returns (d: Delivery)
    requires |cached| <= FRAME_MAX <= |air.chances|
    ensures d.index == index && Replayed(d, Stamped(cached, ctr), session, air)
  {
    var w := new Byte[|cached|](i requires 0 <= i < |cached| => cached[i]);
    assert w[..] == cached;
    Stamp(w, ctr);
    var sent, calls, noted := NotifySession(w[..], session, air);
    d := Delivery(index, calls, noted);
  }

  /**
   The sending loop inside a run: the burst of claim `k` is sent while the tasks of Node B go on, the
   session being looked at after event `at[i]` for chunk `i`. Every notification made goes to the
   claimed handle while the claimed session is still the current one, whatever happened between.
   */
  lemma BurstInSession(units: nat, es: seq<Event>, n: nat, k: nat, calls: seq<Call>, chances: seq<Chance>, at: seq<nat>)
    requires |at| == |calls| <= |chances| && n <= |es|
    requires k < |Run(Init(units), es[..n]).claims|
    requires Authorised(calls, Run(Init(units), es[..n]).claims[k].session, chances)
    requires forall i :: 0 <= i < |at| ==>
               && n <= at[i] <= |es|
               && Possible(Init(units), es[..at[i]]) && FewEdges(Run(Init(units), es[..at[i]]))
               && SeenAt(Run(Init(units), es[..at[i]]), Run(Init(units), es[..n]).claims[k].id, chances[i].current)
    ensures forall i :: 0 <= i < |calls| ==>
              && chances[i].current == Run(Init(units), es[..n]).claims[k].session
              && calls[i].handle == chances[i].current.handle
  {
    forall i | 0 <= i < |calls|
      ensures chances[i].current == Run(Init(units), es[..n]).claims[k].session
    {
      var done := es[..at[i]];
      assert done[..n] == es[..n];
      LateSnapshot(units, done, n, k);
    }
  }

  /** Snapshot `seen` is what the table shows for an identity. */
  predicate SeenAt(s: NodeB, id: nat, seen: Snapshot) {
    id < |s.ids| && seen == Snap(s.ids[id])
  }

  // ---- The live gate --------------------------------------------------------------------

  /** What the phone should have of an epoch's bytes: all of them, from the first record on. */
  ghost predicate FromFirstRecord(input: seq<Byte>, output: seq<Byte>) {
    (NoRecordYet(input) && output == []) || Passes(input, output)
  }

  /** The output starts with the first record of the input and leaves nothing out after it. */
  ghost predicate Passes(input: seq<Byte>, output: seq<Byte>) {
    exists e: nat :: FirstRecordEnd(input, e) && output == input[e - RECORD_LEN..]
  }

  /** Once open, bytes pass through. */
  lemma PassThrough(input: seq<Byte>, output: seq<Byte>, more: seq<Byte>)
    requires Passes(input, output)
    ensures Passes(input + more, output + more)
  {
    var e: nat :| FirstRecordEnd(input, e) && output == input[e - RECORD_LEN..];
    FirstRecordEndStable(input, more, e);
    assert (input + more)[e - RECORD_LEN..] == output + more;
  }

  lemma {:induction false} AcceptedConcat(a: seq<Call>, b: seq<Call>)
    ensures Accepted(a + b) == Accepted(a) + Accepted(b)
    decreases |b|
  {
    if b == [] {
      assert a + b == a;
    } else {
      var n := |b| - 1;
      AcceptedConcat(a, b[..n]);
      assert (a + b)[..|a + b| - 1] == a + b[..n];
      Assoc(Accepted(a), Accepted(b[..n]), if b[n].rc == 0 then b[n].bytes else []);
    }
  }

  lemma RecordAppended(output: seq<Byte>, record: seq<Byte>)
    requires ValidRecord(record)
    ensures RecordEndsAt(output + record, |output| + RECORD_LEN)
  {
    assert (output + record)[|output|..|output| + RECORD_LEN] == record;
  }

  /**
   What the gate keeps. While nothing failed in this epoch: shut, it has searched everything and sent
   nothing; open, it has sent everything from the first record on. Open in any case only after a
   complete valid record was accepted whole.
   */
  ghost predicate GateOk(aligned: bool, clean: bool, hist: seq<Byte>, input: seq<Byte>, output: seq<Byte>, at: nat) {
    && (!aligned && clean ==> hist == input && output == [])
    && (aligned && clean ==> Passes(input, output))
    && (aligned ==> RecordEndsAt(output, at + RECORD_LEN))
  }

  lemma GatePasses(clean: bool, hist: seq<Byte>, input: seq<Byte>, output: seq<Byte>, at: nat, data: seq<Byte>, sent: bool, accepted: seq<Byte>)
    requires GateOk(true, clean, hist, input, output, at) && (sent ==> accepted == data)
    ensures GateOk(true, clean && sent, hist, input + data, output + accepted, at)
  {
    if clean && sent {
      PassThrough(input, output, data);
    }
    RecordStable(output, accepted, at + RECORD_LEN);
  }

  /** The search ended on a record, and the record was accepted whole. */
  lemma GateOpens(clean: bool, hist: seq<Byte>, input: seq<Byte>, output: seq<Byte>, record: seq<Byte>)
    requires FirstRecordEnd(hist, |hist|) && record == hist[|hist| - RECORD_LEN..|hist|]
    requires clean ==> hist == input && output == []
    ensures GateOk(true, clean, [], input, output + record, |output|)
  {
    RecordAppended(output, record);
    if clean {
      assert output + record == input[|input| - RECORD_LEN..];
    }
  }

  /** What the gate needs to know of a submission. */
  method Submit(data: seq<Byte>, session: Snapshot, air: Air) returns (sent: bool, calls: seq<Call>)
    requires |data| <= NOTIFY_MAX && |data| <= |air.chances|
    ensures sent ==> Accepted(calls) == data
    ensures Authorised(calls, session, air.chances)
    ensures Live(session) && Smooth(session, air) ==> sent
  {
    var noted;
    sent, calls, noted := NotifySession(data, session, air);
  }

  /** `s_live[id]`, with the history of the current epoch. */
  class LiveGate {
    var epoch: nat
    var aligned: bool
    const start: Search
    /** Raw bytes received and bytes accepted by the radio in this epoch. */
    ghost var input: seq<Byte>
    ghost var output: seq<Byte>
    /** Every submission of this epoch succeeded. */
    ghost var clean: bool
    /** Where in `output` the record that opened the gate starts. */
    ghost var openedAt: nat

    ghost predicate Valid()
      reads this, start, start.data
    {
      start.Valid() && GateOk(aligned, clean, start.hist, input, output, openedAt)
    }

    constructor ()
      ensures Valid() && epoch == 0 && !aligned && clean && input == output == []
      ensures fresh(start) && fresh(start.data)
    {
      epoch, aligned := 0, false;
      start := new Search();
      input, output, clean, openedAt := [], [], true, 0;
    }

    /** The gate's promise, for an epoch without a failed submission. */
    lemma Promise()
      requires Valid() && clean
      ensures FromFirstRecord(input, output)
    {
    }

    /** The test at the top of `ble_periph_forward_notify`: a new epoch starts from nothing. */
    method Follow(session: Snapshot)
      requires Valid()
      modifies this, start
      ensures Valid() && epoch == session.epoch
      ensures epoch == old(epoch) ==> input == old(input) && output == old(output) && clean == old(clean) && aligned == old(aligned)
      ensures epoch != old(epoch) ==> input == [] && output == [] && clean && !aligned
    {
      if epoch != session.epoch {
        epoch, aligned := session.epoch, false;
        start.Reset();
        input, output, clean, openedAt := [], [], true, 0;
      }
    }

    /** The record found by the search is submitted whole, or the gate stays shut and starts over. */
    method Open(session: Snapshot, air: Air) returns (sent: bool, calls: seq<Call>)
      requires !aligned && start.data.Length == RECORD_LEN && Live(session)
      requires FirstRecordEnd(start.hist, |start.hist|)
      requires start.data[..] == start.hist[|start.hist| - RECORD_LEN..]
      requires clean ==> start.hist == input && output == []
      requires RECORD_LEN <= |air.chances|
      modifies this, start
      ensures Valid() && sent == aligned && clean == (old(clean) && sent)
      ensures epoch == old(epoch) && input == old(input) && output == old(output) + Accepted(calls)
      ensures Smooth(session, air) ==> sent
    {
      var record := start.data[..];
      sent, calls := Submit(record, session, air);
      if sent {
        GateOpens(clean, start.hist, input, output, record);
        aligned, openedAt := true, |output|;
      }
      start.Reset();
      output, clean := output + Accepted(calls), clean && sent;
    }

    /** Bytes behind the first record go on as they are. */
    method PassOn(data: seq<Byte>, session: Snapshot, air: Air) returns (sent: bool, calls: seq<Call>)
      requires Valid() && aligned && Live(session)
      requires |data| <= NOTIFY_MAX && |data| <= |air.chances|
      modifies this
      ensures Valid() && aligned && epoch == old(epoch) && clean == (old(clean) && sent)
      ensures input == old(input) + data && output == old(output) + Accepted(calls)
      ensures Smooth(session, air) ==> sent
    {
      if |data| > 0 {
        sent, calls := Submit(data, session, air);
      } else {
        sent, calls := true, [];
      }
      GatePasses(clean, start.hist, input, output, openedAt, data, sent, Accepted(calls));
      input, output, clean := input + data, output + Accepted(calls), clean && sent;
    }

    /** The search consumes the data, and opens the gate when it ends on a record. */
    method Align(data: seq<Byte>, session: Snapshot, air: Air) returns (ok: bool, consumed: nat, calls: seq<Call>)
      requires Valid() && !aligned && Live(session)
      requires RECORD_LEN <= |air.chances|
      modifies this, start, start.data
      ensures Valid() && epoch == old(epoch) && clean == (old(clean) && ok)
      ensures consumed <= |data| && (!aligned ==> consumed == |data|)
      ensures input == old(input) + data[..consumed] && output == old(output) + Accepted(calls)
      ensures Smooth(session, air) ==> ok
    {
      calls, ok := [], true;
      var found;
      found, consumed := start.Push(data);
      input := input + data[..consumed];
      if !found {
        assert data[..consumed] == data;
        return;
      }
      ok, calls := Open(session, air);
      if !ok {
        assert data[..consumed] + data[consumed..] == data;
        input := input + data[consumed..];
        consumed := |data|;
        assert data[..consumed] == data;
      }
    }

    /** The live half of `ble_periph_forward_notify`: align first if need be, then pass on. */
    method ForwardLive(data: seq<Byte>, session: Snapshot, first: Air, rest: Air) returns (ok: bool, calls: seq<Call>)
      requires Valid() && Live(session)
      requires |data| <= NOTIFY_MAX && RECORD_LEN <= |first.chances| && |data| <= |rest.chances|
      modifies this, start, start.data
      ensures Valid() && epoch == old(epoch) && clean == (old(clean) && ok)
      ensures input == old(input) + data && output == old(output) + Accepted(calls)
      ensures Smooth(session, first) && Smooth(session, rest) ==> ok
    {
      if aligned {
        ok, calls := PassOn(data, session, rest);
        return;
      }
      var consumed;
      ok, consumed, calls := Align(data, session, first);
      if !aligned {
        assert data[..consumed] == data;
        return;
      }
      ghost var mid := input;
      var sent, more := PassOn(data[consumed..], session, rest);
      assert mid + data[consumed..] == old(input) + data by {
        assert data[..consumed] + data[consumed..] == data;
      }
      AcceptedConcat(calls, more);
      ok, calls := ok && sent, calls + more;
    }

    /**
     `ble_periph_forward_notify` on one raw chunk. `ok` says that every submission made succeeded.
     */
    method Forward(data: seq<Byte>, session: Snapshot, first: Air, rest: Air) returns (ok: bool, calls: seq<Call>)
      requires Valid()
      requires |data| <= NOTIFY_MAX && RECORD_LEN <= |first.chances| && |data| <= |rest.chances|
      modifies this, start, start.data
      ensures Valid() && epoch == session.epoch
      ensures input == (if old(epoch) == epoch then old(input) else []) + (if Live(session) then data else [])
      ensures output == (if old(epoch) == epoch then old(output) else []) + Accepted(calls)
      ensures clean == ((old(epoch) == epoch ==> old(clean)) && ok)
      ensures !Live(session) ==> calls == [] && ok
      ensures Smooth(session, first) && Smooth(session, rest) ==> ok
    {
      Follow(session);
      if Live(session) {
        ok, calls := ForwardLive(data, session, first, rest);
      } else {
        ok, calls := true, [];
      }
    }
  }

  /** One raw chunk and what its submissions meet. */
  datatype Turn = Turn(data: seq<Byte>, first: Air, rest: Air)

  /**
   A whole epoch whose submissions all succeed: however the raw bytes arrive and whatever the MTU
   is at each turn, the phone gets exactly the bytes from the first valid record on.
   */
  method LiveEpoch(turns: seq<Turn>, session: Snapshot) returns (calls: seq<Call>)
    requires Live(session)
    requires forall i :: 0 <= i < |turns| ==>
               && |turns[i].data| <= NOTIFY_MAX && |turns[i].data| <= |turns[i].rest.chances|
               && RECORD_LEN <= |turns[i].first.chances|
               && Smooth(session, turns[i].first) && Smooth(session, turns[i].rest)
    ensures FromFirstRecord(Received(turns), Accepted(calls))
  {
    var gate := new LiveGate();
    calls := [];
    gate.Follow(session);
    for i := 0 to |turns|
      invariant fresh(gate) && fresh(gate.start) && fresh(gate.start.data)
      invariant gate.Valid() && gate.clean && gate.epoch == session.epoch
      invariant gate.input == Received(turns[..i]) && gate.output == Accepted(calls)
    {
      var ok, more := gate.Forward(turns[i].data, session, turns[i].first, turns[i].rest);
      assert turns[..i + 1][..i] == turns[..i];
      AcceptedConcat(calls, more);
      calls := calls + more;
    }
    assert turns[..|turns|] == turns;
    gate.Promise();
  }

  function Received(turns: seq<Turn>): seq<Byte> {
    if turns == [] then [] else Received(turns[..|turns| - 1]) + turns[|turns| - 1].data
  }
}
