/** The mutable identity table of Node B; each method is one or two lock sections of the original. */
module NbState {
  import opened Prelude
  import opened JkFrame
  import opened StateCache
  import opened Session

  /** Records a device-info opener and a cell-info opener ask for, in the order they are looked up. */
  const DEVICE_BURST: seq<Record> := [DeviceInfo, Settings, CellInfo]
  const CELL_BURST: seq<Record> := [Settings, CellInfo]

  /** A JK command frame carrying opcode `op`. */
  predicate Opener(buf: seq<Byte>, op: Byte) {
    |buf| >= 5 && buf[0] == 0xAA && buf[1] == 0x55 && buf[2] == 0x90 && buf[3] == 0xEB && buf[4] == op
  }

  /** The cached records an app write makes owed. */
  function OwedBy(buf: seq<Byte>, cached: set<Record>): set<Record> {
    if Opener(buf, 0x97) then {DeviceInfo, Settings, CellInfo} * cached
    else if Opener(buf, 0x96) then {Settings, CellInfo} * cached
    else {}
  }

  /** In bytes: AA 55 90 EB 97 asks for all three records, AA 55 90 EB 96 for settings and cell info. */
  lemma OpenersAsk(rest: seq<Byte>, cached: set<Record>)
    ensures OwedBy([0xAA, 0x55, 0x90, 0xEB, 0x97] + rest, cached) == (set r | r in cached && r != NoRecord)
    ensures OwedBy([0xAA, 0x55, 0x90, 0xEB, 0x96] + rest, cached) == (set r | r in cached && (r == Settings || r == CellInfo))
    ensures forall op: Byte :: op != 0x97 && op != 0x96 ==> OwedBy([0xAA, 0x55, 0x90, 0xEB, op] + rest, cached) == {}
    ensures forall buf: seq<Byte> :: |buf| < 5 ==> OwedBy(buf, cached) == {}
  {
    var dev := [0xAA, 0x55, 0x90, 0xEB, 0x97] + rest;
    assert Opener(dev, 0x97);
    var cell := [0xAA, 0x55, 0x90, 0xEB, 0x96] + rest;
    assert Opener(cell, 0x96) && !Opener(cell, 0x97);
  }

  /**
   What the table keeps: epochs count edges, debts are in order and belong to the connection they
   were opened in, a disconnected identity owes nothing, and at most one identity is connected.
   */
  ghost predicate Sane(ids: seq<Identity>, clockUs: int, conns: nat, serials: nat) {
    && AtMostOne(ids)
    && forall i :: 0 <= i < |ids| ==>
         IdentityOk(ids[i], clockUs) && ids[i].conn <= conns && Below(ids[i].owed, serials)
  }

  /** Replacing one identity by a sane one that neither connects nor owes more. */
  lemma SaneSettles(ids: seq<Identity>, clockUs: int, laterUs: int, conns: nat, serials: nat, id: nat, it': Identity)
    requires Sane(ids, clockUs, conns, serials) && id < |ids| && clockUs <= laterUs
    requires Settles(ids[id], it') && IdentityOk(it', laterUs)
    ensures Sane(ids[id := it'], laterUs, conns, serials)
  {
    forall i | 0 <= i < |ids| && i != id ensures IdentityOk(ids[i], laterUs) {
      assert IdentityOk(ids[i], clockUs);
    }
  }

  lemma SaneDetach(ids: seq<Identity>, clockUs: int, conns: nat, serials: nat, id: nat, h: nat)
    requires Sane(ids, clockUs, conns, serials) && id < |ids|
    ensures Sane(ids[id := Detach(ids[id], h)], clockUs, conns, serials)
  {
    DetachOk(ids[id], h, clockUs);
    SaneSettles(ids, clockUs, clockUs, conns, serials, id, Detach(ids[id], h));
  }

  lemma SaneNotify(ids: seq<Identity>, clockUs: int, conns: nat, serials: nat, id: nat, on: bool)
    requires Sane(ids, clockUs, conns, serials) && id < |ids|
    ensures Sane(ids[id := SetNotify(ids[id], on)], clockUs, conns, serials)
  {
    UpdatesSettle(ids[id], on, Up, 0, clockUs);
    SetNotifyOk(ids[id], on, clockUs);
    SaneSettles(ids, clockUs, clockUs, conns, serials, id, SetNotify(ids[id], on));
  }

  lemma SaneClaim(ids: seq<Identity>, clockUs: int, laterUs: int, conns: nat, serials: nat, id: nat)
    requires Sane(ids, clockUs, conns, serials) && id < |ids| && clockUs <= laterUs
    ensures Sane(ids[id := Claimed(ids[id], laterUs)], laterUs, conns, serials)
  {
    UpdatesSettle(ids[id], true, Up, 0, laterUs);
    UpdatesOk(ids[id], Up, 0, clockUs, laterUs);
    SaneSettles(ids, clockUs, laterUs, conns, serials, id, Claimed(ids[id], laterUs));
  }

  lemma SaneForward(ids: seq<Identity>, clockUs: int, laterUs: int, conns: nat, serials: nat, id: nat, epoch: nat)
    requires Sane(ids, clockUs, conns, serials) && id < |ids| && clockUs <= laterUs
    ensures Sane(ids[id := NoteDevForwarded(ids[id], epoch, laterUs)], clockUs, conns, serials)
  {
    UpdatesSettle(ids[id], true, Up, epoch, laterUs);
    UpdatesOk(ids[id], Up, epoch, clockUs, laterUs);
    SaneSettles(ids, clockUs, clockUs, conns, serials, id, NoteDevForwarded(ids[id], epoch, laterUs));
  }

  lemma SaneAttach(ids: seq<Identity>, clockUs: int, conns: nat, serials: nat, id: nat, h: nat)
    requires Sane(ids, clockUs, conns, serials) && id < |ids| && Active(ids) == 0
    ensures Sane(ids[id := Attach(ids[id], h, conns + 1)], clockUs, conns + 1, serials)
  {
    AttachOk(ids[id], h, conns + 1, clockUs);
  }

  /** A mark against a session this identity had, in a sane table, not before its clock. */
  ghost predicate MayMark(ids: seq<Identity>, clockUs: int, conns: nat, serials: nat, id: nat, session: Snapshot, nowUs: int)
    requires id < |ids|
  {
    Sane(ids, clockUs, conns, serials) && clockUs <= nowUs && session.connected && Earlier(session, Snap(ids[id]))
  }

  lemma SaneMark(ids: seq<Identity>, clockUs: int, laterUs: int, conns: nat, serials: nat, id: nat,
                 records: set<Record>, session: Snapshot)
    requires Sane(ids, clockUs, conns, serials) && id < |ids| && clockUs <= laterUs
    requires Earlier(session, Snap(ids[id])) && session.connected
    ensures Sane(ids[id := MarkReplay(ids[id], records, session, laterUs, serials)], laterUs, conns, serials + 1)
  {
    MarkOk(ids[id], records, session, clockUs, laterUs, serials);
    forall i | 0 <= i < |ids| && i != id ensures IdentityOk(ids[i], laterUs) {
      assert IdentityOk(ids[i], clockUs);
    }
  }

  /** The code of a claim, from the fields: 1 deliver, 2 answered live, 0 anything else. */
  predicate CodeFor(it: Identity, nowUs: int, act: int) {
    var live := it.connected && it.notifyOn && it.pending != {} && nowUs - it.pendingSinceUs <= 5_000_000;
    && (act == 1 <==> live && it.devSeenUs <= it.pendingSinceUs && (it.link != Up || nowUs - it.pendingSinceUs > 2_000_000))
    && (act == 2 <==> live && it.devSeenUs > it.pendingSinceUs)
  }

  class Table {
    const ids: array<Identity>
    /** Bookkeeping: phone connections adopted and openers marked so far. */
    var conns: nat
    var serials: nat
    /** The latest clock reading. */
    ghost var clockUs: int

    ghost predicate Valid()
      reads this, ids
    {
      Sane(ids[..], clockUs, conns, serials)
    }

    constructor (units: nat)
      ensures ids.Length == units && fresh(ids) && conns == serials == 0
      ensures ids[..] == Init(units).ids && Valid()
    {
      ids := new Identity[units](_ => BOOT_IDENTITY);
      conns, serials, clockUs := 0, 0, 0;
    }

    /** `nb_identity_for_conn`. */
    method IdentityForConn(h: nat) returns (r: Option<nat>)
      ensures r == IdentityFor(ids[..], h)
    {
      for i := 0 to ids.Length
        invariant forall j :: 0 <= j < i ==> !(ids[..][j].connected && ids[..][j].handle == h)
      {
        if ids[i].connected && ids[i].handle == h {
          assert ids[..][i].connected && ids[..][i].handle == h;
          return Some(i);
        }
      }
      return None;
    }

    /** `nb_active_conn_count`. */
    method ActiveConnCount() returns (n: nat)
      ensures n == Active(ids[..])
    {
      n := 0;
      for i := 0 to ids.Length
        invariant n == Active(ids[..i])
      {
        assert ids[..i + 1][..i] == ids[..i];
        if ids[i].connected {
          n := n + 1;
        }
      }
      assert ids[..ids.Length] == ids[..];
    }

    /** `nb_set_conn`. */
    method SetConn(id: nat, connected: bool, h: nat, conn: nat)
      modifies ids
      ensures ids[..] == if id >= ids.Length then old(ids[..])
                         else if connected then old(ids[..])[id := Attach(old(ids[..])[id], h, conn)]
                         else old(ids[..])[id := Detach(old(ids[..])[id], h)]
      ensures old(Valid()) && !connected ==> Valid()
    {
      if id >= ids.Length {
        return;
      }
      if Valid() && !connected {
        SaneDetach(ids[..], clockUs, conns, serials, id, h);
      }
      var it := ids[id];
      if it.connected != connected || it.handle != h {
        it := it.(epoch := (it.epoch + 1) % TWO_64, edges := it.edges + 1);
      }
      it := it.(connected := connected, handle := h);
      if !connected {
        it := it.(notifyOn := false, pending := {}, owed := []);
      } else {
        it := it.(conn := conn);
      }
      ids[id] := it;
    }

    /** `nb_set_notify`. */
    method SetNotifyOn(id: nat, on: bool)
      modifies ids
      ensures ids[..] == if id >= ids.Length then old(ids[..])
                         else old(ids[..])[id := SetNotify(old(ids[..])[id], on)]
      ensures old(Valid()) ==> Valid()
    {
      if id >= ids.Length {
        return;
      }
      if Valid() {
        SaneNotify(ids[..], clockUs, conns, serials, id, on);
      }
      var it := ids[id];
      if it.notifyOn != on {
        it := it.(epoch := (it.epoch + 1) % TWO_64, edges := it.edges + 1);
      }
      ids[id] := it.(notifyOn := on);
    }

    /** `nb_mark_replay`. */
    method Mark(id: nat, records: set<Record>, session: Snapshot, nowUs: int)
      modifies this`serials, this`clockUs, ids
      ensures serials == old(serials) + 1 && clockUs == nowUs
      ensures ids[..] == if id >= ids.Length then old(ids[..])
                         else old(ids[..])[id := MarkReplay(old(ids[..])[id], records, session, nowUs, old(serials))]
      ensures id < ids.Length && MayMark(old(ids[..]), old(clockUs), conns, old(serials), id, session, nowUs) ==> Valid()
    {
      ghost var before, earlier, serial := ids[..], clockUs, serials;
      AddDebt(id, records, session, nowUs);
      clockUs := nowUs;
      if id < |before| && MayMark(before, earlier, conns, serial, id, session, nowUs) {
        SaneMark(before, earlier, nowUs, conns, serial, id, records, session);
      }
    }

    /** The lock section of a mark. */
    method AddDebt(id: nat, records: set<Record>, session: Snapshot, nowUs: int)
      modifies this`serials, ids
      ensures serials == old(serials) + 1
      ensures ids[..] == if id >= ids.Length then old(ids[..])
                         else old(ids[..])[id := MarkReplay(old(ids[..])[id], records, session, nowUs, old(serials))]
    {
      var serial := serials;
      serials := serials + 1;
      if id >= ids.Length {
        return;
      }
      var it := ids[id];
      if !it.connected || it.epoch != session.epoch || records == {} {
        return;
      }
      if it.pending == {} {
        it := it.(pendingSinceUs := nowUs);
      }
      ids[id] := it.(pending := it.pending + records,
                     owed := it.owed + [Session.Mark(serial, session.conn, it.conn, it.edges, nowUs, records)]);
    }

    /** `nb_note_dev_forwarded`. */
    method NoteForwarded(id: nat, epoch: nat, nowUs: int)
      modifies ids
      ensures ids[..] == if id >= ids.Length then old(ids[..])
                         else old(ids[..])[id := NoteDevForwarded(old(ids[..])[id], epoch, nowUs)]
      ensures old(Valid()) && clockUs <= nowUs ==> Valid()
    {
      if id < ids.Length && Valid() && clockUs <= nowUs {
        SaneForward(ids[..], clockUs, nowUs, conns, serials, id, epoch);
      }
      if id < ids.Length && ids[id].connected && ids[id].notifyOn && ids[id].epoch == epoch {
        ids[id] := ids[id].(devSeenUs := nowUs);
      }
    }

    /** `nb_get_notify_session`; an unknown identity reads as an all-zero session. */
    method Current(id: nat) returns (s: Snapshot)
      ensures id < ids.Length ==> s == Snap(ids[id])
      ensures id >= ids.Length ==> !s.connected && !s.notifyOn
    {
      if id >= ids.Length {
        return Snapshot(0, 0, false, false, 0, 0);
      }
      return Snap(ids[id]);
    }

    /**
     `nb_claim_replay`: decision, removal of the debt and the destination are one lock section. The
     code returned is 1 for a delivery, 2 for a debt the live stream already answered, else 0.
     */
    method ClaimReplay(id: nat, nowUs: int) returns (act: int, session: Snapshot, records: set<Record>)
      modifies this`clockUs, ids
      ensures clockUs == (if id < ids.Length then nowUs else old(clockUs))
      ensures old(Valid()) && old(clockUs) <= nowUs ==> Valid()
      ensures id >= ids.Length ==> act == 0 && records == {} && ids[..] == old(ids[..])
      ensures id < ids.Length ==>
                var it := old(ids[..])[id];
                && ids[..] == old(ids[..])[id := Claimed(it, nowUs)]
                && (act == 1 <==> Decide(it, nowUs) == Deliver)
                && (act == 2 <==> Decide(it, nowUs) == Cancel)
                && (act == 1 ==> session == Snap(it) && records == it.pending)
                && (act != 1 ==> records == {})
                && CodeFor(it, nowUs, act)
    {
      ghost var before, sane := ids[..], Valid() && clockUs <= nowUs;
      act, session, records := Take(id, nowUs);
      if id < ids.Length {
        if sane {
          SaneClaim(before, clockUs, nowUs, conns, serials, id);
        }
        clockUs := nowUs;
      }
    }

    /** The lock section of a claim. */
    method Take(id: nat, nowUs: int) returns (act: int, session: Snapshot, records: set<Record>)
      modifies ids
      ensures id >= ids.Length ==> act == 0 && records == {} && ids[..] == old(ids[..])
      ensures id < ids.Length ==>
                var it := old(ids[..])[id];
                && ids[..] == old(ids[..])[id := Claimed(it, nowUs)]
                && (act == 1 <==> Decide(it, nowUs) == Deliver)
                && (act == 2 <==> Decide(it, nowUs) == Cancel)
                && (act == 1 ==> session == Snap(it) && records == it.pending)
                && (act != 1 ==> records == {})
    {
      act, session, records := 0, Snapshot(0, 0, false, false, 0, 0), {};
      if id >= ids.Length {
        return;
      }
      var it := ids[id];
      if it.connected && it.notifyOn && it.pending != {} {
        if nowUs - it.pendingSinceUs > EXPIRY_US {
          ids[id] := it.(pending := {}, owed := []);
        } else if it.devSeenUs > it.pendingSinceUs {
          ids[id] := it.(pending := {}, owed := []);
          act := 2;
        } else if it.link != Up || nowUs - it.pendingSinceUs > LIVE_WAIT_US {
          act := 1;
        }
      }
      if act == 1 {
        session, records := Snap(it), it.pending;
        ids[id] := it.(pending := {}, owed := []);
      }
    }

    /** `adopt_conn`, with no other task between its lock sections. */
    method AdoptConn(id: nat, h: nat) returns (adopted: bool)
      modifies this`conns, ids
      ensures adopted <==> id < ids.Length && forall i :: 0 <= i < ids.Length ==> !old(ids[i]).connected
      ensures adopted ==> id < ids.Length && conns == old(conns) + 1
      ensures adopted ==> ids[..] == old(ids[..])[id := Attach(old(ids[..])[id], h, conns)]
      ensures !adopted ==> ids[..] == old(ids[..]) && conns == old(conns)
      ensures old(Valid()) ==> Valid()
    {
      var known := IdentityForConn(h);
      if known.Some? {
        assert ids[known.value].connected;
        return false;
      }
      var n := ActiveConnCount();
      assert forall i :: 0 <= i < ids.Length ==> ids[..][i] == ids[i];
      if n >= MAX_APP_CONNS || id >= ids.Length {
        return false;
      }
      if Valid() {
        SaneAttach(ids[..], clockUs, conns, serials, id, h);
      }
      conns := conns + 1;
      SetConn(id, true, h, conns);
      return true;
    }

    /** The disconnect event; an unknown handle is ignored. */
    method DisconnectEvent(h: nat)
      modifies ids
      ensures ids[..] == match IdentityFor(old(ids[..]), h)
                         case None => old(ids[..])
                         case Some(id) => old(ids[..])[id := Detach(old(ids[..])[id], 0)]
      ensures old(Valid()) ==> Valid()
    {
      var r := IdentityForConn(h);
      if r.Some? {
        SetConn(r.value, false, 0, 0);
      }
    }

    /** The subscribe event. */
    method SubscribeEvent(h: nat, on: bool)
      modifies ids
      ensures ids[..] == match IdentityFor(old(ids[..]), h)
                         case None => old(ids[..])
                         case Some(id) => old(ids[..])[id := SetNotify(old(ids[..])[id], on)]
      ensures old(Valid()) ==> Valid()
    {
      var r := IdentityForConn(h);
      if r.Some? {
        SetNotifyOn(r.value, on);
      }
    }

    /** `ble_periph_audit_conns`: every identity whose handle the controller lost is cleaned up. */
    method AuditConns(alive: set<nat>)
      modifies ids
      ensures forall i :: 0 <= i < ids.Length ==>
                ids[i] == if old(ids[i]).connected && old(ids[i]).handle !in alive
                          then Detach(old(ids[i]), 0) else old(ids[i])
      ensures old(Valid()) ==> Valid()
    {
      for id := 0 to ids.Length
        invariant forall i :: 0 <= i < id ==>
                    ids[i] == if old(ids[i]).connected && old(ids[i]).handle !in alive
                              then Detach(old(ids[i]), 0) else old(ids[i])
        invariant forall i :: id <= i < ids.Length ==> ids[i] == old(ids[i])
        invariant old(Valid()) ==> Valid()
      {
        ghost var before := ids[..];
        if ids[id].connected && ids[id].handle !in alive {
          SetConn(id, false, 0, 0);
          assert forall i :: 0 <= i < ids.Length ==> ids[i] == before[id := Detach(before[id], 0)][i];
        }
      }
    }

    /** `maybe_replay_opener`: builds one debt mask, then commits it against the session it saw. */
    method ReplayOpener(id: nat, buf: seq<Byte>, cached: set<Record>, nowUs: int)
      modifies this`serials, this`clockUs, ids
      ensures old(Valid()) && old(clockUs) <= nowUs ==> Valid()
      ensures ids[..] == if id < ids.Length
                         then old(ids[..])[id := MarkReplay(old(ids[..])[id], OwedBy(buf, cached),
                                                            Snap(old(ids[..])[id]), nowUs, old(serials))]
                         else old(ids[..])
    {
      var recs := if Opener(buf, 0x97) then DEVICE_BURST else if Opener(buf, 0x96) then CELL_BURST else [];
      var session := Current(id);
      if recs == [] || !session.connected {
        return;
      }
      var records: set<Record> := {};
      for i := 0 to |recs|
        invariant records == (set r | r in recs[..i] && r in cached)
      {
        assert recs[..i + 1] == recs[..i] + [recs[i]];
        if recs[i] in cached {
          records := records + {recs[i]};
        }
      }
      assert recs[..|recs|] == recs;
      assert records == OwedBy(buf, cached);
      Mark(id, records, session, nowUs);
    }
  }
}
