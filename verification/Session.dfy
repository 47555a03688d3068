/**
 Node B's shared session state: which identity the phone is connected to, the session epoch that
 fences notifications, and the cached records owed to the phone.

 Three fields are bookkeeping of this model and steer nothing: `edges`, the unbounded number of
 session edges of which the 64-bit `epoch` is the remainder; `conn`, the number of the phone
 connection an identity last adopted; and `owed`, the individual marks that make up `pending`.
 */
module Session {
  import opened Prelude
  import opened JkFrame
  import opened StateCache

  const EXPIRY_US: int := 5_000_000
  const LIVE_WAIT_US: int := 2_000_000
  const MAX_APP_CONNS: nat := 1

  /**
   One opener that made records owed: the connection its identity had adopted when the opener's
   session was looked up, the connection and the edge count it was charged to, and when.
   */
  datatype Mark = Mark(serial: nat, openedIn: nat, conn: nat, edges: nat, atUs: int, records: set<Record>)

  datatype Identity = Identity(
    connected: bool,
    handle: nat,
    notifyOn: bool,
    epoch: nat,
    link: LinkState,
    pending: set<Record>,
    pendingSinceUs: int,
    devSeenUs: int,
    edges: nat,
    conn: nat,
    owed: seq<Mark>)

  const BOOT_IDENTITY: Identity :=
    Identity(false, 0, false, 0, Unreachable, {}, 0, 0, 0, 0, [])

  /** `nb_notify_session_t`, with the two bookkeeping numbers beside it. */
  datatype Snapshot = Snapshot(
    epoch: nat, handle: nat, connected: bool, notifyOn: bool, edges: nat, conn: nat)

  function Snap(it: Identity): Snapshot {
    Snapshot(it.epoch, it.handle, it.connected, it.notifyOn, it.edges, it.conn)
  }

  // ---- Updates of one identity -----------------------------------------------------

  function SessionEdge(it: Identity): Identity {
    it.(epoch := (it.epoch + 1) % TWO_64, edges := it.edges + 1)
  }

  /** `nb_set_conn(id, true, h)`, for phone connection number `conn`. */
  function Attach(it: Identity, h: nat, conn: nat): Identity {
    var e := if !it.connected || it.handle != h then SessionEdge(it) else it;
    e.(connected := true, handle := h, conn := conn)
  }

  /** `nb_set_conn(id, false, h)`: debts die with the connection. */
  function Detach(it: Identity, h: nat): Identity {
    var e := if it.connected || it.handle != h then SessionEdge(it) else it;
    e.(connected := false, handle := h, notifyOn := false, pending := {}, owed := [])
  }

  /** `nb_set_notify`. */
  function SetNotify(it: Identity, on: bool): Identity {
    var e := if it.notifyOn != on then SessionEdge(it) else it;
    e.(notifyOn := on)
  }

  function SetPeerLink(it: Identity, link: LinkState): Identity { it.(link := link) }

  /** `nb_mark_replay` accepts. */
  predicate MarkTaken(it: Identity, records: set<Record>, epoch: nat) {
    it.connected && it.epoch == epoch && records != {}
  }

  /** `nb_mark_replay`. */
  function MarkReplay(it: Identity, records: set<Record>, session: Snapshot, nowUs: int, serial: nat): Identity {
    if MarkTaken(it, records, session.epoch) then
      it.(pendingSinceUs := if it.pending == {} then nowUs else it.pendingSinceUs,
          pending := it.pending + records,
          owed := it.owed + [Mark(serial, session.conn, it.conn, it.edges, nowUs, records)])
    else it
  }

  /** `nb_note_dev_forwarded`. */
  function NoteDevForwarded(it: Identity, epoch: nat, nowUs: int): Identity {
    if it.connected && it.notifyOn && it.epoch == epoch then it.(devSeenUs := nowUs) else it
  }

  /** What the replay tick decides for an identity. */
  datatype Action = Leave | Expire | Cancel | Deliver

  /** `replay_action_locked`. */
  function Decide(it: Identity, nowUs: int): Action {
    if !it.connected || !it.notifyOn || it.pending == {} then Leave
    else if nowUs - it.pendingSinceUs > EXPIRY_US then Expire
    else if it.devSeenUs > it.pendingSinceUs then Cancel
    else if it.link != Up || nowUs - it.pendingSinceUs > LIVE_WAIT_US then Deliver
    else Leave
  }

  /** `nb_claim_replay`: whatever the decision, a debt that is not left alone is gone. */
  function Claimed(it: Identity, nowUs: int): Identity {
    if Decide(it, nowUs) == Leave then it else it.(pending := {}, owed := [])
  }

  /** The test before each chunk of `notify_session`. */
  predicate Authorises(s: Snapshot, current: Snapshot) {
    current.connected && current.notifyOn && current.epoch == s.epoch && current.handle == s.handle
  }

  // ---- The fence ----------------------------------------------------------------------

  predicate EpochOk(it: Identity) { it.epoch == it.edges % TWO_64 }

  /** Snapshot `s` was taken of this identity now or earlier. */
  predicate Earlier(s: Snapshot, now: Snapshot) {
    && s.epoch == s.edges % TWO_64
    && s.edges <= now.edges
    && (s.edges == now.edges && s.connected ==> s == now)
  }

  /**
   Below 2^64 edges the epoch test is exact: a snapshot of a subscribed session authorises a chunk
   if and only if not one session edge happened since it was taken.
   */
  lemma FenceExact(s: Snapshot, now: Snapshot)
    requires Earlier(s, now) && now.epoch == now.edges % TWO_64 && now.edges < TWO_64
    requires s.connected && s.notifyOn
    ensures Authorises(s, now) <==> now == s
  {
  }

  /** Exactly 2^64 edges later the test is fooled: a new subscribed session with the same handle. */
  lemma FenceWraps(s: Snapshot, it: Identity)
    requires EpochOk(it) && it.connected && it.notifyOn && it.handle == s.handle
    requires s.epoch == s.edges % TWO_64
    ensures it.edges == s.edges + TWO_64 ==> Authorises(s, Snap(it))
  {
  }

  // ---- The tasks of Node B ------------------------------------------------------------

  /**
   The Bluetooth host task is between the lock sections of one callback. Other tasks may run
   there.
   */
  datatype Host =
    | Idle
    | Adopting(id: nat, h: nat)
    | Leaving(id: nat)
    | Subscribing(id: nat, on: bool)
    | Opening(id: nat, session: Snapshot)

  /** A delivered debt. */
  datatype Claim = Claim(
    id: nat, session: Snapshot, records: set<Record>, marks: seq<Mark>, nowUs: int)

  /** A chunk of a claimed burst handed to the radio, and the session it went into. */
  datatype Sent = Sent(claim: nat, into: Snapshot)

  datatype NodeB = NodeB(
    ids: seq<Identity>,
    host: Host,
    nowUs: int,
    conns: nat,
    serials: nat,
    claims: seq<Claim>,
    sent: seq<Sent>)

  /** `nb_identity_for_conn`: the first connected identity with this handle. */
  function IdentityFor(ids: seq<Identity>, h: nat): (r: Option<nat>)
    ensures r.Some? ==> r.value < |ids| && ids[r.value].connected && ids[r.value].handle == h
    ensures r.None? ==> forall i :: 0 <= i < |ids| ==> !(ids[i].connected && ids[i].handle == h)
    ensures r.Some? ==> forall i :: 0 <= i < r.value ==> !(ids[i].connected && ids[i].handle == h)
    decreases |ids|
  {
    if ids == [] then None
    else
      var n := |ids| - 1;
      var r := IdentityFor(ids[..n], h);
      if r.Some? then r
      else if ids[n].connected && ids[n].handle == h then Some(n)
      else None
  }

  /** `nb_active_conn_count`. */
  function Active(ids: seq<Identity>): (n: nat)
    ensures n == 0 <==> forall i :: 0 <= i < |ids| ==> !ids[i].connected
    decreases |ids|
  {
    if ids == [] then 0
    else Active(ids[..|ids| - 1]) + if ids[|ids| - 1].connected then 1 else 0
  }

  datatype Event =
    | ConnectSeen(id: nat, h: nat)
    | DisconnectSeen(h: nat)
    | SubscribeSeen(h: nat, on: bool)
    | OpenerSeen(id: nat)
    | HostFinishes(records: set<Record>, nowUs: int)
    | AuditDrops(id: nat)
    | LinkNews(id: nat, link: LinkState)
    | DevForwarded(id: nat, epoch: nat, nowUs: int)
    | ReplayTick(id: nat, nowUs: int)
    | BurstChunk(claim: nat)

  /** Time does not run backwards. */
  predicate Enabled(s: NodeB, e: Event) {
    match e
    case HostFinishes(_, nowUs) => s.nowUs <= nowUs
    case DevForwarded(_, _, nowUs) => s.nowUs <= nowUs
    case ReplayTick(_, nowUs) => s.nowUs <= nowUs
    case _ => true
  }

  /** The first lock sections of the host task's callbacks; a busy host task takes no callback. */
  function Callback(s: NodeB, e: Event): Host
    requires e.ConnectSeen? || e.DisconnectSeen? || e.SubscribeSeen? || e.OpenerSeen?
  {
    if s.host != Idle then s.host else
      match e
      case ConnectSeen(id, h) =>
        if id < |s.ids| && IdentityFor(s.ids, h).None? && Active(s.ids) < MAX_APP_CONNS
        then Adopting(id, h) else Idle
      case DisconnectSeen(h) =>
        (match IdentityFor(s.ids, h) case Some(id) => Leaving(id) case None => Idle)
      case SubscribeSeen(h, on) =>
        (match IdentityFor(s.ids, h) case Some(id) => Subscribing(id, on) case None => Idle)
      case OpenerSeen(id) =>
        if id < |s.ids| && s.ids[id].connected then Opening(id, Snap(s.ids[id])) else Idle
  }

  function Put(s: NodeB, id: nat, it: Identity): NodeB
    requires id < |s.ids|
  {
    s.(ids := s.ids[id := it])
  }

  predicate HostInRange(host: Host, n: nat) { host.Idle? || host.id < n }

  /** The last lock section of a callback. */
  function Finish(s: NodeB, records: set<Record>, nowUs: int): NodeB
    requires HostInRange(s.host, |s.ids|)
  {
    match s.host
    case Idle => s
    case Adopting(id, h) => Put(s, id, Attach(s.ids[id], h, s.conns + 1)).(host := Idle, conns := s.conns + 1)
    case Leaving(id) => Put(s, id, Detach(s.ids[id], 0)).(host := Idle)
    case Subscribing(id, on) => Put(s, id, SetNotify(s.ids[id], on)).(host := Idle)
    case Opening(id, session) =>
      Put(s, id, MarkReplay(s.ids[id], records, session, nowUs, s.serials))
        .(host := Idle, serials := s.serials + 1, nowUs := nowUs)
  }

  function Tick(s: NodeB, id: nat, nowUs: int): NodeB
    requires id < |s.ids|
  {
    var it := s.ids[id];
    var claims := if Decide(it, nowUs) == Deliver
                  then s.claims + [Claim(id, Snap(it), it.pending, it.owed, nowUs)] else s.claims;
    Put(s, id, Claimed(it, nowUs)).(claims := claims, nowUs := nowUs)
  }

  /** One chunk of the burst of claim `k`, authorised against the session as it is now. */
  function Chunk(s: NodeB, k: nat): NodeB
    requires k < |s.claims| && s.claims[k].id < |s.ids|
  {
    var now := Snap(s.ids[s.claims[k].id]);
    if Authorises(s.claims[k].session, now) then s.(sent := s.sent + [Sent(k, now)]) else s
  }

  function Step(s: NodeB, e: Event): NodeB {
    match e
    case HostFinishes(records, nowUs) =>
      if HostInRange(s.host, |s.ids|) then Finish(s, records, nowUs) else s
    case AuditDrops(id) => if id < |s.ids| then Put(s, id, Detach(s.ids[id], 0)) else s
    case LinkNews(id, link) => if id < |s.ids| then Put(s, id, SetPeerLink(s.ids[id], link)) else s
    case DevForwarded(id, epoch, nowUs) =>
      if id < |s.ids| then Put(s, id, NoteDevForwarded(s.ids[id], epoch, nowUs)).(nowUs := nowUs) else s
    case ReplayTick(id, nowUs) => if id < |s.ids| then Tick(s, id, nowUs) else s
    case BurstChunk(k) => if k < |s.claims| && s.claims[k].id < |s.ids| then Chunk(s, k) else s
    case _ => s.(host := Callback(s, e))
  }

  // ---- Invariant ----------------------------------------------------------------------

  function AllRecords(marks: seq<Mark>): set<Record> {
    if marks == [] then {} else AllRecords(marks[..|marks| - 1]) + marks[|marks| - 1].records
  }

  /** A debt: marked in one connection, in order, the first one at `sinceUs`. */
  ghost predicate DebtOk(marks: seq<Mark>, records: set<Record>, conn: nat, edges: nat, sinceUs: int, untilUs: int) {
    && AllRecords(marks) == records
    && (records == {} <==> marks == [])
    && (forall k :: 0 <= k < |marks| ==>
                      && marks[k].conn == conn
                      && marks[k].edges <= edges
                      && (marks[k].edges < TWO_64 ==> marks[k].openedIn == conn)
                      && marks[k].records != {}
                      && sinceUs <= marks[k].atUs <= untilUs)
    && (forall j, k :: 0 <= j < k < |marks| ==> marks[j].serial < marks[k].serial)
    && (marks != [] ==> marks[0].atUs == sinceUs)
  }

  ghost predicate IdentityOk(it: Identity, nowUs: int) {
    && EpochOk(it)
    && DebtOk(it.owed, it.pending, it.conn, it.edges, it.pendingSinceUs, nowUs)
    && (!it.connected ==> it.pending == {})
  }

  ghost predicate AtMostOne(ids: seq<Identity>) {
    forall i, j :: 0 <= i < |ids| && 0 <= j < |ids| && ids[i].connected && ids[j].connected ==> i == j
  }

  predicate HostOk(host: Host, ids: seq<Identity>) {
    && HostInRange(host, |ids|)
    && (host.Adopting? ==> Active(ids) == 0)
    && (host.Opening? ==> host.session.connected && Earlier(host.session, Snap(ids[host.id])))
  }

  ghost predicate ClaimOk(c: Claim, ids: seq<Identity>) {
    && c.id < |ids|
    && c.session.connected && c.session.notifyOn
    && Earlier(c.session, Snap(ids[c.id]))
    && c.marks != []
    && DebtOk(c.marks, c.records, c.session.conn, c.session.edges, c.marks[0].atUs, c.nowUs)
    && c.nowUs - c.marks[0].atUs <= EXPIRY_US
  }

  ghost predicate Below(marks: seq<Mark>, bound: nat) {
    forall k :: 0 <= k < |marks| ==> marks[k].serial < bound
  }

  ghost predicate Before(a: seq<Mark>, b: seq<Mark>) {
    forall j, k :: 0 <= j < |a| && 0 <= k < |b| ==> a[j].serial < b[k].serial
  }

  /** Serial numbers: fresh ones are larger than all in use, later claims have larger ones. */
  ghost predicate SerialsOk(ids: seq<Identity>, claims: seq<Claim>, serials: nat) {
    && (forall i :: 0 <= i < |ids| ==> Below(ids[i].owed, serials))
    && (forall k :: 0 <= k < |claims| ==> Below(claims[k].marks, serials))
    && (forall i, k :: 0 <= i < |ids| && 0 <= k < |claims| ==> Before(claims[k].marks, ids[i].owed))
    && (forall j, k :: 0 <= j < k < |claims| ==> Before(claims[j].marks, claims[k].marks))
  }

  /** An authorised chunk went into a session indistinguishable from the claimed one. */
  predicate SentOk(x: Sent, claims: seq<Claim>, ids: seq<Identity>) {
    && x.claim < |claims|
    && claims[x.claim].id < |ids|
    && Authorises(claims[x.claim].session, x.into)
    && Earlier(claims[x.claim].session, x.into)
    && Earlier(x.into, Snap(ids[claims[x.claim].id]))
  }

  ghost predicate Inv(s: NodeB) {
    && (forall i :: 0 <= i < |s.ids| ==> IdentityOk(s.ids[i], s.nowUs) && s.ids[i].conn <= s.conns)
    && AtMostOne(s.ids)
    && HostOk(s.host, s.ids)
    && (forall k :: 0 <= k < |s.claims| ==> ClaimOk(s.claims[k], s.ids))
    && SerialsOk(s.ids, s.claims, s.serials)
    && (forall k :: 0 <= k < |s.sent| ==> SentOk(s.sent[k], s.claims, s.ids))
  }

  function Init(units: nat): NodeB {
    NodeB(seq(units, _ => BOOT_IDENTITY), Idle, 0, 0, 0, [], [])
  }

  lemma InitInv(units: nat)
    ensures Inv(Init(units))
  {
  }

  // ---- One step keeps the invariant -----------------------------------------------------

  /** An update of one identity that forgets no edge. */
  predicate Moves(it: Identity, it': Identity) { Earlier(Snap(it), Snap(it')) }

  /** ... and neither connects nor adds a debt. */
  predicate Settles(it: Identity, it': Identity) {
    && Moves(it, it')
    && (it'.connected ==> it.connected)
    && it'.conn == it.conn
    && (it'.owed == it.owed || it'.owed == [])
  }

  lemma UpdatesSettle(it: Identity, on: bool, link: LinkState, epoch: nat, nowUs: int)
    requires EpochOk(it)
    ensures Settles(it, SetNotify(it, on))
    ensures Settles(it, SetPeerLink(it, link)) && Settles(it, NoteDevForwarded(it, epoch, nowUs))
    ensures Settles(it, Claimed(it, nowUs))
  {
  }

  lemma EdgeOk(it: Identity)
    requires EpochOk(it)
    ensures EpochOk(SessionEdge(it))
  {
  }

  lemma DetachOk(it: Identity, h: nat, nowUs: int)
    requires IdentityOk(it, nowUs)
    ensures IdentityOk(Detach(it, h), nowUs) && Settles(it, Detach(it, h))
  {
    EdgeOk(it);
  }

  lemma SetNotifyOk(it: Identity, on: bool, nowUs: int)
    requires IdentityOk(it, nowUs)
    ensures IdentityOk(SetNotify(it, on), nowUs)
  {
    EdgeOk(it);
  }

  lemma UpdatesOk(it: Identity, link: LinkState, epoch: nat, nowUs: int, laterUs: int)
    requires IdentityOk(it, nowUs) && nowUs <= laterUs
    ensures IdentityOk(SetPeerLink(it, link), nowUs)
    ensures IdentityOk(NoteDevForwarded(it, epoch, laterUs), nowUs)
    ensures IdentityOk(NoteDevForwarded(it, epoch, laterUs), laterUs)
    ensures IdentityOk(Claimed(it, laterUs), laterUs)
  {
  }

  lemma ClaimsMove(claims: seq<Claim>, ids: seq<Identity>, id: nat, it': Identity)
    requires id < |ids| && Moves(ids[id], it')
    requires forall k :: 0 <= k < |claims| ==> ClaimOk(claims[k], ids)
    ensures forall k :: 0 <= k < |claims| ==> ClaimOk(claims[k], ids[id := it'])
  {
  }

  lemma SentMoves(sent: seq<Sent>, claims: seq<Claim>, ids: seq<Identity>, id: nat, it': Identity)
    requires id < |ids| && Moves(ids[id], it')
    requires forall k :: 0 <= k < |sent| ==> SentOk(sent[k], claims, ids)
    ensures forall k :: 0 <= k < |sent| ==> SentOk(sent[k], claims, ids[id := it'])
  {
  }

  /** Dropping debts cannot disturb the order of serial numbers. */
  lemma SerialsSettle(ids: seq<Identity>, claims: seq<Claim>, serials: nat, id: nat, it': Identity)
    requires id < |ids| && SerialsOk(ids, claims, serials)
    requires it'.owed == ids[id].owed || it'.owed == []
    ensures SerialsOk(ids[id := it'], claims, serials)
  {
  }

  lemma NobodyActive(ids: seq<Identity>, id: nat, it': Identity)
    requires id < |ids| && (it'.connected ==> ids[id].connected)
    ensures Active(ids) == 0 ==> Active(ids[id := it']) == 0
  {
  }

  lemma HostMoves(host: Host, ids: seq<Identity>, id: nat, it': Identity)
    requires id < |ids| && HostOk(host, ids) && Moves(ids[id], it')
    requires it'.connected ==> ids[id].connected
    ensures HostOk(host, ids[id := it'])
  {
    NobodyActive(ids, id, it');
  }

  /** The state after a lock section that rewrites identity `id`. */
  function Rewritten(s: NodeB, id: nat, it': Identity, host: Host, nowUs: int, conns: nat, serials: nat): NodeB
    requires id < |s.ids|
  {
    Put(s, id, it').(host := host, nowUs := nowUs, conns := conns, serials := serials)
  }

  /** What every such lock section keeps; the rest is particular to it. */
  lemma RewriteKeeps(s: NodeB, id: nat, it': Identity, host: Host, nowUs: int, conns: nat, serials: nat)
    requires Inv(s) && id < |s.ids| && s.nowUs <= nowUs && s.conns <= conns
    requires Moves(s.ids[id], it') && IdentityOk(it', nowUs) && it'.conn <= conns
    requires AtMostOne(s.ids[id := it']) && HostOk(host, s.ids[id := it'])
    requires SerialsOk(s.ids[id := it'], s.claims, serials)
    ensures Inv(Rewritten(s, id, it', host, nowUs, conns, serials))
  {
    var ids := s.ids[id := it'];
    forall i | 0 <= i < |ids| ensures IdentityOk(ids[i], nowUs) && ids[i].conn <= conns {
      assert IdentityOk(s.ids[i], s.nowUs) && s.ids[i].conn <= s.conns;
    }
    ClaimsMove(s.claims, s.ids, id, it');
    SentMoves(s.sent, s.claims, s.ids, id, it');
  }

  /** The common case: one identity changes, without connecting and without new debt. */
  lemma PutKeeps(s: NodeB, id: nat, it': Identity, nowUs: int)
    requires Inv(s) && id < |s.ids| && s.nowUs <= nowUs
    requires Settles(s.ids[id], it') && IdentityOk(it', nowUs)
    ensures Inv(Put(s, id, it').(nowUs := nowUs))
  {
    SerialsSettle(s.ids, s.claims, s.serials, id, it');
    HostMoves(s.host, s.ids, id, it');
    RewriteKeeps(s, id, it', s.host, nowUs, s.conns, s.serials);
  }

  /** A claim takes a debt out of its identity and puts it, with its destination, on record. */
  lemma DebtClaimed(it: Identity, nowUs: int, laterUs: int)
    requires IdentityOk(it, nowUs) && nowUs <= laterUs && Decide(it, laterUs) == Deliver
    ensures it.owed != []
    ensures DebtOk(it.owed, it.pending, it.conn, it.edges, it.owed[0].atUs, laterUs)
    ensures laterUs - it.owed[0].atUs <= EXPIRY_US
  {
  }

  /** Only one identity can owe anything. */
  lemma OneDebtor(ids: seq<Identity>, nowUs: int, i: nat, j: nat)
    requires AtMostOne(ids) && i < |ids| && j < |ids| && i != j
    requires IdentityOk(ids[i], nowUs) && IdentityOk(ids[j], nowUs)
    ensures ids[i].owed == [] || ids[j].owed == []
  {
  }

  /** Recording a claim whose marks are the only ones owed keeps the serial numbers in order. */
  lemma SerialsClaimed(ids: seq<Identity>, claims: seq<Claim>, serials: nat, id: nat, it': Identity, c: Claim)
    requires id < |ids| && SerialsOk(ids, claims, serials)
    requires it'.owed == [] && c.marks == ids[id].owed
    requires forall j :: 0 <= j < |ids| && j != id ==> ids[j].owed == []
    ensures SerialsOk(ids[id := it'], claims + [c], serials)
  {
  }

  lemma TickKeeps(s: NodeB, id: nat, nowUs: int)
    requires Inv(s) && id < |s.ids| && s.nowUs <= nowUs
    ensures Inv(Tick(s, id, nowUs))
  {
    var it := s.ids[id];
    assert IdentityOk(it, s.nowUs);
    var it' := Claimed(it, nowUs);
    UpdatesSettle(it, true, it.link, 0, nowUs);
    UpdatesOk(it, it.link, 0, s.nowUs, nowUs);
    PutKeeps(s, id, it', nowUs);
    if Decide(it, nowUs) == Deliver {
      var c := Claim(id, Snap(it), it.pending, it.owed, nowUs);
      DebtClaimed(it, s.nowUs, nowUs);
      forall j | 0 <= j < |s.ids| && j != id ensures s.ids[j].owed == [] {
        OneDebtor(s.ids, s.nowUs, id, j);
      }
      SerialsClaimed(s.ids, s.claims, s.serials, id, it', c);
      assert ClaimOk(c, s.ids[id := it']);
      SentStays(s.sent, s.claims, s.ids[id := it'], c);
    }
  }

  lemma SentStays(sent: seq<Sent>, claims: seq<Claim>, ids: seq<Identity>, c: Claim)
    requires forall k :: 0 <= k < |sent| ==> SentOk(sent[k], claims, ids)
    ensures forall k :: 0 <= k < |sent| ==> SentOk(sent[k], claims + [c], ids)
  {
  }

  lemma ChunkKeeps(s: NodeB, k: nat)
    requires Inv(s) && k < |s.claims|
    ensures Inv(Chunk(s, k))
  {
    var c := s.claims[k];
    assert ClaimOk(c, s.ids);
    assert IdentityOk(s.ids[c.id], s.nowUs);
  }

  lemma CallbackKeeps(s: NodeB, e: Event)
    requires Inv(s) && (e.ConnectSeen? || e.DisconnectSeen? || e.SubscribeSeen? || e.OpenerSeen?)
    ensures Inv(s.(host := Callback(s, e)))
  {
    if e.OpenerSeen? && e.id < |s.ids| {
      assert IdentityOk(s.ids[e.id], s.nowUs);
    }
  }

  lemma AttachOk(it: Identity, h: nat, conn: nat, nowUs: int)
    requires IdentityOk(it, nowUs) && !it.connected
    ensures IdentityOk(Attach(it, h, conn), nowUs) && Moves(it, Attach(it, h, conn))
    ensures Attach(it, h, conn).owed == [] == it.owed
  {
    EdgeOk(it);
  }

  lemma AdoptKeeps(s: NodeB)
    requires Inv(s) && s.host.Adopting?
    ensures Inv(Finish(s, {}, s.nowUs))
  {
    var id := s.host.id;
    var it' := Attach(s.ids[id], s.host.h, s.conns + 1);
    AttachOk(s.ids[id], s.host.h, s.conns + 1, s.nowUs);
    SerialsSettle(s.ids, s.claims, s.serials, id, it');
    RewriteKeeps(s, id, it', Idle, s.nowUs, s.conns + 1, s.serials);
  }

  /** One more mark on a debt. */
  lemma DebtGrows(marks: seq<Mark>, records: set<Record>, conn: nat, edges: nat, sinceUs: int, untilUs: int, m: Mark)
    requires DebtOk(marks, records, conn, edges, sinceUs, untilUs) && Below(marks, m.serial)
    requires m.conn == conn && m.edges <= edges && (m.edges < TWO_64 ==> m.openedIn == conn)
    requires m.records != {} && untilUs <= m.atUs
    ensures DebtOk(marks + [m], records + m.records, conn, edges, if marks == [] then m.atUs else sinceUs, m.atUs)
  {
    assert (marks + [m])[..|marks|] == marks;
  }

  /** The opener's own session is the one charged, below 2^64 edges. */
  lemma ChargedRight(session: Snapshot, it: Identity)
    requires EpochOk(it) && Earlier(session, Snap(it)) && session.connected && it.epoch == session.epoch
    ensures it.edges < TWO_64 ==> session.conn == it.conn
  {
  }

  lemma MarkOk(it: Identity, records: set<Record>, session: Snapshot, nowUs: int, laterUs: int, serial: nat)
    requires IdentityOk(it, nowUs) && nowUs <= laterUs
    requires Earlier(session, Snap(it)) && session.connected && Below(it.owed, serial)
    ensures IdentityOk(MarkReplay(it, records, session, laterUs, serial), laterUs)
    ensures Moves(it, MarkReplay(it, records, session, laterUs, serial))
  {
    if MarkTaken(it, records, session.epoch) {
      var m := Mark(serial, session.conn, it.conn, it.edges, laterUs, records);
      ChargedRight(session, it);
      DebtGrows(it.owed, it.pending, it.conn, it.edges, it.pendingSinceUs, nowUs, m);
    }
  }

  lemma SerialsMarked(ids: seq<Identity>, claims: seq<Claim>, serials: nat, id: nat, it': Identity)
    requires id < |ids| && SerialsOk(ids, claims, serials)
    requires it'.owed == ids[id].owed
             || (|it'.owed| > 0 && it'.owed[..|it'.owed| - 1] == ids[id].owed
                 && it'.owed[|it'.owed| - 1].serial == serials)
    ensures SerialsOk(ids[id := it'], claims, serials + 1)
  {
    var ids' := ids[id := it'];
    forall i, k | 0 <= i < |ids'| && 0 <= k < |claims| ensures Before(claims[k].marks, ids'[i].owed) {
      assert Before(claims[k].marks, ids[i].owed) && Below(claims[k].marks, serials);
    }
  }

  lemma OpenKeeps(s: NodeB, records: set<Record>, nowUs: int)
    requires Inv(s) && s.host.Opening? && s.nowUs <= nowUs
    ensures Inv(Finish(s, records, nowUs))
  {
    var id := s.host.id;
    var it' := MarkReplay(s.ids[id], records, s.host.session, nowUs, s.serials);
    assert IdentityOk(s.ids[id], s.nowUs);
    MarkOk(s.ids[id], records, s.host.session, s.nowUs, nowUs, s.serials);
    SerialsMarked(s.ids, s.claims, s.serials, id, it');
    RewriteKeeps(s, id, it', Idle, nowUs, s.conns, s.serials + 1);
  }

  lemma FinishKeeps(s: NodeB, records: set<Record>, nowUs: int)
    requires Inv(s) && s.nowUs <= nowUs
    ensures Inv(Finish(s, records, nowUs))
  {
    match s.host
    case Idle =>
    case Adopting(_, _) => AdoptKeeps(s);
    case Opening(_, _) => OpenKeeps(s, records, nowUs);
    case Leaving(id) =>
      UpdatesSettle(s.ids[id], true, Up, 0, nowUs);
      DetachOk(s.ids[id], 0, s.nowUs);
      PutKeeps(s, id, Detach(s.ids[id], 0), s.nowUs);
    case Subscribing(id, on) =>
      UpdatesSettle(s.ids[id], on, Up, 0, nowUs);
      SetNotifyOk(s.ids[id], on, s.nowUs);
      PutKeeps(s, id, SetNotify(s.ids[id], on), s.nowUs);
  }

  /** The lock sections other tasks run between those of the host task. */
  lemma OthersKeep(s: NodeB, e: Event)
    requires Inv(s) && Enabled(s, e) && (e.AuditDrops? || e.LinkNews? || e.DevForwarded?)
    ensures Inv(Step(s, e))
  {
    if e.id < |s.ids| {
      var it := s.ids[e.id];
      assert IdentityOk(it, s.nowUs);
      match e
      case AuditDrops(id) =>
        UpdatesSettle(it, true, Up, 0, 0);
        DetachOk(it, 0, s.nowUs);
        PutKeeps(s, id, Detach(it, 0), s.nowUs);
      case LinkNews(id, link) =>
        UpdatesSettle(it, true, link, 0, 0);
        UpdatesOk(it, link, 0, s.nowUs, s.nowUs);
        PutKeeps(s, id, SetPeerLink(it, link), s.nowUs);
      case DevForwarded(id, epoch, nowUs) =>
        UpdatesSettle(it, true, Up, epoch, nowUs);
        UpdatesOk(it, Up, epoch, s.nowUs, nowUs);
        PutKeeps(s, id, NoteDevForwarded(it, epoch, nowUs), nowUs);
    }
  }

  /** Every step of every task keeps the invariant. */
  lemma StepKeeps(s: NodeB, e: Event)
    requires Inv(s) && Enabled(s, e)
    ensures Inv(Step(s, e))
  {
    match e
    case HostFinishes(records, nowUs) => FinishKeeps(s, records, nowUs);
    case ReplayTick(id, nowUs) => if id < |s.ids| { TickKeeps(s, id, nowUs); }
    case BurstChunk(k) => if k < |s.claims| { ChunkKeeps(s, k); }
    case AuditDrops(_) => OthersKeep(s, e);
    case LinkNews(_, _) => OthersKeep(s, e);
    case DevForwarded(_, _, _) => OthersKeep(s, e);
    case _ => CallbackKeeps(s, e);
  }

  // ---- Whole runs ---------------------------------------------------------------------

  function Run(s: NodeB, es: seq<Event>): NodeB
    decreases |es|
  {
    if es == [] then s else Step(Run(s, es[..|es| - 1]), es[|es| - 1])
  }

  ghost predicate Possible(s: NodeB, es: seq<Event>)
    decreases |es|
  {
    es == [] ||
    (Possible(s, es[..|es| - 1]) && Enabled(Run(s, es[..|es| - 1]), es[|es| - 1]))
  }

  lemma {:induction false} RunKeeps(units: nat, es: seq<Event>)
    requires Possible(Init(units), es)
    ensures Inv(Run(Init(units), es))
    decreases |es|
  {
    if es == [] {
      InitInv(units);
    } else {
      RunKeeps(units, es[..|es| - 1]);
      StepKeeps(Run(Init(units), es[..|es| - 1]), es[|es| - 1]);
    }
  }

  /** At most one identity is connected, whatever the tasks do between each other's lock sections. */
  lemma OnePhone(units: nat, es: seq<Event>)
    requires Possible(Init(units), es)
    ensures AtMostOne(Run(Init(units), es).ids)
  {
    RunKeeps(units, es);
  }

  /** Fewer than 2^64 session edges on every identity. */
  ghost predicate FewEdges(s: NodeB) {
    forall i :: 0 <= i < |s.ids| ==> s.ids[i].edges < TWO_64
  }

  /** What a claimed debt promises. */
  ghost predicate FairClaim(c: Claim) {
    && c.records != {} && AllRecords(c.marks) == c.records
    && forall m :: 0 <= m < |c.marks| ==>
         && c.marks[m].openedIn == c.session.conn
         && 0 <= c.nowUs - c.marks[m].atUs <= EXPIRY_US
  }

  /**
   A debt is delivered only into the phone connection that was current when its opener was looked up, and never more than
   five seconds after any of its marks.
   */
  lemma DebtStaysInConnection(units: nat, es: seq<Event>, k: nat)
    requires Possible(Init(units), es) && FewEdges(Run(Init(units), es))
    requires k < |Run(Init(units), es).claims|
    ensures FairClaim(Run(Init(units), es).claims[k])
  {
    RunKeeps(units, es);
    var s := Run(Init(units), es);
    var c := s.claims[k];
    assert ClaimOk(c, s.ids);
    assert s.ids[c.id].edges < TWO_64;
  }

  /** No opener is answered by two claims, nor twice in one, nor claimed and still owed. */
  lemma ClaimedOnce(units: nat, es: seq<Event>, j: nat, k: nat, a: nat, b: nat)
    requires Possible(Init(units), es)
    requires j <= k < |Run(Init(units), es).claims|
    requires a < |Run(Init(units), es).claims[j].marks| && b < |Run(Init(units), es).claims[k].marks|
    ensures Run(Init(units), es).claims[j].marks[a].serial == Run(Init(units), es).claims[k].marks[b].serial
            ==> j == k && a == b
    ensures forall i :: 0 <= i < |Run(Init(units), es).ids| ==>
              forall o :: 0 <= o < |Run(Init(units), es).ids[i].owed| ==>
                Run(Init(units), es).ids[i].owed[o].serial > Run(Init(units), es).claims[j].marks[a].serial
  {
    RunKeeps(units, es);
    var s := Run(Init(units), es);
    assert ClaimOk(s.claims[k], s.ids);
    if j < k {
      assert Before(s.claims[j].marks, s.claims[k].marks);
    }
    forall i | 0 <= i < |s.ids| ensures Before(s.claims[j].marks, s.ids[i].owed) {
    }
  }

  /**
   Every chunk of a claimed burst goes into the very session that was claimed: same phone
   connection, same handle, same subscription, not one edge in between.
   */
  lemma BurstStaysInSession(units: nat, es: seq<Event>, x: nat)
    requires Possible(Init(units), es) && FewEdges(Run(Init(units), es))
    requires x < |Run(Init(units), es).sent|
    ensures var s := Run(Init(units), es);
            s.sent[x].claim < |s.claims| && s.sent[x].into == s.claims[s.sent[x].claim].session
  {
    RunKeeps(units, es);
    var s := Run(Init(units), es);
    var y := s.sent[x];
    var c := s.claims[y.claim];
    assert SentOk(y, s.claims, s.ids) && ClaimOk(c, s.ids);
    assert s.ids[c.id].edges < TWO_64;
    FenceExact(c.session, y.into);
  }

  /** Claims stay on record. */
  lemma {:induction false} ClaimsGrow(s: NodeB, es: seq<Event>, n: nat)
    requires n <= |es|
    ensures Run(s, es[..n]).claims <= Run(s, es).claims
    decreases |es|
  {
    if n == |es| {
      assert es[..n] == es;
    } else {
      var front := es[..|es| - 1];
      assert front[..n] == es[..n];
      ClaimsGrow(s, front, n);
    }
  }

  /**
   Seen from the sending loop: a session snapshot taken any time after a claim authorises a chunk
   of its burst if and only if it is the claimed session itself.
   */
  lemma LateSnapshot(units: nat, es: seq<Event>, n: nat, k: nat)
    requires n <= |es| && Possible(Init(units), es) && FewEdges(Run(Init(units), es))
    requires k < |Run(Init(units), es[..n]).claims|
    ensures var c := Run(Init(units), es[..n]).claims[k];
            && c.id < |Run(Init(units), es).ids|
            && (var now := Snap(Run(Init(units), es).ids[c.id]);
                Authorises(c.session, now) <==> now == c.session)
  {
    RunKeeps(units, es);
    ClaimsGrow(Init(units), es, n);
    var s := Run(Init(units), es);
    assert ClaimOk(s.claims[k], s.ids);
    var it := s.ids[s.claims[k].id];
    assert IdentityOk(it, s.nowUs);
    FenceExact(s.claims[k].session, Snap(it));
  }

  // ---- When a debt is delivered ---------------------------------------------------------------

  /** Time stamps lie in the past. */
  ghost predicate TimesOk(s: NodeB) {
    0 <= s.nowUs &&
    forall i :: 0 <= i < |s.ids| ==> 0 <= s.ids[i].devSeenUs <= s.nowUs && 0 <= s.ids[i].pendingSinceUs <= s.nowUs
  }

  lemma FinishTimes(s: NodeB, records: set<Record>, nowUs: int)
    requires TimesOk(s) && s.nowUs <= nowUs && HostInRange(s.host, |s.ids|)
    ensures var s' := Finish(s, records, nowUs); TimesOk(s') && s.nowUs <= s'.nowUs && |s'.ids| == |s.ids|
  {
  }

  lemma StepTimes(s: NodeB, e: Event)
    requires TimesOk(s) && Enabled(s, e)
    ensures TimesOk(Step(s, e)) && s.nowUs <= Step(s, e).nowUs && |Step(s, e).ids| == |s.ids|
  {
    if e.HostFinishes? && HostInRange(s.host, |s.ids|) {
      FinishTimes(s, e.records, e.nowUs);
    }
  }

  lemma {:induction false} RunTimes(units: nat, es: seq<Event>)
    requires Possible(Init(units), es)
    ensures TimesOk(Run(Init(units), es)) && |Run(Init(units), es).ids| == units
    decreases |es|
  {
    if es != [] {
      RunTimes(units, es[..|es| - 1]);
      StepTimes(Run(Init(units), es[..|es| - 1]), es[|es| - 1]);
    }
  }

  /** Event `e` forwards a device-info record into the session that is current. */
  predicate Forwards(s: NodeB, e: Event, id: nat) {
    && e.DevForwarded? && e.id == id && id < |s.ids|
    && s.ids[id].connected && s.ids[id].notifyOn && s.ids[id].epoch == e.epoch
  }

  /** Event `n` of the run forwards a device-info record on identity `id`, after time `t`. */
  predicate ForwardsAt(s: NodeB, es: seq<Event>, n: nat, id: nat, t: int)
    requires n < |es|
  {
    Forwards(Run(s, es[..n]), es[n], id) && es[n].nowUs > t
  }

  /** A device-info record was forwarded on identity `id` after time `t`. */
  ghost predicate ForwardedAfter(s: NodeB, es: seq<Event>, id: nat, t: int) {
    exists n :: 0 <= n < |es| && ForwardsAt(s, es, n, id, t)
  }

  /** One step moves the stamp past `t` exactly by forwarding after `t`, and never back. */
  lemma StepForwards(s: NodeB, e: Event, id: nat, t: nat)
    requires TimesOk(s) && Enabled(s, e) && id < |s.ids|
    ensures id < |Step(s, e).ids|
    ensures Step(s, e).ids[id].devSeenUs > t <==>
              s.ids[id].devSeenUs > t || (Forwards(s, e, id) && e.nowUs > t)
  {
  }

  lemma ForwardsAtFront(s: NodeB, es: seq<Event>, m: nat, n: nat, id: nat, t: int)
    requires n < m <= |es|
    ensures ForwardsAt(s, es[..m], n, id, t) == ForwardsAt(s, es, n, id, t)
  {
    assert es[..m][..n] == es[..n];
  }

  lemma ForwardedLonger(s: NodeB, es: seq<Event>, m: nat, id: nat, t: int)
    requires |es| == m + 1
    ensures ForwardedAfter(s, es, id, t) <==> ForwardedAfter(s, es[..m], id, t) || ForwardsAt(s, es, m, id, t)
  {
    if ForwardedAfter(s, es[..m], id, t) {
      var n :| 0 <= n < |es[..m]| && ForwardsAt(s, es[..m], n, id, t);
      ForwardsAtFront(s, es, m, n, id, t);
    }
    if ForwardedAfter(s, es, id, t) {
      var n :| 0 <= n < |es| && ForwardsAt(s, es, n, id, t);
      if n < m {
        ForwardsAtFront(s, es, m, n, id, t);
      }
    }
  }

  /** The stamp tells exactly whether a device-info record was forwarded after `t`. */
  lemma {:induction false} StampTells(units: nat, es: seq<Event>, id: nat, t: nat)
    requires Possible(Init(units), es) && id < units
    ensures id < |Run(Init(units), es).ids|
    ensures Run(Init(units), es).ids[id].devSeenUs > t <==> ForwardedAfter(Init(units), es, id, t)
    decreases |es|
  {
    if es != [] {
      var m := |es| - 1;
      StampTells(units, es[..m], id, t);
      RunTimes(units, es[..m]);
      StepForwards(Run(Init(units), es[..m]), es[m], id, t);
      ForwardedLonger(Init(units), es, m, id, t);
    }
  }

  /** A subscribed phone is owed something, first marked at `sinceUs`. */
  predicate Owes(it: Identity, sinceUs: int) {
    it.connected && it.notifyOn && it.owed != [] && it.owed[0].atUs == sinceUs
  }

  /** What a tick does with a debt, from the time it was first marked and what was forwarded since. */
  predicate TickRule(it: Identity, sinceUs: int, forwarded: bool, nowUs: int, claimed: bool, left: bool) {
    && (claimed <==> nowUs - sinceUs <= 5_000_000 && !forwarded && (it.link != Up || nowUs - sinceUs > 2_000_000))
    && (left <==> nowUs - sinceUs <= 2_000_000 && !forwarded && it.link == Up)
  }

  lemma DecideRule(it: Identity, nowUs: int, laterUs: int)
    requires IdentityOk(it, nowUs)
    ensures !it.connected || !it.notifyOn || it.owed == [] ==> Decide(it, laterUs) == Leave
    ensures it.connected && it.notifyOn && it.owed != [] ==>
              TickRule(it, it.owed[0].atUs, it.devSeenUs > it.owed[0].atUs, laterUs,
                       Decide(it, laterUs) == Deliver, Decide(it, laterUs) == Leave)
  {
  }

  /**
   A replay tick in any run: the debt of a subscribed phone is claimed, whole and for the session as it
   is, if and only if at most 5 s passed since its first mark, no device-info record was forwarded
   after that mark, and the bank's link is not up or more than 2 s passed. Within 2 s on a link that
   is up it is left alone; in every other case it is dropped. Without such a debt nothing happens.
   */
  lemma ClaimExact(units: nat, es: seq<Event>, id: nat, nowUs: int, sinceUs: int)
    requires Possible(Init(units), es) && id < units && Enabled(Run(Init(units), es), ReplayTick(id, nowUs))
    ensures id < |Run(Init(units), es).ids|
    ensures var s := Run(Init(units), es);
            var s' := Step(s, ReplayTick(id, nowUs));
            && |s'.ids| == |s.ids|
            && (!s.ids[id].connected || !s.ids[id].notifyOn || s.ids[id].owed == [] ==>
                  s'.claims == s.claims && s'.ids == s.ids)
            && (Owes(s.ids[id], sinceUs) ==>
                  && TickRule(s.ids[id], sinceUs, ForwardedAfter(Init(units), es, id, sinceUs), nowUs,
                              |s'.claims| == |s.claims| + 1, s'.ids[id].owed == s.ids[id].owed)
                  && (s'.ids[id].owed == s.ids[id].owed || s'.ids[id].owed == [])
                  && (s'.claims == s.claims
                      || s'.claims == s.claims + [Claim(id, Snap(s.ids[id]), s.ids[id].pending, s.ids[id].owed, nowUs)]))
  {
    var s := Run(Init(units), es);
    RunKeeps(units, es);
    RunTimes(units, es);
    var it := s.ids[id];
    assert IdentityOk(it, s.nowUs);
    DecideRule(it, s.nowUs, nowUs);
    if Owes(it, sinceUs) {
      StampTells(units, es, id, sinceUs);
    }
    TickUnfolds(s, id, nowUs);
  }

  lemma TickUnfolds(s: NodeB, id: nat, nowUs: int)
    requires id < |s.ids|
    ensures var it, s' := s.ids[id], Step(s, ReplayTick(id, nowUs));
            && |s'.ids| == |s.ids|
            && s'.ids[id].owed == (if Decide(it, nowUs) == Leave then it.owed else [])
            && (Decide(it, nowUs) == Leave ==> s'.ids == s.ids)
            && s'.claims == (if Decide(it, nowUs) == Deliver
                             then s.claims + [Claim(id, Snap(it), it.pending, it.owed, nowUs)] else s.claims)
  {
  }

  // ---- Callbacks take effect ----------------------------------------------------------------------

  /** A callback followed by its last lock section. */
  function Done(s: NodeB, e: Event, records: set<Record>, nowUs: int): NodeB {
    Step(Step(s, e), HostFinishes(records, nowUs))
  }

  /**
   With nothing in between: a phone that connects while none is connected is adopted under its handle as
   a new connection; the connected phone's subscription and disconnection are recorded; a second
   phone changes nothing.
   */
  lemma ConnectionsRecorded(s: NodeB, id: nat, h: nat, on: bool, nowUs: int)
    requires s.host == Idle && id < |s.ids| && AtMostOne(s.ids)
    ensures (forall i :: 0 <= i < |s.ids| ==> !s.ids[i].connected) ==>
              var it := Done(s, ConnectSeen(id, h), {}, nowUs).ids[id];
              it.connected && it.handle == h && it.conn == s.conns + 1 && it.edges == s.ids[id].edges + 1
    ensures (exists i :: 0 <= i < |s.ids| && s.ids[i].connected) ==>
              Done(s, ConnectSeen(id, h), {}, nowUs).ids == s.ids
    ensures s.ids[id].connected && s.ids[id].handle == h ==>
              && Done(s, SubscribeSeen(h, on), {}, nowUs).ids[id].notifyOn == on
              && !Done(s, DisconnectSeen(h), {}, nowUs).ids[id].connected
              && Done(s, DisconnectSeen(h), {}, nowUs).ids[id].owed == []
    ensures forall link :: Step(s, LinkNews(id, link)).ids[id] == s.ids[id].(link := link)
    ensures !Step(s, AuditDrops(id)).ids[id].connected
  {
    var r := IdentityFor(s.ids, h);
  }

  /** An opener of the connected phone, with records to answer it, makes exactly these records owed too. */
  lemma OpenerOwes(s: NodeB, id: nat, records: set<Record>, nowUs: int)
    requires s.host == Idle && id < |s.ids| && s.ids[id].connected && records != {}
    ensures var it, it' := s.ids[id], Done(s, OpenerSeen(id), records, nowUs).ids[id];
            && it'.pending == it.pending + records
            && it'.pendingSinceUs == (if it.pending == {} then nowUs else it.pendingSinceUs)
            && |it'.owed| == |it.owed| + 1 && it'.owed[..|it.owed|] == it.owed
            && it'.owed[|it.owed|].records == records && it'.owed[|it.owed|].atUs == nowUs
  {
  }
}
