/** The rows the broadcast protocol shares, and what one committed SQL
    transaction does to them. Every function here is one transaction; the
    imperative statements that carry them out are in BroadcastStore. */
module BroadcastRows {
  import opened Options
  import opened Keyset

  /** Microseconds, PostgreSQL's resolution. */
  type Time = int

  const RECIPIENT_CLAIM_LEASE: Time := 300_000_000
  const MAX_RECIPIENT_ATTEMPTS: nat := 5

  datatype BroadcastStatus = Accepted | Expanding | Completed | Failed | Cancelled

  predicate Active(s: BroadcastStatus) {
    s == Accepted || s == Expanding
  }

  datatype Broadcast = Broadcast(
    status: BroadcastStatus,
    sendAt: Option<Time>,
    audience: nat,
    snapshotAt: Time,
    cursor: Option<Key>,
    snapshotComplete: bool,
    createdAt: Time)

  /** `send_at IS NULL OR send_at <= now`. */
  predicate Due(b: Broadcast, now: Time) {
    b.sendAt.None? || b.sendAt.value <= now
  }

  /** The statuses a recipient row stores; 'cancelled' is only ever derived. */
  datatype RecipientStatus = Pending | Suppressed | Materialized | Exhausted

  datatype Recipient = Recipient(
    broadcast: nat,
    contact: int,
    status: RecipientStatus,
    attempts: nat,
    claimedAt: Option<Time>,
    messageId: Option<nat>,
    createdAt: Time)

  datatype Member = Member(audience: nat, contact: int)

  /** What the protocol's guarantees speak of: the order in which snapshot
      inserts, claims, handoffs and cancellations were committed. */
  datatype Event =
    | Snapshotted(recipient: nat, broadcast: nat, contact: int, since: Time, at: Time)
    | Claimed(recipient: nat, broadcast: nat, at: Time)
    | HandedOff(recipient: nat, broadcast: nat, at: Time)
    | CancelledAt(broadcast: nat, at: Time)

  /** Ids come from one counter: generated identifiers never collide. */
  datatype Db = Db(
    clock: Time,
    broadcasts: map<nat, Broadcast>,
    members: map<Member, Time>,
    recipients: map<nat, Recipient>,
    messages: set<nat>,
    files: set<nat>,
    nextId: nat,
    log: seq<Event>)

  function SetBroadcast(db: Db, id: nat, b: Broadcast): Db {
    db.(broadcasts := db.broadcasts[id := b])
  }

  function SetRecipient(db: Db, id: nat, r: Recipient): Db {
    db.(recipients := db.recipients[id := r])
  }

  function Record(db: Db, e: Event): Db {
    db.(log := db.log + [e])
  }

  // Acceptance, owner control and membership.

  /** audience_snapshot_at is the database's own now(). */
  function CreateBroadcast(db: Db, audience: nat, sendAt: Option<Time>): Db {
    var b := Broadcast(Accepted, sendAt, audience, db.clock, None, false, db.clock);
    SetBroadcast(db, db.nextId, b).(nextId := db.nextId + 1)
  }

  datatype ControlReply = Changed | Unchanged | NoSuchBroadcast | StateConflict | InvalidSchedule

  function CancelReply(db: Db, id: nat): ControlReply {
    if id !in db.broadcasts then NoSuchBroadcast
    else if db.broadcasts[id].status == Cancelled then Unchanged
    else if !Active(db.broadcasts[id].status) then StateConflict
    else Changed
  }

  function CancelBroadcast(db: Db, id: nat): Db {
    if CancelReply(db, id) != Changed then db else
      Record(SetBroadcast(db, id, db.broadcasts[id].(status := Cancelled)), CancelledAt(id, db.clock))
  }

  function RescheduleReply(db: Db, id: nat, sendAt: Time): ControlReply {
    if id !in db.broadcasts then NoSuchBroadcast
    else if db.broadcasts[id].status != Accepted then StateConflict
    else if sendAt <= db.clock then InvalidSchedule
    else Changed
  }

  function RescheduleBroadcast(db: Db, id: nat, sendAt: Time): Db {
    if RescheduleReply(db, id, sendAt) != Changed then db else
      SetBroadcast(db, id, db.broadcasts[id].(sendAt := Some(sendAt)))
  }

  /** `INSERT ... ON CONFLICT DO NOTHING`: a member keeps its first created_at. */
  function AddMember(db: Db, audience: nat, contact: int): Db {
    var m := Member(audience, contact);
    if m in db.members then db else db.(members := db.members[m := db.clock])
  }

  function RemoveMember(db: Db, audience: nat, contact: int): Db {
    db.(members := db.members - {Member(audience, contact)})
  }

  // Expansion.

  predicate Startable(db: Db, id: nat) {
    id in db.broadcasts && db.broadcasts[id].status == Accepted && Due(db.broadcasts[id], db.clock)
  }

  function MarkExpanding(db: Db, id: nat): Db {
    if Startable(db, id)
    then SetBroadcast(db, id, db.broadcasts[id].(status := Expanding))
    else db
  }

  function MarkFailed(db: Db, id: nat): Db {
    if id in db.broadcasts && Active(db.broadcasts[id].status)
    then SetBroadcast(db, id, db.broadcasts[id].(status := Failed))
    else db
  }

  /** The membership rows the snapshot scan may read: of this audience and not
      younger than the watermark. */
  function MemberKeys(db: Db, b: Broadcast): set<Key> {
    set m | m in db.members && m.audience == b.audience && db.members[m] <= b.snapshotAt
      :: Key(db.members[m], m.contact)
  }

  predicate HasRow(db: Db, id: nat, contact: int) {
    exists r :: r in db.recipients && db.recipients[r].broadcast == id && db.recipients[r].contact == contact
  }

  /** One `INSERT ... ON CONFLICT (broadcast_id, contact_id) DO NOTHING`. */
  function InsertMember(db: Db, id: nat, k: Key): Db {
    if HasRow(db, id, k.id) then db else
      Record(SetRecipient(db, db.nextId, Recipient(id, k.id, Pending, 0, None, None, db.clock)).(nextId := db.nextId + 1),
             Snapshotted(db.nextId, id, k.id, k.at, db.clock))
  }

  function InsertMembers(db: Db, id: nat, page: seq<Key>): Db
    decreases |page|
  {
    if page == [] then db else InsertMembers(InsertMember(db, id, page[0]), id, page[1..])
  }

  datatype SnapshotReply = NotFound | Conflict | Advanced(count: nat, exhausted: bool)

  function SnapshotReplyOf(db: Db, id: nat, batch: nat): SnapshotReply {
    if id !in db.broadcasts then NotFound
    else
      var b := db.broadcasts[id];
      if !Active(b.status) || !Due(b, db.clock) then Conflict
      else if b.snapshotComplete then Advanced(0, true)
      else
        var page := Page(MemberKeys(db, b), b.cursor, batch);
        Advanced(|page|, |page| < batch)
  }

  function AdvanceCursor(b: Broadcast, page: seq<Key>, batch: nat): Broadcast {
    b.(cursor := if page == [] then b.cursor else Some(page[|page| - 1]),
       snapshotComplete := b.snapshotComplete || |page| < batch)
  }

  function SnapshotBatch(db: Db, id: nat, batch: nat): Db {
    if !SnapshotReplyOf(db, id, batch).Advanced? || db.broadcasts[id].snapshotComplete then db else
      var b := db.broadcasts[id];
      var page := Page(MemberKeys(db, b), b.cursor, batch);
      SetBroadcast(InsertMembers(db, id, page), id, AdvanceCursor(b, page, batch))
  }

  predicate Claimable(db: Db, id: nat, r: nat) {
    && r in db.recipients
    && db.recipients[r].broadcast == id
    && db.recipients[r].status == Pending
    && (db.recipients[r].claimedAt.None?
        || db.recipients[r].claimedAt.value < db.clock - RECIPIENT_CLAIM_LEASE)
  }

  /** `skipped` are the rows other transactions hold locked. */
  function ClaimableKeys(db: Db, id: nat, skipped: set<nat>): set<Key> {
    set r | r in db.recipients && Claimable(db, id, r) && r !in skipped
      :: Key(db.recipients[r].createdAt, r)
  }

  function ClaimedRows(db: Db, id: nat, limit: nat, skipped: set<nat>): (rows: seq<Key>)
    ensures forall k :: k in rows ==> k.id >= 0 && k in ClaimableKeys(db, id, skipped)
  {
    if id in db.broadcasts && Active(db.broadcasts[id].status) && Due(db.broadcasts[id], db.clock)
    then Page(ClaimableKeys(db, id, skipped), None, limit)
    else []
  }

  function Ids(rows: seq<Key>): (ids: seq<nat>)
    requires forall k :: k in rows ==> k.id >= 0
    ensures |ids| == |rows| && forall i :: 0 <= i < |rows| ==> ids[i] == rows[i].id
  {
    seq(|rows|, i requires 0 <= i < |rows| => assert rows[i] in rows; rows[i].id)
  }

  /** `RETURNING` promises no order: the caller receives the claimed rows in
      whatever order the plan produced. */
  function Returned(ids: seq<nat>, order: seq<nat>): (out: seq<nat>)
    ensures multiset(out) == multiset(ids) && |out| == |ids|
    ensures forall r :: r in out <==> r in ids
  {
    assert |multiset(order)| == |order| && |multiset(ids)| == |ids|;
    assert forall r :: r in multiset(order) <==> r in order;
    assert forall r :: r in multiset(ids) <==> r in ids;
    if multiset(order) == multiset(ids) then order else ids
  }

  function ActiveKeys(db: Db, skipped: set<nat>): set<Key> {
    set id | id in db.broadcasts && Active(db.broadcasts[id].status) && Due(db.broadcasts[id], db.clock) && id !in skipped
      :: Key(db.broadcasts[id].createdAt, id)
  }

  /** The copy of a broadcast row a poller carries: it goes stale as soon as
      the claiming statement ends. */
  datatype Row = Row(id: nat, snapshotComplete: bool)

  function RowOf(db: Db, k: Key): (row: Row)
    requires k.id >= 0 && k.id in db.broadcasts
    ensures row.id in db.broadcasts
  {
    Row(k.id, db.broadcasts[k.id].snapshotComplete)
  }

  function ClaimActive(db: Db, limit: nat, skipped: set<nat>): (rows: seq<Row>)
    ensures |rows| <= limit
    ensures forall row :: row in rows ==> row.id in db.broadcasts
  {
    var page := Page(ActiveKeys(db, skipped), None, limit);
    assert forall k :: k in page ==> k in ActiveKeys(db, skipped);
    assert forall i :: 0 <= i < |page| ==> page[i] in page;
    seq(|page|, i requires 0 <= i < |page| => RowOf(db, page[i]))
  }

  function StampClaim(db: Db, k: Key): Db {
    if k.id < 0 || k.id !in db.recipients then db else
      var r := db.recipients[k.id];
      Record(SetRecipient(db, k.id, r.(claimedAt := Some(db.clock))), Claimed(k.id, r.broadcast, db.clock))
  }

  function StampClaims(db: Db, rows: seq<Key>): Db
    decreases |rows|
  {
    if rows == [] then db else StampClaims(StampClaim(db, rows[0]), rows[1..])
  }

  function ClaimPending(db: Db, id: nat, limit: nat, skipped: set<nat>): Db {
    StampClaims(db, ClaimedRows(db, id, limit, skipped))
  }

  predicate IsPending(db: Db, r: nat) {
    r in db.recipients && db.recipients[r].status == Pending
  }

  function RecordFailure(db: Db, r: nat): Db {
    if !IsPending(db, r) then db else
      var row := db.recipients[r];
      SetRecipient(db, r, row.(attempts := row.attempts + 1,
        status := if row.attempts + 1 >= MAX_RECIPIENT_ATTEMPTS then Exhausted else row.status))
  }

  function MarkSuppressed(db: Db, r: nat): Db {
    if !IsPending(db, r) then db else SetRecipient(db, r, db.recipients[r].(status := Suppressed))
  }

  function MarkMaterialized(db: Db, r: nat): Db {
    if !IsPending(db, r) then db else
      SetRecipient(db, r, db.recipients[r].(status := Materialized, messageId := Some(r)))
  }

  predicate HasPending(db: Db, id: nat) {
    exists r :: r in db.recipients && db.recipients[r].broadcast == id && db.recipients[r].status == Pending
  }

  /** The UPDATE of TryCompleteBroadcast: it does not look at recipients. */
  function CompleteBroadcast(db: Db, id: nat): Db {
    if id in db.broadcasts && db.broadcasts[id].status == Expanding && db.broadcasts[id].snapshotComplete
    then SetBroadcast(db, id, db.broadcasts[id].(status := Completed))
    else db
  }

  // Handing a recipient to the send pipeline.

  function SaveFile(db: Db, r: nat): Db {
    db.(files := db.files + {r})
  }

  function DeleteFile(db: Db, r: nat): Db {
    db.(files := db.files - {r})
  }

  datatype InsertReply = Inserted | AlreadyInserted | Refused | Erased | LockFailed | NotAuthorized

  /** The order of the tests is the order of lockBroadcastRecipient: the
      existing message before the state of the broadcast and the recipient. */
  function InsertReplyOf(db: Db, r: nat, domainVerified: bool): InsertReply {
    if r !in db.recipients then Erased
    else if r in db.messages then AlreadyInserted
    else if db.recipients[r].broadcast !in db.broadcasts then LockFailed
    else
      var b := db.broadcasts[db.recipients[r].broadcast];
      if !Active(b.status) || !Due(b, db.clock) || db.recipients[r].status != Pending then Refused
      else if !domainVerified then NotAuthorized
      else Inserted
  }

  /** The message row and the recipient's 'materialized' status commit together. */
  function InsertMessage(db: Db, r: nat, domainVerified: bool): Db {
    if InsertReplyOf(db, r, domainVerified) != Inserted then db else
      var row := db.recipients[r];
      Record(SetRecipient(db, r, row.(status := Materialized, messageId := Some(r))).(messages := db.messages + {r}),
             HandedOff(r, row.broadcast, db.clock))
  }
}
