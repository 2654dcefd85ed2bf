/** What every committed transaction keeps, and how far one may move the rows.
    `Inv` is the database invariant; `Evolves(a, b)` says which changes any
    number of transactions may have made between a and b. */
module BroadcastInvariant {
  import opened Options
  import opened Keyset
  import opened BroadcastRows

  // The database invariant.

  ghost predicate BroadcastsOk(db: Db) {
    forall id :: id in db.broadcasts ==>
      && id < db.nextId
      && (db.broadcasts[id].status in {Expanding, Completed} ==> Due(db.broadcasts[id], db.clock))
  }

  ghost predicate RecipientOk(db: Db, r: nat) {
    r in db.recipients ==>
      var row := db.recipients[r];
      && r < db.nextId
      && row.broadcast in db.broadcasts
      && db.broadcasts[row.broadcast].status != Accepted
      && Due(db.broadcasts[row.broadcast], db.clock)
      && (row.status == Pending ==> row.attempts < MAX_RECIPIENT_ATTEMPTS)
      && (row.status == Exhausted ==> row.attempts == MAX_RECIPIENT_ATTEMPTS)
      && (row.claimedAt.Some? ==> row.claimedAt.value <= db.clock)
      && (row.messageId.Some? ==> row.messageId.value == r)
  }

  ghost predicate RecipientsOk(db: Db) {
    forall r :: r in db.recipients ==> RecipientOk(db, r)
  }

  /** UNIQUE (broadcast_id, contact_id). */
  ghost predicate OneRowPerContact(db: Db) {
    forall r, q :: (
      && r in db.recipients && q in db.recipients
      && db.recipients[r].broadcast == db.recipients[q].broadcast
      && db.recipients[r].contact == db.recipients[q].contact) ==> r == q
  }

  /** No message row without the stored file it will be delivered from. */
  ghost predicate Backed(db: Db) {
    forall m :: m in db.messages ==> m in db.files && m in db.recipients
  }

  /** A logged event still agrees with the rows. */
  ghost predicate EventOk(db: Db, e: Event) {
    match e
    case Snapshotted(r, b, c, since, at) =>
      && r in db.recipients && db.recipients[r].broadcast == b && db.recipients[r].contact == c
      && b in db.broadcasts && since <= db.broadcasts[b].snapshotAt
      && Due(db.broadcasts[b], at) && at <= db.clock
    case Claimed(r, b, at) =>
      && r in db.recipients && db.recipients[r].broadcast == b
      && db.recipients[r].claimedAt.Some? && at <= db.recipients[r].claimedAt.value
    case HandedOff(r, b, at) =>
      && r in db.messages && r in db.recipients && db.recipients[r].broadcast == b
      && db.recipients[r].status == Materialized
      && b in db.broadcasts && Due(db.broadcasts[b], at) && at <= db.clock
    case CancelledAt(b, at) =>
      b in db.broadcasts && db.broadcasts[b].status == Cancelled
  }

  /** What may follow what in the log: one handoff and one snapshot row per
      recipient, one row per contact, claims a lease apart, nothing for a
      broadcast after its cancellation. */
  ghost predicate PairOk(e: Event, f: Event) {
    && (e.HandedOff? && f.HandedOff? ==> e.recipient != f.recipient)
    && (e.Snapshotted? && f.Snapshotted? ==>
          e.recipient != f.recipient && !(e.broadcast == f.broadcast && e.contact == f.contact))
    && (e.Claimed? && f.Claimed? && e.recipient == f.recipient ==> f.at > e.at + RECIPIENT_CLAIM_LEASE)
    && (e.CancelledAt? ==> e.broadcast != f.broadcast)
  }

  ghost predicate LogOk(db: Db) {
    && (forall i :: 0 <= i < |db.log| ==> EventOk(db, db.log[i]))
    && (forall i, j :: 0 <= i < j < |db.log| ==> PairOk(db.log[i], db.log[j]))
  }

  ghost predicate Inv(db: Db) {
    BroadcastsOk(db) && RecipientsOk(db) && OneRowPerContact(db) && Backed(db) && LogOk(db)
  }

  /** The recipients of a broadcast. */
  function Intended(db: Db, id: nat): set<nat> {
    set r | r in db.recipients && db.recipients[r].broadcast == id
  }

  /** The next identifier is not taken. */
  ghost predicate IdsFresh(db: Db) {
    forall r :: r in db.recipients ==> r < db.nextId
  }

  lemma InvKeepsIdsFresh(db: Db)
    requires Inv(db)
    ensures IdsFresh(db) && db.nextId !in db.broadcasts && db.nextId !in db.recipients
  {
    assert forall r :: r in db.recipients ==> RecipientOk(db, r);
  }

  // What transactions may change.

  ghost predicate CursorAdvances(a: Option<Key>, b: Option<Key>) {
    a.Some? ==> b.Some? && (a == b || Less(a.value, b.value))
  }

  ghost predicate BroadcastEvolves(a: Broadcast, b: Broadcast) {
    && a.audience == b.audience && a.snapshotAt == b.snapshotAt && a.createdAt == b.createdAt
    && (a.status != Accepted ==> a.sendAt == b.sendAt && b.status != Accepted)
    && (!Active(a.status) ==> b.status == a.status)
    && (a.snapshotComplete ==> b.snapshotComplete && b.cursor == a.cursor)
    && CursorAdvances(a.cursor, b.cursor)
  }

  ghost predicate RecipientEvolves(a: Recipient, b: Recipient) {
    && a.broadcast == b.broadcast && a.contact == b.contact && a.createdAt == b.createdAt
    && (a.status != Pending ==> b.status == a.status && b.attempts == a.attempts && b.messageId == a.messageId)
    && a.attempts <= b.attempts
    && (a.claimedAt.Some? ==> b.claimedAt.Some? && a.claimedAt.value <= b.claimedAt.value)
  }

  predicate Ended(db: Db, id: nat) {
    id in db.broadcasts && !Active(db.broadcasts[id].status)
  }

  /** Nothing will insert a message for r any more. */
  ghost predicate Closed(db: Db, r: nat) {
    r in db.recipients && (db.recipients[r].status != Pending || Ended(db, db.recipients[r].broadcast))
  }

  /** Closed, and no message was inserted before: the file can go. */
  ghost predicate Dead(db: Db, r: nat) {
    Closed(db, r) && r !in db.messages
  }

  /** Events that state `a` does not rule out. */
  ghost predicate MayFollow(a: Db, e: Event) {
    match e
    case Snapshotted(r, b, c, since, at) =>
      && r !in a.recipients && !Ended(a, b) && a.clock <= at
      && !(b in a.broadcasts && a.broadcasts[b].snapshotComplete)
    case Claimed(r, b, at) =>
      !(r in a.recipients && a.recipients[r].status != Pending) && !Ended(a, b) && a.clock <= at
    case HandedOff(r, b, at) =>
      r !in a.messages && !Closed(a, r) && !Ended(a, b) && a.clock <= at
    case CancelledAt(b, at) =>
      !Ended(a, b) && a.clock <= at
  }

  ghost predicate Evolves(a: Db, b: Db) {
    && a.clock <= b.clock && a.nextId <= b.nextId
    && (forall id :: id in a.broadcasts ==> id in b.broadcasts && BroadcastEvolves(a.broadcasts[id], b.broadcasts[id]))
    && (forall r :: r in a.recipients ==> r in b.recipients && RecipientEvolves(a.recipients[r], b.recipients[r]))
    && (forall r :: r in b.recipients && r !in a.recipients ==> !Ended(a, b.recipients[r].broadcast))
    && (forall r :: r in a.messages ==> r in b.messages)
    && (forall r :: r in b.messages && r !in a.messages ==> !Closed(a, r))
    && (forall r :: r in a.files ==> r in b.files || Dead(b, r))
    && |a.log| <= |b.log| && b.log[..|a.log|] == a.log
    && (forall i :: |a.log| <= i < |b.log| ==> MayFollow(a, b.log[i]))
  }

  lemma EvolvesReflexive(a: Db)
    ensures Evolves(a, a)
  {
  }

  lemma ClosedIsStable(a: Db, b: Db, r: nat)
    requires Evolves(a, b) && Closed(a, r)
    ensures Closed(b, r)
    ensures r !in a.messages ==> r !in b.messages
  {
  }

  lemma EndedIsStable(a: Db, b: Db, id: nat)
    requires Evolves(a, b) && Ended(a, id)
    ensures Ended(b, id) && b.broadcasts[id].status == a.broadcasts[id].status
  {
  }

  lemma MayFollowEarlier(a: Db, b: Db, e: Event)
    requires Evolves(a, b) && MayFollow(b, e)
    ensures MayFollow(a, e)
  {
  }

  lemma EvolvesTransitive(a: Db, b: Db, c: Db)
    requires Evolves(a, b) && Evolves(b, c)
    ensures Evolves(a, c)
  {
    forall id | id in a.broadcasts
      ensures id in c.broadcasts && BroadcastEvolves(a.broadcasts[id], c.broadcasts[id])
    {
      assert BroadcastEvolves(a.broadcasts[id], b.broadcasts[id]);
      assert BroadcastEvolves(b.broadcasts[id], c.broadcasts[id]);
    }
    forall r | r in a.recipients
      ensures r in c.recipients && RecipientEvolves(a.recipients[r], c.recipients[r])
    {
      assert RecipientEvolves(a.recipients[r], b.recipients[r]);
      assert RecipientEvolves(b.recipients[r], c.recipients[r]);
    }
    forall r | r in c.recipients && r !in a.recipients ensures !Ended(a, c.recipients[r].broadcast) {
      if r in b.recipients { assert RecipientEvolves(b.recipients[r], c.recipients[r]); }
      else if Ended(a, c.recipients[r].broadcast) { EndedIsStable(a, b, c.recipients[r].broadcast); }
    }
    forall r | r in c.messages && r !in a.messages ensures !Closed(a, r) {
      if Closed(a, r) { ClosedIsStable(a, b, r); }
    }
    forall r | r in a.files ensures r in c.files || Dead(c, r) {
      if r !in b.files { ClosedIsStable(b, c, r); }
    }
    assert c.log[..|a.log|] == c.log[..|b.log|][..|a.log|];
    forall i | |a.log| <= i < |c.log| ensures MayFollow(a, c.log[i]) {
      if i < |b.log| {
        assert c.log[i] == c.log[..|b.log|][i] == b.log[i];
      } else {
        MayFollowEarlier(a, b, c.log[i]);
      }
    }
  }

  lemma EventStaysOk(a: Db, b: Db, e: Event)
    requires Evolves(a, b) && RecipientsOk(a) && EventOk(a, e)
    ensures EventOk(b, e)
  {
  }

  /** Row changes that log nothing keep the log. */
  lemma LogKept(a: Db, b: Db)
    requires Inv(a) && Evolves(a, b) && b.log == a.log
    ensures LogOk(b)
  {
  }

  lemma LogExtended(a: Db, b: Db, e: Event)
    requires Inv(a) && Evolves(a, b) && b.log == a.log + [e]
    requires EventOk(b, e)
    requires forall f :: EventOk(a, f) ==> PairOk(f, e)
    ensures LogOk(b)
  {
    forall i | 0 <= i < |b.log| ensures EventOk(b, b.log[i]) {
      if i < |a.log| { EventStaysOk(a, b, a.log[i]); }
    }
    forall i, j | 0 <= i < j < |b.log| ensures PairOk(b.log[i], b.log[j]) {
      if j == |a.log| { assert EventOk(a, a.log[i]); }
    }
  }

  /** Logging what the state allows to follow. */
  lemma RecordEvolves(a: Db, b: Db, e: Event)
    requires Evolves(a, b) && b.log == a.log && MayFollow(a, e)
    ensures Evolves(a, Record(b, e))
  {
  }

  // The two shapes of row update.

  lemma BroadcastUpdateKeeps(db: Db, id: nat, b: Broadcast)
    requires Inv(db) && id in db.broadcasts
    requires BroadcastEvolves(db.broadcasts[id], b)
    requires b.status in {Expanding, Completed} ==> Due(b, db.clock)
    ensures Inv(SetBroadcast(db, id, b)) && Evolves(db, SetBroadcast(db, id, b))
  {
    var db' := SetBroadcast(db, id, b);
    assert Evolves(db, db');
    forall r | r in db'.recipients ensures RecipientOk(db', r) { assert RecipientOk(db, r); }
    LogKept(db, db');
  }

  lemma RecipientUpdateKeeps(db: Db, r: nat, row: Recipient)
    requires Inv(db) && r in db.recipients
    requires RecipientEvolves(db.recipients[r], row)
    requires RecipientOk(SetRecipient(db, r, row), r)
    ensures Inv(SetRecipient(db, r, row)) && Evolves(db, SetRecipient(db, r, row))
  {
    var db' := SetRecipient(db, r, row);
    RecipientUpdateEvolves(db, r, row);
    RecipientUpdateRows(db, r, row);
    hide Evolves, LogOk, RecipientsOk, OneRowPerContact;
    LogKept(db, db');
  }

  lemma RecipientUpdateEvolves(db: Db, r: nat, row: Recipient)
    requires r in db.recipients && RecipientEvolves(db.recipients[r], row)
    ensures Evolves(db, SetRecipient(db, r, row))
  {
  }

  lemma RecipientUpdateRows(db: Db, r: nat, row: Recipient)
    requires Inv(db) && r in db.recipients && RecipientEvolves(db.recipients[r], row)
    requires RecipientOk(SetRecipient(db, r, row), r)
    ensures var db' := SetRecipient(db, r, row);
      BroadcastsOk(db') && RecipientsOk(db') && OneRowPerContact(db') && Backed(db')
  {
    hide LogOk;
    var db' := SetRecipient(db, r, row);
    forall q | q in db'.recipients ensures RecipientOk(db', q) { assert RecipientOk(db, q); }
  }

  // Frames of the two loops.

  /** A snapshot page adds recipient rows and nothing else. */
  lemma {:induction false} InsertMembersFrame(db: Db, id: nat, page: seq<Key>)
    ensures var db' := InsertMembers(db, id, page);
      && db'.broadcasts == db.broadcasts && db'.members == db.members && db'.clock == db.clock
      && db'.messages == db.messages && db'.files == db.files
    decreases |page|
  {
    if page != [] { InsertMembersFrame(InsertMember(db, id, page[0]), id, page[1..]); }
  }

  /** Claiming stamps recipient rows and nothing else. */
  lemma {:induction false} StampClaimsFrame(db: Db, rows: seq<Key>)
    ensures var db' := StampClaims(db, rows);
      && db'.broadcasts == db.broadcasts && db'.members == db.members && db'.clock == db.clock
      && db'.messages == db.messages && db'.files == db.files && db'.nextId == db.nextId
      && db'.recipients.Keys == db.recipients.Keys
      && (forall r :: r in db.recipients ==> db'.recipients[r] == db.recipients[r].(claimedAt := db'.recipients[r].claimedAt))
    decreases |rows|
  {
    if rows != [] { StampClaimsFrame(StampClaim(db, rows[0]), rows[1..]); }
  }

  lemma ClaimKeepsBroadcasts(db: Db, id: nat, limit: nat, locked: set<nat>)
    ensures ClaimPending(db, id, limit, locked).broadcasts == db.broadcasts
  {
    StampClaimsFrame(db, ClaimedRows(db, id, limit, locked));
  }

  // One lemma per transaction.

  lemma MarkExpandingKeeps(db: Db, id: nat)
    requires Inv(db)
    ensures Inv(MarkExpanding(db, id)) && Evolves(db, MarkExpanding(db, id))
  {
    if MarkExpanding(db, id) != db { BroadcastUpdateKeeps(db, id, MarkExpanding(db, id).broadcasts[id]); }
  }

  lemma MarkFailedKeeps(db: Db, id: nat)
    requires Inv(db)
    ensures Inv(MarkFailed(db, id)) && Evolves(db, MarkFailed(db, id))
  {
    if MarkFailed(db, id) != db { BroadcastUpdateKeeps(db, id, MarkFailed(db, id).broadcasts[id]); }
  }

  lemma CompleteKeeps(db: Db, id: nat)
    requires Inv(db)
    ensures Inv(CompleteBroadcast(db, id)) && Evolves(db, CompleteBroadcast(db, id))
  {
    if CompleteBroadcast(db, id) != db { BroadcastUpdateKeeps(db, id, CompleteBroadcast(db, id).broadcasts[id]); }
  }

  lemma RescheduleKeeps(db: Db, id: nat, sendAt: Time)
    requires Inv(db)
    ensures Inv(RescheduleBroadcast(db, id, sendAt)) && Evolves(db, RescheduleBroadcast(db, id, sendAt))
  {
    if RescheduleReply(db, id, sendAt) == Changed {
      BroadcastUpdateKeeps(db, id, RescheduleBroadcast(db, id, sendAt).broadcasts[id]);
    }
  }

  lemma CancelKeeps(db: Db, id: nat)
    requires Inv(db)
    ensures Inv(CancelBroadcast(db, id)) && Evolves(db, CancelBroadcast(db, id))
  {
    if CancelReply(db, id) == Changed {
      var b := db.broadcasts[id].(status := Cancelled);
      var db' := CancelBroadcast(db, id);
      BroadcastUpdateKeeps(db, id, b);
      assert Evolves(db, db');
      hide Evolves;
      RowsOnlyMatter(SetBroadcast(db, id, b), db');
      LogExtended(db, db', CancelledAt(id, db.clock));
    }
  }

  lemma CreateKeeps(db: Db, audience: nat, sendAt: Option<Time>)
    requires Inv(db)
    ensures Inv(CreateBroadcast(db, audience, sendAt)) && Evolves(db, CreateBroadcast(db, audience, sendAt))
  {
    var db' := CreateBroadcast(db, audience, sendAt);
    assert db.nextId !in db.broadcasts;
    forall r | r in db'.recipients ensures RecipientOk(db', r) { assert RecipientOk(db, r); }
    LogKept(db, db');
  }

  lemma MembersKeep(db: Db, members: map<Member, Time>)
    requires Inv(db)
    ensures Inv(db.(members := members)) && Evolves(db, db.(members := members))
  {
    var db' := db.(members := members);
    forall r | r in db'.recipients ensures RecipientOk(db', r) { assert RecipientOk(db, r); }
    LogKept(db, db');
  }

  lemma TickKeeps(db: Db, later: Time)
    requires Inv(db) && db.clock <= later
    ensures Inv(db.(clock := later)) && Evolves(db, db.(clock := later))
  {
  }

  lemma RecipientMarksKeep(db: Db, r: nat)
    requires Inv(db)
    ensures Inv(RecordFailure(db, r)) && Evolves(db, RecordFailure(db, r))
    ensures Inv(MarkSuppressed(db, r)) && Evolves(db, MarkSuppressed(db, r))
    ensures Inv(MarkMaterialized(db, r)) && Evolves(db, MarkMaterialized(db, r))
  {
    EvolvesReflexive(db);
    if IsPending(db, r) {
      assert RecipientOk(db, r);
      hide Inv, Evolves;
      RecipientUpdateKeeps(db, r, RecordFailure(db, r).recipients[r]);
      RecipientUpdateKeeps(db, r, MarkSuppressed(db, r).recipients[r]);
      RecipientUpdateKeeps(db, r, MarkMaterialized(db, r).recipients[r]);
    }
  }

  lemma ClaimLogged(db: Db, r: nat, row: Recipient)
    requires Inv(db) && r in db.recipients && row == db.recipients[r].(claimedAt := Some(db.clock))
    requires Claimable(db, row.broadcast, r) && !Ended(db, row.broadcast)
    requires Inv(SetRecipient(db, r, row)) && Evolves(db, SetRecipient(db, r, row))
    ensures var db' := Record(SetRecipient(db, r, row), Claimed(r, row.broadcast, db.clock));
      Inv(db') && Evolves(db, db')
  {
    var e := Claimed(r, row.broadcast, db.clock);
    var mid := SetRecipient(db, r, row);
    var db' := Record(mid, e);
    ClaimMayFollow(db, r, row);
    hide Evolves, EventOk, PairOk, MayFollow, LogOk, BroadcastsOk, RecipientsOk, OneRowPerContact;
    RecordEvolves(db, mid, e);
    LogExtended(db, db', e);
    RowsOnlyMatter(mid, db');
  }

  lemma ClaimMayFollow(db: Db, r: nat, row: Recipient)
    requires r in db.recipients && row == db.recipients[r].(claimedAt := Some(db.clock))
    requires Claimable(db, row.broadcast, r) && !Ended(db, row.broadcast)
    ensures var e := Claimed(r, row.broadcast, db.clock);
      && MayFollow(db, e) && EventOk(Record(SetRecipient(db, r, row), e), e)
      && forall f :: EventOk(db, f) ==> PairOk(f, e)
  {
  }

  lemma StampClaimKeeps(db: Db, k: Key)
    requires Inv(db)
    requires k.id >= 0 && k.id in db.recipients ==>
      Claimable(db, db.recipients[k.id].broadcast, k.id) && !Ended(db, db.recipients[k.id].broadcast)
    ensures Inv(StampClaim(db, k)) && Evolves(db, StampClaim(db, k))
  {
    if k.id >= 0 && k.id in db.recipients {
      var row := db.recipients[k.id].(claimedAt := Some(db.clock));
      assert RecipientOk(db, k.id);
      RecipientUpdateKeeps(db, k.id, row);
      ClaimLogged(db, k.id, row);
    } else {
      EvolvesReflexive(db);
    }
  }

  /** Rows claimed by one statement are distinct, so stamping one leaves the
      others claimable. */
  lemma {:induction false} StampClaimsKeeps(db: Db, id: nat, rows: seq<Key>)
    requires Inv(db) && !Ended(db, id)
    requires forall k :: k in rows ==> k.id >= 0 && Claimable(db, id, k.id)
    requires forall i, j :: 0 <= i < j < |rows| ==> rows[i].id != rows[j].id
    ensures Inv(StampClaims(db, rows)) && Evolves(db, StampClaims(db, rows))
    decreases |rows|
  {
    if rows == [] {
      EvolvesReflexive(db);
    } else {
      assert rows[0] in rows;
      hide Inv, Evolves, Ended;
      StampClaimKeeps(db, rows[0]);
      var db1 := StampClaim(db, rows[0]);
      forall k | k in rows[1..] ensures k.id >= 0 && Claimable(db1, id, k.id) {
        var i :| 0 <= i < |rows[1..]| && rows[1..][i] == k;
        assert rows[i + 1] == k && k in rows;
      }
      StampClaimsKeeps(db1, id, rows[1..]);
      EvolvesTransitive(db, db1, StampClaims(db, rows));
    }
  }

  lemma ClaimedRowsAreClaimable(db: Db, id: nat, limit: nat, skipped: set<nat>)
    requires Inv(db)
    ensures var rows := ClaimedRows(db, id, limit, skipped);
      && |rows| <= limit
      && (rows != [] ==> !Ended(db, id))
      && (forall k :: k in rows ==> k.id >= 0 && Claimable(db, id, k.id))
      && (forall i, j :: 0 <= i < j < |rows| ==> rows[i].id != rows[j].id)
  {
  }

  lemma ClaimPendingKeeps(db: Db, id: nat, limit: nat, skipped: set<nat>)
    requires Inv(db)
    ensures Inv(ClaimPending(db, id, limit, skipped)) && Evolves(db, ClaimPending(db, id, limit, skipped))
  {
    ClaimedRowsAreClaimable(db, id, limit, skipped);
    var rows := ClaimedRows(db, id, limit, skipped);
    if rows == [] { EvolvesReflexive(db); } else { StampClaimsKeeps(db, id, rows); }
  }

  ghost predicate Snapshotting(db: Db, id: nat) {
    && id in db.broadcasts && db.broadcasts[id].status == Expanding
    && !db.broadcasts[id].snapshotComplete
  }

  lemma NewRowEvolves(db: Db, id: nat, k: Key)
    requires Inv(db) && Snapshotting(db, id) && !HasRow(db, id, k.id)
    ensures Evolves(db, InsertMember(db, id, k))
  {
    var e := Snapshotted(db.nextId, id, k.id, k.at, db.clock);
    InvKeepsIdsFresh(db);
    assert MayFollow(db, e);
  }

  lemma InsertMemberKeeps(db: Db, id: nat, k: Key)
    requires Inv(db) && Snapshotting(db, id) && k.at <= db.broadcasts[id].snapshotAt
    ensures Inv(InsertMember(db, id, k)) && Evolves(db, InsertMember(db, id, k))
  {
    if HasRow(db, id, k.id) {
      EvolvesReflexive(db);
    } else {
      var db' := InsertMember(db, id, k);
      NewRowEvolves(db, id, k);
      forall r | r in db'.recipients ensures RecipientOk(db', r) {
        if r != db.nextId { assert RecipientOk(db, r); }
      }
      NewRowLogged(db, id, k);
    }
  }

  lemma NewRowLogged(db: Db, id: nat, k: Key)
    requires Inv(db) && Snapshotting(db, id) && k.at <= db.broadcasts[id].snapshotAt && !HasRow(db, id, k.id)
    requires Evolves(db, InsertMember(db, id, k))
    ensures LogOk(InsertMember(db, id, k))
  {
    var e := Snapshotted(db.nextId, id, k.id, k.at, db.clock);
    forall f | EventOk(db, f) ensures PairOk(f, e) {
      if f.Snapshotted? { assert RecipientOk(db, f.recipient); }
    }
    LogExtended(db, InsertMember(db, id, k), e);
  }

  lemma {:induction false} InsertMembersKeeps(db: Db, id: nat, page: seq<Key>)
    requires Inv(db) && Snapshotting(db, id)
    requires forall k :: k in page ==> k.at <= db.broadcasts[id].snapshotAt
    ensures var db' := InsertMembers(db, id, page);
      Inv(db') && Evolves(db, db') && db'.broadcasts == db.broadcasts && db'.clock == db.clock
    decreases |page|
  {
    if page == [] {
      EvolvesReflexive(db);
    } else {
      assert page[0] in page;
      InsertMemberKeeps(db, id, page[0]);
      var db1 := InsertMember(db, id, page[0]);
      assert forall k :: k in page[1..] ==> k in page;
      InsertMembersKeeps(db1, id, page[1..]);
      EvolvesTransitive(db, db1, InsertMembers(db, id, page));
    }
  }

  /** A batch is safe once the broadcast has left 'accepted'. */
  lemma SnapshotBatchKeeps(db: Db, id: nat, batch: nat)
    requires Inv(db)
    requires id in db.broadcasts ==> db.broadcasts[id].status != Accepted
    ensures Inv(SnapshotBatch(db, id, batch)) && Evolves(db, SnapshotBatch(db, id, batch))
  {
    var db' := SnapshotBatch(db, id, batch);
    if !SnapshotReplyOf(db, id, batch).Advanced? || db.broadcasts[id].snapshotComplete {
      EvolvesReflexive(db);
    } else {
      var b := db.broadcasts[id];
      var page := Page(MemberKeys(db, b), b.cursor, batch);
      forall k | k in page ensures k.at <= b.snapshotAt { assert k in MemberKeys(db, b); }
      InsertMembersKeeps(db, id, page);
      var db1 := InsertMembers(db, id, page);
      if page != [] { assert page[|page| - 1] in page; }
      BroadcastUpdateKeeps(db1, id, AdvanceCursor(b, page, batch));
      EvolvesTransitive(db, db1, db');
    }
  }

  lemma SaveFileKeeps(db: Db, r: nat)
    requires Inv(db)
    ensures Inv(SaveFile(db, r)) && Evolves(db, SaveFile(db, r))
  {
    var db' := SaveFile(db, r);
    forall q | q in db'.recipients ensures RecipientOk(db', q) { assert RecipientOk(db, q); }
    LogKept(db, db');
  }

  /** The cleanup may only delete what no message will ever need. */
  lemma DeleteFileKeeps(db: Db, r: nat)
    requires Inv(db) && Dead(db, r)
    ensures Inv(DeleteFile(db, r)) && Evolves(db, DeleteFile(db, r))
  {
    var db' := DeleteFile(db, r);
    assert Dead(db', r);
    forall q | q in db'.recipients ensures RecipientOk(db', q) { assert RecipientOk(db, q); }
    LogKept(db, db');
  }

  lemma HandoffEvolves(db: Db, r: nat, row: Recipient)
    requires r in db.recipients && r !in db.messages && !Closed(db, r)
    requires Evolves(db, SetRecipient(db, r, row)) && row.broadcast == db.recipients[r].broadcast
    requires row.broadcast in db.broadcasts
    ensures var mid := SetRecipient(db, r, row).(messages := db.messages + {r});
      Evolves(db, Record(mid, HandedOff(r, row.broadcast, db.clock)))
  {
    assert MayFollow(db, HandedOff(r, row.broadcast, db.clock));
  }

  lemma HandoffKeeps(db: Db, r: nat, row: Recipient)
    requires Inv(db) && r in db.recipients && r !in db.messages && !Closed(db, r) && r in db.files
    requires row == db.recipients[r].(status := Materialized, messageId := Some(r))
    requires Inv(SetRecipient(db, r, row)) && Evolves(db, SetRecipient(db, r, row))
    ensures var e := HandedOff(r, row.broadcast, db.clock);
      var db' := Record(SetRecipient(db, r, row).(messages := db.messages + {r}), e);
      Inv(db') && Evolves(db, db')
  {
    var e := HandedOff(r, row.broadcast, db.clock);
    var mid := SetRecipient(db, r, row);
    var db' := Record(mid.(messages := db.messages + {r}), e);
    assert RecipientOk(db, r);
    HandoffMayFollow(db, r, row);
    assert Backed(db');
    hide Evolves, EventOk, PairOk, MayFollow, LogOk, BroadcastsOk, RecipientsOk, OneRowPerContact, Backed;
    HandoffEvolves(db, r, row);
    LogExtended(db, db', e);
    RowsOnlyMatter(mid, db');
  }

  lemma HandoffMayFollow(db: Db, r: nat, row: Recipient)
    requires Inv(db) && r in db.recipients && r !in db.messages && !Closed(db, r)
    requires row == db.recipients[r].(status := Materialized, messageId := Some(r))
    ensures var e := HandedOff(r, row.broadcast, db.clock);
      && EventOk(Record(SetRecipient(db, r, row).(messages := db.messages + {r}), e), e)
      && forall f :: EventOk(db, f) ==> PairOk(f, e)
  {
    assert RecipientOk(db, r);
    hide LogOk, OneRowPerContact;
  }

  /** The row invariants do not look at messages, files or the log. */
  lemma RowsOnlyMatter(a: Db, b: Db)
    requires a.recipients == b.recipients && a.broadcasts == b.broadcasts
    requires a.clock == b.clock && a.nextId == b.nextId
    ensures BroadcastsOk(a) ==> BroadcastsOk(b)
    ensures RecipientsOk(a) ==> RecipientsOk(b)
    ensures OneRowPerContact(a) ==> OneRowPerContact(b)
  {
  }

  lemma InsertMessageKeeps(db: Db, r: nat, domainVerified: bool)
    requires Inv(db)
    requires InsertReplyOf(db, r, domainVerified) == Inserted ==> r in db.files
    ensures Inv(InsertMessage(db, r, domainVerified)) && Evolves(db, InsertMessage(db, r, domainVerified))
  {
    if InsertReplyOf(db, r, domainVerified) == Inserted {
      var row := db.recipients[r].(status := Materialized, messageId := Some(r));
      assert RecipientOk(db, r);
      RecipientUpdateKeeps(db, r, row);
      HandoffKeeps(db, r, row);
    } else {
      EvolvesReflexive(db);
    }
  }

  /** The refusal that starts a cleanup is final. */
  lemma RefusalIsFinal(db: Db, r: nat, domainVerified: bool)
    requires Inv(db) && InsertReplyOf(db, r, domainVerified) == Refused
    ensures Dead(db, r)
  {
  }
}
