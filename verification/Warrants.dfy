/** On what grounds the broadcast statements act, in the rows' own fields and with
    the service's own figures. */
module Warrants {
  import opened Options
  import opened Keyset
  import opened BroadcastRows
  import opened BroadcastInvariant
  import opened ExpansionProtocol

  const FIVE_MINUTES: Time := 300_000_000

  /** Accepted or expanding, and not before its send_at. */
  predicate Underway(db: Db, id: nat) {
    && id in db.broadcasts
    && (db.broadcasts[id].status == Accepted || db.broadcasts[id].status == Expanding)
    && (db.broadcasts[id].sendAt == None || db.broadcasts[id].sendAt.value <= db.clock)
  }

  /** Pending, and not claimed within the last five minutes. */
  predicate Unclaimed(db: Db, id: nat, r: nat) {
    && r in db.recipients && db.recipients[r].broadcast == id && db.recipients[r].status == Pending
    && (db.recipients[r].claimedAt == None || db.recipients[r].claimedAt.value + FIVE_MINUTES < db.clock)
  }

  // Owners.

  /** The accepted row is what was asked for, as of the database's clock. */
  lemma AcceptedAsAsked(db: Db, audience: nat, sendAt: Option<Time>)
    ensures var db' := CreateBroadcast(db, audience, sendAt);
      && db'.broadcasts.Keys == db.broadcasts.Keys + {db.nextId} && db'.nextId == db.nextId + 1
      && (forall id :: id in db.broadcasts && id != db.nextId ==> db'.broadcasts[id] == db.broadcasts[id])
      && var b := db'.broadcasts[db.nextId];
         && b.status == Accepted && b.sendAt == sendAt && b.audience == audience
         && b.snapshotAt == db.clock && b.createdAt == db.clock && b.cursor == None && !b.snapshotComplete
  {
  }

  /** Cancelling: what is under way is cancelled, what is cancelled stays so, and
      what has ended otherwise is not touched. */
  lemma CancelRepliesWhen(db: Db, id: nat)
    ensures var reply, db' := CancelReply(db, id), CancelBroadcast(db, id);
      && (reply == NoSuchBroadcast <==> id !in db.broadcasts)
      && (reply == Changed <==>
            id in db.broadcasts && (db.broadcasts[id].status == Accepted || db.broadcasts[id].status == Expanding))
      && (reply == Unchanged <==> id in db.broadcasts && db.broadcasts[id].status == Cancelled)
      && (reply == StateConflict <==>
            id in db.broadcasts && (db.broadcasts[id].status == Completed || db.broadcasts[id].status == BroadcastStatus.Failed))
      && (reply == Changed ==> db'.broadcasts == db.broadcasts[id := db.broadcasts[id].(status := Cancelled)])
      && (reply != Changed ==> db' == db)
  {
  }

  /** Rescheduling: only what is still accepted, and only to the future. */
  lemma RescheduleRepliesWhen(db: Db, id: nat, sendAt: Time)
    ensures var reply, db' := RescheduleReply(db, id, sendAt), RescheduleBroadcast(db, id, sendAt);
      && (reply == NoSuchBroadcast <==> id !in db.broadcasts)
      && (reply == Changed <==> id in db.broadcasts && db.broadcasts[id].status == Accepted && sendAt > db.clock)
      && (reply == InvalidSchedule <==> id in db.broadcasts && db.broadcasts[id].status == Accepted && sendAt <= db.clock)
      && (reply == Changed ==> db' == SetBroadcast(db, id, db.broadcasts[id].(sendAt := Some(sendAt))))
      && (reply != Changed ==> db' == db)
  {
  }

  // What an expander finds and claims.

  /** Only broadcasts under way are found; all of them when there is room; and
      otherwise no younger one before an older one. */
  lemma FindsWhen(db: Db, limit: nat, locked: set<nat>, id: nat)
    ensures var rows := ClaimActive(db, limit, locked);
      && (Row(id, id in db.broadcasts && db.broadcasts[id].snapshotComplete) in rows ==> Underway(db, id) && id !in locked)
      && (Underway(db, id) && id !in locked && (|rows| < limit) ==> Row(id, db.broadcasts[id].snapshotComplete) in rows)
      && (Underway(db, id) && id !in locked && Row(id, db.broadcasts[id].snapshotComplete) !in rows ==>
            forall row :: row in rows ==> row.id in db.broadcasts && db.broadcasts[row.id].createdAt <= db.broadcasts[id].createdAt)
  {
    var rows := ClaimActive(db, limit, locked);
    var page := Page(ActiveKeys(db, locked), None, limit);
    FoundRows(db, limit, locked);
    if Underway(db, id) && id !in locked {
      var k := Key(db.broadcasts[id].createdAt, id);
      assert k in ActiveKeys(db, locked);
      PageIsPrefix(ActiveKeys(db, locked), None, limit, k);
      hide Page, ActiveKeys, ClaimActive;
      if k in page {
        var i :| 0 <= i < |page| && page[i] == k;
        assert rows[i] == RowOf(db, k);
      } else {
        forall row | row in rows ensures row.id in db.broadcasts && db.broadcasts[row.id].createdAt <= db.broadcasts[id].createdAt {
          var i :| 0 <= i < |rows| && rows[i] == row;
          assert page[i] in page;
          assert Less(page[i], k);
        }
      }
    }
  }

  lemma FoundRows(db: Db, limit: nat, locked: set<nat>)
    ensures var rows := ClaimActive(db, limit, locked);
      var page := Page(ActiveKeys(db, locked), None, limit);
      && |rows| == |page| <= limit
      && forall i :: 0 <= i < |rows| ==>
           && page[i].id >= 0 && Underway(db, page[i].id) && page[i].id !in locked
           && page[i].at == db.broadcasts[page[i].id].createdAt && rows[i] == RowOf(db, page[i])
  {
    var page := Page(ActiveKeys(db, locked), None, limit);
    forall i | 0 <= i < |page|
      ensures page[i].id >= 0 && Underway(db, page[i].id) && page[i].id !in locked && page[i].at == db.broadcasts[page[i].id].createdAt
    {
      assert page[i] in page;
      assert page[i] in ActiveKeys(db, locked);
    }
  }

  lemma RowIsListed(rows: seq<Key>, k: Key)
    requires forall j :: j in rows ==> j.id >= 0
    ensures k in rows ==> k.id in Ids(rows)
  {
    if k in rows {
      var i :| 0 <= i < |rows| && rows[i] == k;
      assert Ids(rows)[i] == k.id;
    }
  }

  /** The claim takes unclaimed recipients of a broadcast under way, `limit` of them
      or all, and no younger one before an older one. */
  lemma ClaimsWhen(db: Db, id: nat, limit: nat, locked: set<nat>, r: nat)
    ensures var ids := Ids(ClaimedRows(db, id, limit, locked));
      && |ids| <= limit
      && (r in ids ==> Underway(db, id) && Unclaimed(db, id, r) && r !in locked)
      && (Underway(db, id) && Unclaimed(db, id, r) && r !in locked && r !in ids ==>
            |ids| == limit && forall q :: q in ids ==> q in db.recipients && db.recipients[q].createdAt <= db.recipients[r].createdAt)
  {
    var rows := ClaimedRows(db, id, limit, locked);
    var ids := Ids(rows);
    forall q | q in ids ensures Underway(db, id) && Unclaimed(db, id, q) && q !in locked {
      var i :| 0 <= i < |ids| && ids[i] == q;
      assert rows[i] in rows;
    }
    if Underway(db, id) && Unclaimed(db, id, r) && r !in locked && r !in ids {
      var k := Key(db.recipients[r].createdAt, r);
      assert k in ClaimableKeys(db, id, locked);
      PageIsPrefix(ClaimableKeys(db, id, locked), None, limit, k);
      RowIsListed(rows, k);
      forall q | q in ids ensures q in db.recipients && db.recipients[q].createdAt <= db.recipients[r].createdAt {
        var i :| 0 <= i < |ids| && ids[i] == q;
        assert rows[i] in rows && Less(rows[i], k);
      }
    }
  }

  lemma {:induction false} StampsAll(db: Db, rows: seq<Key>, r: nat)
    requires r in db.recipients
    ensures var db' := StampClaims(db, rows);
      && db'.clock == db.clock && r in db'.recipients
      && db'.recipients[r] == if exists k :: k in rows && k.id == r
           then db.recipients[r].(claimedAt := Some(db.clock)) else db.recipients[r]
    decreases |rows|
  {
    if rows != [] {
      assert rows[0] in rows;
      assert forall k :: k in rows <==> k == rows[0] || k in rows[1..];
      StampsAll(StampClaim(db, rows[0]), rows[1..], r);
    }
  }

  /** What is claimed is stamped with the database's clock, and nothing else of any
      recipient changes. */
  lemma ClaimStamps(db: Db, id: nat, limit: nat, locked: set<nat>, r: nat)
    requires r in db.recipients
    ensures var ids, db' := Ids(ClaimedRows(db, id, limit, locked)), ClaimPending(db, id, limit, locked);
      && r in db'.recipients
      && db'.recipients[r] == if r in ids then db.recipients[r].(claimedAt := Some(db.clock)) else db.recipients[r]
  {
    var rows := ClaimedRows(db, id, limit, locked);
    StampsAll(db, rows, r);
    forall k | k in rows && k.id == r ensures r in Ids(rows) { RowIsListed(rows, k); }
    if r in Ids(rows) {
      var i :| 0 <= i < |rows| && Ids(rows)[i] == r;
      assert rows[i] in rows && rows[i].id == r;
    }
    hide StampClaims, ClaimedRows;
  }

  /** The snapshot batch answers a conflict exactly when the broadcast is not under
      way, and says the scan is over exactly when it is; */
  lemma SnapshotsWhen(db: Db, id: nat, batch: nat)
    ensures var reply := SnapshotReplyOf(db, id, batch);
      && (reply == NotFound <==> id !in db.broadcasts)
      && (reply == Conflict <==> id in db.broadcasts && !Underway(db, id))
      && (!Underway(db, id) ==> SnapshotBatch(db, id, batch) == db)
      && (reply.Advanced? ==>
            && id in SnapshotBatch(db, id, batch).broadcasts
            && reply.exhausted == SnapshotBatch(db, id, batch).broadcasts[id].snapshotComplete
            && (reply.exhausted <==> db.broadcasts[id].snapshotComplete || reply.count < batch))
  {
    hide InsertMembers, Page, MemberKeys;
  }

  /** it reads exactly the members of its audience as of the watermark. */
  lemma ReadsMembersOf(db: Db, b: Broadcast, k: Key)
    ensures k in MemberKeys(db, b) <==>
      && Member(b.audience, k.id) in db.members && db.members[Member(b.audience, k.id)] == k.at && k.at <= b.snapshotAt
  {
    if Member(b.audience, k.id) in db.members { assert Member(b.audience, k.id).contact == k.id; }
  }

  // Handing off.

  /** A message is inserted if and only if its recipient is pending in a broadcast
      under way, has none yet, and the domain is verified; the recipient is then
      materialized with it. */
  lemma InsertsWhen(db: Db, r: nat, domainVerified: bool)
    requires r in db.messages ==> r in db.recipients
    ensures var db' := InsertMessage(db, r, domainVerified);
      && (db' != db <==>
            && r in db.recipients && r !in db.messages && db.recipients[r].status == Pending
            && Underway(db, db.recipients[r].broadcast) && domainVerified)
      && (db' != db ==>
            && db'.messages == db.messages + {r}
            && db'.recipients == db.recipients[r := db.recipients[r].(status := Materialized, messageId := Some(r))])
  {
    if InsertReplyOf(db, r, domainVerified) == Inserted { assert r in InsertMessage(db, r, domainVerified).messages; }
  }

  /** What the insert answers, in the order of its tests. */
  lemma InsertRepliesWhen(db: Db, r: nat, domainVerified: bool)
    ensures var reply := InsertReplyOf(db, r, domainVerified);
      && (reply == Erased <==> r !in db.recipients)
      && (reply == AlreadyInserted <==> r in db.recipients && r in db.messages)
      && (r in db.recipients && r !in db.messages && db.recipients[r].broadcast in db.broadcasts ==>
            && (reply == Refused <==> !Underway(db, db.recipients[r].broadcast) || db.recipients[r].status != Pending)
            && (reply == NotAuthorized <==>
                  Underway(db, db.recipients[r].broadcast) && db.recipients[r].status == Pending && !domainVerified))
  {
  }

  /** A counted failure: the fifth is the last. */
  lemma FailsAtTheFifth(db: Db, r: nat)
    requires r in db.recipients && db.recipients[r].status == Pending && db.recipients[r].attempts < 5
    ensures var db' := RecordFailure(db, r);
      && r in db'.recipients && db'.recipients[r].attempts == db.recipients[r].attempts + 1
      && (db'.recipients[r].status == Exhausted <==> db.recipients[r].attempts == 4)
      && (db'.recipients[r].status == Pending <==> db.recipients[r].attempts < 4)
  {
  }

  /** Expansion begins and ends where it may. */
  lemma StatusMovesWhen(db: Db, id: nat)
    requires id in db.broadcasts
    ensures MarkExpanding(db, id) == if db.broadcasts[id].status == Accepted && Underway(db, id)
      then SetBroadcast(db, id, db.broadcasts[id].(status := Expanding)) else db
    ensures CompleteBroadcast(db, id) == if db.broadcasts[id].status == Expanding && db.broadcasts[id].snapshotComplete
      then SetBroadcast(db, id, db.broadcasts[id].(status := Completed)) else db
    ensures MarkFailed(db, id) == if db.broadcasts[id].status == Accepted || db.broadcasts[id].status == Expanding
      then SetBroadcast(db, id, db.broadcasts[id].(status := BroadcastStatus.Failed)) else db
  {
  }

  // The log: nothing happens without grounds.

  /** What had to hold for the event when it was logged over db. */
  predicate Warranted(db: Db, e: Event) {
    e.at == db.clock &&
    match e
    case Snapshotted(r, id, contact, since, _) =>
      && Underway(db, id) && !db.broadcasts[id].snapshotComplete && since <= db.broadcasts[id].snapshotAt
      && Member(db.broadcasts[id].audience, contact) in db.members
      && db.members[Member(db.broadcasts[id].audience, contact)] == since
    case Claimed(r, id, _) => Underway(db, id) && Unclaimed(db, id, r)
    case HandedOff(r, id, _) =>
      && Underway(db, id) && r in db.recipients && db.recipients[r].broadcast == id && db.recipients[r].status == Pending
      && r !in db.messages
    case CancelledAt(id, _) => id in db.broadcasts && (db.broadcasts[id].status == Accepted || db.broadcasts[id].status == Expanding)
  }

  /** b's log goes on from a's with events that were warranted over `when`. */
  ghost predicate LogsWarranted(a: Db, b: Db, when: Db) {
    && |a.log| <= |b.log| && b.log[..|a.log|] == a.log
    && forall i :: |a.log| <= i < |b.log| ==> Warranted(when, b.log[i])
  }

  lemma WarrantsJoin(a: Db, b: Db, c: Db, when: Db)
    requires LogsWarranted(a, b, when) && LogsWarranted(b, c, when)
    ensures LogsWarranted(a, c, when)
  {
    hide Warranted;
    assert c.log[..|a.log|] == c.log[..|b.log|][..|a.log|];
    forall i | |a.log| <= i < |c.log| ensures Warranted(when, c.log[i]) {
      if i < |b.log| { assert c.log[i] == c.log[..|b.log|][i]; }
    }
  }

  lemma {:induction false} PageIsWarranted(db: Db, id: nat, page: seq<Key>, when: Db)
    requires Underway(when, id) && !when.broadcasts[id].snapshotComplete && db.clock == when.clock
    requires forall k :: k in page ==> k in MemberKeys(when, when.broadcasts[id])
    ensures LogsWarranted(db, InsertMembers(db, id, page), when)
    decreases |page|
  {
    if page != [] {
      assert page[0] in page;
      ReadsMembersOf(when, when.broadcasts[id], page[0]);
      assert forall k :: k in page[1..] ==> k in page;
      var db1 := InsertMember(db, id, page[0]);
      PageIsWarranted(db1, id, page[1..], when);
      assert LogsWarranted(db, db1, when);
      hide InsertMember, InsertMembers, Warranted, MemberKeys;
      WarrantsJoin(db, db1, InsertMembers(db, id, page), when);
    }
  }

  lemma {:induction false} ClaimsAreWarranted(db: Db, id: nat, rows: seq<Key>, when: Db)
    requires Underway(when, id) && db.clock == when.clock
    requires forall k :: k in rows ==> k.id >= 0 && Unclaimed(when, id, k.id)
    requires forall r :: r in when.recipients ==> r in db.recipients && db.recipients[r].broadcast == when.recipients[r].broadcast
    ensures LogsWarranted(db, StampClaims(db, rows), when)
    decreases |rows|
  {
    if rows != [] {
      assert rows[0] in rows;
      assert forall k :: k in rows[1..] ==> k in rows;
      var db1 := StampClaim(db, rows[0]);
      ClaimsAreWarranted(db1, id, rows[1..], when);
      assert LogsWarranted(db, db1, when);
      WarrantsJoin(db, db1, StampClaims(db, rows), when);
    }
  }

  lemma BatchIsWarranted(db: Db, id: nat, batch: nat)
    ensures LogsWarranted(db, SnapshotBatch(db, id, batch), db)
  {
    SnapshotsWhen(db, id, batch);
    if SnapshotBatch(db, id, batch) != db {
      var b := db.broadcasts[id];
      var page := Page(MemberKeys(db, b), b.cursor, batch);
      PageIsWarranted(db, id, page, db);
      hide Page, MemberKeys, InsertMembers;
    }
  }

  lemma ClaimIsWarranted(db: Db, id: nat, limit: nat, locked: set<nat>)
    ensures LogsWarranted(db, ClaimPending(db, id, limit, locked), db)
  {
    var rows := ClaimedRows(db, id, limit, locked);
    if rows != [] {
      forall k | k in rows ensures Underway(db, id) && Unclaimed(db, id, k.id) {
        assert k in ClaimableKeys(db, id, locked);
      }
      assert rows[0] in rows;
      ClaimsAreWarranted(db, id, rows, db);
    }
  }

  lemma LoopIsWarranted(db: Db, pc: Pc, c: Chance)
    requires InRecipientLoop(pc)
    ensures LogsWarranted(db, NextForRecipient(db, pc, c).0, db)
  {
  }

  /** Whatever is logged was warranted by the rows it was logged over: snapshots of
      members only, claims of unclaimed recipients, handoffs of pending ones, and
      nothing before send_at or after the end. */
  lemma NothingUnwarranted(lim: Limits, s: System, a: Action)
    ensures LogsWarranted(s.db, Apply(lim, s, a).db, s.db)
  {
    if a.Expand? {
      var pc := PcOf(s, a.expander);
      hide SnapshotBatch, ClaimPending, ClaimedRows, NextForRecipient, ClaimActive, HasPending, SnapshotReplyOf, Warranted;
      if InRecipientLoop(pc) {
        LoopIsWarranted(s.db, pc, a.chance);
      } else if pc.Snapshot? && pc.q != [] {
        BatchIsWarranted(s.db, pc.q[0].id, lim.snapshot);
      } else if pc.Claim? && pc.q != [] {
        ClaimIsWarranted(s.db, pc.q[0].id, lim.materialize, a.chance.locked);
      }
    }
  }

  // Schedules, over whole runs.

  predicate NoRescheduleOf(acts: seq<Action>, id: nat) {
    forall a :: a in acts && a.Reschedule? ==> a.broadcast != id
  }

  /** The broadcast is to start at t, and nothing of it is earlier. */
  ghost predicate StartsAt(db: Db, id: nat, t: Time) {
    && id in db.broadcasts && db.broadcasts[id].sendAt == Some(t)
    && forall i :: 0 <= i < |db.log| && db.log[i].broadcast == id && !db.log[i].CancelledAt? ==> db.log[i].at >= t
  }

  predicate SameSendAt(a: Db, b: Db, id: nat) {
    id in a.broadcasts && id in b.broadcasts && b.broadcasts[id].sendAt == a.broadcasts[id].sendAt
  }

  lemma ScanKeepsSendAt(lim: Limits, db: Db, pc: Pc, c: Chance, id: nat)
    requires id in db.broadcasts && (pc.Snapshot? || pc.Claim?)
    ensures SameSendAt(db, Next(lim, db, pc, c).0, id)
  {
    hide SnapshotBatch, ClaimPending, ClaimedRows, SnapshotReplyOf;
    if pc.q != [] {
      BatchKeepsSendAt(db, pc.q[0].id, lim.snapshot, id);
      ClaimKeepsBroadcasts(db, pc.q[0].id, lim.materialize, c.locked);
    }
  }

  lemma MarksKeepSendAt(lim: Limits, db: Db, pc: Pc, c: Chance, id: nat)
    requires id in db.broadcasts && !InRecipientLoop(pc) && !pc.Snapshot? && !pc.Claim?
    ensures SameSendAt(db, Next(lim, db, pc, c).0, id)
  {
    hide ClaimActive, HasPending;
  }

  lemma StatementKeepsSendAt(lim: Limits, db: Db, pc: Pc, c: Chance, id: nat)
    requires id in db.broadcasts
    ensures SameSendAt(db, Next(lim, db, pc, c).0, id)
  {
    hide Next, NextForRecipient;
    if InRecipientLoop(pc) {
      LoopIsNext(lim, db, pc, c);
      LoopKeepsBroadcasts(db, pc, c);
    } else if pc.Snapshot? || pc.Claim? {
      ScanKeepsSendAt(lim, db, pc, c, id);
    } else {
      MarksKeepSendAt(lim, db, pc, c, id);
    }
  }

  lemma SendAtStays(lim: Limits, s: System, a: Action, id: nat)
    requires SystemOk(s) && id in s.db.broadcasts && !(a.Reschedule? && a.broadcast == id)
    ensures SameSendAt(s.db, Apply(lim, s, a).db, id)
  {
    InvKeepsIdsFresh(s.db);
    hide SystemOk, Inv, Next;
    if a.Expand? {
      ApplyExpand(lim, s, a.expander, a.chance);
      StatementKeepsSendAt(lim, s.db, PcOf(s, a.expander), a.chance, id);
    }
  }

  lemma BatchKeepsSendAt(db: Db, other: nat, batch: nat, id: nat)
    requires id in db.broadcasts
    ensures var db' := SnapshotBatch(db, other, batch);
      id in db'.broadcasts && db'.broadcasts[id].sendAt == db.broadcasts[id].sendAt
  {
    if other in db.broadcasts {
      InsertMembersFrame(db, other, Page(MemberKeys(db, db.broadcasts[other]), db.broadcasts[other].cursor, batch));
    }
  }

  lemma StepStartsAt(lim: Limits, s: System, a: Action, id: nat, t: Time)
    requires SystemOk(s) && StartsAt(s.db, id, t) && !(a.Reschedule? && a.broadcast == id)
    ensures StartsAt(Apply(lim, s, a).db, id, t)
  {
    SendAtStays(lim, s, a, id);
    NothingUnwarranted(lim, s, a);
    ApplyKeeps(lim, s, a);
    var log, log' := s.db.log, Apply(lim, s, a).db.log;
    assert log'[..|log|] == log;
    hide Apply, SystemOk;
    forall i | 0 <= i < |log'| && log'[i].broadcast == id && !log'[i].CancelledAt? ensures log'[i].at >= t {
      if i < |log| { assert log'[i] == log[i]; } else { assert Warranted(s.db, log'[i]); }
    }
  }

  lemma {:induction false} ExecStartsAt(lim: Limits, s: System, acts: seq<Action>, id: nat, t: Time)
    requires SystemOk(s) && StartsAt(s.db, id, t) && NoRescheduleOf(acts, id)
    ensures StartsAt(Exec(lim, s, acts).db, id, t)
    decreases |acts|
  {
    if acts != [] {
      hide SystemOk, StartsAt, Apply;
      assert acts[0] in acts;
      assert forall a :: a in acts[1..] ==> a in acts;
      ApplyKeeps(lim, s, acts[0]);
      StepStartsAt(lim, s, acts[0], id, t);
      ExecStartsAt(lim, Apply(lim, s, acts[0]), acts[1..], id, t);
    }
  }

  /** A broadcast that is accepted but not started has no events. */
  lemma NothingYet(db: Db, id: nat)
    requires Inv(db) && (id !in db.broadcasts || db.broadcasts[id].status == Accepted)
    ensures forall i :: 0 <= i < |db.log| ==> db.log[i].broadcast != id || db.log[i].CancelledAt?
  {
    forall i | 0 <= i < |db.log| ensures db.log[i].broadcast != id || db.log[i].CancelledAt? {
      var e := db.log[i];
      assert EventOk(db, e);
      if !e.CancelledAt? && e.recipient in db.recipients { assert RecipientOk(db, e.recipient); }
    }
  }

  /** A broadcast accepted for t: in no run, until its owner reschedules it, is
      anything of it snapshotted, claimed or handed off before t. */
  lemma StartsWhenAsked(lim: Limits, s: System, audience: nat, t: Time, acts: seq<Action>)
    requires SystemOk(s) && NoRescheduleOf(acts, s.db.nextId)
    ensures var db := Exec(lim, Apply(lim, s, Create(audience, Some(t))), acts).db;
      && s.db.nextId in db.broadcasts && db.broadcasts[s.db.nextId].audience == audience
      && forall i :: 0 <= i < |db.log| && db.log[i].broadcast == s.db.nextId && !db.log[i].CancelledAt? ==> db.log[i].at >= t
  {
    var id := s.db.nextId;
    var s1 := Apply(lim, s, Create(audience, Some(t)));
    ApplyKeeps(lim, s, Create(audience, Some(t)));
    InvKeepsIdsFresh(s.db);
    NothingYet(s.db, id);
    assert StartsAt(s1.db, id, t);
    ExecStartsAt(lim, s1, acts, id, t);
    ExecKeeps(lim, s1, acts);
    hide Apply, SystemOk, Inv;
    AudienceStays(s1.db, Exec(lim, s1, acts).db, id);
  }

  lemma AudienceStays(a: Db, b: Db, id: nat)
    requires Evolves(a, b) && id in a.broadcasts
    ensures id in b.broadcasts && b.broadcasts[id].audience == a.broadcasts[id].audience
  {
    assert BroadcastEvolves(a.broadcasts[id], b.broadcasts[id]);
  }

  /** The same after a rescheduling that was answered with success. */
  lemma StartsWhenRescheduled(lim: Limits, s: System, id: nat, t: Time, acts: seq<Action>)
    requires SystemOk(s) && RescheduleReply(s.db, id, t) == Changed && NoRescheduleOf(acts, id)
    ensures StartsAt(Exec(lim, Apply(lim, s, Reschedule(id, t)), acts).db, id, t)
  {
    var s1 := Apply(lim, s, Reschedule(id, t));
    ApplyKeeps(lim, s, Reschedule(id, t));
    NothingYet(s.db, id);
    assert StartsAt(s1.db, id, t);
    ExecStartsAt(lim, s1, acts, id, t);
  }
}
