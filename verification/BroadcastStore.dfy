/** The SQL transactions of broadcast expansion and control, each carried out
    on the rows in place. `State` is the abstract value, and every method is
    tied to the transaction of BroadcastRows it performs. */
module BroadcastStore {
  import opened Options
  import opened Keyset
  import opened BroadcastRows
  import Rows = BroadcastRows

  class Store {
    var clock: Time
    var broadcasts: map<nat, Broadcast>
    var members: map<Member, Time>
    var recipients: map<nat, Recipient>
    var messages: set<nat>
    var files: set<nat>
    var nextId: nat
    ghost var log: seq<Event>

    ghost function State(): Db
      reads this
    {
      Db(clock, broadcasts, members, recipients, messages, files, nextId, log)
    }

    constructor (now: Time)
      ensures State() == Db(now, map[], map[], map[], {}, {}, 0, [])
    {
      clock, nextId := now, 0;
      broadcasts, members, recipients := map[], map[], map[];
      messages, files, log := {}, {}, [];
    }

    // Acceptance and owner control.

    method CreateBroadcast(audience: nat, sendAt: Option<Time>) returns (id: nat)
      modifies this
      ensures id == old(nextId) && id in broadcasts
      ensures broadcasts[id].status == Accepted && broadcasts[id].audience == audience && broadcasts[id].sendAt == sendAt
      ensures broadcasts[id].snapshotAt == clock && broadcasts[id].cursor == None && !broadcasts[id].snapshotComplete
      ensures State() == Rows.CreateBroadcast(old(State()), audience, sendAt)
    {
      id := nextId;
      broadcasts := broadcasts[id := Broadcast(Accepted, sendAt, audience, clock, None, false, clock)];
      nextId := nextId + 1;
    }

    method CancelBroadcast(id: nat) returns (reply: ControlReply)
      modifies this`broadcasts, this`log
      ensures reply == Rows.CancelReply(old(State()), id)
      ensures State() == Rows.CancelBroadcast(old(State()), id)
    {
      if id !in broadcasts { return NoSuchBroadcast; }
      var b := broadcasts[id];
      if b.status == Cancelled { return Unchanged; }
      if b.status != Accepted && b.status != Expanding { return StateConflict; }
      broadcasts := broadcasts[id := b.(status := Cancelled)];
      log := log + [CancelledAt(id, clock)];
      reply := Changed;
    }

    method RescheduleBroadcast(id: nat, sendAt: Time) returns (reply: ControlReply)
      modifies this`broadcasts
      ensures reply == Rows.RescheduleReply(old(State()), id, sendAt)
      ensures State() == Rows.RescheduleBroadcast(old(State()), id, sendAt)
    {
      if id !in broadcasts { return NoSuchBroadcast; }
      if broadcasts[id].status != Accepted { return StateConflict; }
      if sendAt <= clock { return InvalidSchedule; }
      broadcasts := broadcasts[id := broadcasts[id].(sendAt := Some(sendAt))];
      reply := Changed;
    }

    // Expansion.

    method ClaimActiveBroadcasts(limit: nat, locked: set<nat>) returns (rows: seq<Row>)
      ensures rows == Rows.ClaimActive(State(), limit, locked)
    {
      var active := set id | id in broadcasts && Active(broadcasts[id].status) && Due(broadcasts[id], clock) && id !in locked
        :: Key(broadcasts[id].createdAt, id);
      assert active == Rows.ActiveKeys(State(), locked);
      var page := Page(active, None, limit);
      rows := [];
      var i := 0;
      while i < |page|
        invariant 0 <= i <= |page|
        invariant rows == Rows.ClaimActive(State(), limit, locked)[..i]
      {
        assert page[i] in page;
        rows := rows + [Row(page[i].id, broadcasts[page[i].id].snapshotComplete)];
        i := i + 1;
      }
    }

    /** The UPDATE; `moved` says whether it affected a row. */
    method MarkBroadcastExpanding(id: nat) returns (moved: bool)
      modifies this`broadcasts
      ensures moved == Rows.Startable(old(State()), id)
      ensures State() == Rows.MarkExpanding(old(State()), id)
    {
      moved := id in broadcasts && broadcasts[id].status == Accepted && Due(broadcasts[id], clock);
      if moved { broadcasts := broadcasts[id := broadcasts[id].(status := Expanding)]; }
    }

    method MarkBroadcastFailed(id: nat)
      modifies this`broadcasts
      ensures State() == Rows.MarkFailed(old(State()), id)
    {
      if id in broadcasts && (broadcasts[id].status == Accepted || broadcasts[id].status == Expanding) {
        broadcasts := broadcasts[id := broadcasts[id].(status := Failed)];
      }
    }

    method InsertRecipient(id: nat, k: Key)
      modifies this`recipients, this`nextId, this`log
      ensures State() == Rows.InsertMember(old(State()), id, k)
    {
      var conflict := exists r :: r in recipients && recipients[r].broadcast == id && recipients[r].contact == k.id;
      assert conflict == Rows.HasRow(State(), id, k.id);
      if !conflict {
        recipients := recipients[nextId := Recipient(id, k.id, Pending, 0, None, None, clock)];
        log := log + [Snapshotted(nextId, id, k.id, k.at, clock)];
        nextId := nextId + 1;
      }
    }

    method InsertRecipients(id: nat, page: seq<Key>)
      modifies this`recipients, this`nextId, this`log
      ensures State() == Rows.InsertMembers(old(State()), id, page)
    {
      var i := 0;
      assert page[0..] == page;
      while i < |page|
        invariant 0 <= i <= |page|
        invariant Rows.InsertMembers(State(), id, page[i..]) == Rows.InsertMembers(old(State()), id, page)
      {
        assert page[i..][0] == page[i] && page[i..][1..] == page[i + 1..];
        InsertRecipient(id, page[i]);
        i := i + 1;
      }
    }

    method SnapshotBroadcastBatch(id: nat, batch: nat) returns (reply: SnapshotReply)
      modifies this`broadcasts, this`recipients, this`nextId, this`log
      ensures reply == Rows.SnapshotReplyOf(old(State()), id, batch)
      ensures State() == Rows.SnapshotBatch(old(State()), id, batch)
    {
      if id !in broadcasts { return NotFound; }
      var b := broadcasts[id];
      if (b.status != Accepted && b.status != Expanding) || !Due(b, clock) { return Conflict; }
      if b.snapshotComplete { return Advanced(0, true); }
      var page := ScanMembers(b, batch);
      InsertRecipients(id, page);
      hide Rows.InsertMembers, Rows.MemberKeys, Page;
      AdvanceScan(id, page, batch);
      reply := Advanced(|page|, |page| < batch);
    }

    method ScanMembers(b: Broadcast, batch: nat) returns (page: seq<Key>)
      ensures page == Page(Rows.MemberKeys(State(), b), b.cursor, batch)
    {
      var scanned := set m | m in members && m.audience == b.audience && members[m] <= b.snapshotAt
        :: Key(members[m], m.contact);
      assert scanned == Rows.MemberKeys(State(), b);
      page := Page(scanned, b.cursor, batch);
    }

    /** The cursor moves behind the last row read; a short page ends the scan. */
    method AdvanceScan(id: nat, page: seq<Key>, batch: nat)
      requires id in broadcasts && !broadcasts[id].snapshotComplete
      modifies this`broadcasts
      ensures State() == Rows.SetBroadcast(old(State()), id, Rows.AdvanceCursor(old(broadcasts)[id], page, batch))
    {
      var b := broadcasts[id];
      if |page| > 0 {
        broadcasts := broadcasts[id := broadcasts[id].(cursor := Some(page[|page| - 1]))];
      }
      if |page| < batch {
        broadcasts := broadcasts[id := broadcasts[id].(snapshotComplete := true)];
      }
      assert broadcasts == old(broadcasts)[id := Rows.AdvanceCursor(b, page, batch)];
    }

    /** `order` is the order in which the database returns the rows. */
    method ClaimPendingBroadcastRecipients(id: nat, limit: nat, locked: set<nat>, order: seq<nat>) returns (ids: seq<nat>)
      modifies this`recipients, this`log
      ensures ids == Rows.Returned(Rows.Ids(Rows.ClaimedRows(old(State()), id, limit, locked)), order)
      ensures State() == Rows.ClaimPending(old(State()), id, limit, locked)
    {
      if id !in broadcasts || !Active(broadcasts[id].status) || !Due(broadcasts[id], clock) { return []; }
      var claimable := set r | r in recipients && r !in locked
          && recipients[r].broadcast == id && recipients[r].status == Pending
          && (recipients[r].claimedAt.None? || recipients[r].claimedAt.value < clock - RECIPIENT_CLAIM_LEASE)
        :: Key(recipients[r].createdAt, r);
      assert claimable == Rows.ClaimableKeys(State(), id, locked);
      var rows := Page(claimable, None, limit);
      ids := StampRows(rows);
      ids := Rows.Returned(ids, order);
    }

    method StampRows(rows: seq<Key>) returns (ids: seq<nat>)
      requires forall k :: k in rows ==> k.id >= 0 && k.id in recipients
      modifies this`recipients, this`log
      ensures ids == Rows.Ids(rows)
      ensures State() == Rows.StampClaims(old(State()), rows)
    {
      ids := [];
      var i := 0;
      assert rows[0..] == rows;
      while i < |rows|
        invariant 0 <= i <= |rows|
        invariant recipients.Keys == old(recipients.Keys)
        invariant |ids| == i && forall j :: 0 <= j < i ==> ids[j] == rows[j].id
        invariant Rows.StampClaims(State(), rows[i..]) == Rows.StampClaims(old(State()), rows)
      {
        var k := rows[i];
        assert k in rows;
        assert rows[i..][0] == k && rows[i..][1..] == rows[i + 1..];
        StampRow(k.id);
        ids := ids + [k.id];
        i := i + 1;
      }
    }

    method StampRow(r: nat)
      requires r in recipients
      modifies this`recipients, this`log
      ensures recipients.Keys == old(recipients.Keys)
      ensures forall at :: State() == Rows.StampClaim(old(State()), Key(at, r))
    {
      var row := recipients[r];
      recipients := recipients[r := row.(claimedAt := Some(clock))];
      log := log + [Claimed(r, row.broadcast, clock)];
    }

    method RecordBroadcastRecipientFailure(r: nat)
      modifies this`recipients
      ensures State() == Rows.RecordFailure(old(State()), r)
    {
      if r in recipients && recipients[r].status == Pending {
        var row := recipients[r];
        row := row.(attempts := row.attempts + 1);
        if row.attempts >= MAX_RECIPIENT_ATTEMPTS { row := row.(status := Exhausted); }
        recipients := recipients[r := row];
      }
    }

    method MarkBroadcastRecipientSuppressed(r: nat)
      modifies this`recipients
      ensures State() == Rows.MarkSuppressed(old(State()), r)
    {
      if r in recipients && recipients[r].status == Pending {
        recipients := recipients[r := recipients[r].(status := Suppressed)];
      }
    }

    method MarkBroadcastRecipientMaterialized(r: nat)
      modifies this`recipients
      ensures State() == Rows.MarkMaterialized(old(State()), r)
    {
      if r in recipients && recipients[r].status == Pending {
        recipients := recipients[r := recipients[r].(status := Materialized, messageId := Some(r))];
      }
    }

    method HasPendingBroadcastRecipients(id: nat) returns (pending: bool)
      ensures pending == Rows.HasPending(State(), id)
    {
      pending := exists r :: r in recipients && recipients[r].broadcast == id && recipients[r].status == Pending;
    }

    method CompleteBroadcast(id: nat)
      modifies this`broadcasts
      ensures State() == Rows.CompleteBroadcast(old(State()), id)
    {
      if id in broadcasts && broadcasts[id].status == Expanding && broadcasts[id].snapshotComplete {
        broadcasts := broadcasts[id := broadcasts[id].(status := Completed)];
      }
    }

    // Handing a recipient to the send pipeline.

    method SaveFile(r: nat)
      modifies this`files
      ensures State() == Rows.SaveFile(old(State()), r)
    {
      files := files + {r};
    }

    method DeleteFile(r: nat)
      modifies this`files
      ensures State() == Rows.DeleteFile(old(State()), r)
    {
      files := files - {r};
    }

    /** lockBroadcastRecipient: the tests that guard the insert, in order. */
    method LockBroadcastRecipient(r: nat) returns (refusal: Option<InsertReply>)
      ensures refusal == (var reply := Rows.InsertReplyOf(State(), r, true); if reply == Inserted then None else Some(reply))
    {
      if r !in recipients { return Some(Erased); }
      if r in messages { return Some(AlreadyInserted); }
      var id := recipients[r].broadcast;
      if id !in broadcasts { return Some(LockFailed); }
      if !Active(broadcasts[id].status) || !Due(broadcasts[id], clock) { return Some(Refused); }
      if recipients[r].status != Pending { return Some(Refused); }
      refusal := None;
    }

    method InsertMessage(r: nat, domainVerified: bool) returns (reply: InsertReply)
      modifies this`recipients, this`messages, this`log
      ensures reply == Rows.InsertReplyOf(old(State()), r, domainVerified)
      ensures State() == Rows.InsertMessage(old(State()), r, domainVerified)
    {
      var refusal := LockBroadcastRecipient(r);
      if refusal.Some? { return refusal.value; }
      if !domainVerified { return NotAuthorized; }
      messages := messages + {r};
      log := log + [HandedOff(r, recipients[r].broadcast, clock)];
      recipients := recipients[r := recipients[r].(status := Materialized, messageId := Some(r))];
      reply := Inserted;
    }
  }
}
