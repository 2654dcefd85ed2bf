/** The audience snapshot: bounded batches that resume from a durable cursor
    refine one filtered, sorted scan of the membership table. */
module SnapshotScan {
  import opened Arithmetic
  import opened Options
  import opened Keyset
  import opened BroadcastRows
  import opened BroadcastInvariant
  import opened ExpansionProtocol

  // A static audience.

  /** The membership rows a broadcast's scan has still to read, in order. */
  function Unscanned(db: Db, id: nat): seq<Key>
    requires id in db.broadcasts
  {
    Sorted(Above(MemberKeys(db, db.broadcasts[id]), db.broadcasts[id].cursor))
  }

  /** n consecutive calls of SnapshotBroadcastBatch. */
  function Batches(db: Db, id: nat, batch: nat, n: nat): Db
    decreases n
  {
    if n == 0 then db else Batches(SnapshotBatch(db, id, batch), id, batch, n - 1)
  }

  ghost predicate Scanning(db: Db, id: nat) {
    && id in db.broadcasts && Active(db.broadcasts[id].status) && Due(db.broadcasts[id], db.clock)
    && !db.broadcasts[id].snapshotComplete
  }

  lemma {:induction false} InsertMembersConcat(db: Db, id: nat, p: seq<Key>, q: seq<Key>)
    ensures InsertMembers(db, id, p + q) == InsertMembers(InsertMembers(db, id, p), id, q)
    decreases |p|
  {
    if p == [] {
      assert p + q == q;
    } else {
      assert (p + q)[0] == p[0] && (p + q)[1..] == p[1..] + q;
      InsertMembersConcat(InsertMember(db, id, p[0]), id, p[1..], q);
    }
  }

  /** Rows go in by broadcast id only: the broadcast's own columns do not matter. */
  lemma {:induction false} InsertMembersIgnoresBroadcast(db: Db, id: nat, b: Broadcast, page: seq<Key>)
    ensures InsertMembers(SetBroadcast(db, id, b), id, page) == SetBroadcast(InsertMembers(db, id, page), id, b)
    decreases |page|
  {
    if page != [] {
      assert InsertMember(SetBroadcast(db, id, b), id, page[0]) == SetBroadcast(InsertMember(db, id, page[0]), id, b);
      InsertMembersIgnoresBroadcast(InsertMember(db, id, page[0]), id, b, page[1..]);
    }
  }

  function Take(u: seq<Key>, batch: nat): seq<Key> {
    if |u| <= batch then u else u[..batch]
  }

  /** The rows of `page` are in and the cursor stands behind them. */
  function AfterPage(db: Db, id: nat, page: seq<Key>, batch: nat): Db
    requires id in db.broadcasts
  {
    SetBroadcast(InsertMembers(db, id, page), id, AdvanceCursor(db.broadcasts[id], page, batch))
  }

  /** What one batch does, seen from the list of unread rows: it takes the
      first `batch` of them, and completes when there are fewer. */
  lemma BatchTakesPrefix(db: Db, id: nat, batch: nat)
    requires Scanning(db, id)
    ensures SnapshotBatch(db, id, batch) == AfterPage(db, id, Take(Unscanned(db, id), batch), batch)
  {
  }

  lemma FullBatchLeavesSuffix(db: Db, id: nat, batch: nat)
    requires Scanning(db, id) && 1 <= batch <= |Unscanned(db, id)|
    ensures Scanning(SnapshotBatch(db, id, batch), id)
    ensures Unscanned(SnapshotBatch(db, id, batch), id) == Unscanned(db, id)[batch..]
  {
    var b := db.broadcasts[id];
    var u := Unscanned(db, id);
    var page := Take(u, batch);
    BatchTakesPrefix(db, id, batch);
    InsertMembersFrame(db, id, page);
    assert page == u[..batch] && page[|page| - 1] == u[batch - 1];
    SameMemberKeys(db, AfterPage(db, id, page, batch), b, AdvanceCursor(b, page, batch));
    SuffixIsSorted(MemberKeys(db, b), b.cursor, batch - 1);
  }

  lemma SameMemberKeys(a: Db, b: Db, x: Broadcast, y: Broadcast)
    requires a.members == b.members && x.audience == y.audience && x.snapshotAt == y.snapshotAt
    ensures MemberKeys(a, x) == MemberKeys(b, y)
  {
  }

  /** Inserting p and then q, with the cursor moved in between, is inserting
      p + q. */
  lemma PagesCompose(db: Db, id: nat, p: seq<Key>, q: seq<Key>, batch: nat)
    requires id in db.broadcasts && p != [] && |p| == batch && !db.broadcasts[id].snapshotComplete
    ensures var db1 := AfterPage(db, id, p, batch);
      id in db1.broadcasts && AfterPage(db1, id, q, |q| + 1) == AfterPage(db, id, p + q, |p + q| + 1)
  {
    var b := db.broadcasts[id];
    var rows := InsertMembers(db, id, p);
    InsertMembersConcat(db, id, p, q);
    InsertMembersIgnoresBroadcast(rows, id, AdvanceCursor(b, p, batch), q);
    assert q != [] ==> (p + q)[|p + q| - 1] == q[|q| - 1];
    assert AdvanceCursor(AdvanceCursor(b, p, batch), q, |q| + 1) == AdvanceCursor(b, p + q, |p + q| + 1) by {
      if q == [] { assert p + q == p; }
    }
  }

  /** Scanning the rest after one full batch is scanning everything. */
  lemma RestOfScan(db: Db, id: nat, batch: nat)
    requires Scanning(db, id) && 1 <= batch <= |Unscanned(db, id)|
    ensures var n := |Unscanned(db, id)|;
      SnapshotBatch(SnapshotBatch(db, id, batch), id, n - batch + 1) == SnapshotBatch(db, id, n + 1)
  {
    hide SnapshotBatch, Unscanned, AfterPage;
    var u := Unscanned(db, id);
    var n := |u|;
    var db1 := SnapshotBatch(db, id, batch);
    BatchTakesPrefix(db, id, batch);
    BatchTakesPrefix(db, id, n + 1);
    FullBatchLeavesSuffix(db, id, batch);
    BatchTakesPrefix(db1, id, n - batch + 1);
    assert u[..batch] + u[batch..] == u && Take(u, batch) == u[..batch];
    PagesCompose(db, id, u[..batch], u[batch..], batch);
  }

  lemma OversizedBatchCompletes(db: Db, id: nat, batch: nat)
    requires Scanning(db, id) && |Unscanned(db, id)| < batch
    ensures var db' := SnapshotBatch(db, id, batch); id in db'.broadcasts && db'.broadcasts[id].snapshotComplete
  {
  }

  lemma OversizedBatchesAgree(db: Db, id: nat, batch: nat)
    requires Scanning(db, id) && |Unscanned(db, id)| < batch
    ensures SnapshotBatch(db, id, batch) == SnapshotBatch(db, id, |Unscanned(db, id)| + 1)
  {
  }

  ghost predicate Incomplete(db: Db, id: nat) {
    id in db.broadcasts && !db.broadcasts[id].snapshotComplete
  }

  ghost predicate Scanned(db: Db, id: nat) {
    id in db.broadcasts && db.broadcasts[id].snapshotComplete
  }

  /** The scan in one statement, with room for every unread member. */
  function OneScan(db: Db, id: nat): Db
    requires id in db.broadcasts
  {
    SnapshotBatch(db, id, |Unscanned(db, id)| + 1)
  }

  function BatchesNeeded(db: Db, id: nat, batch: nat): nat
    requires id in db.broadcasts && batch >= 1
  {
    Quotient(|Unscanned(db, id)|, batch) + 1
  }

  /** Refinement: for every batch size, batching is one big scan. The two end
      in the same database, rows, ids, log and cursor included; and a static
      audience with n unread members takes exactly n / batch + 1 batches. */
  lemma {:induction false} BatchesRefineOneScan(db: Db, id: nat, batch: nat)
    requires Scanning(db, id) && batch >= 1
    ensures Batches(db, id, batch, BatchesNeeded(db, id, batch)) == OneScan(db, id)
    ensures Scanned(OneScan(db, id), id)
    ensures forall k: nat :: k < BatchesNeeded(db, id, batch) ==> Incomplete(Batches(db, id, batch, k), id)
    decreases |Unscanned(db, id)|
  {
    hide SnapshotBatch, Unscanned, MarkExpanding;
    var n := |Unscanned(db, id)|;
    var db1 := SnapshotBatch(db, id, batch);
    OversizedBatchCompletes(db, id, n + 1);
    if n < batch {
      OversizedBatchesAgree(db, id, batch);
      QuotientIs(n, batch, 0, n);
      assert Batches(db, id, batch, 1) == Batches(db1, id, batch, 0) == db1;
    } else {
      FullBatchLeavesSuffix(db, id, batch);
      BatchesRefineOneScan(db1, id, batch);
      QuotientStep(n - batch, batch);
      RestOfScan(db, id, batch);
      forall k: nat | k <= n / batch ensures Incomplete(Batches(db, id, batch, k), id) {
        if k > 0 { assert Batches(db, id, batch, k) == Batches(db1, id, batch, k - 1); }
      }
    }
  }

  // A changing audience.

  lemma HasRowStays(a: Db, b: Db, id: nat, contact: int)
    requires Evolves(a, b) && HasRow(a, id, contact)
    ensures HasRow(b, id, contact)
  {
  }

  lemma InsertMemberKeepsRows(db: Db, id: nat, k: Key, id': nat, contact: int)
    requires IdsFresh(db)
    requires HasRow(db, id', contact) || (id' == id && contact == k.id)
    ensures HasRow(InsertMember(db, id, k), id', contact) && IdsFresh(InsertMember(db, id, k))
  {
    var db' := InsertMember(db, id, k);
    if HasRow(db, id', contact) {
      var r :| r in db.recipients && db.recipients[r].broadcast == id' && db.recipients[r].contact == contact;
      assert r in db'.recipients && db'.recipients[r] == db.recipients[r];
    } else {
      assert db'.recipients[db.nextId].contact == contact;
    }
  }

  /** Every row of the page is in, and no row is lost. */
  lemma {:induction false} PageIsInserted(db: Db, id: nat, page: seq<Key>, contact: int)
    requires IdsFresh(db)
    requires HasRow(db, id, contact) || exists k :: k in page && k.id == contact
    ensures HasRow(InsertMembers(db, id, page), id, contact)
    decreases |page|
  {
    if page != [] {
      if HasRow(db, id, contact) || page[0].id == contact {
        InsertMemberKeepsRows(db, id, page[0], id, contact);
      } else {
        var k :| k in page && k.id == contact;
        assert k in page[1..];
        assert IdsFresh(InsertMember(db, id, page[0]));
      }
      PageIsInserted(InsertMember(db, id, page[0]), id, page[1..], contact);
    }
  }

  /** A membership row the scan has passed has its recipient row. */
  ghost predicate PassedHasRow(db: Db, id: nat, contact: int, since: Time) {
    id in db.broadcasts &&
    ((db.broadcasts[id].snapshotComplete || !After(Key(since, contact), db.broadcasts[id].cursor)) ==> HasRow(db, id, contact))
  }

  ghost predicate IsMember(db: Db, id: nat, contact: int, since: Time) {
    && id in db.broadcasts
    && Member(db.broadcasts[id].audience, contact) in db.members
    && db.members[Member(db.broadcasts[id].audience, contact)] == since
    && since <= db.broadcasts[id].snapshotAt
  }

  lemma BatchPassesMembers(db: Db, id: nat, batch: nat, contact: int, since: Time)
    requires Inv(db) && PassedHasRow(db, id, contact, since) && IsMember(db, id, contact, since)
    ensures PassedHasRow(SnapshotBatch(db, id, batch), id, contact, since)
  {
    var b := db.broadcasts[id];
    if SnapshotReplyOf(db, id, batch).Advanced? && !b.snapshotComplete {
      var k := Key(since, contact);
      var m := Member(b.audience, contact);
      assert k in MemberKeys(db, b) by { assert m in db.members; }
      var page := Page(MemberKeys(db, b), b.cursor, batch);
      var db1 := InsertMembers(db, id, page);
      var db' := SnapshotBatch(db, id, batch);
      InsertMembersFrame(db, id, page);
      InvKeepsIdsFresh(db);
      if !After(k, b.cursor) || k in page {
        PageIsInserted(db, id, page, contact);
        assert HasRow(db1, id, contact);
        assert db'.recipients == db1.recipients;
      } else {
        PageIsPrefix(MemberKeys(db, b), b.cursor, batch, k);
        assert |page| == batch;
        if page != [] { assert page[|page| - 1] in page; }
      }
    }
  }

  /** Only the snapshot transaction moves a broadcast's cursor. */
  lemma StepPassesMembers(lim: Limits, s: System, a: Action, id: nat, contact: int, since: Time)
    requires SystemOk(s) && PassedHasRow(s.db, id, contact, since) && IsMember(s.db, id, contact, since)
    ensures PassedHasRow(Apply(lim, s, a).db, id, contact, since)
  {
    var db' := Apply(lim, s, a).db;
    ApplyKeeps(lim, s, a);
    if HasRow(s.db, id, contact) {
      HasRowStays(s.db, db', id, contact);
      assert BroadcastEvolves(s.db.broadcasts[id], db'.broadcasts[id]);
    } else if a.Expand? && PcOf(s, a.expander).Snapshot? && PcOf(s, a.expander).q[0].id == id {
      BatchPassesMembers(s.db, id, lim.snapshot, contact, since);
    } else {
      CursorUntouched(lim, s, a, id);
    }
  }

  lemma CursorUntouched(lim: Limits, s: System, a: Action, id: nat)
    requires SystemOk(s) && id in s.db.broadcasts
    requires !(a.Expand? && PcOf(s, a.expander).Snapshot? && PcOf(s, a.expander).q[0].id == id)
    ensures var db' := Apply(lim, s, a).db;
      && id in db'.broadcasts && db'.broadcasts[id].cursor == s.db.broadcasts[id].cursor
      && db'.broadcasts[id].snapshotComplete == s.db.broadcasts[id].snapshotComplete
  {
    hide Inv;
    match a
    case Expand(e, c) =>
      hide SystemOk;
      StepLeavesCursor(lim, s.db, PcOf(s, e), c, id);
    case Create(_, _) => assert s.db.nextId !in s.db.broadcasts by { InvKeepsIdsFresh(s.db); }
    case _ =>
  }

  lemma BatchLeavesCursor(db: Db, other: nat, batch: nat, id: nat)
    requires id in db.broadcasts && other != id
    ensures id in SnapshotBatch(db, other, batch).broadcasts
    ensures SnapshotBatch(db, other, batch).broadcasts[id] == db.broadcasts[id]
  {
    if other in db.broadcasts {
      InsertMembersFrame(db, other, Page(MemberKeys(db, db.broadcasts[other]), db.broadcasts[other].cursor, batch));
    }
  }

  lemma StepLeavesCursor(lim: Limits, db: Db, pc: Pc, c: Chance, id: nat)
    requires id in db.broadcasts && (pc.Snapshot? && pc.q != [] ==> pc.q[0].id != id)
    ensures var db' := Next(lim, db, pc, c).0;
      && id in db'.broadcasts && db'.broadcasts[id].cursor == db.broadcasts[id].cursor
      && db'.broadcasts[id].snapshotComplete == db.broadcasts[id].snapshotComplete
  {
    hide SnapshotBatch, ClaimedRows;
    if InRecipientLoop(pc) {
      LoopKeepsBroadcasts(db, pc, c);
      hide NextForRecipient;
    } else {
      match pc {
        case Snapshot(q) => if q != [] { BatchLeavesCursor(db, q[0].id, lim.snapshot, id); }
        case Claim(q) => if q != [] { StampClaimsFrame(db, ClaimedRows(db, q[0].id, lim.materialize, c.locked)); }
        case _ => hide ClaimPending;
      }
    }
  }

  /** The contact stays in the audience, with the same row, all along the run. */
  ghost predicate StaysMember(lim: Limits, s: System, acts: seq<Action>, id: nat, contact: int, since: Time)
    decreases |acts|
  {
    && IsMember(s.db, id, contact, since)
    && (acts != [] ==> StaysMember(lim, Apply(lim, s, acts[0]), acts[1..], id, contact, since))
  }

  lemma {:induction false} MembersArePassed(lim: Limits, s: System, acts: seq<Action>, id: nat, contact: int, since: Time)
    requires SystemOk(s) && PassedHasRow(s.db, id, contact, since)
    requires StaysMember(lim, s, acts, id, contact, since)
    ensures PassedHasRow(Exec(lim, s, acts).db, id, contact, since)
    decreases |acts|
  {
    if acts != [] {
      ApplyKeeps(lim, s, acts[0]);
      StepPassesMembers(lim, s, acts[0], id, contact, since);
      MembersArePassed(lim, Apply(lim, s, acts[0]), acts[1..], id, contact, since);
    }
  }

  /** Nobody takes the contact out of the audience. */
  predicate NoLeaveOf(acts: seq<Action>, audience: nat, contact: int) {
    forall a :: a in acts && a.Leave? ==> a.audience != audience || a.contact != contact
  }

  lemma NextKeepsMembers(lim: Limits, db: Db, pc: Pc, c: Chance)
    ensures Next(lim, db, pc, c).0.members == db.members
  {
    hide MemberKeys, Page, ClaimedRows;
    if pc.Snapshot? && pc.q != [] && pc.q[0].id in db.broadcasts {
      var b := db.broadcasts[pc.q[0].id];
      InsertMembersFrame(db, pc.q[0].id, Page(MemberKeys(db, b), b.cursor, lim.snapshot));
    } else if pc.Claim? && pc.q != [] {
      StampClaimsFrame(db, ClaimedRows(db, pc.q[0].id, lim.materialize, c.locked));
    } else if InRecipientLoop(pc) {
      LoopKeepsMembers(db, pc, c);
    }
  }

  lemma LoopKeepsMembers(db: Db, pc: Pc, c: Chance)
    requires InRecipientLoop(pc)
    ensures NextForRecipient(db, pc, c).0.members == db.members
  {
  }

  lemma StepKeepsMember(lim: Limits, s: System, a: Action, id: nat, contact: int, since: Time)
    requires SystemOk(s) && IsMember(s.db, id, contact, since)
    ensures IsMember(Apply(lim, s, a).db, id, contact, since)
      <==> !(a.Leave? && a.audience == s.db.broadcasts[id].audience && a.contact == contact)
    ensures id in Apply(lim, s, a).db.broadcasts && Apply(lim, s, a).db.broadcasts[id].audience == s.db.broadcasts[id].audience
  {
    ApplyKeeps(lim, s, a);
    assert BroadcastEvolves(s.db.broadcasts[id], Apply(lim, s, a).db.broadcasts[id]);
    if a.Expand? { NextKeepsMembers(lim, s.db, PcOf(s, a.expander), a.chance); }
    hide Next, SystemOk;
  }

  /** A contact stays a member, with the same created_at, exactly until it is
      removed: joining again changes nothing, and no expander does. */
  lemma {:induction false} StaysMemberWhen(lim: Limits, s: System, acts: seq<Action>, id: nat, contact: int, since: Time)
    requires SystemOk(s) && IsMember(s.db, id, contact, since)
    ensures StaysMember(lim, s, acts, id, contact, since) <==> NoLeaveOf(acts, s.db.broadcasts[id].audience, contact)
    decreases |acts|
  {
    if acts != [] {
      hide IsMember, Apply, SystemOk;
      var audience := s.db.broadcasts[id].audience;
      assert acts == [acts[0]] + acts[1..];
      assert NoLeaveOf(acts, audience, contact) <==> NoLeaveOf([acts[0]], audience, contact) && NoLeaveOf(acts[1..], audience, contact);
      ApplyKeeps(lim, s, acts[0]);
      StepKeepsMember(lim, s, acts[0], id, contact, since);
      var s1 := Apply(lim, s, acts[0]);
      if IsMember(s1.db, id, contact, since) {
        StaysMemberWhen(lim, s1, acts[1..], id, contact, since);
      } else {
        StaysNot(lim, s1, acts[1..], id, contact, since);
      }
    }
  }

  lemma StaysNot(lim: Limits, s: System, acts: seq<Action>, id: nat, contact: int, since: Time)
    requires !IsMember(s.db, id, contact, since)
    ensures !StaysMember(lim, s, acts, id, contact, since)
  {
  }

  /** Nobody who stays is missed: in every run from a broadcast whose scan has
      not begun, with any number of expanders and any batch size, a contact
      that was a member at the watermark and never left has its recipient row
      by the time snapshot_complete is set. */
  lemma StayingMembersAreSnapshotted(lim: Limits, s: System, acts: seq<Action>, id: nat, contact: int, since: Time)
    requires SystemOk(s) && StaysMember(lim, s, acts, id, contact, since)
    requires s.db.broadcasts[id].cursor.None? && !s.db.broadcasts[id].snapshotComplete
    ensures var db := Exec(lim, s, acts).db;
      id in db.broadcasts && (db.broadcasts[id].snapshotComplete ==> HasRow(db, id, contact))
  {
    MembersArePassed(lim, s, acts, id, contact, since);
  }

  /** Every snapshot insert read a membership not younger than the watermark, and
      no contact was inserted twice for a broadcast. */
  ghost predicate SnapshotsAreProper(db: Db) {
    forall i :: 0 <= i < |db.log| && db.log[i].Snapshotted? ==>
      var e := db.log[i];
      && e.broadcast in db.broadcasts && e.since <= db.broadcasts[e.broadcast].snapshotAt
      && (forall j :: 0 <= j < |db.log| && j != i && db.log[j].Snapshotted? && db.log[j].broadcast == e.broadcast ==>
            db.log[j].contact != e.contact)
  }

  /** Nobody else gets in, whoever joins or leaves meanwhile. */
  lemma SnapshotRespectsWatermark(lim: Limits, s: System, acts: seq<Action>)
    requires SystemOk(s)
    ensures SnapshotsAreProper(Exec(lim, s, acts).db)
  {
    ExecKeeps(lim, s, acts);
    LogSnapshotsProperly(Exec(lim, s, acts).db);
  }

  lemma LogSnapshotsProperly(db: Db)
    requires Inv(db)
    ensures SnapshotsAreProper(db)
  {
    forall i | 0 <= i < |db.log| && db.log[i].Snapshotted?
      ensures db.log[i].broadcast in db.broadcasts && db.log[i].since <= db.broadcasts[db.log[i].broadcast].snapshotAt
    {
      assert EventOk(db, db.log[i]);
    }
    forall i, j | 0 <= i < |db.log| && 0 <= j < |db.log| && j != i && db.log[i].Snapshotted? && db.log[j].Snapshotted?
      && db.log[j].broadcast == db.log[i].broadcast
      ensures db.log[j].contact != db.log[i].contact
    {
      if i < j { assert PairOk(db.log[i], db.log[j]); } else { assert PairOk(db.log[j], db.log[i]); }
    }
  }
}
