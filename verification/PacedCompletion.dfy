/** Why completion is sound although its test and its UPDATE are two statements:
    the scan outruns the claims. A visit claims at most `materialize` recipients,
    and while the scan is incomplete it has read `snapshot` memberships first, so
    after k full batches at most materialize * k recipients have ever been
    claimed, while at least snapshot * k / 2 exist. Until the scan is complete
    some recipient is therefore pending, and afterwards none is added. */
module PacedCompletion {
  import opened Options
  import opened Keyset
  import opened BroadcastRows
  import opened BroadcastInvariant
  import opened ExpansionProtocol
  import opened BroadcastTheorems
  import opened SnapshotScan
  import opened RecipientWrites
  import opened ScanPace
  import opened Completion

  // The claims made meanwhile.

  function Claimed(db: Db, id: nat): set<nat> {
    set r | r in db.recipients && db.recipients[r].broadcast == id && db.recipients[r].claimedAt.Some?
  }

  predicate AboutToClaim(pc: Pc, id: nat) {
    pc.Claim? && pc.q != [] && pc.q[0].id == id
  }

  function Claimants(s: System, id: nat): set<nat> {
    set e | e in s.pcs && AboutToClaim(s.pcs[e], id)
  }

  /** What all claims, made and about to be made, may come to. */
  function Claims(lim: Limits, s: System, id: nat): nat {
    |Claimed(s.db, id)| + lim.materialize * |Claimants(s, id)|
  }

  /** Every claim, made or about to be made, follows a full batch of its own. */
  ghost predicate Paced(lim: Limits, s: System, id: nat, read: set<Key>, k: nat) {
    && Reads(s.db, id, lim.snapshot, read, k)
    && Claims(lim, s, id) <= lim.materialize * k
  }

  ghost predicate IsPaced(lim: Limits, s: System, id: nat) {
    exists read, k: nat :: Paced(lim, s, id, read, k)
  }

  /** A recipient that is no longer pending was claimed by somebody. */
  ghost predicate OnlyClaimedChange(db: Db) {
    forall r :: r in db.recipients && db.recipients[r].status != Pending ==> db.recipients[r].claimedAt.Some?
  }

  lemma Outnumbered(s: nat, m: nat, k: nat, rows: nat, claimed: nat)
    requires s > 2 * m && k >= 1 && s * k <= 2 * rows && claimed <= m * k
    ensures claimed < rows
  {
    assert s * k >= (2 * m + 1) * k;
    assert (2 * m + 1) * k == 2 * (m * k) + k;
  }

  lemma SomeRowUnclaimed(db: Db, id: nat)
    requires |Claimed(db, id)| < |Intended(db, id)| && OnlyClaimedChange(db)
    ensures HasPending(db, id)
  {
    var rest := Intended(db, id) - Claimed(db, id);
    assert Intended(db, id) == Claimed(db, id) + rest;
    assert |rest| > 0;
    var r :| r in rest;
    assert r in db.recipients && db.recipients[r].broadcast == id && db.recipients[r].status == Pending;
  }

  /** While the scan is incomplete, the pending test fails. */
  lemma ScanOutrunsClaims(lim: Limits, s: System, id: nat, read: set<Key>, k: nat)
    requires Paced(lim, s, id, read, k) && OnlyClaimedChange(s.db) && lim.snapshot > 2 * lim.materialize
    requires s.db.broadcasts[id].cursor.Some?
    ensures HasPending(s.db, id)
  {
    ReadsHaveRows(s.db, id, lim.snapshot, read, k);
    Outnumbered(lim.snapshot, lim.materialize, k, |Intended(s.db, id)|, |Claimed(s.db, id)|);
    SomeRowUnclaimed(s.db, id);
  }

  // The claims along one step.

  lemma {:induction false} RowIdsCount(rows: seq<Key>, ids: set<nat>)
    requires forall r :: r in ids ==> exists k :: k in rows && k.id == r
    ensures |ids| <= |rows|
    decreases |rows|
  {
    if rows == [] {
      assert ids == {};
    } else {
      var tail := ids - {if rows[0].id >= 0 then rows[0].id else 0};
      forall r | r in tail && r != rows[0].id ensures exists k :: k in rows[1..] && k.id == r {
        var k :| k in rows && k.id == r;
        assert k in rows[1..];
      }
      assert forall r :: r in tail ==> r != rows[0].id;
      RowIdsCount(rows[1..], tail);
    }
  }

  /** A claim adds at most `limit` recipients to those ever claimed. */
  lemma ClaimAdds(db: Db, id: nat, limit: nat, locked: set<nat>)
    ensures |Claimed(ClaimPending(db, id, limit, locked), id)| <= |Claimed(db, id)| + limit
  {
    var rows := ClaimedRows(db, id, limit, locked);
    var db' := StampClaims(db, rows);
    StampClaimsFrame(db, rows);
    var added := Claimed(db', id) - Claimed(db, id);
    forall r | r in added ensures exists k :: k in rows && k.id == r {
      if forall k :: k in rows ==> k.id != r { StampsAreOfRows(db, rows, r); }
    }
    RowIdsCount(rows, added);
    assert |rows| <= limit;
    assert Claimed(db', id) <= Claimed(db, id) + added;
    SetCount(Claimed(db', id), Claimed(db, id), added);
  }

  lemma SetCount(s: set<nat>, t: set<nat>, u: set<nat>)
    requires s <= t + u
    ensures |s| <= |t| + |u|
  {
    assert t + u == s + (t + u - s);
    assert |t + u| <= |t| + |u|;
  }

  lemma OthersClaimNothing(a: Db, pc: Pc, b: Db, id: nat)
    requires RowsStep(a, pc, b) && Evolves(a, b) && !AboutToClaim(pc, id)
    ensures |Claimed(b, id)| <= |Claimed(a, id)|
  {
    forall r | r in Claimed(b, id) ensures r in Claimed(a, id) {
      if r in a.recipients {
        assert RecipientEvolves(a.recipients[r], b.recipients[r]);
        assert RowStep(pc, r, a.recipients[r], b.recipients[r]);
      }
    }
    assert Claimed(b, id) <= Claimed(a, id);
    SetCount(Claimed(b, id), Claimed(a, id), {});
  }

  function Others(pcs: map<nat, Pc>, id: nat, e: nat): set<nat> {
    set o | o in pcs && o != e && AboutToClaim(pcs[o], id)
  }

  lemma OneClaimant(s: System, e: nat, id: nat)
    ensures |Claimants(s, id)| == |Others(s.pcs, id, e)| + (if AboutToClaim(PcOf(s, e), id) then 1 else 0)
  {
    if AboutToClaim(PcOf(s, e), id) {
      assert Claimants(s, id) == Others(s.pcs, id, e) + {e};
    } else {
      assert Claimants(s, id) == Others(s.pcs, id, e);
    }
  }

  lemma ClaimantsMove(s: System, e: nat, pc': Pc, id: nat, t: System)
    requires t.pcs == s.pcs[e := pc']
    ensures |Claimants(t, id)| + (if AboutToClaim(PcOf(s, e), id) then 1 else 0)
         == |Claimants(s, id)| + (if AboutToClaim(pc', id) then 1 else 0)
  {
    hide AboutToClaim, Claimants;
    OneClaimant(s, e, id);
    OneClaimant(t, e, id);
    assert Others(t.pcs, id, e) == Others(s.pcs, id, e);
  }

  /** The copies of broadcasts that say complete are right. */
  ghost predicate CopiesOk(db: Db, q: seq<Row>) {
    forall row :: row in q && row.snapshotComplete ==> row.id in db.broadcasts && db.broadcasts[row.id].snapshotComplete
  }

  predicate BatchDone(lim: Limits, db: Db, pc: Pc, c: Chance, id: nat) {
    pc.Snapshot? && pc.q != [] && pc.q[0].id == id && !c.outcome.Failed? && SnapshotReplyOf(db, id, lim.snapshot).Advanced?
  }

  /** While the scan is incomplete, nobody gets to claim but by a batch. */
  lemma ClaimFollowsBatch(lim: Limits, db: Db, pc: Pc, c: Chance, id: nat)
    requires Incomplete(db, id) && AboutToClaim(Next(lim, db, pc, c).1, id)
    requires !pc.Idle? ==> CopiesOk(db, pc.q)
    ensures BatchDone(lim, db, pc, c, id)
  {
    hide MarkExpanding, SnapshotBatch, ClaimPending, ClaimedRows, ClaimActive;
    if InRecipientLoop(pc) {
      LoopDoesNotClaim(db, pc, c);
    }
  }

  lemma LoopDoesNotClaim(db: Db, pc: Pc, c: Chance)
    requires InRecipientLoop(pc)
    ensures !NextForRecipient(db, pc, c).1.Claim?
  {
  }

  // The invariant of the whole system.

  predicate PastScan(pc: Pc) {
    !pc.Idle? && !pc.Mark? && !pc.MarkCheck? && !pc.Snapshot?
  }

  /** A full batch has been read, or all of them. */
  ghost predicate Begun(db: Db, id: nat) {
    id in db.broadcasts && (db.broadcasts[id].snapshotComplete || db.broadcasts[id].cursor.Some?)
  }

  /** What the pending test found stays true until the UPDATE. */
  ghost predicate TestStands(db: Db, id: nat) {
    Scanned(db, id) && !HasPending(db, id)
  }

  ghost predicate EverClaimed(db: Db, r: nat) {
    r in db.recipients && db.recipients[r].claimedAt.Some?
  }

  ghost predicate ScanKnown(db: Db, pc: Pc)
    requires !pc.Idle?
  {
    pc.q != [] && PastScan(pc) ==> Begun(db, pc.q[0].id)
  }

  /** What an expander knows about the scan of its broadcast. */
  ghost predicate Informed(db: Db, pc: Pc) {
    !pc.Idle? ==>
      && CopiesOk(db, pc.q)
      && ScanKnown(db, pc)
      && (pc.q != [] && pc.Complete? ==> TestStands(db, pc.q[0].id))
      && (forall r :: r in Remaining(pc) ==> EverClaimed(db, r))
  }

  ghost predicate AllPaced(lim: Limits, s: System) {
    forall id :: Incomplete(s.db, id) ==> IsPaced(lim, s, id)
  }

  ghost predicate PacedOk(lim: Limits, s: System) {
    && SystemOk(s) && WatermarksPast(s.db) && OnlyClaimedChange(s.db)
    && (forall e :: e in s.pcs ==> Informed(s.db, s.pcs[e]))
    && AllPaced(lim, s)
  }

  /** Rows are only added to broadcasts still being scanned. */
  ghost predicate NoLateRows(a: Db, b: Db) {
    forall r :: r in b.recipients && r !in a.recipients ==> Incomplete(a, b.recipients[r].broadcast)
  }

  lemma TestKeepsStanding(a: Db, b: Db, id: nat)
    requires Evolves(a, b) && NoLateRows(a, b) && TestStands(a, id)
    ensures TestStands(b, id)
  {
    assert BroadcastEvolves(a.broadcasts[id], b.broadcasts[id]);
    if HasPending(b, id) {
      var r :| r in b.recipients && b.recipients[r].broadcast == id && b.recipients[r].status == Pending;
      assert RecipientEvolves(a.recipients[r], b.recipients[r]);
      assert HasPending(a, id);
    }
  }

  lemma CopiesStay(a: Db, b: Db, q: seq<Row>)
    requires Evolves(a, b) && CopiesOk(a, q)
    ensures CopiesOk(b, q)
  {
    forall row | row in q && row.snapshotComplete
      ensures row.id in b.broadcasts && b.broadcasts[row.id].snapshotComplete
    {
      assert BroadcastEvolves(a.broadcasts[row.id], b.broadcasts[row.id]);
    }
  }

  lemma BegunStays(a: Db, b: Db, id: nat)
    requires Evolves(a, b) && Begun(a, id)
    ensures Begun(b, id)
  {
    assert BroadcastEvolves(a.broadcasts[id], b.broadcasts[id]);
  }

  lemma InformedStays(a: Db, b: Db, pc: Pc)
    requires Evolves(a, b) && NoLateRows(a, b) && Informed(a, pc)
    ensures Informed(b, pc)
  {
    if !pc.Idle? {
      CopiesStay(a, b, pc.q);
      if pc.q != [] {
        if PastScan(pc) { BegunStays(a, b, pc.q[0].id); }
        if pc.Complete? { TestKeepsStanding(a, b, pc.q[0].id); }
      }
      forall r | r in Remaining(pc) ensures EverClaimed(b, r) {
        assert EverClaimed(a, r);
        assert RecipientEvolves(a.recipients[r], b.recipients[r]);
      }
    }
  }

  // One step of an expander.

  lemma {:induction false} ClaimStamps(db: Db, rows: seq<Key>, r: nat)
    requires r in db.recipients && (db.recipients[r].claimedAt.Some? || exists k :: k in rows && k.id == r)
    ensures EverClaimed(StampClaims(db, rows), r)
    decreases |rows|
  {
    if rows != [] {
      var db1 := StampClaim(db, rows[0]);
      if !db1.recipients[r].claimedAt.Some? {
        var k :| k in rows && k.id == r;
        assert k in rows[1..];
      }
      ClaimStamps(db1, rows[1..], r);
    }
  }

  lemma ReturnedAreClaimed(db: Db, id: nat, limit: nat, locked: set<nat>, order: seq<nat>)
    requires Inv(db)
    ensures forall r :: r in Returned(Ids(ClaimedRows(db, id, limit, locked)), order) ==>
      EverClaimed(ClaimPending(db, id, limit, locked), r)
  {
    var rows := ClaimedRows(db, id, limit, locked);
    ClaimedRowsAreClaimable(db, id, limit, locked);
    forall r | r in Returned(Ids(rows), order) ensures EverClaimed(StampClaims(db, rows), r) {
      assert r in Ids(rows);
      var i :| 0 <= i < |rows| && Ids(rows)[i] == r;
      assert rows[i] in rows;
      ClaimStamps(db, rows, r);
    }
  }

  lemma BatchBegins(db: Db, id: nat, batch: nat)
    requires SnapshotReplyOf(db, id, batch).Advanced? && batch >= 1
    ensures Begun(SnapshotBatch(db, id, batch), id)
  {
  }

  /** Where an expander may stand next, and with which recipients. */
  ghost predicate Moves(lim: Limits, db: Db, pc: Pc, c: Chance, pc': Pc) {
    pc'.Idle? || (
      && !pc.Idle? && pc.q != []
      && (pc'.q == pc.q || pc'.q == pc.q[1..])
      && (PastScan(pc') ==> pc'.q == pc.q)
      && (PastScan(pc') ==> PastScan(pc) || pc.q[0].snapshotComplete || BatchDone(lim, db, pc, c, pc.q[0].id))
      && (pc'.Complete? ==> pc.PendingTest? && !HasPending(db, pc.q[0].id))
      && ((forall r :: r in Remaining(pc') ==> r in Remaining(pc)) || NewlyClaimed(lim, db, pc, c, pc')))
  }

  ghost predicate NewlyClaimed(lim: Limits, db: Db, pc: Pc, c: Chance, pc': Pc) {
    && pc.Claim? && pc.q != [] && !c.outcome.Failed?
    && Remaining(pc') == Returned(Ids(ClaimedRows(db, pc.q[0].id, lim.materialize, c.locked)), c.order)
  }

  lemma LoopMoves(lim: Limits, db: Db, pc: Pc, c: Chance)
    requires InRecipientLoop(pc) && PcOk(db, pc)
    ensures Moves(lim, db, pc, c, NextForRecipient(db, pc, c).1)
  {
    assert pc.q != [];
    hide PcOk;
    LoopStays(db, pc, c);
    hide NextForRecipient, NewlyClaimed, BatchDone, HasPending;
  }

  lemma LoopStays(db: Db, pc: Pc, c: Chance)
    requires InRecipientLoop(pc) && pc.q != []
    ensures var pc' := NextForRecipient(db, pc, c).1;
      && !pc'.Idle? && pc'.q == pc.q && !pc'.Complete?
      && forall r :: r in Remaining(pc') ==> r in Remaining(pc)
  {
    hide MarkSuppressed, RecordFailure, SaveFile, InsertMessage, DeleteFile, MarkMaterialized, InsertReplyOf;
    assert forall r :: pc.rest != [] && r in pc.rest[1..] ==> r in pc.rest;
  }

  lemma ClaimMoves(lim: Limits, db: Db, pc: Pc, c: Chance)
    requires pc.Claim? && PcOk(db, pc)
    ensures Moves(lim, db, pc, c, Next(lim, db, pc, c).1)
  {
    hide ClaimPending, ClaimedRows;
  }

  lemma MarkMoves(lim: Limits, db: Db, pc: Pc, c: Chance)
    requires (pc.Mark? || pc.MarkCheck?) && PcOk(db, pc)
    ensures Moves(lim, db, pc, c, Next(lim, db, pc, c).1)
  {
    hide MarkExpanding, NewlyClaimed, BatchDone, HasPending;
  }

  lemma SnapshotMoves(lim: Limits, db: Db, pc: Pc, c: Chance)
    requires pc.Snapshot? && PcOk(db, pc)
    ensures Moves(lim, db, pc, c, Next(lim, db, pc, c).1)
  {
    hide SnapshotBatch, NewlyClaimed, HasPending;
  }

  lemma CheckMoves(lim: Limits, db: Db, pc: Pc, c: Chance)
    requires (pc.Domain? || pc.Suppression? || pc.PendingTest?) && PcOk(db, pc)
    ensures Moves(lim, db, pc, c, Next(lim, db, pc, c).1)
  {
    hide NewlyClaimed, BatchDone, HasPending;
  }

  lemma EndMoves(lim: Limits, db: Db, pc: Pc, c: Chance)
    requires (pc.FailBroadcast? || pc.Complete?) && PcOk(db, pc)
    ensures Moves(lim, db, pc, c, Next(lim, db, pc, c).1)
  {
    hide MarkFailed, CompleteBroadcast, NewlyClaimed, BatchDone, HasPending;
  }

  lemma StepMoves(lim: Limits, db: Db, pc: Pc, c: Chance)
    requires !pc.Idle? && PcOk(db, pc)
    ensures Moves(lim, db, pc, c, Next(lim, db, pc, c).1)
  {
    hide Moves, NextForRecipient, PcOk;
    if InRecipientLoop(pc) {
      LoopMoves(lim, db, pc, c);
    } else {
      match pc {
        case Mark(_) => MarkMoves(lim, db, pc, c);
        case MarkCheck(_) => MarkMoves(lim, db, pc, c);
        case Snapshot(_) => SnapshotMoves(lim, db, pc, c);
        case Claim(_) => ClaimMoves(lim, db, pc, c);
        case FailBroadcast(_) => EndMoves(lim, db, pc, c);
        case Complete(_) => EndMoves(lim, db, pc, c);
        case _ => CheckMoves(lim, db, pc, c);
      }
    }
  }

  lemma CopiesAreFresh(db: Db, limit: nat, locked: set<nat>)
    ensures CopiesOk(db, ClaimActive(db, limit, locked))
  {
    var page := Page(ActiveKeys(db, locked), None, limit);
    forall row | row in ClaimActive(db, limit, locked) && row.snapshotComplete
      ensures row.id in db.broadcasts && db.broadcasts[row.id].snapshotComplete
    {
      var i :| 0 <= i < |page| && ClaimActive(db, limit, locked)[i] == row;
      assert page[i] in page;
      assert page[i] in ActiveKeys(db, locked);
    }
  }

  lemma FoundIsInformed(lim: Limits, db: Db, c: Chance)
    ensures Next(lim, db, Idle, c).0 == db && Informed(db, Next(lim, db, Idle, c).1)
  {
    CopiesAreFresh(db, lim.broadcasts, c.locked);
    assert CopiesOk(db, []);
    hide CopiesOk, ClaimActive;
  }

  lemma StepAddsNoLateRows(lim: Limits, db: Db, pc: Pc, c: Chance)
    requires Inv(db)
    ensures NoLateRows(db, Next(lim, db, pc, c).0)
  {
    hide Next, Inv;
    StepRows(lim, db, pc, c);
  }

  lemma InformedNext(lim: Limits, db: Db, pc: Pc, c: Chance)
    requires Inv(db) && PcOk(db, pc) && Informed(db, pc) && lim.snapshot >= 1
    requires pc.PendingTest? && pc.q != [] && Incomplete(db, pc.q[0].id) ==> HasPending(db, pc.q[0].id)
    ensures Informed(Next(lim, db, pc, c).0, Next(lim, db, pc, c).1)
  {
    hide Next, Inv, PcOk, Evolves, Informed, Moves, NoLateRows, BatchDone, HasPending, Begun;
    if pc.Idle? {
      FoundIsInformed(lim, db, c);
    } else {
      var (db', pc') := Next(lim, db, pc, c);
      NextKeeps(lim, db, pc, c);
      StepAddsNoLateRows(lim, db, pc, c);
      InformedStays(db, db', pc);
      StepMoves(lim, db, pc, c);
      NewKnowledge(lim, db, pc, c);
      MovesInformed(lim, db, pc, c, db', pc');
    }
  }

  /** What the step itself has just established. */
  lemma NewKnowledge(lim: Limits, db: Db, pc: Pc, c: Chance)
    requires Inv(db) && !pc.Idle? && lim.snapshot >= 1
    ensures var (db', pc') := Next(lim, db, pc, c);
      && (pc.q != [] && BatchDone(lim, db, pc, c, pc.q[0].id) ==> Begun(db', pc.q[0].id))
      && (pc.PendingTest? ==> db' == db)
      && (NewlyClaimed(lim, db, pc, c, pc') ==> forall r :: r in Remaining(pc') ==> EverClaimed(db', r))
  {
    hide Inv, SnapshotBatch, ClaimPending, ClaimedRows, Begun, NextForRecipient;
    if pc.q != [] && BatchDone(lim, db, pc, c, pc.q[0].id) {
      BatchBegins(db, pc.q[0].id, lim.snapshot);
    } else if pc.Claim? && pc.q != [] {
      ReturnedAreClaimed(db, pc.q[0].id, lim.materialize, c.locked, c.order);
    }
  }

  lemma ScanStaysKnown(lim: Limits, db: Db, pc: Pc, c: Chance, db': Db, pc': Pc)
    requires Moves(lim, db, pc, c, pc') && !pc.Idle? && !pc'.Idle?
    requires CopiesOk(db', pc.q) && ScanKnown(db', pc)
    requires pc.q != [] && BatchDone(lim, db, pc, c, pc.q[0].id) ==> Begun(db', pc.q[0].id)
    ensures ScanKnown(db', pc') && CopiesOk(db', pc'.q)
  {
    hide BatchDone, NewlyClaimed, HasPending, Remaining;
    assert CopiesOk(db', pc'.q) by { assert forall row :: row in pc.q[1..] ==> row in pc.q; }
    if PastScan(pc') { assert pc.q[0] in pc.q; }
  }

  lemma TestIsKnown(lim: Limits, db: Db, pc: Pc, c: Chance, pc': Pc)
    requires Moves(lim, db, pc, c, pc') && pc'.Complete? && ScanKnown(db, pc)
    requires Incomplete(db, pc.q[0].id) ==> HasPending(db, pc.q[0].id)
    ensures TestStands(db, pc'.q[0].id)
  {
    hide BatchDone, NewlyClaimed, HasPending, Remaining;
  }

  lemma MovesInformed(lim: Limits, db: Db, pc: Pc, c: Chance, db': Db, pc': Pc)
    requires Moves(lim, db, pc, c, pc') && Informed(db, pc) && Informed(db', pc) && !pc.Idle?
    requires pc.q != [] && BatchDone(lim, db, pc, c, pc.q[0].id) ==> Begun(db', pc.q[0].id)
    requires pc.PendingTest? ==> db' == db
    requires pc.PendingTest? && pc.q != [] && Incomplete(db, pc.q[0].id) ==> HasPending(db, pc.q[0].id)
    requires NewlyClaimed(lim, db, pc, c, pc') ==> forall r :: r in Remaining(pc') ==> EverClaimed(db', r)
    ensures Informed(db', pc')
  {
    hide BatchDone, HasPending, NewlyClaimed, EverClaimed, Remaining, CopiesOk, Begun, TestStands, PastScan;
    if !pc'.Idle? {
      ScanStaysKnown(lim, db, pc, c, db', pc');
      if pc'.Complete? { TestIsKnown(lim, db, pc, c, pc'); }
    }
  }

  // One step keeps the pace.

  lemma BatchCommits(lim: Limits, s: System, e: nat, c: Chance, id: nat)
    requires BatchDone(lim, s.db, PcOf(s, e), c, id)
    ensures Apply(lim, s, Expand(e, c)).db == SnapshotBatch(s.db, id, lim.snapshot)
  {
    hide SnapshotBatch;
  }

  lemma BatchClaims(lim: Limits, s: System, e: nat, c: Chance, id: nat)
    requires SystemOk(s) && BatchDone(lim, s.db, PcOf(s, e), c, id)
    ensures Claims(lim, Apply(lim, s, Expand(e, c)), id) <= Claims(lim, s, id) + lim.materialize
  {
    var t := Apply(lim, s, Expand(e, c));
    StepStays(lim, s, e, c);
    ClaimantsMove(s, e, Next(lim, s.db, PcOf(s, e), c).1, id, t);
    hide SystemOk, Next, RowsStep, Evolves, Claimed, Claimants, SnapshotReplyOf;
    OthersClaimNothing(s.db, PcOf(s, e), t.db, id);
    Distribute(lim.materialize, 0, |Claimants(s, id)|, |Claimants(t, id)|);
  }

  /** The step of one expander, as the rows see it. */
  lemma StepStays(lim: Limits, s: System, e: nat, c: Chance)
    requires SystemOk(s)
    ensures var t := Apply(lim, s, Expand(e, c));
      && Inv(s.db) && PcOk(s.db, PcOf(s, e))
      && Evolves(s.db, t.db) && RowsStep(s.db, PcOf(s, e), t.db)
      && t == System(Next(lim, s.db, PcOf(s, e), c).0, s.pcs[e := Next(lim, s.db, PcOf(s, e), c).1])
  {
    hide Next, Inv, Evolves, RowsStep;
    ApplyKeeps(lim, s, Expand(e, c));
    StepRows(lim, s.db, PcOf(s, e), c);
  }

  lemma BatchPaces(lim: Limits, s: System, e: nat, c: Chance, id: nat)
    requires SystemOk(s) && Incomplete(s.db, id) && IsPaced(lim, s, id) && lim.snapshot >= 1
    requires BatchDone(lim, s.db, PcOf(s, e), c, id)
    requires Incomplete(Apply(lim, s, Expand(e, c)).db, id)
    ensures IsPaced(lim, Apply(lim, s, Expand(e, c)), id)
  {
    hide Apply, SystemOk, SnapshotBatch, Reads, Claims, Inv, PcOf, Incomplete;
    var t := Apply(lim, s, Expand(e, c));
    var read, k: nat :| Paced(lim, s, id, read, k);
    SystemInv(s);
    BatchCommits(lim, s, e, c, id);
    BatchClaims(lim, s, e, c, id);
    var all := BatchReadsOn(s.db, id, lim.snapshot, read, k);
    Distribute(lim.materialize, k, 0, 0);
    assert Paced(lim, t, id, all, k + 1);
  }

  lemma SystemInv(s: System)
    requires SystemOk(s)
    ensures Inv(s.db)
  {
  }

  lemma Distribute(m: nat, k: nat, before: nat, after: nat)
    requires after <= before + 1
    ensures m * after <= m * before + m && m * (k + 1) == m * k + m
  {
    assert m * after <= m * (before + 1);
    assert m * (before + 1) == m * before + m;
  }

  /** Any other statement leaves the scan where it is. */
  lemma ScanWaits(lim: Limits, s: System, e: nat, c: Chance, id: nat)
    requires SystemOk(s) && Incomplete(s.db, id) && !BatchDone(lim, s.db, PcOf(s, e), c, id)
    ensures var db' := Next(lim, s.db, PcOf(s, e), c).0;
      id in db'.broadcasts && db'.broadcasts[id].cursor == s.db.broadcasts[id].cursor
  {
    var pc := PcOf(s, e);
    if pc.Snapshot? && pc.q != [] && pc.q[0].id == id {
      assert Next(lim, s.db, pc, c).0 == s.db;
    } else {
      hide Next, SystemOk;
      StepLeavesCursor(lim, s.db, pc, c, id);
    }
  }

  lemma ClaimPaces(lim: Limits, s: System, e: nat, c: Chance, id: nat)
    requires SystemOk(s) && AboutToClaim(PcOf(s, e), id)
    ensures |Claimed(Apply(lim, s, Expand(e, c)).db, id)| <= |Claimed(s.db, id)| + lim.materialize
  {
    ClaimAdds(s.db, id, lim.materialize, c.locked);
    hide Claimed, ClaimPending, ClaimedRows;
  }

  /** A claim uses up the place it was given by its batch. */
  lemma OtherStepClaims(lim: Limits, s: System, e: nat, c: Chance, id: nat)
    requires SystemOk(s) && Incomplete(s.db, id) && !BatchDone(lim, s.db, PcOf(s, e), c, id)
    requires !PcOf(s, e).Idle? ==> CopiesOk(s.db, PcOf(s, e).q)
    ensures Claims(lim, Apply(lim, s, Expand(e, c)), id) <= Claims(lim, s, id)
  {
    var t := Apply(lim, s, Expand(e, c));
    var pc := PcOf(s, e);
    var pc' := Next(lim, s.db, pc, c).1;
    hide Next, BatchDone, Claimed, Claimants, RowsStep, Evolves, Incomplete, CopiesOk, SystemOk;
    StepStays(lim, s, e, c);
    if AboutToClaim(pc', id) { ClaimFollowsBatch(lim, s.db, pc, c, id); }
    ClaimantsMove(s, e, pc', id, t);
    if AboutToClaim(pc, id) {
      ClaimPaces(lim, s, e, c, id);
      Distribute(lim.materialize, |Claimants(t, id)|, 0, 0);
    } else {
      OthersClaimNothing(s.db, pc, t.db, id);
    }
  }

  lemma OtherStepReads(lim: Limits, s: System, e: nat, c: Chance, id: nat, read: set<Key>, k: nat)
    requires SystemOk(s) && Incomplete(s.db, id) && !BatchDone(lim, s.db, PcOf(s, e), c, id)
    requires Reads(s.db, id, lim.snapshot, read, k)
    ensures Reads(Apply(lim, s, Expand(e, c)).db, id, lim.snapshot, read, k)
  {
    hide Next, Inv, PcOk, Evolves, RowsStep, Reads, SystemOk, BatchDone;
    StepStays(lim, s, e, c);
    ScanWaits(lim, s, e, c, id);
    NextKeepsMembers(lim, s.db, PcOf(s, e), c);
    ReadsStay(s.db, Apply(lim, s, Expand(e, c)).db, id, lim.snapshot, read, k);
  }

  lemma OtherStepPaces(lim: Limits, s: System, e: nat, c: Chance, id: nat)
    requires SystemOk(s) && Incomplete(s.db, id) && IsPaced(lim, s, id)
    requires !BatchDone(lim, s.db, PcOf(s, e), c, id)
    requires !PcOf(s, e).Idle? ==> CopiesOk(s.db, PcOf(s, e).q)
    ensures IsPaced(lim, Apply(lim, s, Expand(e, c)), id)
  {
    var read, k: nat :| Paced(lim, s, id, read, k);
    OtherStepClaims(lim, s, e, c, id);
    OtherStepReads(lim, s, e, c, id, read, k);
    hide Next, Apply, BatchDone, Claimed, Claimants, SystemOk, Reads, Incomplete, CopiesOk;
    assert Paced(lim, Apply(lim, s, Expand(e, c)), id, read, k);
  }

  lemma NewBroadcastIsPaced(lim: Limits, s: System, id: nat)
    requires SystemOk(s) && id in s.db.broadcasts && s.db.broadcasts[id].cursor.None?
    requires Claimed(s.db, id) == {} && Claimants(s, id) == {}
    ensures IsPaced(lim, s, id)
  {
    assert Reads(s.db, id, lim.snapshot, {}, 0);
    assert Paced(lim, s, id, {}, 0);
  }

  lemma OutsidersMoveMembers(lim: Limits, s: System, a: Action, id: nat)
    requires WatermarksPast(s.db) && id in s.db.broadcasts && !a.Expand?
    ensures MembershipsMove(s.db, Apply(lim, s, a).db, id)
  {
  }

  /** Owners, members and the clock. */
  lemma OutsidersPace(lim: Limits, s: System, a: Action, id: nat)
    requires SystemOk(s) && WatermarksPast(s.db) && Incomplete(s.db, id) && IsPaced(lim, s, id) && !a.Expand?
    ensures IsPaced(lim, Apply(lim, s, a), id)
  {
    var t := Apply(lim, s, a);
    var read, k: nat :| Paced(lim, s, id, read, k);
    OthersAddNoRecipients(lim, s, a);
    assert Claimed(t.db, id) == Claimed(s.db, id);
    hide Claimed, Claimants, Apply, Evolves, Reads, SystemOk, WatermarksPast, MembershipsMove;
    ApplyKeeps(lim, s, a);
    CursorUntouched(lim, s, a, id);
    OutsidersMoveMembers(lim, s, a, id);
    FewerClaimants(lim, s, a, id);
    ReadsStay(s.db, t.db, id, lim.snapshot, read, k);
    FewerCostLess(lim.materialize, |Claimants(t, id)|, |Claimants(s, id)|);
    assert Paced(lim, t, id, read, k);
  }

  lemma FewerCostLess(m: nat, fewer: nat, n: nat)
    requires fewer <= n
    ensures m * fewer <= m * n
  {
  }

  lemma FewerClaimants(lim: Limits, s: System, a: Action, id: nat)
    requires !a.Expand?
    ensures |Claimants(Apply(lim, s, a), id)| <= |Claimants(s, id)|
  {
    var t := Apply(lim, s, a);
    assert Claimants(t, id) <= Claimants(s, id);
    SetCount(Claimants(t, id), Claimants(s, id), {});
  }

  lemma CreatedIsPaced(lim: Limits, s: System, a: Action, id: nat)
    requires SystemOk(s) && a.Create? && id !in s.db.broadcasts && id in Apply(lim, s, a).db.broadcasts
    ensures IsPaced(lim, Apply(lim, s, a), id)
  {
    var t := Apply(lim, s, a);
    ApplyKeeps(lim, s, a);
    assert Claimed(t.db, id) == {} by {
      forall r | r in t.db.recipients ensures t.db.recipients[r].broadcast != id { assert RecipientOk(s.db, r); }
    }
    assert Claimants(t, id) == {} by {
      forall e | e in t.pcs ensures !AboutToClaim(t.pcs[e], id) { assert PcOk(s.db, s.pcs[e]); }
    }
    hide SystemOk, Claimed, Claimants;
    NewBroadcastIsPaced(lim, t, id);
  }

  lemma OnlyCreateAdds(lim: Limits, s: System, a: Action, id: nat)
    requires id !in s.db.broadcasts && id in Apply(lim, s, a).db.broadcasts
    ensures a.Create?
  {
    if a.Expand? {
      BroadcastsStay(lim, s.db, PcOf(s, a.expander), a.chance);
      hide Next;
    }
  }

  lemma BroadcastsStay(lim: Limits, db: Db, pc: Pc, c: Chance)
    ensures Next(lim, db, pc, c).0.broadcasts.Keys == db.broadcasts.Keys
  {
    hide MemberKeys, Page, ClaimedRows;
    if pc.Snapshot? && pc.q != [] && pc.q[0].id in db.broadcasts {
      var b := db.broadcasts[pc.q[0].id];
      InsertMembersFrame(db, pc.q[0].id, Page(MemberKeys(db, b), b.cursor, lim.snapshot));
    } else if pc.Claim? && pc.q != [] {
      StampClaimsFrame(db, ClaimedRows(db, pc.q[0].id, lim.materialize, c.locked));
    } else if InRecipientLoop(pc) {
      LoopKeepsBroadcasts(db, pc, c);
      hide NextForRecipient;
    }
  }

  lemma StepPaces(lim: Limits, s: System, a: Action, id: nat)
    requires PacedOk(lim, s) && lim.snapshot >= 1 && Incomplete(Apply(lim, s, a).db, id)
    ensures IsPaced(lim, Apply(lim, s, a), id)
  {
    hide Apply, Next, IsPaced, Evolves, Inv, BatchDone, WatermarksPast, OnlyClaimedChange;
    if id !in s.db.broadcasts {
      OnlyCreateAdds(lim, s, a, id);
      CreatedIsPaced(lim, s, a, id);
    } else {
      WasIncomplete(lim, s, a, id);
      hide SystemOk;
      if !a.Expand? {
        OutsidersPace(lim, s, a, id);
      } else if BatchDone(lim, s.db, PcOf(s, a.expander), a.chance, id) {
        BatchPaces(lim, s, a.expander, a.chance, id);
      } else {
        OtherStepPaces(lim, s, a.expander, a.chance, id);
      }
    }
  }

  lemma WasIncomplete(lim: Limits, s: System, a: Action, id: nat)
    requires SystemOk(s) && id in s.db.broadcasts && Incomplete(Apply(lim, s, a).db, id)
    ensures Incomplete(s.db, id)
  {
    ApplyKeeps(lim, s, a);
    assert BroadcastEvolves(s.db.broadcasts[id], Apply(lim, s, a).db.broadcasts[id]);
  }

  /** A test made during the scan fails. */
  lemma TestMeetsPending(lim: Limits, s: System, e: nat)
    requires PacedOk(lim, s) && lim.snapshot > 2 * lim.materialize
    requires PcOf(s, e).PendingTest? && PcOf(s, e).q != [] && Incomplete(s.db, PcOf(s, e).q[0].id)
    ensures HasPending(s.db, PcOf(s, e).q[0].id)
  {
    var id := PcOf(s, e).q[0].id;
    assert Informed(s.db, PcOf(s, e));
    assert Begun(s.db, id);
    assert IsPaced(lim, s, id);
    hide SystemOk, Informed, AllPaced, Paced, HasPending;
    var read, k: nat :| Paced(lim, s, id, read, k);
    ScanOutrunsClaims(lim, s, id, read, k);
  }

  lemma RowsStayInformed(lim: Limits, s: System, a: Action)
    requires PacedOk(lim, s)
    ensures NoLateRows(s.db, Apply(lim, s, a).db) && OnlyClaimedChange(Apply(lim, s, a).db)
  {
    var t := Apply(lim, s, a);
    if a.Expand? {
      var pc := PcOf(s, a.expander);
      StepStays(lim, s, a.expander, a.chance);
      assert Informed(s.db, pc);
      hide Next, Inv, SystemOk, PcOk, AllPaced, WatermarksPast;
      ClaimedBeforeChange(s.db, pc, t.db);
    } else {
      OthersAddNoRecipients(lim, s, a);
    }
  }

  lemma ClaimedBeforeChange(a: Db, pc: Pc, b: Db)
    requires Evolves(a, b) && RowsStep(a, pc, b) && OnlyClaimedChange(a)
    requires forall r :: r in Remaining(pc) ==> EverClaimed(a, r)
    ensures NoLateRows(a, b) && OnlyClaimedChange(b)
  {
    forall r | r in b.recipients && b.recipients[r].status != Pending ensures b.recipients[r].claimedAt.Some? {
      if r in a.recipients { RowClaimedBefore(a, pc, b, r); }
    }
  }

  lemma RowClaimedBefore(a: Db, pc: Pc, b: Db, r: nat)
    requires Evolves(a, b) && RowsStep(a, pc, b) && OnlyClaimedChange(a)
    requires r in a.recipients && r in b.recipients && b.recipients[r].status != Pending
    requires r in Remaining(pc) ==> EverClaimed(a, r)
    ensures b.recipients[r].claimedAt.Some?
  {
    assert RowStep(pc, r, a.recipients[r], b.recipients[r]);
    assert RecipientEvolves(a.recipients[r], b.recipients[r]);
    hide Evolves, RowsStep;
  }

  lemma WatermarksStayPast(lim: Limits, s: System, a: Action)
    requires SystemOk(s) && WatermarksPast(s.db)
    ensures WatermarksPast(Apply(lim, s, a).db)
  {
    var t := Apply(lim, s, a);
    ApplyKeeps(lim, s, a);
    forall id | id in t.db.broadcasts ensures t.db.broadcasts[id].snapshotAt <= t.db.clock {
      if id in s.db.broadcasts { assert BroadcastEvolves(s.db.broadcasts[id], t.db.broadcasts[id]); }
      else { OnlyCreateAdds(lim, s, a, id); }
    }
  }

  lemma ExpandersStayInformed(lim: Limits, s: System, a: Action, e: nat)
    requires PacedOk(lim, s) && lim.snapshot > 2 * lim.materialize && e in Apply(lim, s, a).pcs
    ensures Informed(Apply(lim, s, a).db, Apply(lim, s, a).pcs[e])
  {
    var t := Apply(lim, s, a);
    if a.Expand? && e == a.expander {
      var pc := PcOf(s, e);
      assert Inv(s.db) && PcOk(s.db, pc) && Informed(s.db, pc);
      hide SystemOk, Inv, PcOk, Informed, AllPaced, Next, HasPending;
      if pc.PendingTest? && pc.q != [] && Incomplete(s.db, pc.q[0].id) { TestMeetsPending(lim, s, e); }
      InformedNext(lim, s.db, pc, a.chance);
    } else if e in s.pcs && t.pcs[e] == s.pcs[e] {
      ApplyKeeps(lim, s, a);
      RowsStayInformed(lim, s, a);
      hide Apply, SystemOk, Inv, Evolves, NoLateRows, Informed;
      InformedStays(s.db, t.db, s.pcs[e]);
    } else {
      assert t.pcs[e] == Idle;
    }
  }

  lemma PacedOkStays(lim: Limits, s: System, a: Action)
    requires PacedOk(lim, s) && lim.snapshot > 2 * lim.materialize
    ensures PacedOk(lim, Apply(lim, s, a))
  {
    var t := Apply(lim, s, a);
    ApplyKeeps(lim, s, a);
    WatermarksStayPast(lim, s, a);
    RowsStayInformed(lim, s, a);
    hide Apply, SystemOk, WatermarksPast, OnlyClaimedChange, Informed, IsPaced, Evolves;
    forall e | e in t.pcs ensures Informed(t.db, t.pcs[e]) { ExpandersStayInformed(lim, s, a, e); }
    forall id | Incomplete(t.db, id) ensures IsPaced(lim, t, id) { StepPaces(lim, s, a, id); }
  }

  /** Nobody's UPDATE is late. */
  lemma NoLateUpdate(lim: Limits, s: System, a: Action)
    requires PacedOk(lim, s)
    ensures !LateUpdate(s, a)
  {
    assert a.Expand? ==> Informed(s.db, PcOf(s, a.expander));
  }

  lemma {:induction false} PacedRunsCompleteSoundly(lim: Limits, s: System, acts: seq<Action>)
    requires PacedOk(lim, s) && CompletedIsDone(s.db) && lim.snapshot > 2 * lim.materialize
    ensures CompletedIsDone(Exec(lim, s, acts).db)
    decreases |acts|
  {
    if acts != [] {
      NoLateUpdate(lim, s, acts[0]);
      OnlyALateUpdateStrands(lim, s, acts[0]);
      PacedOkStays(lim, s, acts[0]);
      PacedRunsCompleteSoundly(lim, Apply(lim, s, acts[0]), acts[1..]);
    }
  }

  /** With any number of expanders, completed means that orchestration is done:
      in every run of an installation that started empty, a completed broadcast
      has a complete snapshot and no pending recipient, provided a snapshot
      batch is more than twice a materialize batch. */
  lemma CompletionIsSound(lim: Limits, now: Time, acts: seq<Action>)
    requires lim.snapshot > 2 * lim.materialize
    ensures CompletedIsDone(Exec(lim, System(EmptyDb(now), map[]), acts).db)
  {
    PacedRunsCompleteSoundly(lim, System(EmptyDb(now), map[]), acts);
  }

  /** The service's own batch sizes satisfy it. */
  lemma ServiceCompletesSoundly(now: Time, acts: seq<Action>)
    ensures CompletedIsDone(Exec(Limits(5, 200, 25), System(EmptyDb(now), map[]), acts).db)
  {
    CompletionIsSound(DEFAULT_LIMITS, now, acts);
  }
}
