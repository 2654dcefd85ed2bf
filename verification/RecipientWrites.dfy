/** Which statements of an expander write which recipient rows. */
module RecipientWrites {
  import opened Options
  import opened Keyset
  import opened BroadcastRows
  import opened BroadcastInvariant
  import opened ExpansionProtocol
  import opened SnapshotScan

  /** Only the snapshot adds rows, and only to a broadcast still being scanned. */
  ghost predicate NewRow(db: Db, pc: Pc, row: Recipient) {
    && pc.Snapshot? && pc.q != [] && row.broadcast == pc.q[0].id && Incomplete(db, row.broadcast)
    && row.status == Pending && row.claimedAt.None?
  }

  /** Only the claim stamps rows, only those of its broadcast, and otherwise only
      the recipient being handled changes. */
  ghost predicate RowStep(pc: Pc, r: nat, a: Recipient, b: Recipient) {
    && (b.(claimedAt := a.claimedAt) != a ==> InRecipientLoop(pc) && pc.rest != [] && pc.rest[0] == r)
    && (b.claimedAt != a.claimedAt ==> pc.Claim? && pc.q != [] && a.broadcast == pc.q[0].id)
  }

  ghost predicate RowsStep(db: Db, pc: Pc, db': Db) {
    && (forall r :: r in db.recipients ==> r in db'.recipients && RowStep(pc, r, db.recipients[r], db'.recipients[r]))
    && (forall r :: r in db'.recipients && r !in db.recipients ==> NewRow(db, pc, db'.recipients[r]))
  }

  lemma {:induction false} PageAddsPending(db: Db, id: nat, page: seq<Key>)
    requires IdsFresh(db)
    ensures var db' := InsertMembers(db, id, page);
      && (forall r :: r in db.recipients ==> r in db'.recipients && db'.recipients[r] == db.recipients[r])
      && (forall r :: r in db'.recipients && r !in db.recipients ==>
            var row := db'.recipients[r]; row.broadcast == id && row.status == Pending && row.claimedAt.None?)
    decreases |page|
  {
    if page != [] {
      var db1 := InsertMember(db, id, page[0]);
      assert IdsFresh(db1);
      PageAddsPending(db1, id, page[1..]);
    }
  }

  lemma NothingWritten(db: Db, pc: Pc)
    ensures RowsStep(db, pc, db)
  {
  }

  lemma PageRows(db: Db, pc: Pc, page: seq<Key>, db': Db)
    requires pc.Snapshot? && pc.q != [] && IdsFresh(db) && Incomplete(db, pc.q[0].id)
    requires db'.recipients == InsertMembers(db, pc.q[0].id, page).recipients
    ensures RowsStep(db, pc, db')
  {
    PageAddsPending(db, pc.q[0].id, page);
    hide InsertMembers;
  }

  lemma BatchRows(db: Db, pc: Pc, batch: nat)
    requires pc.Snapshot? && pc.q != [] && IdsFresh(db)
    ensures RowsStep(db, pc, SnapshotBatch(db, pc.q[0].id, batch))
  {
    hide RowsStep, Page, MemberKeys, IdsFresh, InsertMembers;
    var id := pc.q[0].id;
    if SnapshotReplyOf(db, id, batch).Advanced? && !db.broadcasts[id].snapshotComplete {
      var b := db.broadcasts[id];
      PageRows(db, pc, Page(MemberKeys(db, b), b.cursor, batch), SnapshotBatch(db, id, batch));
    } else {
      NothingWritten(db, pc);
    }
  }

  lemma SnapshotRows(lim: Limits, db: Db, pc: Pc, c: Chance)
    requires pc.Snapshot? && Inv(db)
    ensures RowsStep(db, pc, Next(lim, db, pc, c).0)
  {
    InvKeepsIdsFresh(db);
    NothingWritten(db, pc);
    hide RowsStep, SnapshotBatch, SnapshotReplyOf, Inv;
    if pc.q != [] { BatchRows(db, pc, lim.snapshot); }
  }

  lemma {:induction false} StampsAreOfRows(db: Db, rows: seq<Key>, r: nat)
    requires r in db.recipients && forall k :: k in rows ==> k.id != r
    ensures r in StampClaims(db, rows).recipients && StampClaims(db, rows).recipients[r] == db.recipients[r]
    decreases |rows|
  {
    if rows != [] {
      assert rows[0] in rows;
      assert forall k :: k in rows[1..] ==> k in rows;
      StampsAreOfRows(StampClaim(db, rows[0]), rows[1..], r);
    }
  }

  lemma StampedRows(db: Db, pc: Pc, rows: seq<Key>)
    requires pc.Claim? && pc.q != []
    requires forall k :: k in rows ==> k.id >= 0 && Claimable(db, pc.q[0].id, k.id)
    ensures RowsStep(db, pc, StampClaims(db, rows))
  {
    StampClaimsFrame(db, rows);
    forall r | r in db.recipients && db.recipients[r].broadcast != pc.q[0].id
      ensures StampClaims(db, rows).recipients[r] == db.recipients[r]
    {
      StampsAreOfRows(db, rows, r);
    }
    hide StampClaims;
  }

  lemma ClaimRows(lim: Limits, db: Db, pc: Pc, c: Chance)
    requires pc.Claim? && Inv(db)
    ensures RowsStep(db, pc, Next(lim, db, pc, c).0)
  {
    NothingWritten(db, pc);
    if pc.q != [] {
      ClaimedRowsAreClaimable(db, pc.q[0].id, lim.materialize, c.locked);
      hide RowsStep, ClaimedRows, Inv, Claimable, StampClaims;
      StampedRows(db, pc, ClaimedRows(db, pc.q[0].id, lim.materialize, c.locked));
    }
  }

  lemma RecipientRows(db: Db, pc: Pc, c: Chance)
    requires InRecipientLoop(pc)
    ensures RowsStep(db, pc, NextForRecipient(db, pc, c).0)
  {
  }

  lemma QuietRows(lim: Limits, db: Db, pc: Pc, c: Chance)
    requires !InRecipientLoop(pc) && !pc.Snapshot? && !pc.Claim?
    ensures Next(lim, db, pc, c).0.recipients == db.recipients
  {
  }

  lemma SameRows(db: Db, pc: Pc, db': Db)
    requires db'.recipients == db.recipients
    ensures RowsStep(db, pc, db')
  {
  }

  lemma StepRows(lim: Limits, db: Db, pc: Pc, c: Chance)
    requires Inv(db)
    ensures RowsStep(db, pc, Next(lim, db, pc, c).0)
  {
    hide RowsStep, NextForRecipient, Inv;
    if InRecipientLoop(pc) {
      RecipientRows(db, pc, c);
    } else if pc.Snapshot? {
      SnapshotRows(lim, db, pc, c);
    } else if pc.Claim? {
      ClaimRows(lim, db, pc, c);
    } else {
      QuietRows(lim, db, pc, c);
      SameRows(db, pc, Next(lim, db, pc, c).0);
    }
  }
}
