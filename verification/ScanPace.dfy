/** How many recipient rows a scan has made after k full batches: at least half
    as many as the memberships it has read. */
module ScanPace {
  import opened Options
  import opened Keyset
  import opened BroadcastRows
  import opened BroadcastInvariant
  import opened SnapshotScan

  // The scan: what has been read so far.

  /** h was read: its contact has a row, and if the contact is a member now, then
      by the same membership or by one from the watermark's own instant. */
  ghost predicate WasRead(db: Db, id: nat, h: Key)
    requires id in db.broadcasts
  {
    var b := db.broadcasts[id];
    var m := Member(b.audience, h.id);
    && !After(h, b.cursor) && h.at <= b.snapshotAt && HasRow(db, id, h.id)
    && (h.at < b.snapshotAt && m in db.members ==> db.members[m] == h.at || db.members[m] >= b.snapshotAt)
  }

  /** Before the watermark's own instant, a contact is read only once. */
  ghost predicate ReadOnce(b: Broadcast, read: set<Key>) {
    forall h, j :: (h in read && j in read && h.id == j.id && h.at < b.snapshotAt && j.at < b.snapshotAt) ==> h == j
  }

  /** k full batches have read the keys of `read`. A contact can have been read
      twice only if it left and joined again at the watermark's instant. */
  ghost predicate Reads(db: Db, id: nat, size: nat, read: set<Key>, k: nat) {
    && id in db.broadcasts
    && |read| == size * k
    && (k == 0 ==> db.broadcasts[id].cursor.None?)
    && (forall h :: h in read ==> WasRead(db, id, h))
    && ReadOnce(db.broadcasts[id], read)
  }

  /** As many rows as keys that name different contacts with rows. */
  lemma {:induction false} KeysFitRows(db: Db, id: nat, keys: set<Key>, rows: set<nat>)
    requires rows <= Intended(db, id)
    requires forall h :: h in keys ==> exists r :: r in rows && db.recipients[r].contact == h.id
    requires forall h, j :: h in keys && j in keys && h.id == j.id ==> h == j
    ensures |keys| <= |rows|
    decreases |keys|
  {
    if keys != {} {
      var h :| h in keys;
      var r :| r in rows && db.recipients[r].contact == h.id;
      forall j | j in keys - {h} ensures exists q :: q in rows - {r} && db.recipients[q].contact == j.id {
        var q :| q in rows && db.recipients[q].contact == j.id;
        assert q != r;
      }
      KeysFitRows(db, id, keys - {h}, rows - {r});
    }
  }

  /** At least half as many rows as memberships read. */
  lemma ReadsHaveRows(db: Db, id: nat, size: nat, read: set<Key>, k: nat)
    requires Reads(db, id, size, read, k)
    ensures size * k <= 2 * |Intended(db, id)|
  {
    var at := db.broadcasts[id].snapshotAt;
    var early := set h | h in read && h.at < at;
    var late := set h | h in read && h.at == at;
    assert read == early + late by {
      forall h | h in read ensures h in early + late { assert WasRead(db, id, h); }
    }
    assert |early + late| == |early| + |late| by { assert early !! late; assert |early + late| == |early| + |late|; }
    forall h | h in read ensures exists r :: r in Intended(db, id) && db.recipients[r].contact == h.id {
      assert WasRead(db, id, h);
      var r :| r in db.recipients && db.recipients[r].broadcast == id && db.recipients[r].contact == h.id;
      assert r in Intended(db, id);
    }
    KeysFitRows(db, id, early, Intended(db, id));
    KeysFitRows(db, id, late, Intended(db, id));
  }

  // Along one step.

  /** Later rows, the same cursor: what was read stays read. */
  lemma ReadsStay(a: Db, b: Db, id: nat, size: nat, read: set<Key>, k: nat)
    requires Reads(a, id, size, read, k) && Evolves(a, b)
    requires b.broadcasts[id].cursor == a.broadcasts[id].cursor
    requires MembershipsMove(a, b, id)
    ensures Reads(b, id, size, read, k)
  {
    assert BroadcastEvolves(a.broadcasts[id], b.broadcasts[id]);
    forall h | h in read ensures WasRead(b, id, h) {
      assert WasRead(a, id, h);
      HasRowStays(a, b, id, h.id);
    }
  }

  /** A membership of the broadcast's audience is an old one or begins at the
      watermark or later. */
  ghost predicate MembershipsMove(a: Db, b: Db, id: nat)
    requires id in a.broadcasts
  {
    forall m :: m in b.members ==> (m in a.members && a.members[m] == b.members[m]) || b.members[m] >= a.broadcasts[id].snapshotAt
  }

  ghost predicate WatermarksPast(db: Db) {
    forall id :: id in db.broadcasts ==> db.broadcasts[id].snapshotAt <= db.clock
  }

  function Keys(page: seq<Key>): set<Key> {
    set h | h in page
  }

  lemma {:induction false} PageCounts(page: seq<Key>)
    requires Increasing(page)
    ensures |Keys(page)| == |page|
    decreases |page|
  {
    if page != [] {
      assert page[0] !in page[1..];
      PageCounts(page[1..]);
      assert Keys(page) == Keys(page[1..]) + {page[0]};
    } else {
      assert Keys(page) == {};
    }
  }

  /** What a full batch did, whatever page it read. */
  ghost predicate FullBatch(a: Db, id: nat, page: seq<Key>, b: Db) {
    && id in a.broadcasts && page != [] && Increasing(page)
    && (forall h :: h in page ==>
          var m := Member(a.broadcasts[id].audience, h.id);
          && m in a.members && a.members[m] == h.at
          && h.at <= a.broadcasts[id].snapshotAt && After(h, a.broadcasts[id].cursor))
    && b.members == a.members
    && b.broadcasts == a.broadcasts[id := a.broadcasts[id].(cursor := Some(page[|page| - 1]))]
    && (forall h :: h in page ==> HasRow(b, id, h.id))
    && (forall c :: HasRow(a, id, c) ==> HasRow(b, id, c))
  }

  lemma PageIsOfMembers(db: Db, b: Broadcast, limit: nat)
    ensures forall h :: h in Page(MemberKeys(db, b), b.cursor, limit) ==>
      var m := Member(b.audience, h.id);
      m in db.members && db.members[m] == h.at && h.at <= b.snapshotAt && After(h, b.cursor)
  {
  }

  lemma RowsAfterPage(a: Db, id: nat, page: seq<Key>, b: Db)
    requires Inv(a) && b.recipients == InsertMembers(a, id, page).recipients
    ensures forall h :: h in page ==> HasRow(b, id, h.id)
    ensures forall c :: HasRow(a, id, c) ==> HasRow(b, id, c)
  {
    InvKeepsIdsFresh(a);
    var rows := InsertMembers(a, id, page);
    assert forall c :: HasRow(rows, id, c) ==> HasRow(b, id, c);
    forall h | h in page ensures HasRow(rows, id, h.id) { PageIsInserted(a, id, page, h.id); }
    forall c | HasRow(a, id, c) ensures HasRow(rows, id, c) { PageIsInserted(a, id, page, c); }
  }

  lemma FullBatchIs(db: Db, id: nat, size: nat)
    requires Inv(db) && Scanning(db, id) && size >= 1
    requires |Page(MemberKeys(db, db.broadcasts[id]), db.broadcasts[id].cursor, size)| == size
    ensures var page := Page(MemberKeys(db, db.broadcasts[id]), db.broadcasts[id].cursor, size);
      FullBatch(db, id, page, SnapshotBatch(db, id, size))
  {
    var b := db.broadcasts[id];
    var page := Page(MemberKeys(db, b), b.cursor, size);
    InsertMembersFrame(db, id, page);
    PageIsOfMembers(db, b, size);
    hide Page, MemberKeys, HasRow, InsertMembers, Inv;
    RowsAfterPage(db, id, page, SnapshotBatch(db, id, size));
  }

  lemma KeyIsRead(a: Db, id: nat, page: seq<Key>, b: Db, h: Key)
    requires FullBatch(a, id, page, b) && (WasRead(a, id, h) || h in page)
    ensures WasRead(b, id, h)
  {
    hide HasRow;
    var last := page[|page| - 1];
    assert last in page;
    assert !After(h, Some(last));
  }

  lemma StillReadOnce(a: Db, id: nat, read: set<Key>, page: seq<Key>, b: Db)
    requires FullBatch(a, id, page, b)
    requires forall h :: h in read ==> WasRead(a, id, h)
    requires ReadOnce(a.broadcasts[id], read)
    ensures ReadOnce(b.broadcasts[id], read + Keys(page)) && read !! Keys(page)
  {
    hide HasRow;
    forall h | h in read ensures h !in Keys(page) {
      assert WasRead(a, id, h);
    }
    var at := a.broadcasts[id].snapshotAt;
    forall h, j | h in read && j in page && h.id == j.id && h.at < at && j.at < at ensures h == j {
      assert WasRead(a, id, h);
    }
  }

  /** A full batch reads `size` memberships nobody has read before. */
  lemma FullBatchReads(a: Db, id: nat, size: nat, read: set<Key>, k: nat, page: seq<Key>, b: Db)
    requires FullBatch(a, id, page, b) && |page| == size && Reads(a, id, size, read, k)
    ensures Reads(b, id, size, read + Keys(page), k + 1)
  {
    PageCounts(page);
    StillReadOnce(a, id, read, page, b);
    assert |read + Keys(page)| == |read| + |Keys(page)|;
    assert size * k + size == size * (k + 1);
    forall h | h in read + Keys(page) ensures WasRead(b, id, h) {
      KeyIsRead(a, id, page, b, h);
    }
  }

  lemma PageWasFull(db: Db, id: nat, batch: nat)
    requires Incomplete(db, id) && SnapshotReplyOf(db, id, batch).Advanced?
    requires Incomplete(SnapshotBatch(db, id, batch), id)
    ensures Scanning(db, id) && |Page(MemberKeys(db, db.broadcasts[id]), db.broadcasts[id].cursor, batch)| == batch
  {
  }

  lemma BatchReadsOn(db: Db, id: nat, size: nat, read: set<Key>, k: nat) returns (all: set<Key>)
    requires Inv(db) && Incomplete(db, id) && Reads(db, id, size, read, k) && size >= 1
    requires SnapshotReplyOf(db, id, size).Advanced? && Incomplete(SnapshotBatch(db, id, size), id)
    ensures Reads(SnapshotBatch(db, id, size), id, size, all, k + 1)
  {
    hide Inv, Page, MemberKeys, SnapshotBatch, SnapshotReplyOf, FullBatch, Reads;
    PageWasFull(db, id, size);
    FullBatchIs(db, id, size);
    var page := Page(MemberKeys(db, db.broadcasts[id]), db.broadcasts[id].cursor, size);
    FullBatchReads(db, id, size, read, k, page, SnapshotBatch(db, id, size));
    all := read + Keys(page);
  }
}
