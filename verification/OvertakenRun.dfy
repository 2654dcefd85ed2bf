/** A run that strands a recipient, for all batch sizes with which claims can
    overtake the scan. The audience leaves and joins again at the watermark's own
    instant, so two full batches read everybody twice, and two claims of their own
    handle everybody. The first expander's pending test passes; before its UPDATE
    a newcomer joins and a second expander finishes the scan. */
module OvertakenRun {
  import opened Options
  import opened Keyset
  import opened BroadcastRows
  import opened BroadcastInvariant
  import opened ExpansionProtocol
  import opened BroadcastTheorems
  import opened SnapshotScan
  import opened RecipientWrites
  import opened ScanPace
  import opened Completion
  import opened PacedCompletion
  import opened ExpansionRuns
  import Progress

  /** An expander that works at all, and claims that can keep up with a scan that
      reads half of its memberships twice. */
  predicate Overtakes(lim: Limits) {
    lim.broadcasts >= 1 && 1 <= lim.snapshot <= 2 * lim.materialize
  }

  const COPY := [Row(0, false)]

  // The audience: n contacts, of whom the first c have joined again at 1.

  function Audience(n: nat, c: nat): map<Member, Time> {
    map i: int | 1 <= i <= n :: Member(0, i) := if i <= c then 1 else 0
  }

  function Joined(n: nat): Db {
    EmptyDb(0).(members := Audience(n, 0))
  }

  lemma {:induction false} AllJoin(lim: Limits, n: nat)
    ensures Gets(lim, Joined(n), Idle, Idle)
  {
    hide Gets;
    if n == 0 {
      BothStart(lim);
      assert Audience(0, 0) == map[];
    } else {
      AllJoin(lim, n - 1);
      Outside(lim, Joined(n - 1), Idle, Idle, Join(0, n));
      assert Audience(n - 1, 0)[Member(0, n) := 0] == Audience(n, 0);
    }
  }

  lemma {:induction false} AllRejoin(lim: Limits, db: Db, n: nat, c: nat)
    requires Gets(lim, db.(members := Audience(n, 0)), Idle, Idle) && db.clock == 1 && c <= n
    ensures Gets(lim, db.(members := Audience(n, c)), Idle, Idle)
  {
    hide Gets;
    if c > 0 {
      AllRejoin(lim, db, n, c - 1);
      var m := Member(0, c);
      var here := db.(members := Audience(n, c - 1));
      var gone := db.(members := Audience(n, c - 1) - {m});
      Outside(lim, here, Idle, Idle, Leave(0, c));
      Outside(lim, gone, Idle, Idle, Join(0, c));
      assert (Audience(n, c - 1) - {m})[m := 1] == Audience(n, c);
    }
  }

  function Table(n: nat, at: Time): set<Key> {
    set i: int | 1 <= i <= n :: Key(at, i)
  }

  lemma {:induction false} TableCounts(n: nat, at: Time)
    ensures |Table(n, at)| == n
  {
    if n == 0 {
      assert Table(0, at) == {};
    } else {
      TableCounts(n - 1, at);
      assert Table(n, at) == Table(n - 1, at) + {Key(at, n)};
    }
  }

  /** The broadcast, its watermark at 1. */
  function Draft(status: BroadcastStatus, cursor: Option<Key>, complete: bool): Broadcast {
    Broadcast(status, None, 0, 1, cursor, complete, 1)
  }

  lemma AudienceKeys(db: Db, b: Broadcast, n: nat, c: nat)
    requires db.members == Audience(n, c) && c in {0, n} && b.audience == 0 && b.snapshotAt == 1
    ensures MemberKeys(db, b) == Table(n, if c == 0 then 0 else 1)
  {
    var at := if c == 0 then 0 else 1;
    forall k | k in Table(n, at) ensures k in MemberKeys(db, b) {
      assert Member(0, k.id) in db.members;
    }
  }

  /** A page with room for the whole table is the whole table. */
  lemma WholePage(table: set<Key>, cursor: Option<Key>, limit: nat)
    requires |Above(table, cursor)| <= limit
    ensures var page := Page(table, cursor, limit);
      && |page| == |Above(table, cursor)|
      && (forall k :: k in page <==> k in Above(table, cursor))
      && (page != [] ==> forall k :: k in page ==> k == page[|page| - 1] || Less(k, page[|page| - 1]))
  {
    var page := Page(table, cursor, limit);
    assert page == Sorted(Above(table, cursor));
  }

  // The rows while the scan is on.

  function Open(db: Db): set<nat> {
    set r | r in db.recipients && db.recipients[r].status == Pending
  }

  /** The cursor has passed the whole audience as of `at`, and nothing more. */
  ghost predicate Passed(cursor: Option<Key>, n: nat, at: Time) {
    && cursor.Some? && cursor.value.at == at && cursor.value.id <= n
    && forall k :: k in Table(n, at) ==> !After(k, cursor)
  }

  /** Everybody in the audience has a row, nobody holds one, and the scan is not
      complete. */
  ghost predicate Scene(db: Db, n: nat, at: Time) {
    && db.clock == 1 && 0 in db.broadcasts
    && db.broadcasts == map[0 := Draft(Expanding, db.broadcasts[0].cursor, false)]
    && Passed(db.broadcasts[0].cursor, n, at)
    && (forall r :: r in db.recipients ==> RowInScene(db.recipients[r], n))
    && (forall c :: 1 <= c <= n ==> HasRow(db, 0, c))
  }

  predicate RowInScene(row: Recipient, n: nat) {
    && row.broadcast == 0 && 1 <= row.contact <= n
    && (row.status == Pending ==> row.claimedAt.None?)
  }

  function SuppressAll(db: Db, ids: seq<nat>): Db
    decreases |ids|
  {
    if ids == [] then db else SuppressAll(MarkSuppressed(db, ids[0]), ids[1..])
  }

  lemma {:induction false} SuppressAllIs(db: Db, ids: seq<nat>)
    ensures var db' := SuppressAll(db, ids);
      && db' == db.(recipients := db'.recipients) && db'.recipients.Keys == db.recipients.Keys
      && forall r :: r in db.recipients ==>
           db'.recipients[r] == if r in ids && IsPending(db, r) then db.recipients[r].(status := Suppressed) else db.recipients[r]
    decreases |ids|
  {
    if ids != [] { SuppressAllIs(MarkSuppressed(db, ids[0]), ids[1..]); }
  }

  lemma {:induction false} LoopSuppresses(lim: Limits, db: Db, rest: seq<nat>, sup: set<nat>, two: Pc)
    requires Gets(lim, db, Each(COPY, rest, sup), two) && forall r :: r in rest ==> r in sup
    ensures Gets(lim, SuppressAll(db, rest), Each(COPY, [], sup), two)
    decreases |rest|
  {
    if rest != [] {
      First(lim, db, Each(COPY, rest, sup), two, CALM);
      assert rest[0] in rest;
      assert Next(lim, db, Each(COPY, rest, sup), CALM) == (MarkSuppressed(db, rest[0]), Each(COPY, rest[1..], sup));
      hide Gets, Next;
      LoopSuppresses(lim, MarkSuppressed(db, rest[0]), rest[1..], sup, two);
    }
  }

  /** The rows after a claim all of whose recipients were suppressed. */
  function Handled(db: Db, rows: seq<Key>, ids: seq<nat>): Db {
    SuppressAll(StampClaims(db, rows), ids)
  }

  lemma HandledIs(db: Db, rows: seq<Key>, ids: seq<nat>)
    requires forall k :: k in rows ==> k.id >= 0 && k.id in ids
    requires forall r :: r in ids ==> IsPending(db, r)
    ensures var db' := Handled(db, rows, ids);
      && db'.broadcasts == db.broadcasts && db'.members == db.members && db'.clock == db.clock
      && db'.recipients.Keys == db.recipients.Keys
      && (forall r :: r in db.recipients && r !in ids ==> db'.recipients[r] == db.recipients[r])
      && (forall r :: r in ids ==> r in db'.recipients && db'.recipients[r].status == Suppressed)
      && (forall r :: r in db.recipients ==> db'.recipients[r].broadcast == db.recipients[r].broadcast)
      && (forall r :: r in db.recipients ==> db'.recipients[r].contact == db.recipients[r].contact)
  {
    var mid := StampClaims(db, rows);
    StampClaimsFrame(db, rows);
    SuppressAllIs(mid, ids);
    forall r | r in db.recipients && r !in ids ensures mid.recipients[r] == db.recipients[r] {
      StampsAreOfRows(db, rows, r);
    }
    hide StampClaims, SuppressAll;
  }

  lemma HandledScene(db: Db, n: nat, at: Time, rows: seq<Key>, ids: seq<nat>)
    requires Scene(db, n, at) && (forall k :: k in rows ==> k.id >= 0 && k.id in ids)
    requires forall r :: r in ids ==> IsPending(db, r)
    ensures Scene(Handled(db, rows, ids), n, at) && Handled(db, rows, ids).members == db.members
    ensures Open(Handled(db, rows, ids)) == Open(db) - Progress.Elements(ids)
  {
    var db' := Handled(db, rows, ids);
    HandledIs(db, rows, ids);
    hide Handled, Passed;
    forall c | 1 <= c <= n ensures HasRow(db', 0, c) {
      assert HasRow(db, 0, c);
      var r :| r in db.recipients && db.recipients[r].broadcast == 0 && db.recipients[r].contact == c;
      assert db'.recipients[r].contact == c;
    }
  }

  /** A claim takes `limit` of the open rows, or all of them. */
  lemma ClaimTakes(db: Db, n: nat, at: Time, limit: nat)
    requires Scene(db, n, at) && Inv(db)
    ensures var ids := Ids(ClaimedRows(db, 0, limit, {}));
      && Progress.Distinct(ids) && |ids| <= limit
      && (forall r :: r in ids ==> r in Open(db))
      && (|ids| < limit ==> forall r :: r in Open(db) ==> r in ids)
  {
    var rows := ClaimedRows(db, 0, limit, {});
    var ids := Ids(rows);
    ClaimedRowsAreClaimable(db, 0, limit, {});
    hide Scene, Inv, ClaimedRows;
    forall r | r in ids ensures r in Open(db) {
      var i :| 0 <= i < |ids| && ids[i] == r;
      assert rows[i] in rows;
    }
    if |ids| < limit {
      forall r | r in Open(db) ensures r in ids { OpenIsClaimed(db, n, at, limit, r); }
    }
  }

  lemma OpenIsClaimed(db: Db, n: nat, at: Time, limit: nat, r: nat)
    requires Scene(db, n, at) && r in Open(db) && |ClaimedRows(db, 0, limit, {})| < limit
    ensures r in Ids(ClaimedRows(db, 0, limit, {}))
  {
    var k := Key(db.recipients[r].createdAt, r);
    var rows := ClaimedRows(db, 0, limit, {});
    assert RowInScene(db.recipients[r], n);
    assert k in ClaimableKeys(db, 0, {});
    PageIsPrefix(ClaimableKeys(db, 0, {}), None, limit, k);
    hide Page, ClaimableKeys;
    var i :| 0 <= i < |rows| && rows[i] == k;
    assert Ids(rows)[i] == r;
  }

  lemma FewerOpen(before: set<nat>, ids: seq<nat>, limit: nat)
    requires Progress.Distinct(ids) && |ids| <= limit && forall r :: r in ids ==> r in before
    requires |ids| < limit ==> forall r :: r in before ==> r in ids
    ensures var left := before - Progress.Elements(ids); |left| == 0 || |left| + limit == |before|
  {
    Progress.DistinctCount(ids);
    assert before == (before - Progress.Elements(ids)) + Progress.Elements(ids);
  }

  // A visit from its claim on.

  lemma ClaimLeads(lim: Limits, db: Db, n: nat, at: Time)
    requires Scene(db, n, at)
    ensures var rows := ClaimedRows(db, 0, lim.materialize, {});
      Next(lim, db, Claim(COPY), CALM) ==
        (StampClaims(db, rows), if rows == [] then PendingTest(COPY) else Domain(COPY, Returned(Ids(rows), [])))
  {
    hide ClaimedRows, StampClaims;
  }

  lemma ChecksLead(lim: Limits, db: Db, ids: seq<nat>, sup: set<nat>)
    ensures Next(lim, db, Domain(COPY, ids), CALM) == (db, Suppression(COPY, ids))
    ensures Next(lim, db, Suppression(COPY, ids), CALM.(suppressed := sup)) == (db, Each(COPY, ids, sup))
    ensures Next(lim, db, Each(COPY, [], sup), CALM) == (db, PendingTest(COPY))
  {
  }

  lemma ClaimedVisit(lim: Limits, db: Db, ids: seq<nat>, two: Pc)
    requires Gets(lim, db, Domain(COPY, ids), two)
    ensures Gets(lim, SuppressAll(db, ids), PendingTest(COPY), two)
  {
    hide Gets, Next, SuppressAll;
    var sup := Progress.Elements(ids);
    ChecksLead(lim, db, ids, sup);
    ChecksLead(lim, SuppressAll(db, ids), ids, sup);
    First(lim, db, Domain(COPY, ids), two, CALM);
    First(lim, db, Suppression(COPY, ids), two, CALM.(suppressed := sup));
    LoopSuppresses(lim, db, ids, sup, two);
    First(lim, SuppressAll(db, ids), Each(COPY, [], sup), two, CALM);
  }

  /** Up to `materialize` open rows are claimed and suppressed. */
  lemma VisitHandles(lim: Limits, db: Db, n: nat, at: Time, two: Pc) returns (after: Db)
    requires Gets(lim, db, Claim(COPY), two) && Scene(db, n, at)
    ensures Gets(lim, after, PendingTest(COPY), two) && Scene(after, n, at) && after.members == db.members
    ensures |Open(after)| == 0 || |Open(after)| + lim.materialize == |Open(db)|
  {
    var rows := ClaimedRows(db, 0, lim.materialize, {});
    var ids := Returned(Ids(rows), []);
    GetsOk(lim, db, Claim(COPY), two);
    ClaimLeads(lim, db, n, at);
    First(lim, db, Claim(COPY), two, CALM);
    ClaimTakes(db, n, at, lim.materialize);
    Progress.ReturnedIsDistinct(Ids(rows), []);
    FewerOpen(Open(db), ids, lim.materialize);
    RowIdsAreIn(rows, ids);
    hide Gets, Next, Inv, ClaimedRows, StampClaims, Returned;
    HandledScene(db, n, at, rows, ids);
    if rows == [] {
      assert StampClaims(db, rows) == db by { NothingStamped(db); }
      assert ids == [] && Handled(db, rows, ids) == db;
    } else {
      ClaimedVisit(lim, StampClaims(db, rows), ids, two);
    }
    after := Handled(db, rows, ids);
  }

  lemma NothingStamped(db: Db)
    ensures StampClaims(db, []) == db
  {
  }

  lemma RowIdsAreIn(rows: seq<Key>, ids: seq<nat>)
    requires (forall k :: k in rows ==> k.id >= 0) && forall r :: r in Ids(rows) ==> r in ids
    ensures forall k :: k in rows ==> k.id in ids
  {
    forall k | k in rows ensures k.id in ids {
      var i :| 0 <= i < |rows| && rows[i] == k;
      assert Ids(rows)[i] == k.id;
    }
  }

  // The batches.

  lemma {:induction false} KnownPage(db: Db, id: nat, page: seq<Key>)
    requires forall k :: k in page ==> HasRow(db, id, k.id)
    ensures InsertMembers(db, id, page) == db
    decreases |page|
  {
    if page != [] {
      assert page[0] in page;
      assert forall k :: k in page[1..] ==> k in page;
      KnownPage(db, id, page[1..]);
    }
  }

  lemma {:induction false} PageOpens(db: Db, id: nat, page: seq<Key>)
    ensures |InsertMembers(db, id, page).recipients.Keys| <= |db.recipients.Keys| + |page|
    decreases |page|
  {
    if page != [] {
      var db1 := InsertMember(db, id, page[0]);
      assert db1.recipients.Keys <= db.recipients.Keys + {db.nextId};
      SetCount(db1.recipients.Keys, db.recipients.Keys, {db.nextId});
      PageOpens(db1, id, page[1..]);
    }
  }

  lemma {:induction false} PageContacts(db: Db, id: nat, page: seq<Key>, n: nat)
    requires (forall r :: r in db.recipients ==> RowInScene(db.recipients[r], n)) && id == 0 && IdsFresh(db)
    requires forall k :: k in page ==> 1 <= k.id <= n
    ensures forall r :: r in InsertMembers(db, id, page).recipients ==> RowInScene(InsertMembers(db, id, page).recipients[r], n)
    decreases |page|
  {
    if page != [] {
      assert page[0] in page;
      assert forall k :: k in page[1..] ==> k in page;
      PageContacts(InsertMember(db, id, page[0]), id, page[1..], n);
    }
  }

  lemma TableIsPage(n: nat, at: Time, cursor: Option<Key>)
    requires n >= 1 && (cursor.None? || cursor.value.at < at)
    ensures var page := Page(Table(n, at), cursor, n);
      && |page| == n && (forall k :: k in page <==> k in Table(n, at))
      && Passed(Some(page[n - 1]), n, at)
  {
    TableCounts(n, at);
    assert Above(Table(n, at), cursor) == Table(n, at);
    WholePage(Table(n, at), cursor, n);
    var page := Page(Table(n, at), cursor, n);
    hide Page;
    var last := page[n - 1];
    assert last in page;
    forall k | k in Table(n, at) ensures !After(k, Some(last)) { assert k in page; }
  }

  /** The whole audience is read in one full batch. */
  lemma AudienceIsPage(db: Db, n: nat, c: nat, cursor: Option<Key>)
    requires db.members == Audience(n, c) && c in {0, n} && n >= 1
    requires cursor.None? || (c == n && cursor.value.at == 0)
    ensures var at := if c == 0 then 0 else 1;
      var page := Page(MemberKeys(db, Draft(Expanding, cursor, false)), cursor, n);
      && |page| == n && (forall k :: k in page <==> k in Table(n, at))
      && Passed(Some(page[n - 1]), n, at)
  {
    hide Page, Audience, MemberKeys, Table, Passed;
    var at := if c == 0 then 0 else 1;
    AudienceKeys(db, Draft(Expanding, cursor, false), n, c);
    TableIsPage(n, at, cursor);
  }

  lemma BatchIs(db: Db, n: nat, cursor: Option<Key>, batch: nat)
    requires db.broadcasts == map[0 := Draft(Expanding, cursor, false)]
    ensures var b := Draft(Expanding, cursor, false);
      var page := Page(MemberKeys(db, b), cursor, batch);
      && SnapshotReplyOf(db, 0, batch).Advanced?
      && SnapshotBatch(db, 0, batch) ==
           InsertMembers(db, 0, page).(broadcasts := map[0 := AdvanceCursor(b, page, batch)])
  {
    var b := Draft(Expanding, cursor, false);
    var page := Page(MemberKeys(db, b), cursor, batch);
    hide Page, MemberKeys, InsertMembers;
    InsertMembersFrame(db, 0, page);
    assert db.broadcasts[0] == b;
    assert db.broadcasts[0 := AdvanceCursor(b, page, batch)] == map[0 := AdvanceCursor(b, page, batch)];
  }

  lemma FirstBatch(db: Db, n: nat)
    requires db.broadcasts == map[0 := Draft(Expanding, None, false)] && db.clock == 1 && db.recipients == map[]
    requires db.members == Audience(n, 0) && n >= 1
    ensures var db' := SnapshotBatch(db, 0, n);
      Scene(db', n, 0) && |Open(db')| <= n && db'.members == db.members
  {
    hide InsertMembers, Page, MemberKeys, SnapshotBatch, HasRow, Audience, SnapshotReplyOf, Table, Open;
    var b := Draft(Expanding, None, false);
    var page := Page(MemberKeys(db, b), None, n);
    AudienceIsPage(db, n, 0, None);
    BatchIs(db, n, None, n);
    var rows := InsertMembers(db, 0, page);
    FirstRows(db, n, page);
    SameRowsHaveRows(rows, SnapshotBatch(db, 0, n), 0);
    SameOpen(rows, SnapshotBatch(db, 0, n));
  }

  /** The rows of the first page, into an empty table. */
  lemma FirstRows(db: Db, n: nat, page: seq<Key>)
    requires db.recipients == map[] && |page| == n && forall k :: k in page <==> k in Table(n, 0)
    ensures var rows := InsertMembers(db, 0, page);
      && rows.clock == db.clock && rows.members == db.members && |Open(rows)| <= n
      && (forall r :: r in rows.recipients ==> RowInScene(rows.recipients[r], n))
      && (forall c :: 1 <= c <= n ==> HasRow(rows, 0, c))
  {
    var rows := InsertMembers(db, 0, page);
    InsertMembersFrame(db, 0, page);
    PageOpens(db, 0, page);
    PageContacts(db, 0, page, n);
    forall c | 1 <= c <= n ensures HasRow(rows, 0, c) {
      assert Key(0, c) in Table(n, 0);
      PageIsInserted(db, 0, page, c);
    }
    hide InsertMembers, HasRow;
    assert Open(rows) <= rows.recipients.Keys;
    SetCount(Open(rows), rows.recipients.Keys, {});
  }

  lemma SameOpen(a: Db, b: Db)
    requires b.recipients == a.recipients
    ensures Open(b) == Open(a)
  {
  }

  lemma SecondBatch(db: Db, n: nat)
    requires Scene(db, n, 0) && db.members == Audience(n, n) && n >= 1
    ensures var db' := SnapshotBatch(db, 0, n);
      Scene(db', n, 1) && Open(db') == Open(db) && db'.members == db.members
  {
    hide InsertMembers, Page, MemberKeys, SnapshotBatch, Audience, SnapshotReplyOf;
    var cursor := db.broadcasts[0].cursor;
    var page := Page(MemberKeys(db, Draft(Expanding, cursor, false)), cursor, n);
    AudienceIsPage(db, n, n, cursor);
    BatchIs(db, n, cursor, n);
    KnownPage(db, 0, page);
    var db' := SnapshotBatch(db, 0, n);
    assert db'.recipients == db.recipients;
    SameRowsHaveRows(db, db', 0);
    hide HasRow;
  }

  lemma SameRowsHaveRows(a: Db, b: Db, id: nat)
    requires b.recipients == a.recipients
    ensures forall c :: HasRow(a, id, c) ==> HasRow(b, id, c)
  {
  }

  // What the second expander adds while the first is about to complete.

  function WithNewcomer(n: nat): map<Member, Time> {
    Audience(n, n)[Member(0, n + 1) := 1]
  }

  lemma NewcomerKeys(db: Db, b: Broadcast, n: nat)
    requires db.members == WithNewcomer(n) && b.audience == 0 && b.snapshotAt == 1
    ensures MemberKeys(db, b) == Table(n, 1) + {Key(1, n + 1)}
  {
    forall k | k in Table(n, 1) + {Key(1, n + 1)} ensures k in MemberKeys(db, b) {
      assert Member(0, k.id) in db.members;
    }
  }

  /** The one who joined last is read alone. */
  lemma LastPageIs(n: nat, cursor: Option<Key>, batch: nat)
    requires batch >= 1 && (Passed(cursor, n, 1) || cursor == Some(Key(1, n + 1)))
    ensures Page(Table(n, 1) + {Key(1, n + 1)}, cursor, batch) ==
      if cursor == Some(Key(1, n + 1)) then [] else [Key(1, n + 1)]
  {
    var last := Key(1, n + 1);
    var table := Table(n, 1) + {last};
    if cursor == Some(last) {
      assert Above(table, cursor) == {};
    } else {
      assert Above(table, cursor) == {last};
      SortedIsUnique(Sorted({last}), [last]);
    }
  }

  lemma LastBatchIs(db: Db, n: nat, cursor: Option<Key>, batch: nat)
    requires db.members == WithNewcomer(n) && batch >= 1
    requires Passed(cursor, n, 1) || cursor == Some(Key(1, n + 1))
    ensures Page(MemberKeys(db, Draft(Expanding, cursor, false)), cursor, batch) ==
      if cursor == Some(Key(1, n + 1)) then [] else [Key(1, n + 1)]
  {
    hide Page, Table, MemberKeys, WithNewcomer;
    NewcomerKeys(db, Draft(Expanding, cursor, false), n);
    LastPageIs(n, cursor, batch);
  }

  /** The newcomer's row, which is pending. */
  ghost predicate NewcomerOpen(db: Db) {
    HasPending(db, 0) && 0 in db.broadcasts && db.broadcasts[0].status == Expanding
  }

  lemma NewcomerBatch(db: Db, n: nat)
    requires Scene(db, n, 1) && db.members == WithNewcomer(n) && n >= 1
    ensures var db' := SnapshotBatch(db, 0, n);
      && NewcomerOpen(db') && db'.members == db.members
      && db'.broadcasts == map[0 := Draft(Expanding, Some(Key(1, n + 1)), 1 < n)] && db'.clock == 1
  {
    var cursor := db.broadcasts[0].cursor;
    LastBatchIs(db, n, cursor, n);
    BatchIs(db, n, cursor, n);
    hide SnapshotBatch, Page, MemberKeys;
    assert !HasRow(db, 0, n + 1);
    var k := Key(1, n + 1);
    assert InsertMembers(db, 0, [k]) == InsertMembers(InsertMember(db, 0, k), 0, []) == InsertMember(db, 0, k);
    assert db.nextId in SnapshotBatch(db, 0, n).recipients;
  }

  lemma EmptyBatch(db: Db, n: nat)
    requires NewcomerOpen(db) && db.members == WithNewcomer(n) && n >= 1
    requires db.broadcasts == map[0 := Draft(Expanding, Some(Key(1, n + 1)), false)]
    ensures var db' := SnapshotBatch(db, 0, n); NewcomerOpen(db') && db'.broadcasts[0].snapshotComplete
  {
    LastBatchIs(db, n, Some(Key(1, n + 1)), n);
    BatchIs(db, n, Some(Key(1, n + 1)), n);
    hide SnapshotBatch, Page, MemberKeys;
    assert InsertMembers(db, 0, []) == db;
  }

  // The visits up to the claim.

  lemma FindsIt(lim: Limits, db: Db, b: Broadcast)
    requires lim.broadcasts >= 1 && db.broadcasts == map[0 := b] && Active(b.status) && b.sendAt.None?
    requires !b.snapshotComplete
    ensures Next(lim, db, Idle, CALM) == (db, Mark(COPY))
  {
    var k := Key(b.createdAt, 0);
    assert 0 in db.broadcasts;
    assert ActiveKeys(db, {}) == {k};
    assert Above({k}, None) == {k};
    SortedIsUnique(Sorted({k}), [k]);
    assert Page(ActiveKeys(db, {}), None, lim.broadcasts) == [k];
    assert ClaimActive(db, lim.broadcasts, {}) == [RowOf(db, k)];
  }

  lemma MarksOn(lim: Limits, db: Db, cursor: Option<Key>)
    requires db.broadcasts == map[0 := Draft(Expanding, cursor, false)]
    ensures Next(lim, db, Mark(COPY), CALM) == (db, MarkCheck(COPY))
    ensures Next(lim, db, MarkCheck(COPY), CALM) == (db, Snapshot(COPY))
  {
  }

  lemma ReadsOn(lim: Limits, db: Db, cursor: Option<Key>)
    requires db.broadcasts == map[0 := Draft(Expanding, cursor, false)]
    ensures Next(lim, db, Snapshot(COPY), CALM) == (SnapshotBatch(db, 0, lim.snapshot), Claim(COPY))
  {
    BatchIs(db, 0, cursor, lim.snapshot);
    hide SnapshotBatch, SnapshotReplyOf;
  }

  lemma FirstVisits(lim: Limits, db: Db, cursor: Option<Key>, two: Pc)
    requires lim.broadcasts >= 1 && db.broadcasts == map[0 := Draft(Expanding, cursor, false)]
    requires Gets(lim, db, Idle, two)
    ensures Gets(lim, SnapshotBatch(db, 0, lim.snapshot), Claim(COPY), two)
  {
    hide Gets, Next, SnapshotBatch;
    FindsIt(lim, db, Draft(Expanding, cursor, false));
    MarksOn(lim, db, cursor);
    ReadsOn(lim, db, cursor);
    First(lim, db, Idle, two, CALM);
    First(lim, db, Mark(COPY), two, CALM);
    First(lim, db, MarkCheck(COPY), two, CALM);
    First(lim, db, Snapshot(COPY), two, CALM);
  }

  /** The second expander reads a batch and stops. */
  lemma SecondVisits(lim: Limits, db: Db, cursor: Option<Key>, one: Pc)
    requires lim.broadcasts >= 1 && db.broadcasts == map[0 := Draft(Expanding, cursor, false)]
    requires Gets(lim, db, one, Idle)
    ensures Gets(lim, SnapshotBatch(db, 0, lim.snapshot), one, Idle)
  {
    hide Gets, Next, SnapshotBatch;
    FindsIt(lim, db, Draft(Expanding, cursor, false));
    MarksOn(lim, db, cursor);
    ReadsOn(lim, db, cursor);
    Second(lim, db, one, Idle, CALM);
    Second(lim, db, one, Mark(COPY), CALM);
    Second(lim, db, one, MarkCheck(COPY), CALM);
    Second(lim, db, one, Snapshot(COPY), CALM);
    Stops(lim, SnapshotBatch(db, 0, lim.snapshot), one, Claim(COPY));
  }

  // The run.

  function Accepted0(n: nat): Db {
    Joined(n).(clock := 1, broadcasts := map[0 := Draft(Accepted, None, false)], nextId := 1)
  }

  function Opened(n: nat): Db {
    Joined(n).(clock := 1, broadcasts := map[0 := Draft(Expanding, None, false)], nextId := 1)
  }

  lemma Accepts(lim: Limits, n: nat)
    ensures Gets(lim, Accepted0(n), Idle, Idle)
  {
    AllJoin(lim, n);
    Outside(lim, Joined(n), Idle, Idle, Tick(1));
    Outside(lim, Joined(n).(clock := 1), Idle, Idle, Create(0, None));
  }

  lemma Opens(lim: Limits, n: nat)
    requires lim.broadcasts >= 1
    ensures Next(lim, Accepted0(n), Idle, CALM) == (Accepted0(n), Mark(COPY))
    ensures Next(lim, Accepted0(n), Mark(COPY), CALM) == (Opened(n), Snapshot(COPY))
  {
    FindsIt(lim, Accepted0(n), Draft(Accepted, None, false));
    assert MarkExpanding(Accepted0(n), 0).broadcasts == Opened(n).broadcasts;
  }

  /** The first visit: everybody has a row, and up to `materialize` are handled. */
  lemma FirstHalf(lim: Limits) returns (db: Db)
    requires Overtakes(lim)
    ensures Gets(lim, db, Idle, Idle) && Scene(db, lim.snapshot, 0) && db.members == Audience(lim.snapshot, 0)
    ensures |Open(db)| <= lim.materialize
  {
    var n := lim.snapshot;
    hide Gets, Next, Scene, SnapshotBatch, Open;
    Accepts(lim, n);
    Opens(lim, n);
    First(lim, Accepted0(n), Idle, Idle, CALM);
    First(lim, Accepted0(n), Mark(COPY), Idle, CALM);
    ReadsOn(lim, Opened(n), None);
    First(lim, Opened(n), Snapshot(COPY), Idle, CALM);
    FirstBatch(Opened(n), n);
    db := VisitHandles(lim, SnapshotBatch(Opened(n), 0, n), n, 0, Idle);
    Stops(lim, db, PendingTest(COPY), Idle);
  }

  /** They leave and join again at the watermark; the second visit reads them all
      a second time, and handles the rest. */
  lemma SecondHalf(lim: Limits) returns (db: Db)
    requires Overtakes(lim)
    ensures Gets(lim, db, PendingTest(COPY), Idle) && Scene(db, lim.snapshot, 1) && db.members == Audience(lim.snapshot, lim.snapshot)
    ensures Open(db) == {}
  {
    var n := lim.snapshot;
    var half := FirstHalf(lim);
    assert half.clock == 1;
    assert half.(members := Audience(n, 0)) == half;
    AllRejoin(lim, half, n, n);
    var again := half.(members := Audience(n, n));
    SceneIgnoresMembers(half, again, n);
    assert again.broadcasts == map[0 := Draft(Expanding, again.broadcasts[0].cursor, false)];
    hide Gets, Next, Scene, SnapshotBatch, Open;
    FirstVisits(lim, again, again.broadcasts[0].cursor, Idle);
    SecondBatch(again, n);
    db := VisitHandles(lim, SnapshotBatch(again, 0, n), n, 1, Idle);
    assert |Open(db)| == 0;
  }

  lemma SceneIgnoresMembers(a: Db, b: Db, n: nat)
    requires Scene(a, n, 0) && b == a.(members := b.members)
    ensures Scene(b, n, 0) && Open(b) == Open(a)
  {
    forall c | 1 <= c <= n ensures HasRow(b, 0, c) { assert HasRow(a, 0, c); }
  }

  /** The test has passed: the first expander is about to complete. */
  lemma PassesTest(lim: Limits, db: Db)
    requires Gets(lim, db, PendingTest(COPY), Idle) && Open(db) == {}
    ensures Gets(lim, db, Complete(COPY), Idle)
  {
    hide Gets, Open, HasPending, Next;
    NothingPending(db);
    First(lim, db, PendingTest(COPY), Idle, CALM);
    PassingStep(lim, db);
  }

  lemma NothingPending(db: Db)
    requires Open(db) == {}
    ensures !HasPending(db, 0)
  {
    forall r | r in db.recipients ensures db.recipients[r].status != Pending { assert r !in Open(db); }
  }

  lemma PassingStep(lim: Limits, db: Db)
    requires !HasPending(db, 0)
    ensures Next(lim, db, PendingTest(COPY), CALM) == (db, Complete(COPY))
  {
    hide HasPending;
  }

  /** A newcomer joins at the same instant, and the second expander reads on to
      the end of the scan. */
  lemma ScanEnds(lim: Limits, db: Db) returns (after: Db)
    requires Overtakes(lim) && Scene(db, lim.snapshot, 1) && db.members == Audience(lim.snapshot, lim.snapshot)
    requires Gets(lim, db, Complete(COPY), Idle)
    ensures Gets(lim, after, Complete(COPY), Idle) && NewcomerOpen(after) && after.broadcasts[0].snapshotComplete
  {
    var n := lim.snapshot;
    var one := Complete(COPY);
    var joined := db.(members := WithNewcomer(n));
    Outside(lim, db, one, Idle, Join(0, n + 1));
    assert Member(0, n + 1) !in db.members;
    MoreMembers(db, joined, n);
    assert joined.broadcasts == map[0 := Draft(Expanding, joined.broadcasts[0].cursor, false)];
    hide Gets, Next, Scene, SnapshotBatch, NewcomerOpen;
    SecondVisits(lim, joined, joined.broadcasts[0].cursor, one);
    NewcomerBatch(joined, n);
    after := SnapshotBatch(joined, 0, n);
    if n == 1 {
      SecondVisits(lim, after, Some(Key(1, n + 1)), one);
      EmptyBatch(after, n);
      after := SnapshotBatch(after, 0, n);
    }
  }

  lemma MoreMembers(a: Db, b: Db, n: nat)
    requires Scene(a, n, 1) && b == a.(members := b.members)
    ensures Scene(b, n, 1)
  {
    forall c | 1 <= c <= n ensures HasRow(b, 0, c) { assert HasRow(a, 0, c); }
  }

  lemma LateUpdateCompletes(lim: Limits, db: Db)
    requires NewcomerOpen(db) && db.broadcasts[0].snapshotComplete
    ensures !CompletedIsDone(Next(lim, db, Complete(COPY), CALM).0)
  {
    var done := CompleteBroadcast(db, 0);
    assert HasPending(done, 0) by {
      var r :| r in db.recipients && db.recipients[r].broadcast == 0 && db.recipients[r].status == Pending;
      assert r in done.recipients && done.recipients[r] == db.recipients[r];
    }
  }

  /** Two expanders strand a recipient whenever claims can overtake the scan. */
  lemma OvertakenStrands(lim: Limits)
    requires Overtakes(lim)
    ensures exists acts :: !CompletedIsDone(Exec(lim, System(EmptyDb(0), map[]), acts).db)
  {
    var handled := SecondHalf(lim);
    PassesTest(lim, handled);
    var db := ScanEnds(lim, handled);
    First(lim, db, Complete(COPY), Idle, CALM);
    LateUpdateCompletes(lim, db);
    hide Next, Scene, CompletedIsDone;
    var acts :| Exec(lim, System(EmptyDb(0), map[]), acts).db == Next(lim, db, Complete(COPY), CALM).0;
  }
}
