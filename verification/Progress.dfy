/** Bounded work: an expander that has a broadcast to itself, and meets no
    backpressure, transient error or cancellation, returns from every visit
    after a bounded number of statements and completes the broadcast after a
    bounded number of visits. */
module Progress {
  import opened Options
  import opened Keyset
  import opened BroadcastRows
  import opened BroadcastInvariant
  import opened ExpansionProtocol
  import opened SnapshotScan
  import Warrants

  // The work left.

  /** The failures a pending recipient may still record. */
  function Credit(row: Recipient, id: nat): nat {
    if row.broadcast == id && row.status == Pending && row.attempts < MAX_RECIPIENT_ATTEMPTS
    then MAX_RECIPIENT_ATTEMPTS - row.attempts
    else 0
  }

  function CreditAt(rows: map<nat, Recipient>, id: nat, r: nat): nat {
    if r in rows then Credit(rows[r], id) else 0
  }

  /** The credits of all rows below n. */
  function Work(rows: map<nat, Recipient>, id: nat, n: nat): nat {
    if n == 0 then 0 else Work(rows, id, n - 1) + CreditAt(rows, id, n - 1)
  }

  lemma {:induction false} WorkUpdated(rows: map<nat, Recipient>, id: nat, n: nat, r: nat, row: Recipient)
    ensures Work(rows[r := row], id, n) ==
      Work(rows, id, n) + (if r < n then Credit(row, id) - CreditAt(rows, id, r) else 0)
  {
    if n > 0 { WorkUpdated(rows, id, n - 1, r, row); }
  }

  lemma {:induction false} SameWork(p: map<nat, Recipient>, q: map<nat, Recipient>, id: nat, n: nat)
    requires forall r :: CreditAt(p, id, r) == CreditAt(q, id, r)
    ensures Work(p, id, n) == Work(q, id, n)
  {
    if n > 0 { SameWork(p, q, id, n - 1); }
  }

  /** What a broadcast may still cost: one unit a visit. A member not yet
      scanned is worth one unit more than the attempts it will bring. */
  function Budget(db: Db, id: nat): nat
    requires id in db.broadcasts
  {
    Work(db.recipients, id, db.nextId) +
    (if db.broadcasts[id].snapshotComplete then 0 else (MAX_RECIPIENT_ATTEMPTS + 1) * |Unscanned(db, id)| + 1)
  }

  lemma {:induction false} InsertedWork(db: Db, id: nat, page: seq<Key>)
    requires IdsFresh(db)
    ensures var db' := InsertMembers(db, id, page);
      Work(db'.recipients, id, db'.nextId) <= Work(db.recipients, id, db.nextId) + MAX_RECIPIENT_ATTEMPTS * |page|
    decreases |page|
  {
    if page != [] {
      var db1 := InsertMember(db, id, page[0]);
      if db1 != db {
        WorkUpdated(db.recipients, id, db.nextId, db.nextId, db1.recipients[db.nextId]);
      }
      InsertedWork(db1, id, page[1..]);
    }
  }

  /** Every batch spends at least one unit. */
  lemma BatchSpends(db: Db, id: nat, batch: nat)
    requires Inv(db) && Scanning(db, id) && batch >= 1
    ensures id in SnapshotBatch(db, id, batch).broadcasts
    ensures Budget(SnapshotBatch(db, id, batch), id) < Budget(db, id)
  {
    var page := Take(Unscanned(db, id), batch);
    InvKeepsIdsFresh(db);
    InsertedWork(db, id, page);
    InsertMembersFrame(db, id, page);
    BatchTakesPrefix(db, id, batch);
    if batch <= |Unscanned(db, id)| {
      FullBatchLeavesSuffix(db, id, batch);
    } else {
      OversizedBatchCompletes(db, id, batch);
    }
  }

  /** Apart from one row of the broadcast, nothing the budget looks at. */
  ghost predicate OnlyRow(a: Db, b: Db, r: nat) {
    && b.broadcasts == a.broadcasts && b.members == a.members && b.nextId == a.nextId
    && r in a.recipients && r in b.recipients && b.recipients == a.recipients[r := b.recipients[r]]
  }

  lemma RowSpends(a: Db, b: Db, id: nat, r: nat)
    requires id in a.broadcasts && OnlyRow(a, b, r) && r < a.nextId
    ensures Budget(b, id) == Budget(a, id) + Credit(b.recipients[r], id) - Credit(a.recipients[r], id)
  {
    WorkUpdated(a.recipients, id, a.nextId, r, b.recipients[r]);
    SameMemberKeys(a, b, a.broadcasts[id], b.broadcasts[id]);
  }

  // One visit: a call of process for one broadcast.

  /** Nothing goes wrong: statements commit and reply, the domain is verified,
      the rate limiter admits, no row is locked elsewhere; building a message
      succeeds or fails for good. The suppression list is arbitrary. */
  predicate Calm(c: Chance) {
    c.outcome == Done && c.locked == {} && c.domainVerified && c.admitted && !c.build.Transient?
  }

  /** Time passes, then a statement runs. */
  datatype Moment = Moment(elapsed: nat, chance: Chance)

  function Pass(db: Db, elapsed: nat): Db {
    db.(clock := db.clock + elapsed)
  }

  function Drive(lim: Limits, db: Db, pc: Pc, moments: seq<Moment>): (Db, Pc)
    decreases |moments|
  {
    if moments == [] || pc.Idle? then (db, pc) else
      var (db', pc') := Next(lim, Pass(db, moments[0].elapsed), pc, moments[0].chance);
      Drive(lim, db', pc', moments[1..])
  }

  predicate AllCalm(moments: seq<Moment>) {
    forall m :: m in moments ==> Calm(m.chance)
  }

  predicate Distinct(ids: seq<nat>) {
    forall i, j :: 0 <= i < j < |ids| ==> ids[i] != ids[j]
  }

  predicate PendingOf(db: Db, id: nat, r: nat) {
    IsPending(db, r) && db.recipients[r].broadcast == id
  }

  /** The claimed rows not handled yet. */
  ghost predicate Holds(db: Db, pc: Pc, id: nat) {
    && Distinct(Remaining(pc))
    && (forall i :: 0 <= i < |Remaining(pc)| && !(pc.Finish? && i == 0) ==> PendingOf(db, id, Remaining(pc)[i]))
  }

  /** An expander visiting the broadcast alone, nothing having gone wrong. */
  ghost predicate OnCourse(db: Db, pc: Pc, id: nat) {
    && !pc.Idle? && !pc.FailBroadcast? && !pc.Cleanup?
    && |pc.q| == 1 && pc.q[0].id == id && id in db.broadcasts
    && (db.broadcasts[id].status == Expanding || (pc.Mark? && db.broadcasts[id].status == Accepted))
    && Due(db.broadcasts[id], db.clock)
    && (pc.q[0].snapshotComplete ==> db.broadcasts[id].snapshotComplete)
    && (InRecipientLoop(pc) && !pc.Each? ==> pc.rest != [])
    && Holds(db, pc, id)
  }

  function Owed(db: Db, ids: seq<nat>): set<nat> {
    set r | r in ids && IsPending(db, r)
  }

  function Owing(db: Db, pc: Pc): set<nat> {
    Owed(db, Remaining(pc))
  }

  /** The budget at the end of the visit at the latest. */
  function Score(db: Db, pc: Pc, id: nat): int
    requires id in db.broadcasts
  {
    Budget(db, id) - |Owing(db, pc)|
  }

  /** Statements left in the visit. */
  function Rank(lim: Limits, pc: Pc): nat {
    match pc
    case Mark(_) => 6 * lim.materialize + 9
    case MarkCheck(_) => 6 * lim.materialize + 8
    case Snapshot(_) => 6 * lim.materialize + 7
    case Claim(_) => 6 * lim.materialize + 6
    case Domain(_, rest) => 6 * |rest| + 5
    case Suppression(_, rest) => 6 * |rest| + 4
    case Each(_, rest, _) => 6 * |rest| + 3
    case Admit(_, rest, _) => 6 * |rest| + 2
    case Build(_, rest, _) => 6 * |rest| + 1
    case Save(_, rest, _) => 6 * |rest|
    case FailRecipient(_, rest, _) => 6 * |rest|
    case Insert(_, rest, _) => if rest == [] then 0 else 6 * |rest| - 1
    case Finish(_, rest, _) => if rest == [] then 0 else 6 * |rest| - 2
    case PendingTest(_) => 2
    case Complete(_) => 1
    case _ => 0
  }

  /** Every pending recipient's lease is over. */
  ghost predicate Rested(db: Db, id: nat) {
    forall r :: r in db.recipients && PendingOf(db, id, r) ==> Warrants.Unclaimed(db, id, r)
  }

  /** The visit that began with budget b has spent a unit, or is sure to spend
      one, or is about to complete the broadcast. */
  ghost predicate Pays(db: Db, pc: Pc, id: nat, b: nat)
    requires id in db.broadcasts
  {
    var complete := db.broadcasts[id].snapshotComplete;
    || Score(db, pc, id) < b
    || (Score(db, pc, id) <= b && (pc.Mark? || pc.MarkCheck? || pc.Snapshot?) && (complete ==> Rested(db, id)))
    || (Score(db, pc, id) <= b && pc.Claim? && complete && Rested(db, id))
    || ((pc.PendingTest? || pc.Complete?) && complete && !HasPending(db, id))
  }

  ghost predicate Spent(db: Db, id: nat, b: nat) {
    && id in db.broadcasts
    && (db.broadcasts[id].status == Completed || (db.broadcasts[id].status == Expanding && Budget(db, id) < b))
  }

  ghost predicate Advances(lim: Limits, pc: Pc, next: (Db, Pc), id: nat, b: nat) {
    if next.1.Idle? then Spent(next.0, id, b)
    else OnCourse(next.0, next.1, id) && Pays(next.0, next.1, id, b) && Rank(lim, next.1) < Rank(lim, pc)
  }

  lemma SameBudget(a: Db, b: Db, id: nat)
    requires id in a.broadcasts && id in b.broadcasts && a.members == b.members
    requires a.recipients == b.recipients && a.nextId == b.nextId
    requires b.broadcasts[id] == a.broadcasts[id].(status := b.broadcasts[id].status)
    ensures Budget(a, id) == Budget(b, id)
  {
  }

  lemma SamePending(a: Db, b: Db, pc: Pc, id: nat)
    requires a.recipients == b.recipients && a.clock <= b.clock
    ensures Owing(a, pc) == Owing(b, pc)
    ensures Rested(a, id) ==> Rested(b, id)
    ensures HasPending(a, id) <==> HasPending(b, id)
  {
  }

  lemma PassKeeps(db: Db, pc: Pc, id: nat, b: nat, elapsed: nat)
    requires OnCourse(db, pc, id) && Pays(db, pc, id, b)
    ensures OnCourse(Pass(db, elapsed), pc, id) && Pays(Pass(db, elapsed), pc, id, b)
  {
    assert OnCourse(Pass(db, elapsed), pc, id);
    hide OnCourse;
    SamePay(db, Pass(db, elapsed), pc, pc, id, b);
  }

  /** A step that writes no recipient keeps what the visit has paid. */
  lemma SamePay(db: Db, db': Db, pc: Pc, pc': Pc, id: nat, b: nat)
    requires id in db.broadcasts && id in db'.broadcasts && db.members == db'.members
    requires db.recipients == db'.recipients && db.nextId == db'.nextId && db.clock <= db'.clock
    requires db'.broadcasts[id] == db.broadcasts[id].(status := db'.broadcasts[id].status)
    requires Remaining(pc) == Remaining(pc') && Pays(db, pc, id, b)
    requires pc' == pc || ((pc.Mark? || pc.MarkCheck?) && (pc'.MarkCheck? || pc'.Snapshot?))
      || ((pc.Mark? || pc.MarkCheck?) && pc'.Claim? && db.broadcasts[id].snapshotComplete)
    ensures Pays(db', pc', id, b)
  {
    SameBudget(db, db', id);
    SamePending(db, db', pc, id);
    SameOwing(db', pc, pc');
    hide Budget, Owing, Owed, Rested, HasPending;
  }

  lemma SameOwing(db: Db, pc: Pc, pc': Pc)
    requires Remaining(pc') == Remaining(pc)
    ensures Owing(db, pc') == Owing(db, pc)
  {
  }

  lemma MarkAdvances(lim: Limits, db: Db, pc: Pc, c: Chance, id: nat, b: nat)
    requires (pc.Mark? || pc.MarkCheck?) && OnCourse(db, pc, id) && Pays(db, pc, id, b) && Calm(c)
    ensures Advances(lim, pc, Next(lim, db, pc, c), id, b)
  {
    hide Next, MarkExpanding, Pays, Holds, Calm;
    var (db', pc') := Next(lim, db, pc, c);
    MarkLeads(lim, db, pc, c, id);
    MarkStaysOnCourse(lim, db, pc, db', pc', id);
    SamePay(db, db', pc, pc', id, b);
    hide OnCourse, Rank;
  }

  lemma MarkStaysOnCourse(lim: Limits, db: Db, pc: Pc, db': Db, pc': Pc, id: nat)
    requires (pc.Mark? || pc.MarkCheck?) && OnCourse(db, pc, id)
    requires db' == SetBroadcast(db, id, db.broadcasts[id].(status := Expanding))
    requires pc' == (if pc.Mark? && db.broadcasts[id].status == Expanding then MarkCheck(pc.q) else AfterMark(pc.q))
    ensures OnCourse(db', pc', id) && Rank(lim, pc') < Rank(lim, pc)
  {
    EmptyHolds(db', pc', id);
    hide Holds;
  }

  lemma EmptyHolds(db: Db, pc: Pc, id: nat)
    requires Remaining(pc) == []
    ensures Holds(db, pc, id)
  {
  }

  lemma MarkLeads(lim: Limits, db: Db, pc: Pc, c: Chance, id: nat)
    requires (pc.Mark? || pc.MarkCheck?) && OnCourse(db, pc, id) && Calm(c)
    ensures var (db', pc') := Next(lim, db, pc, c);
      && db' == SetBroadcast(db, id, db.broadcasts[id].(status := Expanding))
      && pc' == (if pc.Mark? && db.broadcasts[id].status == Expanding then MarkCheck(pc.q) else AfterMark(pc.q))
  {
  }

  lemma SnapshotLeads(lim: Limits, db: Db, pc: Pc, c: Chance, id: nat)
    requires pc.Snapshot? && OnCourse(db, pc, id) && Calm(c)
    ensures Next(lim, db, pc, c) == (SnapshotBatch(db, id, lim.snapshot), Claim(pc.q))
    ensures db.broadcasts[id].snapshotComplete ==> SnapshotBatch(db, id, lim.snapshot) == db
  {
  }

  lemma SnapshotAdvances(lim: Limits, db: Db, pc: Pc, c: Chance, id: nat, b: nat)
    requires pc.Snapshot? && OnCourse(db, pc, id) && Pays(db, pc, id, b) && Calm(c) && lim.snapshot >= 1 && Inv(db)
    ensures Advances(lim, pc, Next(lim, db, pc, c), id, b)
  {
    hide Next, Inv, Budget, Owing, Owed, SnapshotBatch, Rested, HasPending, Calm;
    SnapshotLeads(lim, db, pc, c, id);
    NothingOwed(db, pc);
    NothingOwed(SnapshotBatch(db, id, lim.snapshot), Claim(pc.q));
    if !db.broadcasts[id].snapshotComplete {
      BatchSpends(db, id, lim.snapshot);
      BatchLeavesBroadcast(db, id, lim.snapshot);
    }
  }

  lemma NothingOwed(db: Db, pc: Pc)
    requires Remaining(pc) == []
    ensures Owing(db, pc) == {}
  {
  }

  lemma BatchLeavesBroadcast(db: Db, id: nat, batch: nat)
    requires Scanning(db, id)
    ensures SnapshotReplyOf(db, id, batch).Advanced?
    ensures var db' := SnapshotBatch(db, id, batch);
      && db'.clock == db.clock && id in db'.broadcasts
      && db'.broadcasts[id].status == db.broadcasts[id].status && db'.broadcasts[id].sendAt == db.broadcasts[id].sendAt
  {
    var b0 := db.broadcasts[id];
    InsertMembersFrame(db, id, Page(MemberKeys(db, b0), b0.cursor, batch));
  }

  lemma {:induction false} StampedWork(db: Db, id: nat, rows: seq<Key>)
    ensures forall r :: CreditAt(StampClaims(db, rows).recipients, id, r) == CreditAt(db.recipients, id, r)
    decreases |rows|
  {
    StampClaimsFrame(db, rows);
  }

  /** Claiming leaves the budget alone, and every row claimed is pending. */
  lemma ClaimHolds(db: Db, id: nat, limit: nat)
    requires Inv(db) && id in db.broadcasts
    ensures var rows := ClaimedRows(db, id, limit, {});
      var db' := ClaimPending(db, id, limit, {});
      && id in db'.broadcasts && db'.broadcasts == db.broadcasts && db'.clock == db.clock && Budget(db', id) == Budget(db, id)
      && Distinct(Ids(rows)) && |rows| <= limit
      && (forall i :: 0 <= i < |rows| ==> PendingOf(db', id, Ids(rows)[i]))
      && (rows == [] ==> db' == db)
  {
    var rows := ClaimedRows(db, id, limit, {});
    ClaimedRowsAreClaimable(db, id, limit, {});
    StampClaimsFrame(db, rows);
    StampKeepsBudget(db, id, rows);
    NoStamps(db);
    hide Inv, StampClaims, ClaimedRows, Budget;
    forall i | 0 <= i < |rows| ensures PendingOf(StampClaims(db, rows), id, Ids(rows)[i]) {
      assert rows[i] in rows;
    }
  }

  lemma StampKeepsBudget(db: Db, id: nat, rows: seq<Key>)
    requires id in db.broadcasts
    ensures id in StampClaims(db, rows).broadcasts && Budget(StampClaims(db, rows), id) == Budget(db, id)
  {
    var db' := StampClaims(db, rows);
    StampClaimsFrame(db, rows);
    StampedWork(db, id, rows);
    SameWork(db.recipients, db'.recipients, id, db.nextId);
    SameMemberKeys(db, db', db.broadcasts[id], db'.broadcasts[id]);
    hide StampClaims, MemberKeys;
  }

  lemma NoStamps(db: Db)
    ensures StampClaims(db, []) == db
  {
  }

  /** Rested rows are found: the claim comes back empty only when nothing is
      pending. */
  lemma RestedIsClaimed(db: Db, id: nat, limit: nat)
    requires id in db.broadcasts && Active(db.broadcasts[id].status) && Due(db.broadcasts[id], db.clock)
    requires Rested(db, id) && limit >= 1 && ClaimedRows(db, id, limit, {}) == []
    ensures !HasPending(db, id)
  {
    if HasPending(db, id) {
      var r :| r in db.recipients && db.recipients[r].broadcast == id && db.recipients[r].status == Pending;
      assert PendingOf(db, id, r);
      var k := Key(db.recipients[r].createdAt, r);
      assert k in ClaimableKeys(db, id, {});
      PageIsPrefix(ClaimableKeys(db, id, {}), None, limit, k);
    }
  }

  function Elements(ids: seq<nat>): set<nat> {
    set r | r in ids
  }

  lemma {:induction false} DistinctCount(ids: seq<nat>)
    requires Distinct(ids)
    ensures |Elements(ids)| == |ids|
    decreases |ids|
  {
    if ids == [] {
      assert Elements(ids) == {};
    } else {
      DistinctCount(ids[1..]);
      assert ids[0] !in ids[1..];
      assert Elements(ids) == Elements(ids[1..]) + {ids[0]};
    }
  }

  lemma AllOwed(db: Db, q: seq<Row>, ids: seq<nat>, id: nat)
    requires Distinct(ids) && forall i :: 0 <= i < |ids| ==> PendingOf(db, id, ids[i])
    ensures |Owing(db, Domain(q, ids))| == |ids|
  {
    DistinctCount(ids);
    assert Owing(db, Domain(q, ids)) == Elements(ids);
  }

  lemma ClaimLeads(lim: Limits, db: Db, pc: Pc, c: Chance, id: nat)
    requires pc.Claim? && OnCourse(db, pc, id) && Calm(c)
    ensures var rows := ClaimedRows(db, id, lim.materialize, {});
      Next(lim, db, pc, c) ==
        (ClaimPending(db, id, lim.materialize, {}),
         if rows == [] then PendingTest(pc.q) else Domain(pc.q, Returned(Ids(rows), c.order)))
  {
  }

  /** Whatever order the claim comes back in, no row comes back twice. */
  lemma ReturnedIsDistinct(ids: seq<nat>, order: seq<nat>)
    requires Distinct(ids)
    ensures Distinct(Returned(ids, order))
  {
    var out := Returned(ids, order);
    forall i, j | 0 <= i < j < |out| ensures out[i] != out[j] {
      if out[i] == out[j] {
        OccursTwice(out, i, j);
        DistinctOccursOnce(ids, out[i]);
      }
    }
  }

  lemma OccursTwice(s: seq<nat>, i: nat, j: nat)
    requires i < j < |s| && s[i] == s[j]
    ensures multiset(s)[s[i]] >= 2
  {
    assert s == s[..j] + [s[j]] + s[j + 1..];
    assert s[i] in s[..j];
  }

  lemma OccursBetween(before: seq<nat>, r: nat, after: seq<nat>)
    requires r !in before && r !in after
    ensures multiset(before + [r] + after)[r] == 1
  {
  }

  lemma DistinctOccursOnce(ids: seq<nat>, r: nat)
    requires Distinct(ids)
    ensures multiset(ids)[r] <= 1
  {
    if r in ids {
      var i :| 0 <= i < |ids| && ids[i] == r;
      var before, after := ids[..i], ids[i + 1..];
      assert ids == before + [r] + after;
      assert r !in before && r !in after;
      OccursBetween(before, r, after);
    }
  }

  lemma ReturnedArePending(db: Db, id: nat, ids: seq<nat>, order: seq<nat>)
    requires forall i :: 0 <= i < |ids| ==> PendingOf(db, id, ids[i])
    ensures var out := Returned(ids, order); forall i :: 0 <= i < |out| ==> PendingOf(db, id, out[i])
  {
    var out := Returned(ids, order);
    forall i | 0 <= i < |out| ensures PendingOf(db, id, out[i]) {
      assert out[i] in ids;
    }
  }

  lemma EmptyClaimAdvances(lim: Limits, db: Db, pc: Pc, id: nat, b: nat)
    requires pc.Claim? && OnCourse(db, pc, id) && Pays(db, pc, id, b)
    requires Rested(db, id) ==> !HasPending(db, id)
    ensures Advances(lim, pc, (db, PendingTest(pc.q)), id, b)
  {
    NothingOwed(db, pc);
    NothingOwed(db, PendingTest(pc.q));
    hide Budget, Owing, Owed, Rested, HasPending;
  }

  lemma FullClaimAdvances(lim: Limits, db: Db, db': Db, pc: Pc, ids: seq<nat>, id: nat, b: nat)
    requires pc.Claim? && OnCourse(db, pc, id) && Pays(db, pc, id, b)
    requires db'.broadcasts == db.broadcasts && db'.clock == db.clock && Budget(db', id) == Budget(db, id)
    requires ids != [] && |ids| <= lim.materialize && Distinct(ids)
    requires forall i :: 0 <= i < |ids| ==> PendingOf(db', id, ids[i])
    ensures Advances(lim, pc, (db', Domain(pc.q, ids)), id, b)
  {
    NothingOwed(db, pc);
    AllOwed(db', pc.q, ids, id);
    hide Budget, Owing, Owed, Rested, HasPending;
  }

  lemma ClaimAdvances(lim: Limits, db: Db, pc: Pc, c: Chance, id: nat, b: nat)
    requires pc.Claim? && OnCourse(db, pc, id) && Pays(db, pc, id, b) && Calm(c) && lim.materialize >= 1 && Inv(db)
    ensures Advances(lim, pc, Next(lim, db, pc, c), id, b)
  {
    var rows := ClaimedRows(db, id, lim.materialize, {});
    ClaimLeads(lim, db, pc, c, id);
    ClaimHolds(db, id, lim.materialize);
    if rows == [] {
      if Rested(db, id) { RestedIsClaimed(db, id, lim.materialize); }
      EmptyClaimAdvances(lim, db, pc, id, b);
    } else {
      hide Next, ClaimPending, ClaimedRows, Advances, Inv, Rested, HasPending, OnCourse, Pays, Budget;
      ReturnedIsDistinct(Ids(rows), c.order);
      ReturnedArePending(ClaimPending(db, id, lim.materialize, {}), id, Ids(rows), c.order);
      FullClaimAdvances(lim, db, ClaimPending(db, id, lim.materialize, {}), pc, Returned(Ids(rows), c.order), id, b);
    }
  }

  /** Statements that only look. */
  predicate Looks(pc: Pc) {
    pc.Domain? || pc.Suppression? || pc.Admit? || pc.Build? || (pc.Each? && (pc.rest == [] || pc.rest[0] !in pc.sup))
  }

  lemma LookLeads(lim: Limits, db: Db, pc: Pc, c: Chance, id: nat)
    requires Looks(pc) && OnCourse(db, pc, id) && Calm(c)
    ensures var (db', pc') := Next(lim, db, pc, c);
      && db' == db && Remaining(pc') == Remaining(pc) && pc'.q == pc.q && Rank(lim, pc') < Rank(lim, pc)
      && (InRecipientLoop(pc') && !pc'.Each? ==> pc'.rest != [])
      && !pc'.Idle? && !pc'.FailBroadcast? && !pc'.Cleanup? && !pc'.Mark?
  {
    hide Holds;
  }

  lemma LookAdvances(lim: Limits, db: Db, pc: Pc, c: Chance, id: nat, b: nat)
    requires Looks(pc) && OnCourse(db, pc, id) && Pays(db, pc, id, b) && Calm(c)
    ensures Advances(lim, pc, Next(lim, db, pc, c), id, b)
  {
    LookLeads(lim, db, pc, c, id);
    var pc' := Next(lim, db, pc, c).1;
    hide Next, Rank;
    assert OnCourse(db, pc', id) by { hide Looks, Pays, Remaining, Due; }
    SameOwing(db, pc, pc');
    hide Budget, Owing, Owed, Rested, HasPending, OnCourse;
  }

  lemma TestAdvances(lim: Limits, db: Db, pc: Pc, c: Chance, id: nat, b: nat)
    requires pc.PendingTest? && OnCourse(db, pc, id) && Pays(db, pc, id, b) && Calm(c)
    ensures Advances(lim, pc, Next(lim, db, pc, c), id, b)
  {
  }

  lemma CompleteAdvances(lim: Limits, db: Db, pc: Pc, c: Chance, id: nat, b: nat)
    requires pc.Complete? && OnCourse(db, pc, id) && Pays(db, pc, id, b) && Calm(c)
    ensures Advances(lim, pc, Next(lim, db, pc, c), id, b)
  {
  }

  /** The first claimed row has been handled: what is owed goes down with the
      budget. */
  lemma OwingDrops(a: Db, b: Db, pc: Pc, pc': Pc, id: nat)
    requires Remaining(pc) != [] && OnlyRow(a, b, Remaining(pc)[0]) && Distinct(Remaining(pc))
    requires Remaining(pc') == Remaining(pc)[1..]
      || (Remaining(pc') == Remaining(pc) && !IsPending(b, Remaining(pc)[0]))
    ensures |Owing(b, pc')| == |Owing(a, pc)| - (if IsPending(a, Remaining(pc)[0]) then 1 else 0)
  {
    var rest := Remaining(pc);
    FirstHandled(a, b, rest);
    if Remaining(pc') == rest { FirstSettled(b, rest); }
  }

  lemma FirstHandled(a: Db, b: Db, rest: seq<nat>)
    requires rest != [] && OnlyRow(a, b, rest[0]) && Distinct(rest)
    ensures |Owed(b, rest[1..])| == |Owed(a, rest)| - (if IsPending(a, rest[0]) then 1 else 0)
  {
    var r := rest[0];
    assert r !in rest[1..];
    assert forall q :: q in rest <==> q == r || q in rest[1..];
    assert forall q :: q in rest[1..] ==> (IsPending(a, q) <==> IsPending(b, q));
    assert Owed(a, rest) == Owed(b, rest[1..]) + (if IsPending(a, r) then {r} else {});
  }

  lemma FirstSettled(db: Db, rest: seq<nat>)
    requires rest != [] && !IsPending(db, rest[0])
    ensures Owed(db, rest) == Owed(db, rest[1..])
  {
  }

  ghost predicate Handled(a: Db, b: Db, id: nat, r: nat) {
    && OnlyRow(a, b, r) && b.clock == a.clock && id in a.broadcasts && r < a.nextId
    && a.recipients[r].broadcast == id
    && (if IsPending(a, r) then Credit(b.recipients[r], id) < Credit(a.recipients[r], id) else b.recipients == a.recipients)
  }

  lemma TailHolds(db: Db, db': Db, pc: Pc, pc': Pc, id: nat)
    requires Holds(db, pc, id) && InRecipientLoop(pc) && pc.rest != [] && OnlyRow(db, db', pc.rest[0])
    requires pc' == Each(pc.q, pc.rest[1..], pc.sup) || pc' == Finish(pc.q, pc.rest, pc.sup)
    ensures Holds(db', pc', id)
  {
  }

  lemma RowDone(lim: Limits, db: Db, db': Db, pc: Pc, pc': Pc, id: nat, b: nat)
    requires OnCourse(db, pc, id) && Pays(db, pc, id, b)
    requires InRecipientLoop(pc) && pc.rest != [] && Handled(db, db', id, pc.rest[0])
    requires pc' == Each(pc.q, pc.rest[1..], pc.sup) || (pc' == Finish(pc.q, pc.rest, pc.sup) && !IsPending(db', pc.rest[0]))
    ensures OnCourse(db', pc', id) && Pays(db', pc', id, b)
  {
    TailHolds(db, db', pc, pc', id);
    RowSpends(db, db', id, pc.rest[0]);
    OwingDrops(db, db', pc, pc', id);
    assert Score(db', pc', id) <= Score(db, pc, id) by {
      hide Budget, Owing, Owed, OnCourse, Pays;
      assert IsPending(db, pc.rest[0]) || db'.recipients[pc.rest[0]] == db.recipients[pc.rest[0]];
    }
    hide Budget, Owing, Owed, Credit, Holds, Score, Handled;
    assert db'.broadcasts == db.broadcasts && db'.clock == db.clock by { HandledFrame(db, db', id, pc.rest[0]); }
  }

  lemma HandledFrame(a: Db, b: Db, id: nat, r: nat)
    requires Handled(a, b, id, r)
    ensures b.broadcasts == a.broadcasts && b.clock == a.clock
  {
  }

  lemma HandleLeads(lim: Limits, db: Db, pc: Pc, c: Chance, id: nat)
    requires pc.FailRecipient? || pc.Finish? || (pc.Each? && pc.rest != [] && pc.rest[0] in pc.sup)
    requires OnCourse(db, pc, id) && Calm(c)
    requires RecipientOk(db, pc.rest[0]) && pc.rest[0] in db.recipients && db.recipients[pc.rest[0]].broadcast == id
    ensures var (db', pc') := Next(lim, db, pc, c);
      Handled(db, db', id, pc.rest[0]) && pc' == Each(pc.q, pc.rest[1..], pc.sup)
  {
    hide Holds;
  }

  lemma HandleAdvances(lim: Limits, db: Db, pc: Pc, c: Chance, id: nat, b: nat)
    requires pc.FailRecipient? || pc.Finish? || (pc.Each? && pc.rest != [] && pc.rest[0] in pc.sup)
    requires OnCourse(db, pc, id) && Pays(db, pc, id, b) && Calm(c)
    requires RecipientOk(db, pc.rest[0]) && pc.rest[0] in db.recipients && db.recipients[pc.rest[0]].broadcast == id
    ensures Advances(lim, pc, Next(lim, db, pc, c), id, b)
  {
    assert pc.rest != [];
    hide Next, Handled, OnCourse, Pays, RecipientOk, Calm;
    HandleLeads(lim, db, pc, c, id);
    var (db', pc') := Next(lim, db, pc, c);
    RowDone(lim, db, db', pc, pc', id, b);
    TailRanks(lim, pc);
    hide Rank;
  }

  lemma TailRanks(lim: Limits, pc: Pc)
    requires pc.FailRecipient? || pc.Finish? || pc.Each?
    requires pc.rest != []
    ensures Rank(lim, Each(pc.q, pc.rest[1..], pc.sup)) < Rank(lim, pc)
  {
  }

  lemma SaveAdvances(lim: Limits, db: Db, pc: Pc, c: Chance, id: nat, b: nat)
    requires pc.Save? && OnCourse(db, pc, id) && Pays(db, pc, id, b) && Calm(c)
    ensures Advances(lim, pc, Next(lim, db, pc, c), id, b)
  {
    var next := Next(lim, db, pc, c);
    assert next == (SaveFile(db, pc.rest[0]), Insert(pc.q, pc.rest, pc.sup));
    hide Next;
    SavedAdvances(lim, db, pc, id, b);
  }

  lemma SavedAdvances(lim: Limits, db: Db, pc: Pc, id: nat, b: nat)
    requires pc.Save? && OnCourse(db, pc, id) && Pays(db, pc, id, b)
    ensures Advances(lim, pc, (SaveFile(db, pc.rest[0]), Insert(pc.q, pc.rest, pc.sup)), id, b)
  {
    var db', pc' := SaveFile(db, pc.rest[0]), Insert(pc.q, pc.rest, pc.sup);
    SameBudget(db, db', id);
    SamePending(db, db', pc, id);
    SameOwing(db', pc, pc');
    hide Budget, Owing, Owed;
    assert OnCourse(db', pc', id) && Pays(db', pc', id, b);
  }

  lemma InsertLeads(lim: Limits, db: Db, pc: Pc, c: Chance, id: nat)
    requires pc.Insert? && OnCourse(db, pc, id) && Calm(c) && RecipientOk(db, pc.rest[0])
    ensures var (db', pc') := Next(lim, db, pc, c);
      && pc' == Finish(pc.q, pc.rest, pc.sup)
      && (db' == db || (Handled(db, db', id, pc.rest[0]) && !IsPending(db', pc.rest[0])))
  {
  }

  lemma InsertAdvances(lim: Limits, db: Db, pc: Pc, c: Chance, id: nat, b: nat)
    requires pc.Insert? && OnCourse(db, pc, id) && Pays(db, pc, id, b) && Calm(c)
    requires RecipientOk(db, pc.rest[0])
    ensures Advances(lim, pc, Next(lim, db, pc, c), id, b)
  {
    InsertLeads(lim, db, pc, c, id);
    var next := Next(lim, db, pc, c);
    assert next == (next.0, Finish(pc.q, pc.rest, pc.sup));
    InsertedAdvances(lim, db, next, pc, id, b);
    hide *;
  }

  lemma InsertedAdvances(lim: Limits, db: Db, next: (Db, Pc), pc: Pc, id: nat, b: nat)
    requires pc.Insert? && OnCourse(db, pc, id) && Pays(db, pc, id, b) && next.1 == Finish(pc.q, pc.rest, pc.sup)
    requires next.0 == db || (Handled(db, next.0, id, pc.rest[0]) && !IsPending(next.0, pc.rest[0]))
    ensures Advances(lim, pc, next, id, b)
  {
    assert pc.rest != [];
    if next.0 == db {
      SameOwing(db, pc, next.1);
      hide Budget, Owing, Owed;
      assert OnCourse(db, next.1, id) && Pays(db, next.1, id, b);
    } else {
      RowDone(lim, db, next.0, pc, next.1, id, b);
    }
    hide OnCourse, Pays, Handled;
  }

  lemma StepAdvances(lim: Limits, db: Db, pc: Pc, c: Chance, id: nat, b: nat)
    requires OnCourse(db, pc, id) && Pays(db, pc, id, b) && Calm(c) && lim.snapshot >= 1 && lim.materialize >= 1
    requires Inv(db) && PcOk(db, pc)
    ensures Advances(lim, pc, Next(lim, db, pc, c), id, b)
  {
    hide Advances, Pays, Next, Calm, Due;
    if InRecipientLoop(pc) {
      RecipientStepAdvances(lim, db, pc, c, id, b);
    } else {
      hide Inv, PcOk;
      match pc {
        case Mark(_) => MarkAdvances(lim, db, pc, c, id, b);
        case MarkCheck(_) => MarkAdvances(lim, db, pc, c, id, b);
        case Snapshot(_) => SnapshotAdvances(lim, db, pc, c, id, b);
        case Claim(_) => ClaimAdvances(lim, db, pc, c, id, b);
        case PendingTest(_) => TestAdvances(lim, db, pc, c, id, b);
        case Complete(_) => CompleteAdvances(lim, db, pc, c, id, b);
        case _ => LookAdvances(lim, db, pc, c, id, b);
      }
    }
  }

  /** The recipient being handled is a row of the broadcast being visited. */
  lemma LoopFacts(db: Db, pc: Pc, id: nat)
    requires InRecipientLoop(pc) && OnCourse(db, pc, id) && Inv(db) && PcOk(db, pc)
    ensures !pc.Cleanup? && (!pc.Each? ==> pc.rest != [])
    ensures pc.rest != [] ==>
      && pc.rest[0] in db.recipients && db.recipients[pc.rest[0]].broadcast == id && RecipientOk(db, pc.rest[0])
  {
    if pc.rest != [] { assert RecipientOk(db, pc.rest[0]); }
    hide Due, Holds;
  }

  lemma RecipientStepAdvances(lim: Limits, db: Db, pc: Pc, c: Chance, id: nat, b: nat)
    requires InRecipientLoop(pc) && OnCourse(db, pc, id) && Pays(db, pc, id, b) && Calm(c)
    requires Inv(db) && PcOk(db, pc)
    ensures Advances(lim, pc, Next(lim, db, pc, c), id, b)
  {
    hide Inv, PcOk, Advances, OnCourse, Pays, Next, Calm, Due, RecipientOk;
    LoopFacts(db, pc, id);
    match pc
    case Save(_, _, _) => SaveAdvances(lim, db, pc, c, id, b);
    case Insert(_, _, _) => InsertAdvances(lim, db, pc, c, id, b);
    case FailRecipient(_, _, _) => HandleAdvances(lim, db, pc, c, id, b);
    case Finish(_, _, _) => HandleAdvances(lim, db, pc, c, id, b);
    case Each(_, rest, sup) =>
      if rest != [] && rest[0] in sup { HandleAdvances(lim, db, pc, c, id, b); }
      else { LookAdvances(lim, db, pc, c, id, b); }
    case _ => LookAdvances(lim, db, pc, c, id, b);
  }

  /** A visit that ends has spent a unit or completed the broadcast; and it
      ends within Rank statements. */
  lemma {:induction false} DriveAdvances(lim: Limits, db: Db, pc: Pc, moments: seq<Moment>, id: nat, b: nat)
    requires Inv(db) && PcOk(db, pc) && OnCourse(db, pc, id) && Pays(db, pc, id, b)
    requires AllCalm(moments) && lim.snapshot >= 1 && lim.materialize >= 1
    ensures var (db', pc') := Drive(lim, db, pc, moments);
      && Inv(db') && (pc'.Idle? ==> Spent(db', id, b))
      && (|moments| > Rank(lim, pc) ==> pc'.Idle?)
    decreases |moments|
  {
    hide Inv, PcOk, OnCourse, Pays, Spent, Next, Rank, Calm;
    if moments != [] {
      var db1 := Pass(db, moments[0].elapsed);
      assert Inv(db1) && PcOk(db1, pc) by {
        TickKeeps(db, db.clock + moments[0].elapsed);
        PcStays(db, db1, pc);
      }
      NotIdle(db, pc, id);
      assert moments[0] in moments;
      PassKeeps(db, pc, id, b, moments[0].elapsed);
      StepAdvances(lim, db1, pc, moments[0].chance, id, b);
      NextKeeps(lim, db1, pc, moments[0].chance);
      var (db2, pc2) := Next(lim, db1, pc, moments[0].chance);
      assert forall m :: m in moments[1..] ==> m in moments;
      if pc2.Idle? {
        assert Drive(lim, db2, pc2, moments[1..]) == (db2, pc2);
      } else {
        DriveAdvances(lim, db2, pc2, moments[1..], id, b);
      }
    } else {
      NotIdle(db, pc, id);
    }
  }

  lemma NotIdle(db: Db, pc: Pc, id: nat)
    requires OnCourse(db, pc, id)
    ensures !pc.Idle?
  {
  }

  // Visit after visit.

  /** What may happen between two visits: time passes, members leave, others
      join too late to count. The expander has the broadcast to itself. */
  ghost predicate Waited(a: Db, b: Db, id: nat) {
    && Inv(b) && b.broadcasts == a.broadcasts && b.recipients == a.recipients && b.nextId == a.nextId
    && (id in a.broadcasts ==> MemberKeys(b, b.broadcasts[id]) <= MemberKeys(a, a.broadcasts[id]))
  }

  /** The broadcast is one ClaimActiveBroadcasts may return. */
  ghost predicate Visitable(db: Db, id: nat) {
    && Inv(db) && Warrants.Underway(db, id) && Rested(db, id)
  }

  datatype Visit = Visit(start: Db, moments: seq<Moment>)

  function VisitFrom(v: Visit, id: nat): Pc
    requires id in v.start.broadcasts
  {
    Mark([Row(id, v.start.broadcasts[id].snapshotComplete)])
  }

  /** Complete calm visits of an active broadcast, leases expired in between. */
  ghost predicate Visits(lim: Limits, db: Db, id: nat, visits: seq<Visit>)
    decreases |visits|
  {
    visits != [] ==>
      && Waited(db, visits[0].start, id) && Visitable(visits[0].start, id) && AllCalm(visits[0].moments)
      && var (db', pc') := Drive(lim, visits[0].start, VisitFrom(visits[0], id), visits[0].moments);
         pc'.Idle? && Visits(lim, db', id, visits[1..])
  }

  lemma WaitingIsFree(a: Db, b: Db, id: nat)
    requires id in a.broadcasts && Waited(a, b, id)
    ensures id in b.broadcasts && Budget(b, id) <= Budget(a, id)
  {
    SubsetCount(Above(MemberKeys(b, b.broadcasts[id]), b.broadcasts[id].cursor),
                Above(MemberKeys(a, a.broadcasts[id]), a.broadcasts[id].cursor));
  }

  lemma VisitBegins(v: Visit, id: nat)
    requires Visitable(v.start, id)
    ensures var pc := VisitFrom(v, id);
      Inv(v.start) && PcOk(v.start, pc) && OnCourse(v.start, pc, id) && Pays(v.start, pc, id, Budget(v.start, id))
  {
  }

  /** A visit is over after six statements a claimed row and ten more. */
  lemma VisitsAreShort(lim: Limits, v: Visit, id: nat)
    requires Visitable(v.start, id) && AllCalm(v.moments) && lim.snapshot >= 1 && lim.materialize >= 1
    requires |v.moments| >= 6 * lim.materialize + 10
    ensures Drive(lim, v.start, VisitFrom(v, id), v.moments).1.Idle?
  {
    VisitBegins(v, id);
    DriveAdvances(lim, v.start, VisitFrom(v, id), v.moments, id, Budget(v.start, id));
  }

  lemma VisitSpends(lim: Limits, v: Visit, id: nat)
    requires Visitable(v.start, id) && AllCalm(v.moments) && lim.snapshot >= 1 && lim.materialize >= 1
    requires Drive(lim, v.start, VisitFrom(v, id), v.moments).1.Idle?
    ensures Spent(Drive(lim, v.start, VisitFrom(v, id), v.moments).0, id, Budget(v.start, id))
  {
    VisitBegins(v, id);
    DriveAdvances(lim, v.start, VisitFrom(v, id), v.moments, id, Budget(v.start, id));
  }

  function AfterVisits(lim: Limits, db: Db, id: nat, visits: seq<Visit>): Db
    requires forall v :: v in visits ==> id in v.start.broadcasts
    decreases |visits|
  {
    if visits == [] then db else
      assert forall v :: v in visits[1..] ==> v in visits;
      AfterVisits(lim, Drive(lim, visits[0].start, VisitFrom(visits[0], id), visits[0].moments).0, id, visits[1..])
  }

  lemma {:induction false} VisitsStartActive(lim: Limits, db: Db, id: nat, visits: seq<Visit>)
    requires Visits(lim, db, id, visits)
    ensures forall v :: v in visits ==> id in v.start.broadcasts
    decreases |visits|
  {
    if visits != [] {
      var v := visits[0];
      VisitsStartActive(lim, Drive(lim, v.start, VisitFrom(v, id), v.moments).0, id, visits[1..]);
    }
  }

  lemma NoVisitAfterCompletion(lim: Limits, db: Db, id: nat, visits: seq<Visit>)
    requires Visits(lim, db, id, visits) && id in db.broadcasts && db.broadcasts[id].status == Completed
    ensures visits == []
  {
  }

  /** Every visit but the completing one costs a unit, so after at most
      Budget + 1 calm visits the broadcast is completed, and it is never visited
      again. */
  lemma {:induction false} VisitsComplete(lim: Limits, db: Db, id: nat, visits: seq<Visit>)
    requires id in db.broadcasts && Visits(lim, db, id, visits) && lim.snapshot >= 1 && lim.materialize >= 1
    ensures forall v :: v in visits ==> id in v.start.broadcasts
    ensures |visits| <= Budget(db, id) + 1
    ensures |visits| == Budget(db, id) + 1 ==>
      var db' := AfterVisits(lim, db, id, visits); id in db'.broadcasts && db'.broadcasts[id].status == Completed
    decreases |visits|
  {
    VisitsStartActive(lim, db, id, visits);
    if visits != [] {
      var v := visits[0];
      WaitingIsFree(db, v.start, id);
      VisitSpends(lim, v, id);
      var db' := Drive(lim, v.start, VisitFrom(v, id), v.moments).0;
      hide Drive, Budget, Waited, Visitable;
      assert Visits(lim, db', id, visits[1..]);
      if db'.broadcasts[id].status == Completed {
        NoVisitAfterCompletion(lim, db', id, visits[1..]);
        assert AfterVisits(lim, db', id, visits[1..]) == db';
      } else {
        VisitsComplete(lim, db', id, visits[1..]);
      }
    }
  }

  /** A broadcast nobody has expanded yet costs six units a member and one
      more. */
  lemma FreshBudget(db: Db, id: nat)
    requires id in db.broadcasts && !db.broadcasts[id].snapshotComplete && db.broadcasts[id].cursor.None?
    requires forall r :: r in db.recipients ==> db.recipients[r].broadcast != id
    ensures Budget(db, id) == 6 * |MemberKeys(db, db.broadcasts[id])| + 1
  {
    NoRowsNoWork(db.recipients, id, db.nextId);
    assert Above(MemberKeys(db, db.broadcasts[id]), None) == MemberKeys(db, db.broadcasts[id]);
  }

  lemma {:induction false} NoRowsNoWork(rows: map<nat, Recipient>, id: nat, n: nat)
    requires forall r :: r in rows ==> rows[r].broadcast != id
    ensures Work(rows, id, n) == 0
  {
    if n > 0 { NoRowsNoWork(rows, id, n - 1); }
  }
}
