/** A report of cancelled can still move in the service as it is: two runs, with
    the service's own batch sizes, to suppressed and to failed. */
module CancelledWitness {
  import opened Options
  import opened Keyset
  import opened BroadcastRows
  import opened BroadcastInvariant
  import opened ExpansionProtocol
  import opened BroadcastTheorems
  import opened EffectiveStatus
  import opened ExpansionRuns

  const MEMBER := Key(0, 1)
  const COPY := [Row(0, true)]
  const FIRST_COPY := [Row(0, false)]

  function Start(): System {
    System(EmptyDb(0), map[])
  }

  /** The first expander stands at pc over db in some run of the service. */
  ghost predicate Stands(db: Db, pc: Pc) {
    Gets(DEFAULT_LIMITS, db, pc, Idle)
  }

  lemma Goes(db: Db, pc: Pc, c: Chance, db': Db, pc': Pc)
    requires Stands(db, pc) && Next(DEFAULT_LIMITS, db, pc, c) == (db', pc')
    ensures Stands(db', pc')
  {
    hide Next, Gets;
    First(DEFAULT_LIMITS, db, pc, Idle, c);
  }

  lemma Happens(db: Db, pc: Pc, a: Action, db': Db)
    requires Stands(db, pc) && !a.Expand? && !a.Crash?
    requires Apply(DEFAULT_LIMITS, System(db, Stand(pc, Idle)), a).db == db'
    ensures Stands(db', pc)
  {
    hide Apply, Gets;
    Outside(DEFAULT_LIMITS, db, pc, Idle, a);
  }

  lemma Crashes(db: Db, pc: Pc)
    requires Stands(db, pc)
    ensures Stands(db, Idle)
  {
    hide Gets;
    Stops(DEFAULT_LIMITS, db, pc, Idle);
  }

  function OnlyBroadcast(status: BroadcastStatus, cursor: Option<Key>, complete: bool): Broadcast {
    Broadcast(status, None, 0, 0, cursor, complete, 0)
  }

  const ONE_MEMBER := map[Member(0, 1) := 0]

  function Created(status: BroadcastStatus): Db {
    Db(0, map[0 := OnlyBroadcast(status, None, false)], ONE_MEMBER, map[], {}, {}, 1, [])
  }

  /** One broadcast, its scan complete, with one pending recipient that has
      failed n times and that nobody holds. */
  ghost predicate Ready(db: Db, n: nat) {
    && db.broadcasts == map[0 := OnlyBroadcast(Expanding, Some(MEMBER), true)]
    && db.recipients.Keys == {1} && db.messages == {}
    && db.recipients[1].broadcast == 0 && db.recipients[1].status == Pending && db.recipients[1].attempts == n
    && db.recipients[1].messageId.None?
    && Claimable(db, 0, 1)
  }

  lemma OnePage(k: Key, limit: nat)
    requires limit >= 1
    ensures Page({k}, None, limit) == [k]
  {
    assert Above({k}, None) == {k};
    SortedIsUnique(Sorted({k}), [k]);
  }

  lemma Setup()
    ensures Stands(Created(Accepted), Idle)
  {
    var joined := EmptyDb(0).(members := ONE_MEMBER);
    BothStart(DEFAULT_LIMITS);
    hide Gets;
    Happens(EmptyDb(0), Idle, Join(0, 1), joined);
    Happens(joined, Idle, Create(0, None), Created(Accepted));
  }

  lemma ActiveFound(db: Db, b: Broadcast)
    requires db.broadcasts == map[0 := b] && Active(b.status) && Due(b, db.clock) && b.createdAt == 0
    ensures ClaimActive(db, 5, {}) == [Row(0, b.snapshotComplete)]
  {
    assert 0 in db.broadcasts;
    assert ActiveKeys(db, {}) == {Key(0, 0)};
    OnePage(Key(0, 0), 5);
  }

  function Scanned1(): Db {
    Db(0, map[0 := OnlyBroadcast(Expanding, Some(MEMBER), true)], ONE_MEMBER,
       map[1 := Recipient(0, 1, Pending, 0, None, None, 0)], {}, {}, 2, [Snapshotted(1, 0, 1, 0, 0)])
  }

  lemma OneBatch()
    ensures SnapshotBatch(Created(Expanding), 0, 200) == Scanned1()
    ensures SnapshotReplyOf(Created(Expanding), 0, 200).Advanced?
  {
    var db := Created(Expanding);
    var b := db.broadcasts[0];
    assert Member(0, 1) in db.members;
    assert MemberKeys(db, b) == {MEMBER};
    OnePage(MEMBER, 200);
    assert InsertMembers(db, 0, [MEMBER]) == InsertMember(db, 0, MEMBER);
  }

  lemma FindStep()
    ensures Next(DEFAULT_LIMITS, Created(Accepted), Idle, CALM) == (Created(Accepted), Mark(FIRST_COPY))
  {
    hide ClaimActive;
    ActiveFound(Created(Accepted), Created(Accepted).broadcasts[0]);
  }

  lemma MarkStep()
    ensures Next(DEFAULT_LIMITS, Created(Accepted), Mark(FIRST_COPY), CALM) == (Created(Expanding), Snapshot(FIRST_COPY))
  {
    assert MarkExpanding(Created(Accepted), 0) == Created(Expanding);
  }

  lemma BatchStep()
    ensures Next(DEFAULT_LIMITS, Created(Expanding), Snapshot(FIRST_COPY), CALM) == (Scanned1(), Claim(FIRST_COPY))
  {
    hide SnapshotBatch, SnapshotReplyOf;
    OneBatch();
  }

  lemma ScannedIsReady()
    ensures Ready(Scanned1(), 0)
  {
  }

  /** The first visit scans the audience and stops. */
  lemma ScanFirst()
    ensures Stands(Scanned1(), Idle) && Ready(Scanned1(), 0)
  {
    hide *;
    Setup();
    FindStep();
    MarkStep();
    BatchStep();
    ScannedIsReady();
    Goes(Created(Accepted), Idle, CALM, Created(Accepted), Mark(FIRST_COPY));
    Goes(Created(Accepted), Mark(FIRST_COPY), CALM, Created(Expanding), Snapshot(FIRST_COPY));
    Goes(Created(Expanding), Snapshot(FIRST_COPY), CALM, Scanned1(), Claim(FIRST_COPY));
    Crashes(Scanned1(), Claim(FIRST_COPY));
  }

  /** The rows after the claim of the only recipient. */
  function Held(db: Db): Db
    requires 1 in db.recipients
  {
    StampClaim(db, Key(db.recipients[1].createdAt, 1))
  }

  lemma OneClaim(db: Db, n: nat)
    requires Ready(db, n)
    ensures ClaimPending(db, 0, 25, {}) == Held(db)
    ensures var rows := ClaimedRows(db, 0, 25, {}); rows != [] && Ids(rows) == [1]
  {
    var k := Key(db.recipients[1].createdAt, 1);
    assert ClaimableKeys(db, 0, {}) == {k} by { assert 1 in db.recipients; }
    OnePage(k, 25);
    assert StampClaims(db, [k]) == StampClaims(StampClaim(db, k), []) == StampClaim(db, k);
  }

  lemma OneReturned()
    ensures Returned([1], []) == [1]
  {
  }

  lemma VisitSteps(db: Db, n: nat)
    requires Ready(db, n)
    ensures Next(DEFAULT_LIMITS, db, Idle, CALM) == (db, Mark(COPY))
    ensures Next(DEFAULT_LIMITS, db, Mark(COPY), CALM) == (db, MarkCheck(COPY))
    ensures Next(DEFAULT_LIMITS, db, MarkCheck(COPY), CALM) == (db, Claim(COPY))
    ensures Next(DEFAULT_LIMITS, db, Claim(COPY), CALM) == (Held(db), Domain(COPY, [1]))
    ensures Next(DEFAULT_LIMITS, Held(db), Domain(COPY, [1]), CALM) == (Held(db), Suppression(COPY, [1]))
  {
    ActiveFound(db, db.broadcasts[0]);
    OneClaim(db, n);
    OneReturned();
    hide ClaimPending, ClaimedRows, ClaimActive, Claimable;
  }

  /** A visit claims the recipient and asks for suppressions. */
  lemma VisitClaims(db: Db, n: nat)
    requires Ready(db, n) && Stands(db, Idle)
    ensures Stands(Held(db), Suppression(COPY, [1]))
  {
    VisitSteps(db, n);
    hide Next, Stands, Claimable;
    Goes(db, Idle, CALM, db, Mark(COPY));
    Goes(db, Mark(COPY), CALM, db, MarkCheck(COPY));
    Goes(db, MarkCheck(COPY), CALM, db, Claim(COPY));
    Goes(db, Claim(COPY), CALM, Held(db), Domain(COPY, [1]));
    Goes(Held(db), Domain(COPY, [1]), CALM, Held(db), Suppression(COPY, [1]));
  }

  /** Some run is in t, where recipient 1 is reported cancelled, and one more
      step makes the report `to`. */
  ghost predicate Moves(t: System, a: Action, to: Reported) {
    && Reaches(DEFAULT_LIMITS, Start(), t)
    && 1 in t.db.recipients && Effective(t.db, 1) == ReportsCancelled
    && var db' := Apply(DEFAULT_LIMITS, t, a).db; 1 in db'.recipients && Effective(db', 1) == to
  }

  /** The owner cancels just before the statement that handles the recipient. */
  lemma CancelThenOverwrite(db: Db, pc: Pc, to: Reported)
    requires Stands(db, pc)
    requires db.broadcasts.Keys == {0} && Active(db.broadcasts[0].status) && db.messages == {}
    requires 1 in db.recipients && db.recipients[1].broadcast == 0 && db.recipients[1].status == Pending
    requires Overwrites(System(db, Stand(pc, Idle)), Expand(1, CALM), 1)
    requires to == if pc.Each? then ReportsSuppressed else ReportsFailed
    ensures exists t, a :: Moves(t, a, to)
  {
    var t := System(CancelBroadcast(db, 0), Stand(pc, Idle));
    Happens(db, pc, Cancel(0), CancelBroadcast(db, 0));
    assert Effective(t.db, 1) == ReportsCancelled;
    assert Overwrites(t, Expand(1, CALM), 1);
    hide Effective, Overwrites;
    GetsOk(DEFAULT_LIMITS, t.db, pc, Idle);
    CancelledMovesWhen(DEFAULT_LIMITS, t, Expand(1, CALM), 1);
    assert Moves(t, Expand(1, CALM), to);
  }

  const SUPPRESSING := CALM.(suppressed := {1})

  lemma SuppressionIsRead(db: Db)
    ensures Next(DEFAULT_LIMITS, db, Suppression(COPY, [1]), SUPPRESSING) == (db, Each(COPY, [1], {1}))
  {
  }

  lemma CancelledMayBecomeSuppressed()
    ensures exists t, a :: Moves(t, a, ReportsSuppressed)
  {
    var db := Held(Scanned1());
    hide Next, Stands, Moves, Ready;
    ScanFirst();
    VisitClaims(Scanned1(), 0);
    SuppressionIsRead(db);
    Goes(db, Suppression(COPY, [1]), SUPPRESSING, db, Each(COPY, [1], {1}));
    CancelThenOverwrite(db, Each(COPY, [1], {1}), ReportsSuppressed);
  }

  // Five failures.

  const BROKEN := CALM.(build := Deterministic)

  lemma FailingSteps(db: Db)
    requires 1 !in db.messages
    ensures Next(DEFAULT_LIMITS, db, Suppression(COPY, [1]), BROKEN) == (db, Each(COPY, [1], {}))
    ensures Next(DEFAULT_LIMITS, db, Each(COPY, [1], {}), BROKEN) == (db, Admit(COPY, [1], {}))
    ensures Next(DEFAULT_LIMITS, db, Admit(COPY, [1], {}), BROKEN) == (db, Build(COPY, [1], {}))
    ensures Next(DEFAULT_LIMITS, db, Build(COPY, [1], {}), BROKEN) == (db, FailRecipient(COPY, [1], {}))
  {
  }

  /** A visit in which the message cannot be built. */
  lemma VisitFails(db: Db, n: nat)
    requires Ready(db, n) && Stands(db, Idle)
    ensures Stands(Held(db), FailRecipient(COPY, [1], {}))
  {
    VisitClaims(db, n);
    var held := Held(db);
    FailingSteps(held);
    hide Next, Stands;
    Goes(held, Suppression(COPY, [1]), BROKEN, held, Each(COPY, [1], {}));
    Goes(held, Each(COPY, [1], {}), BROKEN, held, Admit(COPY, [1], {}));
    Goes(held, Admit(COPY, [1], {}), BROKEN, held, Build(COPY, [1], {}));
    Goes(held, Build(COPY, [1], {}), BROKEN, held, FailRecipient(COPY, [1], {}));
  }

  lemma CountedSteps(db: Db, n: nat)
    requires Ready(db, n) && n + 1 < MAX_RECIPIENT_ATTEMPTS
    ensures var failed := RecordFailure(Held(db), 1);
      && Next(DEFAULT_LIMITS, Held(db), FailRecipient(COPY, [1], {}), CALM) == (failed, Each(COPY, [], {}))
      && Next(DEFAULT_LIMITS, failed, Each(COPY, [], {}), CALM) == (failed, PendingTest(COPY))
      && Next(DEFAULT_LIMITS, failed, PendingTest(COPY), CALM) == (failed, Idle)
      && Ready(failed.(clock := failed.clock + RECIPIENT_CLAIM_LEASE + 1), n + 1)
  {
    var failed := RecordFailure(Held(db), 1);
    assert [1][1..] == [];
    assert 1 in failed.recipients && failed.recipients[1].status == Pending;
    assert HasPending(failed, 0);
  }

  lemma HasTheRow(db: Db, n: nat)
    requires Ready(db, n)
    ensures 1 in db.recipients
  {
  }

  /** One more counted failure, and the lease runs out. */
  lemma OneFailure(db: Db, n: nat) returns (after: Db)
    requires Ready(db, n) && Stands(db, Idle) && n + 1 < MAX_RECIPIENT_ATTEMPTS
    ensures Ready(after, n + 1) && Stands(after, Idle)
  {
    hide Next, Stands, RecordFailure, Held, Ready;
    VisitFails(db, n);
    HasTheRow(db, n);
    CountedSteps(db, n);
    var failed := RecordFailure(Held(db), 1);
    Goes(Held(db), FailRecipient(COPY, [1], {}), CALM, failed, Each(COPY, [], {}));
    Goes(failed, Each(COPY, [], {}), CALM, failed, PendingTest(COPY));
    Goes(failed, PendingTest(COPY), CALM, failed, Idle);
    Happens(failed, Idle, Tick(RECIPIENT_CLAIM_LEASE + 1), failed.(clock := failed.clock + RECIPIENT_CLAIM_LEASE + 1));
    after := failed.(clock := failed.clock + RECIPIENT_CLAIM_LEASE + 1);
  }

  lemma CancelledMayBecomeFailed()
    ensures exists t, a :: Moves(t, a, ReportsFailed)
  {
    var db, n := Scanned1(), 0;
    ScanFirst();
    hide Stands, Ready, Scanned1;
    while n < 4
      invariant n <= 4 && Ready(db, n) && Stands(db, Idle)
    {
      db := OneFailure(db, n);
      n := n + 1;
    }
    LastFailure(db);
  }

  lemma LastFailure(db: Db)
    requires Ready(db, 4) && Stands(db, Idle)
    ensures exists t, a :: Moves(t, a, ReportsFailed)
  {
    VisitFails(db, 4);
    CancelThenOverwrite(Held(db), FailRecipient(COPY, [1], {}), ReportsFailed);
  }
}
