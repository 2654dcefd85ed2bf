/** Bounded work, tick by tick: a tick visits the oldest broadcasts that are due,
    so a broadcast is completed once those not younger than it are. */
module TickProgress {
  import opened Options
  import opened Keyset
  import opened BroadcastRows
  import opened BroadcastInvariant
  import opened ExpansionProtocol
  import opened SnapshotScan
  import opened RecipientWrites
  import opened Progress
  import PacedCompletion
  import opened Warrants

  // A visit in the middle of a tick.

  /** The current visit, as if its broadcast were the only one of the tick. */
  function Focus(pc: Pc): Pc
    requires !pc.Idle? && pc.q != []
  {
    pc.(q := [pc.q[0]])
  }

  /** The same step, with and without the broadcasts that are to follow. */
  ghost predicate FocusOf(pc: Pc, next: (Db, Pc), focused: (Db, Pc))
    requires !pc.Idle? && pc.q != []
  {
    && next.0 == focused.0
    && if focused.1.Idle? then next.1 == NextBroadcast(pc.q)
       else !next.1.Idle? && next.1.q == pc.q && focused.1 == Focus(next.1)
  }

  lemma MarkFocus(lim: Limits, db: Db, pc: Pc, c: Chance)
    requires (pc.Mark? || pc.MarkCheck?) && pc.q != []
    ensures FocusOf(pc, Next(lim, db, pc, c), Next(lim, db, Focus(pc), c))
  {
    hide MarkExpanding;
  }

  lemma BatchFocus(lim: Limits, db: Db, pc: Pc, c: Chance)
    requires (pc.Snapshot? || pc.Claim?) && pc.q != []
    ensures FocusOf(pc, Next(lim, db, pc, c), Next(lim, db, Focus(pc), c))
  {
    hide SnapshotBatch, SnapshotReplyOf, ClaimPending, ClaimedRows, Ids, Returned;
  }

  lemma CheckFocus(lim: Limits, db: Db, pc: Pc, c: Chance)
    requires (pc.Domain? || pc.Suppression? || pc.PendingTest?) && pc.q != []
    ensures FocusOf(pc, Next(lim, db, pc, c), Next(lim, db, Focus(pc), c))
  {
    hide HasPending;
  }

  lemma EndFocus(lim: Limits, db: Db, pc: Pc, c: Chance)
    requires (pc.FailBroadcast? || pc.Complete?) && pc.q != []
    ensures FocusOf(pc, Next(lim, db, pc, c), Next(lim, db, Focus(pc), c))
  {
    hide MarkFailed, CompleteBroadcast;
  }

  /** A visit does not depend on the broadcasts that are to follow. */
  lemma FocusSteps(lim: Limits, db: Db, pc: Pc, c: Chance)
    requires !pc.Idle? && pc.q != []
    ensures FocusOf(pc, Next(lim, db, pc, c), Next(lim, db, Focus(pc), c))
  {
    hide FocusOf, NextForRecipient;
    if InRecipientLoop(pc) {
      LoopFocusSteps(db, pc, c);
    } else {
      match pc {
        case Mark(_) => MarkFocus(lim, db, pc, c);
        case MarkCheck(_) => MarkFocus(lim, db, pc, c);
        case Snapshot(_) => BatchFocus(lim, db, pc, c);
        case Claim(_) => BatchFocus(lim, db, pc, c);
        case FailBroadcast(_) => EndFocus(lim, db, pc, c);
        case Complete(_) => EndFocus(lim, db, pc, c);
        case _ => CheckFocus(lim, db, pc, c);
      }
    }
  }

  lemma LoopFocusSteps(db: Db, pc: Pc, c: Chance)
    requires InRecipientLoop(pc) && pc.q != []
    ensures FocusOf(pc, NextForRecipient(db, pc, c), NextForRecipient(db, Focus(pc), c))
  {
    hide MarkSuppressed, RecordFailure, SaveFile, InsertMessage, DeleteFile, MarkMaterialized, InsertReplyOf;
  }

  // What a visit leaves alone: the other broadcasts.

  /** Nothing the progress of id depends on has changed. */
  ghost predicate Same(a: Db, b: Db, id: nat) {
    && id in a.broadcasts && id in b.broadcasts && b.broadcasts[id] == a.broadcasts[id]
    && Budget(b, id) == Budget(a, id) && (Rested(a, id) ==> Rested(b, id))
  }

  lemma {:induction false} WorkWidens(p: map<nat, Recipient>, q: map<nat, Recipient>, id: nat, m: nat, n: nat)
    requires m <= n && forall r :: CreditAt(p, id, r) == CreditAt(q, id, r)
    requires forall r :: r >= m ==> CreditAt(p, id, r) == 0
    ensures Work(p, id, m) == Work(q, id, n)
  {
    if n == m { SameWork(p, q, id, n); } else { WorkWidens(p, q, id, m, n - 1); }
  }

  /** The rows of broadcast id are the same, and there are no others. */
  ghost predicate SameRows(a: Db, b: Db, id: nat) {
    && (forall r :: r in a.recipients && a.recipients[r].broadcast == id ==> r in b.recipients && b.recipients[r] == a.recipients[r])
    && (forall r :: r in b.recipients && b.recipients[r].broadcast == id ==> r in a.recipients && a.recipients[r].broadcast == id)
  }

  lemma SameWithRows(a: Db, b: Db, id: nat)
    requires id in a.broadcasts && id in b.broadcasts && b.broadcasts[id] == a.broadcasts[id]
    requires SameRows(a, b, id) && b.members == a.members && a.clock <= b.clock && a.nextId <= b.nextId && IdsFresh(a)
    ensures Same(a, b, id)
  {
    WorkWidens(a.recipients, b.recipients, id, a.nextId, b.nextId);
    SameMemberKeys(a, b, a.broadcasts[id], b.broadcasts[id]);
  }

  /** The recipient being handled is one of the current broadcast. */
  ghost predicate HandlesCurrent(db: Db, pc: Pc)
    requires !pc.Idle? && pc.q != []
  {
    InRecipientLoop(pc) && pc.rest != [] ==> pc.rest[0] in db.recipients && db.recipients[pc.rest[0]].broadcast == pc.q[0].id
  }

  lemma HandledIsCurrent(db: Db, pc: Pc)
    requires PcOk(db, pc) && !pc.Idle?
    ensures pc.q != [] && HandlesCurrent(db, pc)
  {
  }

  lemma OtherRowSame(a: Db, pc: Pc, b: Db, r: nat)
    requires !pc.Idle? && pc.q != [] && HandlesCurrent(a, pc)
    requires r in a.recipients && r in b.recipients && a.recipients[r].broadcast != pc.q[0].id
    requires RowStep(pc, r, a.recipients[r], b.recipients[r])
    ensures b.recipients[r] == a.recipients[r]
  {
  }

  lemma OtherRowsSame(a: Db, pc: Pc, b: Db, id: nat)
    requires !pc.Idle? && pc.q != [] && HandlesCurrent(a, pc) && RowsStep(a, pc, b) && id != pc.q[0].id
    requires forall r :: r in a.recipients && r in b.recipients ==> b.recipients[r].broadcast == a.recipients[r].broadcast
    ensures SameRows(a, b, id)
  {
    hide RowStep, HandlesCurrent;
    forall r | r in a.recipients && a.recipients[r].broadcast == id
      ensures r in b.recipients && b.recipients[r] == a.recipients[r]
    {
      OtherRowSame(a, pc, b, r);
    }
  }

  lemma OthersRows(lim: Limits, db: Db, pc: Pc, c: Chance, id: nat)
    requires Inv(db) && PcOk(db, pc) && !pc.Idle? && id != pc.q[0].id
    ensures SameRows(db, Next(lim, db, pc, c).0, id)
  {
    hide Next, Inv, PcOk, SameRows, RowsStep, HandlesCurrent;
    HandledIsCurrent(db, pc);
    StepRows(lim, db, pc, c);
    NextKeeps(lim, db, pc, c);
    RowsKeepTheirBroadcast(db, Next(lim, db, pc, c).0);
    OtherRowsSame(db, pc, Next(lim, db, pc, c).0, id);
  }

  lemma RowsKeepTheirBroadcast(a: Db, b: Db)
    requires Evolves(a, b)
    ensures forall r :: r in a.recipients && r in b.recipients ==> b.recipients[r].broadcast == a.recipients[r].broadcast
  {
    forall r | r in a.recipients && r in b.recipients ensures b.recipients[r].broadcast == a.recipients[r].broadcast {
      assert RecipientEvolves(a.recipients[r], b.recipients[r]);
    }
  }

  lemma OthersBroadcast(lim: Limits, db: Db, pc: Pc, c: Chance, id: nat)
    requires !pc.Idle? && pc.q != [] && id in db.broadcasts && id != pc.q[0].id
    ensures var db' := Next(lim, db, pc, c).0; id in db'.broadcasts && db'.broadcasts[id] == db.broadcasts[id]
  {
    hide SnapshotBatch, ClaimedRows;
    if InRecipientLoop(pc) {
      LoopKeepsBroadcasts(db, pc, c);
      hide NextForRecipient;
    } else if pc.Snapshot? {
      BatchLeavesCursor(db, pc.q[0].id, lim.snapshot, id);
    } else if pc.Claim? {
      StampClaimsFrame(db, ClaimedRows(db, pc.q[0].id, lim.materialize, c.locked));
    }
  }

  lemma OthersStay(lim: Limits, db: Db, pc: Pc, c: Chance, id: nat)
    requires Inv(db) && PcOk(db, pc) && !pc.Idle? && id in db.broadcasts && id != pc.q[0].id
    ensures Same(db, Next(lim, db, pc, c).0, id)
  {
    var db' := Next(lim, db, pc, c).0;
    OthersRows(lim, db, pc, c, id);
    OthersBroadcast(lim, db, pc, c, id);
    NextKeepsMembers(lim, db, pc, c);
    NextKeeps(lim, db, pc, c);
    InvKeepsIdsFresh(db);
    hide Next, Inv, PcOk, SameRows, Same;
    SameWithRows(db, db', id);
  }

  lemma SameTransitive(a: Db, b: Db, c: Db, id: nat)
    requires Same(a, b, id) && Same(b, c, id)
    ensures Same(a, c, id)
  {
  }

  lemma PassIsSame(db: Db, elapsed: nat, id: nat)
    requires id in db.broadcasts
    ensures Same(db, Pass(db, elapsed), id)
  {
    SameBudget(db, Pass(db, elapsed), id);
    SamePending(db, Pass(db, elapsed), Idle, id);
  }

  // A tick.

  function Todo(pc: Pc): seq<Row> {
    if pc.Idle? then [] else pc.q
  }

  ghost predicate DistinctIds(rows: seq<Row>) {
    forall i, j :: 0 <= i < j < |rows| ==> rows[i].id != rows[j].id
  }

  predicate Names(rows: seq<Row>, id: nat) {
    exists i :: 0 <= i < |rows| && rows[i].id == id
  }

  /** A broadcast as it was copied when the tick began, its leases over. */
  ghost predicate Ready(start: Db, row: Row) {
    && row.id in start.broadcasts && Active(start.broadcasts[row.id].status)
    && Due(start.broadcasts[row.id], start.clock) && Rested(start, row.id)
    && row.snapshotComplete == start.broadcasts[row.id].snapshotComplete
  }

  /** The current visit is on course to spend, counted from the tick's start. */
  ghost predicate Visiting(start: Db, db: Db, pc: Pc)
    requires !pc.Idle? && pc.q != []
  {
    && pc.q[0].id in start.broadcasts
    && OnCourse(db, Focus(pc), pc.q[0].id) && Pays(db, Focus(pc), pc.q[0].id, Budget(start, pc.q[0].id))
  }

  ghost predicate AllSpent(start: Db, db: Db, done: seq<Row>) {
    forall row :: row in done ==> row.id in start.broadcasts && Spent(db, row.id, Budget(start, row.id))
  }

  ghost predicate AllWaiting(start: Db, db: Db, todo: seq<Row>) {
    forall i :: 1 <= i < |todo| ==> Ready(start, todo[i]) && Same(start, db, todo[i].id)
  }

  ghost predicate RestSame(start: Db, db: Db, rows: seq<Row>) {
    forall id :: id in start.broadcasts && !Names(rows, id) ==> Same(start, db, id)
  }

  /** In the tick that began at `start`: the broadcasts done have spent, the
      current one is on course, the others are as they were. */
  ghost predicate InTick(start: Db, db: Db, pc: Pc, done: seq<Row>) {
    && Inv(db) && PcOk(db, pc) && Evolves(start, db) && db.broadcasts.Keys == start.broadcasts.Keys
    && (!pc.Idle? ==> pc.q != [] && Visiting(start, db, pc))
    && DistinctIds(done + Todo(pc)) && AllSpent(start, db, done)
    && AllWaiting(start, db, Todo(pc)) && RestSame(start, db, done + Todo(pc))
  }

  lemma SpentStays(a: Db, b: Db, id: nat, budget: nat)
    requires Spent(a, id, budget) && Same(a, b, id)
    ensures Spent(b, id, budget)
  {
  }

  /** The next broadcast's visit begins. */
  lemma NextVisitBegins(start: Db, db: Db, q: seq<Row>)
    requires Inv(db) && Evolves(start, db) && |q| > 1 && Ready(start, q[1]) && Same(start, db, q[1].id)
    ensures Visiting(start, db, Mark(q[1..]))
  {
    hide Inv, Budget, Rested, OnCourse, Pays;
    var row := q[1];
    assert Visitable(db, row.id) by { assert db.clock >= start.clock; }
    assert Focus(Mark(q[1..])) == VisitFrom(Visit(db, []), row.id);
    VisitBegins(Visit(db, []), row.id);
  }

  /** What a step of the current visit leaves of the others. */
  ghost predicate OthersSame(a: Db, b: Db, current: nat) {
    forall id :: id in a.broadcasts && id != current ==> Same(a, b, id)
  }

  lemma VisitStep(lim: Limits, start: Db, db: Db, pc: Pc, c: Chance)
    requires Inv(db) && PcOk(db, pc) && !pc.Idle? && Visiting(start, db, pc)
    requires Calm(c) && lim.snapshot >= 1 && lim.materialize >= 1
    ensures var id := pc.q[0].id;
      var (db', pc') := Next(lim, db, pc, c);
      && OthersSame(db, db', id)
      && (if FocusEnds(lim, db, pc, c) then pc' == NextBroadcast(pc.q) && Spent(db', id, Budget(start, id))
          else !pc'.Idle? && pc'.q == pc.q && Visiting(start, db', pc') && Rank(lim, Focus(pc')) < Rank(lim, Focus(pc)))
  {
    hide Next, Inv, Budget, OnCourse, Pays, Calm, Same, Rank, Spent;
    var (db', pc') := Next(lim, db, pc, c);
    FocusSteps(lim, db, pc, c);
    FocusOk(db, pc);
    StepAdvances(lim, db, Focus(pc), c, pc.q[0].id, Budget(start, pc.q[0].id));
    forall id | id in db.broadcasts && id != pc.q[0].id ensures Same(db, db', id) {
      OthersStay(lim, db, pc, c, id);
    }
    hide PcOk;
  }

  predicate FocusEnds(lim: Limits, db: Db, pc: Pc, c: Chance)
    requires !pc.Idle? && pc.q != []
  {
    Next(lim, db, Focus(pc), c).1.Idle?
  }

  lemma FocusOk(db: Db, pc: Pc)
    requires PcOk(db, pc) && !pc.Idle?
    ensures PcOk(db, Focus(pc))
  {
  }

  /** The broadcasts done after a step that was, or was not, the last of its
      visit. */
  function DoneAfter(lim: Limits, db: Db, pc: Pc, c: Chance, done: seq<Row>): seq<Row>
    requires !pc.Idle? && pc.q != []
  {
    if FocusEnds(lim, db, pc, c) then done + [pc.q[0]] else done
  }

  lemma TodoMoves(lim: Limits, db: Db, pc: Pc, c: Chance, done: seq<Row>, pc': Pc)
    requires !pc.Idle? && pc.q != []
    requires if FocusEnds(lim, db, pc, c) then pc' == NextBroadcast(pc.q) else !pc'.Idle? && pc'.q == pc.q
    ensures Todo(pc') == if FocusEnds(lim, db, pc, c) then Todo(pc)[1..] else Todo(pc)
    ensures DoneAfter(lim, db, pc, c, done) + Todo(pc') == done + Todo(pc)
  {
    hide FocusEnds;
    assert pc.q == [pc.q[0]] + pc.q[1..];
  }

  lemma DoneNames(done: seq<Row>, todo: seq<Row>)
    requires DistinctIds(done + todo) && todo != []
    ensures forall row :: row in done ==> row.id != todo[0].id
    ensures forall i :: 1 <= i < |todo| ==> todo[i].id != todo[0].id
    ensures Names(done + todo, todo[0].id)
  {
    var rows := done + todo;
    assert rows[|done|] == todo[0];
    forall row | row in done ensures row.id != todo[0].id {
      var i :| 0 <= i < |done| && done[i] == row;
      assert rows[i] == row;
    }
    assert forall i :: 1 <= i < |todo| ==> rows[|done| + i] == todo[i];
  }

  lemma KnownStays(a: Db, b: Db)
    requires Evolves(a, b)
    ensures forall id :: id in a.broadcasts ==> id in b.broadcasts
  {
  }

  /** Whoever is not the current broadcast is as before. */
  lemma OthersGoOn(start: Db, a: Db, b: Db, done: seq<Row>, todo: seq<Row>)
    requires todo != [] && DistinctIds(done + todo) && OthersSame(a, b, todo[0].id)
    requires forall id :: id in start.broadcasts ==> id in a.broadcasts
    requires AllSpent(start, a, done) && AllWaiting(start, a, todo) && RestSame(start, a, done + todo)
    ensures AllSpent(start, b, done) && AllWaiting(start, b, todo) && RestSame(start, b, done + todo)
  {
    hide Same, Spent, Ready, DistinctIds, Names, Budget;
    DoneNames(done, todo);
    forall row | row in done ensures row.id in start.broadcasts && Spent(b, row.id, Budget(start, row.id)) {
      SpentStays(a, b, row.id, Budget(start, row.id));
    }
    forall i | 1 <= i < |todo| ensures Same(start, b, todo[i].id) {
      ReadyIsKnown(start, todo[i]);
      SameTransitive(start, a, b, todo[i].id);
    }
    forall id | id in start.broadcasts && !Names(done + todo, id) ensures Same(start, b, id) {
      SameTransitive(start, a, b, id);
    }
  }

  lemma ReadyIsKnown(start: Db, row: Row)
    requires Ready(start, row)
    ensures row.id in start.broadcasts
  {
  }

  /** The visit is over: its broadcast is done. */
  lemma VisitCounts(start: Db, db: Db, done: seq<Row>, todo: seq<Row>)
    requires todo != [] && todo[0].id in start.broadcasts && Spent(db, todo[0].id, Budget(start, todo[0].id))
    requires AllSpent(start, db, done) && AllWaiting(start, db, todo)
    ensures AllSpent(start, db, done + [todo[0]]) && AllWaiting(start, db, todo[1..])
  {
    hide Same, Spent, Ready, Budget;
  }

  /** One statement of the tick. */
  lemma TickStep(lim: Limits, start: Db, db: Db, pc: Pc, c: Chance, done: seq<Row>)
    requires InTick(start, db, pc, done) && !pc.Idle? && Calm(c) && lim.snapshot >= 1 && lim.materialize >= 1
    ensures var (db', pc') := Next(lim, db, pc, c);
      InTick(start, db', pc', DoneAfter(lim, db, pc, c, done))
  {
    hide Next, Inv, PcOk, Evolves, Spent, Same, Calm, FocusEnds, DistinctIds, OthersSame, AllSpent, AllWaiting, RestSame;
    hide OnCourse, Pays, Budget, Todo;
    var (db', pc') := Next(lim, db, pc, c);
    NextKeeps(lim, db, pc, c);
    PacedCompletion.BroadcastsStay(lim, db, pc, c);
    EvolvesTransitive(start, db, db');
    VisitStep(lim, start, db, pc, c);
    TodoMoves(lim, db, pc, c, done, pc');
    KnownStays(start, db);
    TodoIs(pc);
    OthersGoOn(start, db, db', done, Todo(pc));
    if FocusEnds(lim, db, pc, c) {
      VisitCounts(start, db', done, Todo(pc));
      if |pc.q| > 1 {
        SecondWaits(start, db', pc.q);
        NextVisitBegins(start, db', pc.q);
      }
    }
  }

  lemma TodoIs(pc: Pc)
    requires !pc.Idle?
    ensures Todo(pc) == pc.q
  {
  }

  lemma SecondWaits(start: Db, db: Db, q: seq<Row>)
    requires AllWaiting(start, db, q) && |q| > 1
    ensures Ready(start, q[1]) && Same(start, db, q[1].id)
  {
  }

  // The whole tick.

  /** What ClaimActiveBroadcasts finds, and where the tick begins. */
  function TickPc(lim: Limits, start: Db): Pc {
    var rows := ClaimActive(start, lim.broadcasts, {});
    if rows == [] then Idle else Mark(rows)
  }

  lemma TickBegins(lim: Limits, start: Db, c: Chance)
    requires Calm(c)
    ensures Next(lim, start, Idle, c) == (start, TickPc(lim, start))
  {
  }

  /** Every due broadcast's leases are over. */
  ghost predicate AllRested(db: Db) {
    forall id :: Underway(db, id) ==> Rested(db, id)
  }

  lemma FoundRow(db: Db, limit: nat, i: nat)
    requires i < |ClaimActive(db, limit, {})|
    ensures var page := Page(ActiveKeys(db, {}), None, limit);
      var row := ClaimActive(db, limit, {})[i];
      && i < |page| && page[i] in page && page[i] in ActiveKeys(db, {})
      && page[i].id >= 0 && page[i] == Key(db.broadcasts[row.id].createdAt, row.id)
      && row == RowOf(db, page[i])
  {
    var page := Page(ActiveKeys(db, {}), None, limit);
    assert page[i] in page;
  }

  lemma FoundIsReady(db: Db, limit: nat, i: nat)
    requires i < |ClaimActive(db, limit, {})| && AllRested(db)
    ensures Ready(db, ClaimActive(db, limit, {})[i])
  {
    hide ClaimActive, Page;
    FoundRow(db, limit, i);
  }

  lemma FoundAreDistinct(db: Db, limit: nat)
    ensures DistinctIds(ClaimActive(db, limit, {}))
  {
    var rows := ClaimActive(db, limit, {});
    hide ClaimActive, Page;
    forall i, j | 0 <= i < j < |rows| ensures rows[i].id != rows[j].id {
      FoundRow(db, limit, i);
      FoundRow(db, limit, j);
    }
  }

  lemma NothingDone(start: Db, q: seq<Row>)
    requires DistinctIds(q) && forall i :: 0 <= i < |q| ==> Ready(start, q[i])
    ensures DistinctIds([] + q) && AllSpent(start, start, []) && AllWaiting(start, start, q) && RestSame(start, start, [] + q)
  {
    assert [] + q == q;
    assert forall id :: id in start.broadcasts ==> Same(start, start, id);
  }

  lemma FirstVisitBegins(start: Db, q: seq<Row>)
    requires Inv(start) && q != [] && Ready(start, q[0])
    ensures Visiting(start, start, Mark(q))
  {
    hide Inv, Budget, Rested, OnCourse, Pays;
    assert Focus(Mark(q)) == VisitFrom(Visit(start, []), q[0].id);
    VisitBegins(Visit(start, []), q[0].id);
  }

  lemma TickStarts(lim: Limits, start: Db)
    requires Inv(start) && AllRested(start)
    ensures InTick(start, start, TickPc(lim, start), [])
  {
    hide Inv, AllRested, DistinctIds, AllSpent, AllWaiting, RestSame, Visiting, Evolves, Ready, ClaimActive;
    var rows := ClaimActive(start, lim.broadcasts, {});
    EvolvesReflexive(start);
    FoundAreDistinct(start, lim.broadcasts);
    forall i | 0 <= i < |rows| ensures Ready(start, rows[i]) { FoundIsReady(start, lim.broadcasts, i); }
    NothingDone(start, rows);
    if rows != [] { FirstVisitBegins(start, rows); }
  }

  lemma SameOnPass(start: Db, db: Db, elapsed: nat, current: nat)
    ensures OthersSame(db, Pass(db, elapsed), current)
  {
    forall id | id in db.broadcasts && id != current ensures Same(db, Pass(db, elapsed), id) { PassIsSame(db, elapsed, id); }
  }

  /** Time passes in the middle of a tick. */
  lemma TickPasses(start: Db, db: Db, pc: Pc, done: seq<Row>, elapsed: nat)
    requires InTick(start, db, pc, done) && !pc.Idle?
    ensures InTick(start, Pass(db, elapsed), pc, done)
  {
    hide Inv, PcOk, Evolves, OnCourse, Pays, Budget, DistinctIds, AllSpent, AllWaiting, RestSame, OthersSame;
    var later := Pass(db, elapsed);
    TickKeeps(db, db.clock + elapsed);
    PcStays(db, later, pc);
    EvolvesTransitive(start, db, later);
    PassKeeps(db, Focus(pc), pc.q[0].id, Budget(start, pc.q[0].id), elapsed);
    SameOnPass(start, db, elapsed, pc.q[0].id);
    KnownStays(start, db);
    OthersGoOn(start, db, later, done, Todo(pc));
  }

  /** Statements of n visits. */
  function VisitRanks(lim: Limits, n: nat): nat {
    n * (6 * lim.materialize + 10)
  }

  /** Statements left in the tick. */
  function TickRank(lim: Limits, pc: Pc): nat {
    if pc.Idle? || pc.q == [] then 0 else Rank(lim, Focus(pc)) + 1 + VisitRanks(lim, |pc.q| - 1)
  }

  lemma TickRankFalls(lim: Limits, start: Db, db: Db, pc: Pc, c: Chance, done: seq<Row>)
    requires InTick(start, db, pc, done) && !pc.Idle? && Calm(c) && lim.snapshot >= 1 && lim.materialize >= 1
    ensures TickRank(lim, Next(lim, db, pc, c).1) < TickRank(lim, pc)
  {
    hide Next, Inv, PcOk, Evolves, Visiting, DistinctIds, AllSpent, AllWaiting, RestSame, OthersSame, FocusEnds, Calm;
    VisitStep(lim, start, db, pc, c);
    hide Rank, VisitRanks;
    if FocusEnds(lim, db, pc, c) && |pc.q| > 1 {
      OneVisitLess(lim, |pc.q| - 1);
      FreshRank(lim, pc.q[1..]);
    }
  }

  lemma FreshRank(lim: Limits, q: seq<Row>)
    requires q != []
    ensures Rank(lim, Focus(Mark(q))) == 6 * lim.materialize + 9
  {
  }

  lemma OneVisitLess(lim: Limits, n: nat)
    requires n >= 1
    ensures VisitRanks(lim, n) == VisitRanks(lim, n - 1) + 6 * lim.materialize + 10
  {
  }

  /** A tick that ends has visited all it found, and it ends within TickRank
      statements. */
  lemma {:induction false} TickDrives(lim: Limits, start: Db, db: Db, pc: Pc, moments: seq<Moment>, done: seq<Row>)
    requires InTick(start, db, pc, done) && AllCalm(moments) && lim.snapshot >= 1 && lim.materialize >= 1
    ensures var (db', pc') := Drive(lim, db, pc, moments);
      && (pc'.Idle? ==> InTick(start, db', Idle, done + Todo(pc)))
      && (|moments| >= TickRank(lim, pc) ==> pc'.Idle?)
    decreases |moments|
  {
    hide InTick, Next, TickRank, Calm;
    if pc.Idle? {
      assert done + Todo(pc) == done;
    } else if moments == [] {
      RankIsPositive(lim, start, db, pc, done);
    } else {
      var db1 := Pass(db, moments[0].elapsed);
      var c := moments[0].chance;
      assert moments[0] in moments;
      TickPasses(start, db, pc, done, moments[0].elapsed);
      TickStep(lim, start, db1, pc, c, done);
      TickRankFalls(lim, start, db1, pc, c, done);
      var (db2, pc2) := Next(lim, db1, pc, c);
      StepTodo(lim, start, db1, pc, c, done);
      assert forall m :: m in moments[1..] ==> m in moments;
      TickDrives(lim, start, db2, pc2, moments[1..], DoneAfter(lim, db1, pc, c, done));
    }
  }

  lemma RankIsPositive(lim: Limits, start: Db, db: Db, pc: Pc, done: seq<Row>)
    requires InTick(start, db, pc, done) && !pc.Idle?
    ensures pc.q != [] && TickRank(lim, pc) > 0
  {
    hide Rank, Visiting, Inv, PcOk, Evolves, VisitRanks;
  }

  lemma StepTodo(lim: Limits, start: Db, db: Db, pc: Pc, c: Chance, done: seq<Row>)
    requires InTick(start, db, pc, done) && !pc.Idle? && Calm(c) && lim.snapshot >= 1 && lim.materialize >= 1
    ensures pc.q != [] && DoneAfter(lim, db, pc, c, done) + Todo(Next(lim, db, pc, c).1) == done + Todo(pc)
  {
    hide Next, Inv, PcOk, Evolves, Visiting, DistinctIds, AllSpent, AllWaiting, RestSame, OthersSame, FocusEnds, Calm, Todo, Rank;
    VisitStep(lim, start, db, pc, c);
    TodoMoves(lim, db, pc, c, done, Next(lim, db, pc, c).1);
  }

  // Tick after tick.

  function KeyOf(db: Db, id: nat): Key
    requires id in db.broadcasts
  {
    Key(db.broadcasts[id].createdAt, id)
  }

  /** The broadcast is still to be expanded and not younger than k. */
  predicate Ahead(db: Db, k: Key, id: nat) {
    && id in db.broadcasts && (db.broadcasts[id].status == Accepted || db.broadcasts[id].status == Expanding)
    && !Less(k, KeyOf(db, id))
  }

  /** A broadcast's budget and one tick more for its completion. */
  function CostOf(db: Db, k: Key, id: nat): nat {
    if Ahead(db, k, id) then Budget(db, id) + 1 else 0
  }

  /** The cost of all broadcasts with numbers below n. */
  function Cost(db: Db, k: Key, n: nat): nat {
    if n == 0 then 0 else Cost(db, k, n - 1) + CostOf(db, k, n - 1)
  }

  lemma {:induction false} CostFalls(a: Db, b: Db, k: Key, n: nat)
    requires forall id: nat :: id < n ==> CostOf(b, k, id) <= CostOf(a, k, id)
    ensures Cost(b, k, n) <= Cost(a, k, n)
    ensures forall id: nat :: id < n && CostOf(b, k, id) < CostOf(a, k, id) ==> Cost(b, k, n) < Cost(a, k, n)
  {
    if n > 0 { CostFalls(a, b, k, n - 1); }
  }

  lemma {:induction false} CostCovers(db: Db, k: Key, n: nat, id: nat)
    requires id < n
    ensures CostOf(db, k, id) <= Cost(db, k, n)
  {
    if id < n - 1 { CostCovers(db, k, n - 1, id); }
  }

  /** Whoever is younger than k was numbered from n on. */
  ghost predicate YoungerFrom(db: Db, k: Key, n: nat) {
    forall id :: id in db.broadcasts && id >= n ==> Less(k, KeyOf(db, id))
  }

  /** What may happen between two ticks: time passes, members leave, others join
      too late to count, owners cancel, reschedule and create broadcasts. */
  ghost predicate Between(a: Db, b: Db) {
    && Inv(b) && Evolves(a, b) && b.recipients == a.recipients
    && (forall id :: id in a.broadcasts ==>
          && b.broadcasts[id].cursor == a.broadcasts[id].cursor
          && b.broadcasts[id].snapshotComplete == a.broadcasts[id].snapshotComplete
          && MemberKeys(b, b.broadcasts[id]) <= MemberKeys(a, a.broadcasts[id]))
    && (forall id :: id in b.broadcasts && id !in a.broadcasts ==> id >= a.nextId && b.broadcasts[id].createdAt >= a.clock)
  }

  lemma {:induction false} WorkPads(rows: map<nat, Recipient>, id: nat, m: nat, n: nat)
    requires m <= n && forall r :: r in rows ==> r < m
    ensures Work(rows, id, n) == Work(rows, id, m)
  {
    WorkWidens(rows, rows, id, m, n);
  }

  lemma BetweenCosts(a: Db, b: Db, k: Key, id: nat)
    requires Inv(a) && Between(a, b) && (id in b.broadcasts && id !in a.broadcasts ==> Less(k, KeyOf(b, id)))
    ensures CostOf(b, k, id) <= CostOf(a, k, id)
  {
    if Ahead(b, k, id) {
      var x, y := a.broadcasts[id], b.broadcasts[id];
      assert BroadcastEvolves(x, y);
      InvKeepsIdsFresh(a);
      WorkPads(a.recipients, id, a.nextId, b.nextId);
      hide Inv, Between, Evolves, Work, MemberKeys;
      SubsetCount(Above(MemberKeys(b, y), y.cursor), Above(MemberKeys(a, x), x.cursor));
    }
  }

  /** The tick finds something, and first of all a broadcast not younger than any
      that is due. */
  lemma OldestIsFound(db: Db, limit: nat, id: nat)
    requires limit >= 1 && Underway(db, id)
    ensures var rows := ClaimActive(db, limit, {});
      rows != [] && Ahead(db, KeyOf(db, id), rows[0].id)
  {
    var k := KeyOf(db, id);
    var page := Page(ActiveKeys(db, {}), None, limit);
    assert k in ActiveKeys(db, {});
    PageIsPrefix(ActiveKeys(db, {}), None, limit, k);
    assert page != [] by { assert |page| < limit ==> k in page; }
    FoundRow(db, limit, 0);
    hide Page, ClaimActive;
    assert page[0] in page;
    assert !Less(k, page[0]);
  }

  /** What a finished tick comes to. */
  ghost predicate Ticked(start: Db, db: Db, rows: seq<Row>) {
    && Inv(db) && Evolves(start, db) && db.broadcasts.Keys == start.broadcasts.Keys
    && AllSpent(start, db, rows) && RestSame(start, db, rows)
  }

  lemma TickEnds(lim: Limits, start: Db, moments: seq<Moment>)
    requires Inv(start) && AllRested(start) && AllCalm(moments) && lim.snapshot >= 1 && lim.materialize >= 1
    requires Drive(lim, start, TickPc(lim, start), moments).1.Idle?
    ensures Ticked(start, Drive(lim, start, TickPc(lim, start), moments).0, ClaimActive(start, lim.broadcasts, {}))
  {
    hide Drive, Inv, AllRested, AllSpent, RestSame, Evolves, AllWaiting, DistinctIds, ClaimActive;
    var rows := ClaimActive(start, lim.broadcasts, {});
    TickStarts(lim, start);
    TickDrives(lim, start, start, TickPc(lim, start), moments, []);
    assert [] + Todo(TickPc(lim, start)) == rows;
    assert rows + Todo(Idle) == rows;
  }

  /** A tick is over after six statements a claimed row and ten more, for each
      broadcast visited. */
  lemma TicksAreShort(lim: Limits, start: Db, moments: seq<Moment>)
    requires Inv(start) && AllRested(start) && AllCalm(moments) && lim.snapshot >= 1 && lim.materialize >= 1
    requires |moments| >= |ClaimActive(start, lim.broadcasts, {})| * (6 * lim.materialize + 10)
    ensures Drive(lim, start, TickPc(lim, start), moments).1.Idle?
  {
    hide Drive, Inv, AllRested, ClaimActive, InTick, Rank;
    var rows := ClaimActive(start, lim.broadcasts, {});
    TickStarts(lim, start);
    if rows != [] {
      FreshRank(lim, rows);
      OneVisitLess(lim, |rows|);
    }
    TickDrives(lim, start, start, TickPc(lim, start), moments, []);
  }

  lemma SpentCosts(start: Db, db: Db, k: Key, id: nat)
    requires Evolves(start, db) && id in start.broadcasts && Active(start.broadcasts[id].status)
    requires Spent(db, id, Budget(start, id))
    ensures CostOf(db, k, id) <= CostOf(start, k, id)
    ensures Ahead(start, k, id) ==> CostOf(db, k, id) < CostOf(start, k, id)
  {
    hide Budget;
    assert BroadcastEvolves(start.broadcasts[id], db.broadcasts[id]);
  }

  lemma TickCosts(start: Db, db: Db, k: Key, rows: seq<Row>, id: nat)
    requires Ticked(start, db, rows)
    requires forall i :: 0 <= i < |rows| ==> rows[i].id in start.broadcasts && Active(start.broadcasts[rows[i].id].status)
    ensures CostOf(db, k, id) <= CostOf(start, k, id)
  {
    hide Inv, Budget, Evolves, Spent;
    if id in start.broadcasts {
      if Names(rows, id) {
        var i :| 0 <= i < |rows| && rows[i].id == id;
        assert rows[i] in rows;
        SpentCosts(start, db, k, id);
      } else {
        assert Same(start, db, id);
      }
    }
  }

  /** A tick that starts with a broadcast due makes those not younger cheaper. */
  lemma TickPays(lim: Limits, start: Db, db: Db, id: nat, n: nat)
    requires Ticked(start, db, ClaimActive(start, lim.broadcasts, {})) && lim.broadcasts >= 1 && AllRested(start)
    requires Underway(start, id)
    requires YoungerFrom(start, KeyOf(start, id), n)
    ensures Cost(db, KeyOf(start, id), n) < Cost(start, KeyOf(start, id), n)
  {
    hide ClaimActive, Cost, Due;
    var k := KeyOf(start, id);
    var rows := ClaimActive(start, lim.broadcasts, {});
    OldestIsFound(start, lim.broadcasts, id);
    forall i | 0 <= i < |rows| ensures Ready(start, rows[i]) { FoundIsReady(start, lim.broadcasts, i); }
    hide AllRested, Rested, Budget, Inv, Evolves, CostOf, Spent;
    forall other: nat | other < n ensures CostOf(db, k, other) <= CostOf(start, k, other) {
      TickCosts(start, db, k, rows, other);
    }
    assert rows[0] in rows;
    SpentCosts(start, db, k, rows[0].id);
    assert rows[0].id < n;
    CostFalls(start, db, k, n);
  }

  datatype Tick = Tick(start: Db, moments: seq<Moment>)

  function AfterTick(lim: Limits, t: Tick): Db {
    Drive(lim, t.start, TickPc(lim, t.start), t.moments).0
  }

  /** Complete calm ticks, each with the broadcast due and all leases over. */
  ghost predicate Ticks(lim: Limits, db: Db, id: nat, ticks: seq<Tick>)
    decreases |ticks|
  {
    ticks != [] ==>
      var t := ticks[0];
      && Between(db, t.start) && Visitable(t.start, id) && AllRested(t.start) && AllCalm(t.moments)
      && Drive(lim, t.start, TickPc(lim, t.start), t.moments).1.Idle?
      && Ticks(lim, AfterTick(lim, t), id, ticks[1..])
  }

  function AfterTicks(lim: Limits, db: Db, ticks: seq<Tick>): Db
    decreases |ticks|
  {
    if ticks == [] then db else AfterTicks(lim, AfterTick(lim, ticks[0]), ticks[1..])
  }

  /** The broadcast keeps its place in the order. */
  ghost predicate InLine(db: Db, id: nat, k: Key, n: nat) {
    && Inv(db) && id in db.broadcasts && KeyOf(db, id) == k && id < n <= db.nextId
    && k.at <= db.clock && YoungerFrom(db, k, n)
  }

  lemma StaysInLine(a: Db, b: Db, id: nat, k: Key, n: nat)
    requires InLine(a, id, k, n) && Inv(b) && Evolves(a, b)
    requires forall i :: i in b.broadcasts && i !in a.broadcasts ==> i >= a.nextId && b.broadcasts[i].createdAt >= a.clock
    ensures InLine(b, id, k, n)
  {
    hide Inv;
    forall i | i in b.broadcasts && i >= n ensures Less(k, KeyOf(b, i)) {
      if i in a.broadcasts { assert BroadcastEvolves(a.broadcasts[i], b.broadcasts[i]); }
    }
    assert BroadcastEvolves(a.broadcasts[id], b.broadcasts[id]);
  }

  lemma WaitingCosts(a: Db, b: Db, id: nat, k: Key, n: nat)
    requires InLine(a, id, k, n) && Between(a, b)
    ensures InLine(b, id, k, n) && Cost(b, k, n) <= Cost(a, k, n)
  {
    hide Inv, Evolves, MemberKeys, Cost, CostOf, Budget, YoungerFrom;
    StaysInLine(a, b, id, k, n);
    forall i: nat | i < n ensures CostOf(b, k, i) <= CostOf(a, k, i) { BetweenCosts(a, b, k, i); }
    CostFalls(a, b, k, n);
  }

  /** One tick: the costs go down, and at no cost the broadcast is completed. */
  lemma OneTick(lim: Limits, t: Tick, id: nat, k: Key, n: nat)
    requires InLine(t.start, id, k, n) && Visitable(t.start, id) && AllRested(t.start) && AllCalm(t.moments)
    requires Drive(lim, t.start, TickPc(lim, t.start), t.moments).1.Idle?
    requires lim.broadcasts >= 1 && lim.snapshot >= 1 && lim.materialize >= 1
    ensures var db' := AfterTick(lim, t);
      && InLine(db', id, k, n) && Cost(db', k, n) < Cost(t.start, k, n)
      && (Active(db'.broadcasts[id].status) || db'.broadcasts[id].status == Completed)
  {
    hide Drive, AllRested, ClaimActive, Inv, Evolves, Cost, YoungerFrom, AllSpent, RestSame, Rested;
    var db' := AfterTick(lim, t);
    var rows := ClaimActive(t.start, lim.broadcasts, {});
    TickEnds(lim, t.start, t.moments);
    TickPays(lim, t.start, db', id, n);
    StaysInLine(t.start, db', id, k, n);
    AfterTickIs(t.start, db', rows, id);
  }

  lemma AfterTickIs(start: Db, db: Db, rows: seq<Row>, id: nat)
    requires Ticked(start, db, rows) && id in start.broadcasts && Active(start.broadcasts[id].status)
    ensures id in db.broadcasts && (Active(db.broadcasts[id].status) || db.broadcasts[id].status == Completed)
  {
    hide Inv, Evolves, Budget;
    if Names(rows, id) {
      var i :| 0 <= i < |rows| && rows[i].id == id;
      assert rows[i] in rows;
    } else {
      assert Same(start, db, id);
    }
  }

  lemma {:induction false} TicksFinish(lim: Limits, db: Db, id: nat, k: Key, n: nat, ticks: seq<Tick>)
    requires InLine(db, id, k, n) && Ticks(lim, db, id, ticks)
    requires lim.broadcasts >= 1 && lim.snapshot >= 1 && lim.materialize >= 1
    ensures |ticks| <= Cost(db, k, n)
    ensures ticks != [] && |ticks| == Cost(db, k, n) ==>
      var db' := AfterTicks(lim, db, ticks); id in db'.broadcasts && db'.broadcasts[id].status == Completed
    decreases |ticks|
  {
    if ticks != [] {
      hide Drive, Between, Visitable, AllRested, AllCalm, Cost, AfterTick;
      var t := ticks[0];
      var db' := AfterTick(lim, t);
      WaitingCosts(db, t.start, id, k, n);
      OneTick(lim, t, id, k, n);
      TicksFinish(lim, db', id, k, n, ticks[1..]);
      CostCovers(db', k, n, id);
      NoCostNotActive(db', k, id);
      hide InLine;
    }
  }

  lemma NoCostNotActive(db: Db, k: Key, id: nat)
    requires id in db.broadcasts && KeyOf(db, id) == k
    ensures CostOf(db, k, id) == 0 ==> !Active(db.broadcasts[id].status)
  {
    hide Budget;
  }

  /** No broadcast is starved. Every tick that begins with the broadcast due costs
      a unit of those not younger than it, so there are at most as many as the sum
      of their budgets and one more for each; and after so many it is completed. */
  lemma TicksComplete(lim: Limits, db: Db, id: nat, ticks: seq<Tick>)
    requires Inv(db) && id in db.broadcasts && db.broadcasts[id].createdAt <= db.clock && Ticks(lim, db, id, ticks)
    requires lim.broadcasts >= 1 && lim.snapshot >= 1 && lim.materialize >= 1
    ensures |ticks| <= Cost(db, KeyOf(db, id), db.nextId)
    ensures ticks != [] && |ticks| == Cost(db, KeyOf(db, id), db.nextId) ==>
      var db' := AfterTicks(lim, db, ticks); id in db'.broadcasts && db'.broadcasts[id].status == Completed
  {
    hide Ticks, Cost;
    TicksFinish(lim, db, id, KeyOf(db, id), db.nextId, ticks);
  }
}
