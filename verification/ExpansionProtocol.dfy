/** The expansion protocol as a transition system: any number of expanders,
    owners who cancel or reschedule, audience changes, the clock and crashes,
    interleaved one committed transaction at a time. */
module ExpansionProtocol {
  import opened Options
  import opened Keyset
  import opened BroadcastRows
  import opened BroadcastInvariant

  /** Rows touched per broadcast and tick. */
  datatype Limits = Limits(broadcasts: nat, snapshot: nat, materialize: nat)

  const DEFAULT_LIMITS := Limits(5, 200, 25)
  const CLEANUP_TRIES: nat := 3

  /** Where an expander stands between two statements, with its local copies:
      the broadcasts still to process this tick (the first is current), the
      claimed recipients still to handle (the first is current) and the
      suppressed ones among them. */
  datatype Pc =
    | Idle
    | Mark(q: seq<Row>)
    | MarkCheck(q: seq<Row>)
    | Snapshot(q: seq<Row>)
    | Claim(q: seq<Row>)
    | Domain(q: seq<Row>, rest: seq<nat>)
    | FailBroadcast(q: seq<Row>)
    | Suppression(q: seq<Row>, rest: seq<nat>)
    | Each(q: seq<Row>, rest: seq<nat>, sup: set<nat>)
    | Admit(q: seq<Row>, rest: seq<nat>, sup: set<nat>)
    | Build(q: seq<Row>, rest: seq<nat>, sup: set<nat>)
    | FailRecipient(q: seq<Row>, rest: seq<nat>, sup: set<nat>)
    | Save(q: seq<Row>, rest: seq<nat>, sup: set<nat>)
    | Insert(q: seq<Row>, rest: seq<nat>, sup: set<nat>)
    | Cleanup(q: seq<Row>, rest: seq<nat>, sup: set<nat>, tries: nat)
    | Finish(q: seq<Row>, rest: seq<nat>, sup: set<nat>)
    | PendingTest(q: seq<Row>)
    | Complete(q: seq<Row>)

  /** How a statement ended for its caller: committed and reported, not
      committed, or committed with the reply lost. */
  datatype Outcome = Done | Failed | Lost

  /** Render, MIME and DKIM: done, failing the same way on every retry, or
      failing for now. */
  datatype BuildResult = Built | Deterministic | Transient

  /** Everything a step does not decide itself. */
  datatype Chance = Chance(
    outcome: Outcome,
    locked: set<nat>,
    order: seq<nat>,
    domainVerified: bool,
    suppressed: set<nat>,
    admitted: bool,
    build: BuildResult)

  function Effect(c: Chance, before: Db, after: Db): Db {
    if c.outcome.Failed? then before else after
  }

  /** `return` from process: on to the next claimed broadcast. */
  function NextBroadcast(q: seq<Row>): Pc {
    if |q| <= 1 then Idle else Mark(q[1..])
  }

  function AfterMark(q: seq<Row>): Pc
    requires q != []
  {
    if q[0].snapshotComplete then Claim(q) else Snapshot(q)
  }

  /** One statement of expander Go. */
  function Next(lim: Limits, db: Db, pc: Pc, c: Chance): (Db, Pc) {
    match pc
    case Idle =>
      var rows := ClaimActive(db, lim.broadcasts, c.locked);
      (db, if c.outcome != Done || rows == [] then Idle else Mark(rows))
    case Mark(q) =>
      if q == [] then (db, Idle) else
        (Effect(c, db, MarkExpanding(db, q[0].id)),
         if c.outcome != Done then NextBroadcast(q)
         else if Startable(db, q[0].id) then AfterMark(q)
         else MarkCheck(q))
    case MarkCheck(q) =>
      if q == [] then (db, Idle) else
        (db, if c.outcome == Done && q[0].id in db.broadcasts && db.broadcasts[q[0].id].status == Expanding
             then AfterMark(q) else NextBroadcast(q))
    case Snapshot(q) =>
      if q == [] then (db, Idle) else
        (Effect(c, db, SnapshotBatch(db, q[0].id, lim.snapshot)),
         if c.outcome == Done && SnapshotReplyOf(db, q[0].id, lim.snapshot).Advanced? then Claim(q) else NextBroadcast(q))
    case Claim(q) =>
      if q == [] then (db, Idle) else
        var rows := ClaimedRows(db, q[0].id, lim.materialize, c.locked);
        (Effect(c, db, ClaimPending(db, q[0].id, lim.materialize, c.locked)),
         if c.outcome != Done then NextBroadcast(q)
         else if rows == [] then PendingTest(q)
         else Domain(q, Returned(Ids(rows), c.order)))
    case Domain(q, rest) =>
      (db, if c.outcome == Done && c.domainVerified then Suppression(q, rest) else FailBroadcast(q))
    case FailBroadcast(q) =>
      if q == [] then (db, Idle) else
        (Effect(c, db, MarkFailed(db, q[0].id)), NextBroadcast(q))
    case Suppression(q, rest) =>
      (db, if c.outcome == Done then Each(q, rest, c.suppressed) else PendingTest(q))
    case PendingTest(q) =>
      if q == [] then (db, Idle) else
        (db, if c.outcome == Done && !HasPending(db, q[0].id) then Complete(q) else NextBroadcast(q))
    case Complete(q) =>
      if q == [] then (db, Idle) else
        (Effect(c, db, CompleteBroadcast(db, q[0].id)), NextBroadcast(q))
    case _ => NextForRecipient(db, pc, c)
  }

  predicate InRecipientLoop(pc: Pc) {
    pc.Each? || pc.Admit? || pc.Build? || pc.FailRecipient? || pc.Save? || pc.Insert? || pc.Cleanup? || pc.Finish?
  }

  /** One statement of the recipient loop and of materializeOne. */
  function NextForRecipient(db: Db, pc: Pc, c: Chance): (Db, Pc)
    requires InRecipientLoop(pc)
  {
    if pc.rest == [] then (db, PendingTest(pc.q)) else
    var (q, rest, sup) := (pc.q, pc.rest, pc.sup);
    var r := rest[0];
    var skip := Each(q, rest[1..], sup);
    match pc
    case Each(_, _, _) =>
      if r in sup then (Effect(c, db, MarkSuppressed(db, r)), skip)
      else (db, if c.outcome != Done then skip
                else if r in db.messages then Finish(q, rest, sup)
                else Admit(q, rest, sup))
    case Admit(_, _, _) =>
      (db, if c.outcome == Done && c.admitted then Build(q, rest, sup) else PendingTest(q))
    case Build(_, _, _) =>
      (db, match c.build
           case Built => Save(q, rest, sup)
           case Deterministic => FailRecipient(q, rest, sup)
           case Transient => skip)
    case FailRecipient(_, _, _) =>
      (Effect(c, db, RecordFailure(db, r)), skip)
    case Save(_, _, _) =>
      (Effect(c, db, SaveFile(db, r)), if c.outcome == Done then Insert(q, rest, sup) else skip)
    case Insert(_, _, _) =>
      (Effect(c, db, InsertMessage(db, r, c.domainVerified)),
       if c.outcome != Done then skip
       else match InsertReplyOf(db, r, c.domainVerified)
            case Inserted => Finish(q, rest, sup)
            case AlreadyInserted => Finish(q, rest, sup)
            case Refused => Cleanup(q, rest, sup, 0)
            case _ => skip)
    case Cleanup(_, _, _, tries) =>
      (Effect(c, db, DeleteFile(db, r)),
       if c.outcome == Done then PendingTest(q)
       else if tries + 1 < CLEANUP_TRIES then Cleanup(q, rest, sup, tries + 1)
       else skip)
    case Finish(_, _, _) =>
      (Effect(c, db, MarkMaterialized(db, r)), skip)
  }

  /** Handling a recipient writes no broadcast. */
  lemma LoopKeepsBroadcasts(db: Db, pc: Pc, c: Chance)
    requires InRecipientLoop(pc)
    ensures NextForRecipient(db, pc, c).0.broadcasts == db.broadcasts
  {
  }

  // The whole system.

  datatype System = System(db: Db, pcs: map<nat, Pc>)

  datatype Action =
    | Expand(expander: nat, chance: Chance)
    | Crash(expander: nat)
    | Create(audience: nat, sendAt: Option<Time>)
    | Cancel(broadcast: nat)
    | Reschedule(broadcast: nat, sendAt': Time)
    | Join(audience: nat, contact: int)
    | Leave(audience: nat, contact: int)
    | Tick(elapsed: nat)

  function PcOf(s: System, e: nat): Pc {
    if e in s.pcs then s.pcs[e] else Idle
  }

  function Apply(lim: Limits, s: System, a: Action): System {
    match a
    case Expand(e, c) =>
      var (db, pc) := Next(lim, s.db, PcOf(s, e), c);
      System(db, s.pcs[e := pc])
    case Crash(e) => s.(pcs := s.pcs[e := Idle])
    case Create(audience, sendAt) => s.(db := CreateBroadcast(s.db, audience, sendAt))
    case Cancel(id) => s.(db := CancelBroadcast(s.db, id))
    case Reschedule(id, sendAt) => s.(db := RescheduleBroadcast(s.db, id, sendAt))
    case Join(audience, contact) => s.(db := AddMember(s.db, audience, contact))
    case Leave(audience, contact) => s.(db := RemoveMember(s.db, audience, contact))
    case Tick(elapsed) => s.(db := s.db.(clock := s.db.clock + elapsed))
  }

  lemma ApplyExpand(lim: Limits, s: System, e: nat, c: Chance)
    ensures Apply(lim, s, Expand(e, c)) ==
      System(Next(lim, s.db, PcOf(s, e), c).0, s.pcs[e := Next(lim, s.db, PcOf(s, e), c).1])
  {
    hide Next;
  }

  /** An interleaving: the actions in the order they commit. */
  function Exec(lim: Limits, s: System, acts: seq<Action>): System
    decreases |acts|
  {
    if acts == [] then s else Exec(lim, Apply(lim, s, acts[0]), acts[1..])
  }

  lemma {:induction false} ExecConcat(lim: Limits, s: System, p: seq<Action>, q: seq<Action>)
    ensures Exec(lim, s, p + q) == Exec(lim, Exec(lim, s, p), q)
    decreases |p|
  {
    if p == [] {
      assert p + q == q;
    } else {
      var s1 := Apply(lim, s, p[0]);
      assert (p + q)[0] == p[0] && (p + q)[1..] == p[1..] + q;
      ExecConcat(lim, s1, p[1..], q);
    }
  }

  /** t follows from s by some interleaving. */
  ghost predicate Reaches(lim: Limits, s: System, t: System) {
    exists acts :: Exec(lim, s, acts) == t
  }

  lemma ReachesItself(lim: Limits, s: System)
    ensures Reaches(lim, s, s)
  {
    assert Exec(lim, s, []) == s;
  }

  lemma ReachesNext(lim: Limits, s: System, t: System, a: Action)
    requires Reaches(lim, s, t)
    ensures Reaches(lim, s, Apply(lim, t, a))
  {
    var acts :| Exec(lim, s, acts) == t;
    ExecConcat(lim, s, acts, [a]);
    assert Exec(lim, t, [a]) == Exec(lim, Apply(lim, t, a), []);
  }

  // What an expander may rely on at each point.

  ghost predicate Known(db: Db, q: seq<Row>) {
    q != [] && forall row :: row in q ==> row.id in db.broadcasts
  }

  /** Past MarkBroadcastExpanding the current broadcast has left 'accepted'. */
  ghost predicate Started(db: Db, q: seq<Row>) {
    Known(db, q) && db.broadcasts[q[0].id].status != Accepted
  }

  ghost predicate Batch(db: Db, q: seq<Row>, rest: seq<nat>) {
    Started(db, q) && forall r :: r in rest ==> r in db.recipients && db.recipients[r].broadcast == q[0].id
  }

  ghost predicate PcOk(db: Db, pc: Pc) {
    match pc
    case Idle => true
    case Mark(q) => Known(db, q)
    case MarkCheck(q) => Known(db, q)
    case Snapshot(q) => Started(db, q)
    case Claim(q) => Started(db, q)
    case Domain(q, rest) => Batch(db, q, rest)
    case FailBroadcast(q) => Started(db, q)
    case Suppression(q, rest) => Batch(db, q, rest)
    case PendingTest(q) => Started(db, q)
    case Complete(q) => Started(db, q)
    case Each(q, rest, _) => Batch(db, q, rest)
    case Insert(q, rest, _) => Batch(db, q, rest) && rest != [] && (rest[0] in db.files || Dead(db, rest[0]))
    case Cleanup(q, rest, _, _) => Batch(db, q, rest) && rest != [] && Dead(db, rest[0])
    case Finish(q, rest, _) => Batch(db, q, rest) && rest != [] && rest[0] in db.messages
    case _ => Batch(db, pc.q, pc.rest) && pc.rest != []
  }

  ghost predicate SystemOk(s: System) {
    Inv(s.db) && forall e :: e in s.pcs ==> PcOk(s.db, s.pcs[e])
  }

  lemma BatchStays(a: Db, b: Db, q: seq<Row>, rest: seq<nat>)
    requires Evolves(a, b)
    ensures Known(a, q) ==> Known(b, q)
    ensures Started(a, q) ==> Started(b, q)
    ensures Batch(a, q, rest) ==> Batch(b, q, rest)
  {
  }

  function Remaining(pc: Pc): seq<nat> {
    if pc.Domain? || pc.Suppression? || InRecipientLoop(pc) then pc.rest else []
  }

  /** Whatever the others do, an expander's knowledge stays true. */
  lemma PcStays(a: Db, b: Db, pc: Pc)
    requires Evolves(a, b) && PcOk(a, pc)
    ensures PcOk(b, pc)
  {
    if !pc.Idle? {
      var rest := Remaining(pc);
      BatchStays(a, b, pc.q, rest);
      if rest != [] && Dead(a, rest[0]) { ClosedIsStable(a, b, rest[0]); }
    }
  }

  ghost predicate StepOk(db: Db, next: (Db, Pc)) {
    Inv(next.0) && Evolves(db, next.0) && PcOk(next.0, next.1)
  }

  lemma EffectKeeps(c: Chance, db: Db, after: Db)
    requires Inv(db) && Inv(after) && Evolves(db, after)
    ensures Inv(Effect(c, db, after)) && Evolves(db, Effect(c, db, after))
  {
  }

  /** `continue` after a statement that left db'. */
  lemma SkipOk(db: Db, db': Db, q: seq<Row>, rest: seq<nat>, sup: set<nat>)
    requires Evolves(db, db') && Batch(db, q, rest) && rest != []
    ensures Batch(db', q, rest) && PcOk(db', Each(q, rest[1..], sup)) && PcOk(db', PendingTest(q))
  {
  }

  /** A statement on the current broadcast that left db'. */
  lemma OnwardOk(db: Db, db': Db, q: seq<Row>)
    requires Evolves(db, db') && Known(db, q)
    ensures PcOk(db', NextBroadcast(q)) && Known(db', q)
    ensures Started(db, q) ==> Started(db', q)
  {
  }

  lemma MarkExpandingStepKeeps(lim: Limits, db: Db, pc: Pc, c: Chance)
    requires pc.Mark? && Inv(db) && PcOk(db, pc)
    ensures StepOk(db, Next(lim, db, pc, c))
  {
    var id := pc.q[0].id;
    MarkExpandingKeeps(db, id);
    EffectKeeps(c, db, MarkExpanding(db, id));
    OnwardOk(db, Effect(c, db, MarkExpanding(db, id)), pc.q);
  }

  lemma SnapshotStepKeeps(lim: Limits, db: Db, pc: Pc, c: Chance)
    requires pc.Snapshot? && Inv(db) && PcOk(db, pc)
    ensures StepOk(db, Next(lim, db, pc, c))
  {
    var after := SnapshotBatch(db, pc.q[0].id, lim.snapshot);
    SnapshotBatchKeeps(db, pc.q[0].id, lim.snapshot);
    EffectKeeps(c, db, after);
    OnwardOk(db, Effect(c, db, after), pc.q);
  }

  lemma ClaimedAreCurrent(db: Db, id: nat, limit: nat, locked: set<nat>)
    requires Inv(db)
    ensures forall r :: r in Ids(ClaimedRows(db, id, limit, locked)) ==> r in db.recipients && db.recipients[r].broadcast == id
  {
  }

  lemma ClaimStepKeeps(lim: Limits, db: Db, pc: Pc, c: Chance)
    requires pc.Claim? && Inv(db) && PcOk(db, pc)
    ensures StepOk(db, Next(lim, db, pc, c))
  {
    var id := pc.q[0].id;
    var after := ClaimPending(db, id, lim.materialize, c.locked);
    ClaimPendingKeeps(db, id, lim.materialize, c.locked);
    ClaimedAreCurrent(db, id, lim.materialize, c.locked);
    EffectKeeps(c, db, after);
    OnwardOk(db, Effect(c, db, after), pc.q);
    BatchStays(db, Effect(c, db, after), pc.q, Returned(Ids(ClaimedRows(db, id, lim.materialize, c.locked)), c.order));
  }

  lemma EndStepKeeps(lim: Limits, db: Db, pc: Pc, c: Chance)
    requires (pc.FailBroadcast? || pc.Complete?) && Inv(db) && PcOk(db, pc)
    ensures StepOk(db, Next(lim, db, pc, c))
  {
    var id := pc.q[0].id;
    var after := if pc.FailBroadcast? then MarkFailed(db, id) else CompleteBroadcast(db, id);
    MarkFailedKeeps(db, id);
    CompleteKeeps(db, id);
    EffectKeeps(c, db, after);
    OnwardOk(db, Effect(c, db, after), pc.q);
  }

  lemma LookStepKeeps(lim: Limits, db: Db, pc: Pc, c: Chance)
    requires pc.Idle? || pc.MarkCheck? || pc.Domain? || pc.Suppression? || pc.PendingTest?
    requires Inv(db) && PcOk(db, pc)
    ensures StepOk(db, Next(lim, db, pc, c))
  {
    EvolvesReflexive(db);
    if !pc.Idle? { OnwardOk(db, db, pc.q); }
  }

  lemma SaveStepKeeps(db: Db, pc: Pc, c: Chance)
    requires pc.Save? && Inv(db) && PcOk(db, pc)
    ensures StepOk(db, NextForRecipient(db, pc, c))
  {
    SaveFileKeeps(db, pc.rest[0]);
    EffectKeeps(c, db, SaveFile(db, pc.rest[0]));
    SkipOk(db, Effect(c, db, SaveFile(db, pc.rest[0])), pc.q, pc.rest, pc.sup);
  }

  lemma InsertStepKeeps(db: Db, pc: Pc, c: Chance)
    requires pc.Insert? && Inv(db) && PcOk(db, pc)
    ensures StepOk(db, NextForRecipient(db, pc, c))
  {
    hide Inv, Evolves;
    var r := pc.rest[0];
    var reply := InsertReplyOf(db, r, c.domainVerified);
    assert reply == Inserted ==> !Dead(db, r);
    InsertMessageKeeps(db, r, c.domainVerified);
    EffectKeeps(c, db, InsertMessage(db, r, c.domainVerified));
    SkipOk(db, Effect(c, db, InsertMessage(db, r, c.domainVerified)), pc.q, pc.rest, pc.sup);
    if reply == Refused { RefusalIsFinal(db, r, c.domainVerified); }
  }

  lemma CleanupStepKeeps(db: Db, pc: Pc, c: Chance)
    requires pc.Cleanup? && Inv(db) && PcOk(db, pc)
    ensures StepOk(db, NextForRecipient(db, pc, c))
  {
    var r := pc.rest[0];
    hide Inv, Evolves, Closed, DeleteFile;
    DeleteFileKeeps(db, r);
    EffectKeeps(c, db, DeleteFile(db, r));
    SkipOk(db, Effect(c, db, DeleteFile(db, r)), pc.q, pc.rest, pc.sup);
    ClosedIsStable(db, Effect(c, db, DeleteFile(db, r)), r);
  }

  lemma LoopEndKeeps(db: Db, pc: Pc, c: Chance)
    requires pc.Each? && pc.rest == [] && Inv(db) && PcOk(db, pc)
    ensures StepOk(db, NextForRecipient(db, pc, c))
  {
  }

  lemma ReadStepKeeps(db: Db, pc: Pc, c: Chance)
    requires (pc.Each? && pc.rest != [] && pc.rest[0] !in pc.sup) || pc.Admit? || pc.Build?
    requires Inv(db) && PcOk(db, pc)
    ensures StepOk(db, NextForRecipient(db, pc, c))
  {
    EvolvesReflexive(db);
    SkipOk(db, db, pc.q, pc.rest, pc.sup);
  }

  lemma MarkStepKeeps(db: Db, pc: Pc, c: Chance)
    requires (pc.Each? && pc.rest != [] && pc.rest[0] in pc.sup) || pc.FailRecipient? || pc.Finish?
    requires Inv(db) && PcOk(db, pc)
    ensures StepOk(db, NextForRecipient(db, pc, c))
  {
    hide Inv, Evolves, RecordFailure, MarkSuppressed, MarkMaterialized, Closed;
    var r := pc.rest[0];
    RecipientMarksKeep(db, r);
    var after := match pc
      case Each(_, _, _) => MarkSuppressed(db, r)
      case FailRecipient(_, _, _) => RecordFailure(db, r)
      case _ => MarkMaterialized(db, r);
    EffectKeeps(c, db, after);
    SkipOk(db, Effect(c, db, after), pc.q, pc.rest, pc.sup);
  }

  lemma NextForRecipientKeeps(db: Db, pc: Pc, c: Chance)
    requires InRecipientLoop(pc)
    requires Inv(db) && PcOk(db, pc)
    ensures StepOk(db, NextForRecipient(db, pc, c))
  {
    hide Inv, Evolves, PcOk, StepOk, NextForRecipient;
    match pc
    case Save(_, _, _) => SaveStepKeeps(db, pc, c);
    case Insert(_, _, _) => InsertStepKeeps(db, pc, c);
    case Cleanup(_, _, _, _) => CleanupStepKeeps(db, pc, c);
    case FailRecipient(_, _, _) => MarkStepKeeps(db, pc, c);
    case Finish(_, _, _) => MarkStepKeeps(db, pc, c);
    case Each(_, rest, sup) =>
      if rest == [] { LoopEndKeeps(db, pc, c); }
      else if rest[0] in sup { MarkStepKeeps(db, pc, c); }
      else { ReadStepKeeps(db, pc, c); }
    case _ => ReadStepKeeps(db, pc, c);
  }

  lemma LoopIsNext(lim: Limits, db: Db, pc: Pc, c: Chance)
    requires InRecipientLoop(pc)
    ensures Next(lim, db, pc, c) == NextForRecipient(db, pc, c)
  {
    hide NextForRecipient;
  }

  lemma NextKeeps(lim: Limits, db: Db, pc: Pc, c: Chance)
    requires Inv(db) && PcOk(db, pc)
    ensures StepOk(db, Next(lim, db, pc, c))
  {
    hide Inv, PcOk, StepOk, Next, NextForRecipient;
    if InRecipientLoop(pc) {
      LoopIsNext(lim, db, pc, c);
      NextForRecipientKeeps(db, pc, c);
    } else {
      match pc
      case Mark(_) => MarkExpandingStepKeeps(lim, db, pc, c);
      case Snapshot(_) => SnapshotStepKeeps(lim, db, pc, c);
      case Claim(_) => ClaimStepKeeps(lim, db, pc, c);
      case FailBroadcast(_) => EndStepKeeps(lim, db, pc, c);
      case Complete(_) => EndStepKeeps(lim, db, pc, c);
      case _ => LookStepKeeps(lim, db, pc, c);
    }
  }

  lemma RowsKeep(lim: Limits, s: System, a: Action)
    requires SystemOk(s)
    ensures Inv(Apply(lim, s, a).db) && Evolves(s.db, Apply(lim, s, a).db)
  {
    hide Inv, Evolves;
    match a
    case Expand(e, c) => NextKeeps(lim, s.db, PcOf(s, e), c);
    case Crash(e) => EvolvesReflexive(s.db);
    case Create(audience, sendAt) => CreateKeeps(s.db, audience, sendAt);
    case Cancel(id) => CancelKeeps(s.db, id);
    case Reschedule(id, sendAt) => RescheduleKeeps(s.db, id, sendAt);
    case Join(audience, contact) => MembersKeep(s.db, AddMember(s.db, audience, contact).members);
    case Leave(audience, contact) => MembersKeep(s.db, RemoveMember(s.db, audience, contact).members);
    case Tick(elapsed) => TickKeeps(s.db, s.db.clock + elapsed);
  }

  lemma ApplyKeeps(lim: Limits, s: System, a: Action)
    requires SystemOk(s)
    ensures SystemOk(Apply(lim, s, a)) && Evolves(s.db, Apply(lim, s, a).db)
  {
    var s' := Apply(lim, s, a);
    RowsKeep(lim, s, a);
    if a.Expand? { NextKeeps(lim, s.db, PcOf(s, a.expander), a.chance); }
    forall e | e in s'.pcs ensures PcOk(s'.db, s'.pcs[e]) {
      if !(a.Expand? && e == a.expander) && !(a.Crash? && e == a.expander) {
        PcStays(s.db, s'.db, s.pcs[e]);
      }
    }
  }

  lemma {:induction false} ExecKeeps(lim: Limits, s: System, acts: seq<Action>)
    requires SystemOk(s)
    ensures SystemOk(Exec(lim, s, acts)) && Evolves(s.db, Exec(lim, s, acts).db)
    decreases |acts|
  {
    if acts == [] {
      EvolvesReflexive(s.db);
    } else {
      var s1 := Apply(lim, s, acts[0]);
      ApplyKeeps(lim, s, acts[0]);
      ExecKeeps(lim, s1, acts[1..]);
      EvolvesTransitive(s.db, s1.db, Exec(lim, s, acts).db);
    }
  }
}
