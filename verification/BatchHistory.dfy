/** What must have happened before each statement of a recipient: over whole runs,
    from what an expander asked and was answered since it claimed its batch. */
module BatchHistory {
  import opened Options
  import opened Keyset
  import opened BroadcastRows
  import opened BroadcastInvariant
  import opened ExpansionProtocol
  import opened BroadcastTheorems
  import opened RecipientWrites
  import opened Warrants

  /** What an observer of one expander writes down: the batch it last claimed, what
      the lookups of the domain and of the suppressions answered for it, and for
      the recipient it turned to last, what was answered about that one. */
  datatype Memory = Memory(
    batch: seq<nat>,
    verified: bool,
    listed: Option<set<nat>>,
    unsent: bool,
    admitted: bool,
    built: Option<BuildResult>,
    saved: bool,
    refused: bool,
    deletions: nat)

  const NOTHING := Memory([], false, None, false, false, None, false, false, 0)

  /** It sees where the expander stands and how its statement is answered, not what
      the expander makes of it. */
  function Observe(db: Db, pc: Pc, c: Chance, m: Memory): Memory {
    match pc
    case Claim(q) => NOTHING
    case Domain(_, rest) => NOTHING.(batch := rest, verified := c.outcome == Done && c.domainVerified)
    case Suppression(_, _) => m.(listed := if c.outcome == Done then Some(c.suppressed) else None)
    case Each(_, rest, _) =>
      NOTHING.(batch := m.batch, verified := m.verified, listed := m.listed,
               unsent := c.outcome == Done && rest != [] && rest[0] !in db.messages)
    case Admit(_, _, _) => m.(admitted := c.outcome == Done && c.admitted)
    case Build(_, _, _) => m.(built := Some(c.build))
    case Save(_, _, _) => m.(saved := c.outcome == Done)
    case Insert(_, rest, _) =>
      m.(refused := c.outcome == Done && rest != [] && InsertReplyOf(db, rest[0], c.domainVerified) == Refused)
    case Cleanup(_, _, _, _) => m.(deletions := m.deletions + 1)
    case _ => m
  }

  function Remember(lim: Limits, s: System, a: Action, e: nat, m: Memory): Memory {
    if a.Expand? && a.expander == e then Observe(s.db, PcOf(s, e), a.chance, m)
    else if a.Crash? && a.expander == e then NOTHING
    else m
  }

  /** The observer's notes at the end of a run. */
  function Recall(lim: Limits, s: System, acts: seq<Action>, e: nat, m: Memory): Memory
    decreases |acts|
  {
    if acts == [] then m else Recall(lim, Apply(lim, s, acts[0]), acts[1..], e, Remember(lim, s, acts[0], e, m))
  }

  ghost predicate SuffixOf(rest: seq<nat>, batch: seq<nat>) {
    |rest| <= |batch| && rest == batch[|batch| - |rest|..]
  }

  /** The lookups of this batch succeeded: the domain is verified, and `sup` is what
      the suppression lookup answered. */
  ghost predicate BatchCleared(m: Memory, rest: seq<nat>, sup: set<nat>) {
    SuffixOf(rest, m.batch) && m.verified && m.listed == Some(sup)
  }

  /** The recipient in hand is not on the list, and had no message when last
      looked up. */
  ghost predicate MayProceed(m: Memory, rest: seq<nat>, sup: set<nat>) {
    BatchCleared(m, rest, sup) && rest != [] && rest[0] !in sup
  }

  /** The order of a visit, as the notes have it. */
  ghost predicate InOrder(pc: Pc, m: Memory) {
    match pc
    case FailBroadcast(_) => !m.verified
    case Suppression(_, rest) => m.verified && m.batch == rest
    case Each(_, rest, sup) => BatchCleared(m, rest, sup)
    case Admit(_, rest, sup) => MayProceed(m, rest, sup) && m.unsent && m.deletions == 0
    case Build(_, rest, sup) => MayProceed(m, rest, sup) && m.unsent && m.admitted && m.deletions == 0
    case FailRecipient(_, rest, sup) => MayProceed(m, rest, sup) && m.admitted && m.built == Some(Deterministic)
    case Save(_, rest, sup) => MayProceed(m, rest, sup) && m.admitted && m.built == Some(Built) && m.deletions == 0
    case Insert(_, rest, sup) => MayProceed(m, rest, sup) && m.admitted && m.built == Some(Built) && m.saved && m.deletions == 0
    case Cleanup(_, rest, sup, tries) => MayProceed(m, rest, sup) && m.saved && m.refused && m.deletions == tries < 3
    case Finish(_, rest, sup) => MayProceed(m, rest, sup)
    case _ => true
  }

  lemma TailIsSuffix(rest: seq<nat>, batch: seq<nat>)
    requires SuffixOf(rest, batch) && rest != []
    ensures SuffixOf(rest[1..], batch)
  {
  }

  lemma TurnsInOrder(db: Db, pc: Pc, c: Chance, m: Memory)
    requires (pc.Each? || pc.Admit? || pc.Build?) && InOrder(pc, m)
    ensures InOrder(NextForRecipient(db, pc, c).1, Observe(db, pc, c, m))
  {
    hide MarkSuppressed, SuffixOf;
    if pc.rest != [] && SuffixOf(pc.rest, m.batch) { TailIsSuffix(pc.rest, m.batch); }
  }

  lemma WritesInOrder(db: Db, pc: Pc, c: Chance, m: Memory)
    requires (pc.Save? || pc.FailRecipient? || pc.Finish?) && InOrder(pc, m)
    ensures InOrder(NextForRecipient(db, pc, c).1, Observe(db, pc, c, m))
  {
    hide RecordFailure, SaveFile, MarkMaterialized, SuffixOf;
    if pc.rest != [] && SuffixOf(pc.rest, m.batch) { TailIsSuffix(pc.rest, m.batch); }
  }

  lemma InsertsInOrder(db: Db, pc: Pc, c: Chance, m: Memory)
    requires (pc.Insert? || pc.Cleanup?) && InOrder(pc, m)
    ensures InOrder(NextForRecipient(db, pc, c).1, Observe(db, pc, c, m))
  {
    hide InsertMessage, DeleteFile, InsertReplyOf, SuffixOf;
    if pc.rest != [] && SuffixOf(pc.rest, m.batch) { TailIsSuffix(pc.rest, m.batch); }
  }

  lemma LoopInOrder(db: Db, pc: Pc, c: Chance, m: Memory)
    requires InRecipientLoop(pc) && InOrder(pc, m)
    ensures InOrder(NextForRecipient(db, pc, c).1, Observe(db, pc, c, m))
  {
    hide NextForRecipient, InOrder, Observe;
    if pc.Each? || pc.Admit? || pc.Build? { TurnsInOrder(db, pc, c, m); }
    else if pc.Insert? || pc.Cleanup? { InsertsInOrder(db, pc, c, m); }
    else { WritesInOrder(db, pc, c, m); }
  }

  lemma StatementInOrder(lim: Limits, db: Db, pc: Pc, c: Chance, m: Memory)
    requires InOrder(pc, m)
    ensures InOrder(Next(lim, db, pc, c).1, Observe(db, pc, c, m))
  {
    hide NextForRecipient;
    if InRecipientLoop(pc) {
      LoopInOrder(db, pc, c, m);
      hide InOrder;
    } else {
      hide ClaimActive, MarkExpanding, SnapshotBatch, SnapshotReplyOf, ClaimPending, ClaimedRows, MarkFailed, CompleteBroadcast, HasPending;
    }
  }

  lemma StepInOrder(lim: Limits, s: System, a: Action, e: nat, m: Memory)
    requires InOrder(PcOf(s, e), m)
    ensures InOrder(PcOf(Apply(lim, s, a), e), Remember(lim, s, a, e, m))
  {
    if a.Expand? && a.expander == e { StatementInOrder(lim, s.db, PcOf(s, e), a.chance, m); }
    hide Next, InOrder, Observe;
    if a.Expand? && a.expander != e { ApplyExpand(lim, s, a.expander, a.chance); }
    if a.Crash? && a.expander == e { IdleInOrder(NOTHING); }
  }

  lemma IdleInOrder(m: Memory)
    ensures InOrder(Idle, m)
  {
  }

  /** Over whole runs, an expander stands where its answers have let it come. */
  lemma {:induction false} RunInOrder(lim: Limits, s: System, acts: seq<Action>, e: nat, m: Memory)
    requires InOrder(PcOf(s, e), m)
    ensures InOrder(PcOf(Exec(lim, s, acts), e), Recall(lim, s, acts, e, m))
    decreases |acts|
  {
    if acts != [] {
      hide InOrder, Apply, Remember;
      StepInOrder(lim, s, acts[0], e, m);
      RunInOrder(lim, Apply(lim, s, acts[0]), acts[1..], e, Remember(lim, s, acts[0], e, m));
    }
  }

  // Before the loop.

  /** This visit has just started the broadcast, or found it started. */
  predicate JustStarted(db: Db, pc: Pc, id: nat) {
    && id in db.broadcasts
    && ((pc.Mark? && db.broadcasts[id].status == Accepted && Underway(db, id))
        || (pc.MarkCheck? && db.broadcasts[id].status == Expanding))
  }

  /** A visit comes to the scan or to the claim only through statements that have
      committed and been answered: the start, and the batch of a broadcast under way. */
  lemma GoesOnWhen(lim: Limits, db: Db, pc: Pc, c: Chance)
    requires !InRecipientLoop(pc) && !pc.Idle? && pc.q != []
    ensures var pc', id, scanned := Next(lim, db, pc, c).1, pc.q[0].id, pc.q[0].snapshotComplete;
      && (pc'.Snapshot? <==> c.outcome == Done && !scanned && JustStarted(db, pc, id))
      && (pc'.Claim? <==>
            c.outcome == Done && ((scanned && JustStarted(db, pc, id)) || (pc.Snapshot? && Underway(db, id))))
      && (pc'.Snapshot? || pc'.Claim? ==> pc'.q == pc.q)
  {
    hide MarkExpanding, SnapshotBatch, ClaimPending, ClaimedRows, MarkFailed, CompleteBroadcast, HasPending, Page, MemberKeys;
  }

  /** A tick begins with what the claim of active broadcasts has returned. */
  lemma BeginsWhen(lim: Limits, db: Db, c: Chance)
    ensures var rows := ClaimActive(db, lim.broadcasts, c.locked);
      Next(lim, db, Idle, c) == (db, if c.outcome == Done && rows != [] then Mark(rows) else Idle)
  {
  }

  // Entering and leaving the loop.

  /** The loop is entered if and only if the suppression lookup of the batch has
      just succeeded; it is then about that batch and that answer. */
  lemma EntersWhen(lim: Limits, db: Db, pc: Pc, c: Chance)
    requires !InRecipientLoop(pc)
    ensures var pc' := Next(lim, db, pc, c).1;
      && (InRecipientLoop(pc') <==> pc.Suppression? && c.outcome == Done)
      && (InRecipientLoop(pc') ==> pc' == Each(pc.q, pc.rest, c.suppressed))
  {
    hide ClaimActive, MarkExpanding, SnapshotBatch, SnapshotReplyOf, ClaimPending, ClaimedRows, MarkFailed, CompleteBroadcast, HasPending;
  }

  /** It is left when nobody is left, when a recipient is not admitted, or when the
      cleanup of a refused one has succeeded; never otherwise. */
  lemma LeavesWhen(db: Db, pc: Pc, c: Chance)
    requires InRecipientLoop(pc)
    ensures var pc' := NextForRecipient(db, pc, c).1;
      && (!InRecipientLoop(pc') ==> pc' == PendingTest(pc.q))
      && (!InRecipientLoop(pc') <==>
            pc.rest == [] || (pc.Admit? && !(c.outcome == Done && c.admitted)) || (pc.Cleanup? && c.outcome == Done))
  {
    hide MarkSuppressed, RecordFailure, SaveFile, InsertMessage, DeleteFile, MarkMaterialized, InsertReplyOf;
  }

  /** The insert is refused: its recipient or its broadcast is no longer open. */
  predicate IsRefused(db: Db, r: nat) {
    && r in db.recipients && r !in db.messages && db.recipients[r].broadcast in db.broadcasts
    && !(Underway(db, db.recipients[r].broadcast) && db.recipients[r].status == Pending)
  }

  /** The message is there, or the insert has just brought it. */
  predicate IsSent(db: Db, r: nat, domainVerified: bool) {
    && r in db.recipients
    && (r in db.messages
        || (Underway(db, db.recipients[r].broadcast) && db.recipients[r].status == Pending && domainVerified))
  }

  /** What each answer in the loop leads to; with any other, and after a write,
      the next recipient's turn comes. */
  lemma TurnsWhen(db: Db, pc: Pc, c: Chance)
    requires InRecipientLoop(pc) && pc.rest != []
    ensures var pc', r, fine := NextForRecipient(db, pc, c).1, pc.rest[0], c.outcome == Done;
      && (pc'.Admit? <==> pc.Each? && r !in pc.sup && fine && r !in db.messages)
      && (pc'.Build? <==> pc.Admit? && fine && c.admitted)
      && (pc'.Save? <==> pc.Build? && c.build == Built)
      && (pc'.FailRecipient? <==> pc.Build? && c.build == Deterministic)
      && (pc'.Insert? <==> pc.Save? && fine)
      && (pc'.Cleanup? <==> (pc.Insert? && fine && IsRefused(db, r)) || (pc.Cleanup? && !fine && pc.tries < 2))
      && (pc'.Finish? <==>
            (pc.Each? && r !in pc.sup && fine && r in db.messages) || (pc.Insert? && fine && IsSent(db, r, c.domainVerified)))
      && (pc'.Each? ==> pc' == Each(pc.q, pc.rest[1..], pc.sup))
  {
    hide MarkSuppressed, RecordFailure, SaveFile, InsertMessage, DeleteFile, MarkMaterialized;
    InsertRepliesWhen(db, pc.rest[0], c.domainVerified);
  }

  /** A save stores the recipient's file, a cleanup removes it; no other file and
      no other statement. */
  lemma FilesAre(db: Db, pc: Pc, c: Chance)
    requires InRecipientLoop(pc) && pc.rest != []
    ensures var files, r, written := NextForRecipient(db, pc, c).0.files, pc.rest[0], !c.outcome.Failed?;
      && (r in files <==> if pc.Save? && written then true else if pc.Cleanup? && written then false else r in db.files)
      && forall q :: q != r ==> (q in files <==> q in db.files)
  {
  }

  /** A batch that comes back empty is not looked up, and a failed lookup of the
      suppressions goes straight to the completion test. */
  lemma TestsWhen(lim: Limits, db: Db, pc: Pc, c: Chance)
    requires !InRecipientLoop(pc) && !pc.Idle? && pc.q != []
    ensures Next(lim, db, pc, c).1.PendingTest? <==>
      || (pc.Suppression? && c.outcome != Done)
      || (pc.Claim? && c.outcome == Done && ClaimedRows(db, pc.q[0].id, lim.materialize, c.locked) == [])
  {
    hide MarkExpanding, SnapshotBatch, SnapshotReplyOf, ClaimPending, ClaimedRows, MarkFailed, CompleteBroadcast, HasPending;
  }

  // What the statements of a recipient write, and on what grounds.

  /** The changes one step may make to a recipient's file, message and row. */
  datatype Change = Sends | Saves | Deletes | Counts | Suppresses

  predicate Makes(a: Db, b: Db, r: nat, change: Change) {
    match change
    case Sends => r in b.messages && r !in a.messages
    case Saves => r in b.files && r !in a.files
    case Deletes => r in a.files && r !in b.files
    case Counts => r in a.recipients && r in b.recipients && b.recipients[r].attempts != a.recipients[r].attempts
    case Suppresses =>
      && r in a.recipients && r in b.recipients
      && a.recipients[r].status != Suppressed && b.recipients[r].status == Suppressed
  }

  /** The answers it takes. */
  ghost predicate Grounds(m: Memory, r: nat, change: Change) {
    && r in m.batch && m.verified && m.listed.Some?
    && match change
       case Sends => r !in m.listed.value && m.admitted && m.built == Some(Built) && m.saved
       case Saves => r !in m.listed.value && m.admitted && m.built == Some(Built)
       case Deletes => r !in m.listed.value && m.saved && m.refused && m.deletions < 3
       case Counts => r !in m.listed.value && m.admitted && m.built == Some(Deterministic)
       case Suppresses => r in m.listed.value
  }

  /** Which statement makes which change. */
  predicate Makers(pc: Pc, r: nat, change: Change) {
    && InRecipientLoop(pc) && pc.rest != [] && pc.rest[0] == r
    && match change
       case Sends => pc.Insert?
       case Saves => pc.Save?
       case Deletes => pc.Cleanup?
       case Counts => pc.FailRecipient?
       case Suppresses => pc.Each? && r in pc.sup
  }

  lemma LoopMakes(db: Db, pc: Pc, c: Chance, r: nat, change: Change)
    requires InRecipientLoop(pc) && Makes(db, NextForRecipient(db, pc, c).0, r, change)
    ensures Makers(pc, r, change) && (change.Sends? ==> c.domainVerified)
  {
  }

  lemma StampsMake(db: Db, id: nat, limit: nat, locked: set<nat>, r: nat, change: Change)
    ensures !Makes(db, ClaimPending(db, id, limit, locked), r, change)
  {
    StampClaimsFrame(db, ClaimedRows(db, id, limit, locked));
    hide StampClaims, ClaimedRows;
  }

  lemma BatchMakes(db: Db, id: nat, batch: nat, r: nat, change: Change)
    requires IdsFresh(db)
    ensures !Makes(db, SnapshotBatch(db, id, batch), r, change)
  {
    if id in db.broadcasts {
      var page := Page(MemberKeys(db, db.broadcasts[id]), db.broadcasts[id].cursor, batch);
      PageAddsPending(db, id, page);
      InsertMembersFrame(db, id, page);
      hide Page, MemberKeys, InsertMembers;
    }
  }

  lemma QuietStatement(lim: Limits, db: Db, pc: Pc, c: Chance)
    requires !InRecipientLoop(pc) && !pc.Snapshot? && !pc.Claim?
    ensures var db' := Next(lim, db, pc, c).0;
      db'.recipients == db.recipients && db'.messages == db.messages && db'.files == db.files
  {
    hide ClaimActive, HasPending;
  }

  lemma ScanStatement(lim: Limits, db: Db, pc: Pc, c: Chance)
    requires pc.Snapshot? || pc.Claim?
    ensures var db' := Next(lim, db, pc, c).0;
      || db' == db
      || (pc.Snapshot? && pc.q != [] && db' == SnapshotBatch(db, pc.q[0].id, lim.snapshot))
      || (pc.Claim? && pc.q != [] && db' == ClaimPending(db, pc.q[0].id, lim.materialize, c.locked))
  {
    hide SnapshotBatch, SnapshotReplyOf, ClaimPending, ClaimedRows;
  }

  lemma NothingMade(a: Db, b: Db, r: nat, change: Change)
    requires b.recipients == a.recipients && b.messages == a.messages && b.files == a.files
    ensures !Makes(a, b, r, change)
  {
  }

  lemma StatementMakes(lim: Limits, db: Db, pc: Pc, c: Chance, r: nat, change: Change)
    requires Inv(db) && Makes(db, Next(lim, db, pc, c).0, r, change)
    ensures Makers(pc, r, change) && (change.Sends? ==> c.domainVerified)
  {
    hide Inv, SnapshotBatch, ClaimPending, Next, NextForRecipient, Makes, Makers;
    NothingMade(db, db, r, change);
    if InRecipientLoop(pc) {
      LoopIsNext(lim, db, pc, c);
      LoopMakes(db, pc, c, r, change);
    } else if pc.Snapshot? || pc.Claim? {
      InvKeepsIdsFresh(db);
      ScanStatement(lim, db, pc, c);
      if pc.q != [] {
        BatchMakes(db, pc.q[0].id, lim.snapshot, r, change);
        StampsMake(db, pc.q[0].id, lim.materialize, c.locked, r, change);
      }
    } else {
      QuietStatement(lim, db, pc, c);
      NothingMade(db, Next(lim, db, pc, c).0, r, change);
    }
  }

  lemma MakersHaveGrounds(pc: Pc, m: Memory, r: nat, change: Change)
    requires InOrder(pc, m) && Makers(pc, r, change)
    ensures Grounds(m, r, change)
  {
    assert pc.rest[0] == m.batch[|m.batch| - |pc.rest|];
  }

  lemma OutsidersMakeNothing(lim: Limits, s: System, a: Action, r: nat, change: Change)
    requires !a.Expand?
    ensures !Makes(s.db, Apply(lim, s, a).db, r, change)
  {
  }

  /** Whatever a run does to a recipient was in order. When a step sends, saves,
      deletes, counts a failure or suppresses, it is the step of an expander that
      has claimed the recipient, found the domain verified and looked up the
      suppressions of its batch with success: what was listed is suppressed, what
      is sent was not listed, was admitted, built and saved, and only failures
      that would repeat are counted. */
  lemma ChangesHaveGrounds(lim: Limits, s: System, acts: seq<Action>, a: Action, r: nat, change: Change)
    requires SystemOk(s) && s.pcs == map[]
    requires Makes(Exec(lim, s, acts).db, Apply(lim, Exec(lim, s, acts), a).db, r, change)
    ensures a.Expand? && Grounds(Recall(lim, s, acts, a.expander, NOTHING), r, change)
    ensures change.Sends? ==> a.chance.domainVerified
  {
    var t := Exec(lim, s, acts);
    ExecKeeps(lim, s, acts);
    if !a.Expand? {
      OutsidersMakeNothing(lim, t, a, r, change);
    } else {
      var pc := PcOf(t, a.expander);
      assert Inv(t.db);
      IdleInOrder(NOTHING);
      hide SystemOk, Inv, Exec, InOrder, Makes, Makers, Grounds, Recall, Next;
      ApplyExpand(lim, t, a.expander, a.chance);
      StatementMakes(lim, t.db, pc, a.chance, r, change);
      RunInOrder(lim, s, acts, a.expander, NOTHING);
      MakersHaveGrounds(pc, Recall(lim, s, acts, a.expander, NOTHING), r, change);
    }
  }

  /** Nobody on the list of the batch is sent to, saved or finished by the expander
      that asked for it; and without an answer nobody at all. */
  lemma ListedAreNotHandled(lim: Limits, s: System, acts: seq<Action>, e: nat)
    requires s.pcs == map[]
    ensures var pc, m := PcOf(Exec(lim, s, acts), e), Recall(lim, s, acts, e, NOTHING);
      && (InRecipientLoop(pc) ==> m.listed == Some(pc.sup))
      && (pc.Admit? || pc.Build? || pc.Save? || pc.Insert? || pc.Cleanup? || pc.Finish? ==>
            pc.rest != [] && m.listed.Some? && pc.rest[0] !in m.listed.value)
  {
    IdleInOrder(NOTHING);
    hide Exec, Recall, Next;
    RunInOrder(lim, s, acts, e, NOTHING);
  }
}
