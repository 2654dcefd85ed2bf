/** When does 'completed' mean that orchestration is done? TryCompleteBroadcast
    is two statements: the test for pending recipients and the UPDATE. */
module Completion {
  import opened Options
  import opened Keyset
  import opened BroadcastRows
  import opened BroadcastInvariant
  import opened ExpansionProtocol
  import opened BroadcastTheorems

  ghost predicate CompletedIsDone(db: Db) {
    forall id :: id in db.broadcasts && db.broadcasts[id].status == Completed ==>
      db.broadcasts[id].snapshotComplete && !HasPending(db, id)
  }

  /** The UPDATE half runs and would complete a broadcast that has pending
      recipients at that moment. */
  predicate LateUpdate(s: System, a: Action) {
    && a.Expand? && !a.chance.outcome.Failed?
    && PcOf(s, a.expander).Complete? && PcOf(s, a.expander).q != []
    && var id := PcOf(s, a.expander).q[0].id;
       && id in s.db.broadcasts && s.db.broadcasts[id].status == Expanding
       && s.db.broadcasts[id].snapshotComplete && HasPending(s.db, id)
  }

  /** A broadcast that has ended gains no pending recipient. */
  lemma EndedGainsNoPending(a: Db, b: Db, id: nat)
    requires Evolves(a, b) && Ended(a, id) && HasPending(b, id)
    ensures HasPending(a, id)
  {
  }

  /** A statement other than the UPDATE completes nothing. */
  lemma OtherStepsDoNotComplete(lim: Limits, db: Db, pc: Pc, c: Chance, id: nat)
    requires !pc.Complete? && id in Next(lim, db, pc, c).0.broadcasts
    requires Next(lim, db, pc, c).0.broadcasts[id].status == Completed
    ensures id in db.broadcasts && db.broadcasts[id].status == Completed
  {
    hide SnapshotBatch, ClaimPending, ClaimedRows, ClaimActive, NextForRecipient, HasPending, SnapshotReplyOf;
    if InRecipientLoop(pc) {
      LoopKeepsBroadcasts(db, pc, c);
    } else if pc.Snapshot? && pc.q != [] && !c.outcome.Failed? {
      BatchKeepsStatus(db, pc.q[0].id, lim.snapshot, id);
    } else if pc.Claim? && pc.q != [] {
      ClaimKeepsBroadcasts(db, pc.q[0].id, lim.materialize, c.locked);
    }
  }

  lemma OutsidersDoNotComplete(lim: Limits, s: System, a: Action, id: nat)
    requires !a.Expand? && id in Apply(lim, s, a).db.broadcasts
    requires Apply(lim, s, a).db.broadcasts[id].status == Completed
    ensures id in s.db.broadcasts && s.db.broadcasts[id].status == Completed
  {
  }

  /** Nothing but the UPDATE makes a broadcast completed. */
  lemma OnlyTheUpdateCompletes(lim: Limits, s: System, a: Action, id: nat)
    requires SystemOk(s) && id in Apply(lim, s, a).db.broadcasts
    requires Apply(lim, s, a).db.broadcasts[id].status == Completed
    requires !(id in s.db.broadcasts && s.db.broadcasts[id].status == Completed)
    ensures a.Expand? && !a.chance.outcome.Failed?
    ensures PcOf(s, a.expander).Complete? && PcOf(s, a.expander).q != [] && PcOf(s, a.expander).q[0].id == id
    ensures id in s.db.broadcasts && s.db.broadcasts[id].status == Expanding && s.db.broadcasts[id].snapshotComplete
    ensures Apply(lim, s, a).db == CompleteBroadcast(s.db, id)
  {
    hide Inv, Next;
    if !a.Expand? {
      OutsidersDoNotComplete(lim, s, a, id);
    } else {
      var pc := PcOf(s, a.expander);
      assert PcOk(s.db, pc);
      if !pc.Complete? { OtherStepsDoNotComplete(lim, s.db, pc, a.chance, id); }
      TheUpdateIs(lim, s.db, pc, a.chance);
    }
  }

  lemma TheUpdateIs(lim: Limits, db: Db, pc: Pc, c: Chance)
    requires pc.Complete? && pc.q != []
    ensures Next(lim, db, pc, c).0 == if c.outcome.Failed? then db else CompleteBroadcast(db, pc.q[0].id)
  {
  }

  lemma BatchKeepsStatus(db: Db, b: nat, batch: nat, id: nat)
    requires id in SnapshotBatch(db, b, batch).broadcasts
    ensures id in db.broadcasts && SnapshotBatch(db, b, batch).broadcasts[id].status == db.broadcasts[id].status
  {
    if b in db.broadcasts {
      InsertMembersFrame(db, b, Page(MemberKeys(db, db.broadcasts[b]), db.broadcasts[b].cursor, batch));
    }
  }

  /** What was done stays done. */
  lemma DoneStays(a: Db, b: Db, id: nat)
    requires Evolves(a, b) && CompletedIsDone(a) && id in a.broadcasts && a.broadcasts[id].status == Completed
    ensures id in b.broadcasts && b.broadcasts[id].snapshotComplete && !HasPending(b, id)
  {
    assert BroadcastEvolves(a.broadcasts[id], b.broadcasts[id]);
    if HasPending(b, id) { EndedGainsNoPending(a, b, id); }
  }

  lemma UpdateIsDone(db: Db, id: nat)
    requires id in db.broadcasts && db.broadcasts[id].snapshotComplete && !HasPending(db, id)
    ensures var db' := CompleteBroadcast(db, id);
      id in db'.broadcasts && db'.broadcasts[id].snapshotComplete && !HasPending(db', id)
  {
    assert CompleteBroadcast(db, id).recipients == db.recipients;
  }

  lemma TimelyStepIsDone(lim: Limits, s: System, a: Action, id: nat)
    requires SystemOk(s) && CompletedIsDone(s.db) && !LateUpdate(s, a)
    requires id in Apply(lim, s, a).db.broadcasts && Apply(lim, s, a).db.broadcasts[id].status == Completed
    ensures var db' := Apply(lim, s, a).db; db'.broadcasts[id].snapshotComplete && !HasPending(db', id)
  {
    hide SystemOk, CompletedIsDone, Evolves, HasPending, Apply, CompleteBroadcast;
    ApplyKeeps(lim, s, a);
    if id in s.db.broadcasts && s.db.broadcasts[id].status == Completed {
      DoneStays(s.db, Apply(lim, s, a).db, id);
    } else {
      OnlyTheUpdateCompletes(lim, s, a, id);
      UpdateIsDone(s.db, id);
    }
  }

  /** The exact failure: with any number of expanders, a step turns a sound
      database into one with a completed broadcast that is not done if and only
      if it is an UPDATE that arrives when recipients are pending again. */
  lemma OnlyALateUpdateStrands(lim: Limits, s: System, a: Action)
    requires SystemOk(s) && CompletedIsDone(s.db)
    ensures CompletedIsDone(Apply(lim, s, a).db) <==> !LateUpdate(s, a)
  {
    var db' := Apply(lim, s, a).db;
    hide SystemOk, LateUpdate, HasPending, Apply;
    if LateUpdate(s, a) {
      LateUpdateStrands(lim, s, a);
    } else {
      forall id | id in db'.broadcasts && db'.broadcasts[id].status == Completed
        ensures db'.broadcasts[id].snapshotComplete && !HasPending(db', id)
      {
        TimelyStepIsDone(lim, s, a, id);
      }
    }
  }

  lemma LateUpdateStrands(lim: Limits, s: System, a: Action)
    requires LateUpdate(s, a)
    ensures !CompletedIsDone(Apply(lim, s, a).db)
  {
    var id := PcOf(s, a.expander).q[0].id;
    var db' := Apply(lim, s, a).db;
    var r :| r in s.db.recipients && s.db.recipients[r].broadcast == id && s.db.recipients[r].status == Pending;
    assert r in db'.recipients && db'.recipients[r] == s.db.recipients[r];
    assert HasPending(db', id);
    assert db'.broadcasts[id].status == Completed;
  }

  // One expander.

  ghost predicate OnlyExpander(acts: seq<Action>, e: nat) {
    forall a :: a in acts && a.Expand? ==> a.expander == e
  }

  /** What the one expander has just read is still so. */
  ghost predicate ReadIsFresh(s: System, e: nat) {
    PcOf(s, e).Complete? && PcOf(s, e).q != [] ==> !HasPending(s.db, PcOf(s, e).q[0].id)
  }

  lemma OthersAddNoRecipients(lim: Limits, s: System, a: Action)
    requires !a.Expand?
    ensures Apply(lim, s, a).db.recipients == s.db.recipients
  {
  }

  lemma SoleStepStaysFresh(lim: Limits, s: System, a: Action, e: nat)
    requires SystemOk(s) && ReadIsFresh(s, e) && (a.Expand? ==> a.expander == e)
    ensures ReadIsFresh(Apply(lim, s, a), e)
  {
    if a.Expand? {
      FreshAfterTest(lim, s, a);
    } else {
      OthersAddNoRecipients(lim, s, a);
      assert forall id :: HasPending(Apply(lim, s, a).db, id) <==> HasPending(s.db, id);
    }
  }

  /** An expander only reaches the UPDATE straight from a test that found no
      pending recipient. */
  lemma FreshAfterTest(lim: Limits, s: System, a: Action)
    requires a.Expand?
    ensures ReadIsFresh(Apply(lim, s, a), a.expander)
  {
  }

  /** With a single expander process, and owners cancelling and rescheduling at
      any time, completed implies snapshot_complete and no pending recipient. */
  lemma {:induction false} SoleExpanderCompletesSoundly(lim: Limits, s: System, acts: seq<Action>, e: nat)
    requires SystemOk(s) && CompletedIsDone(s.db) && ReadIsFresh(s, e) && OnlyExpander(acts, e)
    ensures CompletedIsDone(Exec(lim, s, acts).db)
    decreases |acts|
  {
    if acts != [] {
      var a := acts[0];
      assert a in acts;
      assert !LateUpdate(s, a);
      ApplyKeeps(lim, s, a);
      OnlyALateUpdateStrands(lim, s, a);
      SoleStepStaysFresh(lim, s, a, e);
      assert forall x :: x in acts[1..] ==> x in acts;
      SoleExpanderCompletesSoundly(lim, Apply(lim, s, a), acts[1..], e);
    }
  }

  // Any number of expanders, if the two statements were one.

  predicate AtUpdate(s: System, e: nat) {
    PcOf(s, e).Complete?
  }

  /** The test and, when it passes, the UPDATE without a gap. */
  function FusedApply(lim: Limits, s: System, a: Action): System {
    var s1 := Apply(lim, s, a);
    if a.Expand? && AtUpdate(s1, a.expander) then Apply(lim, s1, a) else s1
  }

  function FusedExec(lim: Limits, s: System, acts: seq<Action>): System
    decreases |acts|
  {
    if acts == [] then s else FusedExec(lim, FusedApply(lim, s, acts[0]), acts[1..])
  }

  ghost predicate NobodyAtUpdate(s: System) {
    forall e: nat :: !AtUpdate(s, e)
  }

  lemma FusedStepKeeps(lim: Limits, s: System, a: Action)
    requires SystemOk(s) && CompletedIsDone(s.db) && NobodyAtUpdate(s)
    ensures var s' := FusedApply(lim, s, a); SystemOk(s') && CompletedIsDone(s'.db) && NobodyAtUpdate(s')
  {
    var s1 := Apply(lim, s, a);
    ApplyKeeps(lim, s, a);
    assert !LateUpdate(s, a) by { assert a.Expand? ==> !AtUpdate(s, a.expander); }
    OnlyALateUpdateStrands(lim, s, a);
    NobodyElseMoves(lim, s, a);
    if a.Expand? && AtUpdate(s1, a.expander) {
      ApplyKeeps(lim, s1, a);
      FreshAfterTest(lim, s, a);
      OnlyALateUpdateStrands(lim, s1, a);
      NobodyElseMoves(lim, s1, a);
    }
  }

  lemma NobodyElseMoves(lim: Limits, s: System, a: Action)
    ensures forall e: nat :: !(a.Expand? && e == a.expander) && AtUpdate(Apply(lim, s, a), e) ==> AtUpdate(s, e)
    ensures a.Expand? && AtUpdate(s, a.expander) ==> !AtUpdate(Apply(lim, s, a), a.expander)
  {
  }

  /** If the pending test and the update were one step, completion would be
      sound for any number of expanders. */
  lemma {:induction false} FusedCompletionIsSound(lim: Limits, s: System, acts: seq<Action>)
    requires SystemOk(s) && CompletedIsDone(s.db) && NobodyAtUpdate(s)
    ensures CompletedIsDone(FusedExec(lim, s, acts).db)
    decreases |acts|
  {
    if acts != [] {
      FusedStepKeeps(lim, s, acts[0]);
      FusedCompletionIsSound(lim, FusedApply(lim, s, acts[0]), acts[1..]);
    }
  }
}
