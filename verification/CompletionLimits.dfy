/** For which batch sizes completion is sound: exactly those with which the scan
    outruns the claims, and those with which nothing is ever completed. */
module CompletionLimits {
  import opened Options
  import opened Keyset
  import opened BroadcastRows
  import opened BroadcastInvariant
  import opened ExpansionProtocol
  import opened BroadcastTheorems
  import opened SnapshotScan
  import opened Completion
  import opened PacedCompletion
  import opened OvertakenRun

  // Batch sizes with which nothing is ever completed.

  /** Without a broadcast a tick nobody leaves the idle state, and empty batches
      complete no scan. */
  ghost predicate Stuck(lim: Limits, s: System) {
    && SystemOk(s)
    && (forall id :: id in s.db.broadcasts ==> s.db.broadcasts[id].status != Completed)
    && (lim.broadcasts == 0 ==> forall e :: e in s.pcs ==> s.pcs[e].Idle?)
    && (lim.snapshot == 0 ==> forall id :: id in s.db.broadcasts ==> Incomplete(s.db, id))
  }

  lemma StaysIncomplete(lim: Limits, s: System, a: Action, id: nat)
    requires Stuck(lim, s) && lim.snapshot == 0 && id in Apply(lim, s, a).db.broadcasts
    ensures Incomplete(Apply(lim, s, a).db, id)
  {
    if id !in s.db.broadcasts {
      OnlyCreateAdds(lim, s, a, id);
    } else if a.Expand? && PcOf(s, a.expander).Snapshot? && PcOf(s, a.expander).q[0].id == id {
      var b := s.db.broadcasts[id];
      InsertMembersFrame(s.db, id, Page(MemberKeys(s.db, b), b.cursor, 0));
      hide SystemOk, Page, MemberKeys, InsertMembers;
    } else {
      CursorUntouched(lim, s, a, id);
    }
  }

  lemma StaysStuck(lim: Limits, s: System, a: Action)
    requires Stuck(lim, s) && (lim.broadcasts == 0 || lim.snapshot == 0)
    ensures Stuck(lim, Apply(lim, s, a))
  {
    var t := Apply(lim, s, a);
    ApplyKeeps(lim, s, a);
    forall id | id in t.db.broadcasts
      ensures t.db.broadcasts[id].status != Completed
      ensures lim.snapshot == 0 ==> Incomplete(t.db, id)
    {
      if lim.snapshot == 0 { StaysIncomplete(lim, s, a, id); }
      if t.db.broadcasts[id].status == Completed {
        OnlyTheUpdateCompletes(lim, s, a, id);
        assert false;
      }
    }
    hide SystemOk;
    if lim.broadcasts == 0 {
      forall e | e in t.pcs ensures t.pcs[e].Idle? {
        if a.Expand? { assert PcOf(s, a.expander) == Idle; }
      }
    }
  }

  lemma {:induction false} StuckRuns(lim: Limits, s: System, acts: seq<Action>)
    requires Stuck(lim, s) && (lim.broadcasts == 0 || lim.snapshot == 0)
    ensures CompletedIsDone(Exec(lim, s, acts).db)
    decreases |acts|
  {
    if acts != [] {
      StaysStuck(lim, s, acts[0]);
      StuckRuns(lim, Apply(lim, s, acts[0]), acts[1..]);
    }
  }

  ghost predicate AlwaysSound(lim: Limits) {
    forall now: Time, acts: seq<Action> :: CompletedIsDone(Exec(lim, System(EmptyDb(now), map[]), acts).db)
  }

  /** Exactly the batch sizes with which completed means done, in every run of
      any number of expanders from an empty installation. */
  lemma CompletionIsSoundWhen(lim: Limits)
    ensures AlwaysSound(lim) <==> lim.broadcasts == 0 || lim.snapshot == 0 || lim.snapshot > 2 * lim.materialize
  {
    if Overtakes(lim) {
      OvertakenStrands(lim);
    } else {
      forall now: Time, acts: seq<Action> ensures CompletedIsDone(Exec(lim, System(EmptyDb(now), map[]), acts).db) {
        if lim.snapshot > 2 * lim.materialize {
          CompletionIsSound(lim, now, acts);
        } else {
          StuckRuns(lim, System(EmptyDb(now), map[]), acts);
        }
      }
    }
  }
}
