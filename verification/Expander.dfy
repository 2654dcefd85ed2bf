/** The expander's own code: loops with early exits over rows that others change
    between any two of its statements. Every statement is shown to be a step of
    the protocol, so a tick is a run of ExpansionProtocol and everything proved
    about runs holds of it. */
module Expander {
  import opened Options
  import opened BroadcastRows
  import opened BroadcastInvariant
  import opened ExpansionProtocol
  import opened BroadcastStore

  datatype Error = NoError | ConflictError | DeterministicError | OtherError

  class Expander {
    const lim: Limits
    const me: nat
    const store: Store
    /** The system this expander is part of: the same rows, and where everyone
        stands. */
    ghost var sys: System

    constructor (lim: Limits, me: nat, store: Store, ghost sys: System)
      requires store.State() == sys.db && PcOf(sys, me) == Idle
      ensures this.lim == lim && this.me == me && this.store == store && this.sys == sys
      ensures At(sys, Idle)
    {
      this.lim, this.me, this.store, this.sys := lim, me, store, sys;
      new;
      ReachesItself(lim, sys);
    }

    /** The rows are what some interleaving has made of `start`, and this
        expander stands at pc. */
    ghost predicate At(start: System, pc: Pc)
      reads this, store
    {
      store.State() == sys.db && PcOf(sys, me) == pc && Reaches(lim, start, sys)
    }

    /** Between two statements anything may have been committed by other
        expanders, owners and the clock. Callers know only the contract. */
    method Interfere(ghost start: System, ghost pc: Pc)
      requires At(start, pc)
      modifies this`sys, store
      ensures At(start, pc)
    {
    }

    /** The statement just carried out is the protocol's step. */
    ghost method Commit(start: System, pc: Pc, c: Chance, pc': Pc)
      requires PcOf(sys, me) == pc && Reaches(lim, start, sys)
      requires Next(lim, sys.db, pc, c) == (store.State(), pc')
      modifies this`sys
      ensures At(start, pc')
    {
      ReachesNext(lim, start, sys, Expand(me, c));
      sys := Apply(lim, sys, Expand(me, c));
    }

    /** What the network, the other transactions' row locks, the suppression
        list, the limiter and the builder will answer. */
    method Luck() returns (c: Chance)
    {
      c := *;
    }

    // One method per statement. `err` is what the Go code sees.

    method ClaimActive(ghost start: System) returns (rows: seq<Row>)
      requires At(start, Idle)
      modifies this`sys, store
      ensures At(start, if rows == [] then Idle else Mark(rows))
    {
      hide Reaches;
      Interfere(start, Idle);
      var c := Luck();
      rows := store.ClaimActiveBroadcasts(lim.broadcasts, c.locked);
      if c.outcome != Done { rows := []; }
      Commit(start, Idle, c, if rows == [] then Idle else Mark(rows));
    }

    method MarkExpanding(ghost start: System, ghost q: seq<Row>, row: Row) returns (err: Error)
      requires q != [] && q[0] == row && At(start, Mark(q))
      modifies this`sys, store
      ensures At(start, if err == NoError then AfterMark(q) else NextBroadcast(q))
    {
      hide Reaches;
      Interfere(start, Mark(q));
      var c := Luck();
      var moved := false;
      if c.outcome != Outcome.Failed { moved := store.MarkBroadcastExpanding(row.id); }
      if c.outcome != Done {
        Commit(start, Mark(q), c, NextBroadcast(q));
        return OtherError;
      }
      if moved {
        Commit(start, Mark(q), c, AfterMark(q));
        return NoError;
      }
      Commit(start, Mark(q), c, MarkCheck(q));
      Interfere(start, MarkCheck(q));
      c := Luck();
      if c.outcome != Done || row.id !in store.broadcasts {
        err := OtherError;
      } else {
        err := if store.broadcasts[row.id].status != Expanding then ConflictError else NoError;
      }
      Commit(start, MarkCheck(q), c, if err == NoError then AfterMark(q) else NextBroadcast(q));
    }

    method Snapshot(ghost start: System, ghost q: seq<Row>, row: Row) returns (err: Error)
      requires q != [] && q[0] == row && At(start, ExpansionProtocol.Snapshot(q))
      modifies this`sys, store
      ensures At(start, if err == NoError then ExpansionProtocol.Claim(q) else NextBroadcast(q))
    {
      hide Reaches;
      Interfere(start, ExpansionProtocol.Snapshot(q));
      var c := Luck();
      var reply := NotFound;
      if c.outcome != Outcome.Failed { reply := store.SnapshotBroadcastBatch(row.id, lim.snapshot); }
      if c.outcome != Done || reply == NotFound { err := OtherError; }
      else if reply == Conflict { err := ConflictError; }
      else { err := NoError; }
      Commit(start, ExpansionProtocol.Snapshot(q), c, if err == NoError then ExpansionProtocol.Claim(q) else NextBroadcast(q));
    }

    method Claim(ghost start: System, ghost q: seq<Row>, row: Row) returns (err: Error, ids: seq<nat>)
      requires q != [] && q[0] == row && At(start, ExpansionProtocol.Claim(q))
      modifies this`sys, store
      ensures At(start, if err != NoError then NextBroadcast(q) else if ids == [] then PendingTest(q) else Domain(q, ids))
    {
      hide Reaches;
      Interfere(start, ExpansionProtocol.Claim(q));
      var c := Luck();
      ids := [];
      if c.outcome != Outcome.Failed { ids := store.ClaimPendingBroadcastRecipients(row.id, lim.materialize, c.locked, c.order); }
      err := if c.outcome == Done then NoError else OtherError;
      Commit(start, ExpansionProtocol.Claim(q), c,
             if err != NoError then NextBroadcast(q) else if ids == [] then PendingTest(q) else Domain(q, ids));
    }

    /** Also when the lookup itself failed, the broadcast is failed. */
    method VerifiedSenderDomain(ghost start: System, ghost q: seq<Row>, ghost ids: seq<nat>) returns (err: Error)
      requires At(start, Domain(q, ids))
      modifies this`sys, store
      ensures At(start, if err == NoError then Suppression(q, ids) else FailBroadcast(q))
    {
      hide Reaches;
      Interfere(start, Domain(q, ids));
      var c := Luck();
      err := if c.outcome == Done && c.domainVerified then NoError else OtherError;
      Commit(start, Domain(q, ids), c, if err == NoError then Suppression(q, ids) else FailBroadcast(q));
    }

    method MarkFailed(ghost start: System, ghost q: seq<Row>, row: Row)
      requires q != [] && q[0] == row && At(start, FailBroadcast(q))
      modifies this`sys, store
      ensures At(start, NextBroadcast(q))
    {
      hide Reaches;
      Interfere(start, FailBroadcast(q));
      var c := Luck();
      if c.outcome != Outcome.Failed { store.MarkBroadcastFailed(row.id); }
      Commit(start, FailBroadcast(q), c, NextBroadcast(q));
    }

    method HasPending(ghost start: System, ghost q: seq<Row>, row: Row) returns (err: Error, pending: bool)
      requires q != [] && q[0] == row && At(start, PendingTest(q))
      modifies this`sys, store
      ensures At(start, if err == NoError && !pending then Complete(q) else NextBroadcast(q))
    {
      hide Reaches;
      Interfere(start, PendingTest(q));
      var c := Luck();
      pending := store.HasPendingBroadcastRecipients(row.id);
      err := if c.outcome == Done then NoError else OtherError;
      Commit(start, PendingTest(q), c, if err == NoError && !pending then Complete(q) else NextBroadcast(q));
    }

    method MarkCompleted(ghost start: System, ghost q: seq<Row>, row: Row)
      requires q != [] && q[0] == row && At(start, Complete(q))
      modifies this`sys, store
      ensures At(start, NextBroadcast(q))
    {
      hide Reaches;
      Interfere(start, Complete(q));
      var c := Luck();
      if c.outcome != Outcome.Failed { store.CompleteBroadcast(row.id); }
      Commit(start, Complete(q), c, NextBroadcast(q));
    }

    method TryComplete(ghost start: System, ghost q: seq<Row>, row: Row)
      requires q != [] && q[0] == row && At(start, PendingTest(q))
      modifies this`sys, store
      ensures At(start, NextBroadcast(q))
    {
      hide At;
      var err, pending := HasPending(start, q, row);
      if err != NoError || pending { return; }
      MarkCompleted(start, q, row);
    }

    // The recipient loop.

    method SuppressedForTenant(ghost start: System, ghost q: seq<Row>, ghost ids: seq<nat>)
      returns (err: Error, suppressed: set<nat>)
      requires At(start, Suppression(q, ids))
      modifies this`sys, store
      ensures At(start, if err == NoError then Each(q, ids, suppressed) else PendingTest(q))
    {
      hide Reaches;
      Interfere(start, Suppression(q, ids));
      var c := Luck();
      err, suppressed := if c.outcome == Done then NoError else OtherError, c.suppressed;
      Commit(start, Suppression(q, ids), c, if err == NoError then Each(q, ids, suppressed) else PendingTest(q));
    }

    method MarkSuppressed(ghost start: System, ghost q: seq<Row>, ghost rest: seq<nat>, ghost sup: set<nat>, r: nat)
      requires rest != [] && rest[0] == r && r in sup && At(start, Each(q, rest, sup))
      modifies this`sys, store
      ensures At(start, Each(q, rest[1..], sup))
    {
      hide Reaches;
      Interfere(start, Each(q, rest, sup));
      var c := Luck();
      if c.outcome != Outcome.Failed { store.MarkBroadcastRecipientSuppressed(r); }
      Commit(start, Each(q, rest, sup), c, Each(q, rest[1..], sup));
    }

    method GetMessage(ghost start: System, ghost q: seq<Row>, ghost rest: seq<nat>, ghost sup: set<nat>, r: nat)
      returns (err: Error, found: bool)
      requires rest != [] && rest[0] == r && r !in sup && At(start, Each(q, rest, sup))
      modifies this`sys, store
      ensures At(start, if err != NoError then Each(q, rest[1..], sup)
                        else if found then ExpansionProtocol.Finish(q, rest, sup) else ExpansionProtocol.Admit(q, rest, sup))
    {
      hide Reaches;
      Interfere(start, Each(q, rest, sup));
      var c := Luck();
      err, found := if c.outcome == Done then NoError else OtherError, r in store.messages;
      Commit(start, Each(q, rest, sup), c,
             if err != NoError then Each(q, rest[1..], sup)
             else if found then ExpansionProtocol.Finish(q, rest, sup) else ExpansionProtocol.Admit(q, rest, sup));
    }

    method Admit(ghost start: System, ghost q: seq<Row>, ghost rest: seq<nat>, ghost sup: set<nat>) returns (admitted: bool)
      requires rest != [] && At(start, ExpansionProtocol.Admit(q, rest, sup))
      modifies this`sys, store
      ensures At(start, if admitted then Build(q, rest, sup) else PendingTest(q))
    {
      hide Reaches;
      Interfere(start, ExpansionProtocol.Admit(q, rest, sup));
      var c := Luck();
      admitted := c.outcome == Done && c.admitted;
      Commit(start, ExpansionProtocol.Admit(q, rest, sup), c, if admitted then Build(q, rest, sup) else PendingTest(q));
    }

    method RecordFailure(ghost start: System, ghost q: seq<Row>, ghost rest: seq<nat>, ghost sup: set<nat>, r: nat)
      requires rest != [] && rest[0] == r && At(start, FailRecipient(q, rest, sup))
      modifies this`sys, store
      ensures At(start, Each(q, rest[1..], sup))
    {
      hide Reaches;
      Interfere(start, FailRecipient(q, rest, sup));
      var c := Luck();
      if c.outcome != Outcome.Failed { store.RecordBroadcastRecipientFailure(r); }
      Commit(start, FailRecipient(q, rest, sup), c, Each(q, rest[1..], sup));
    }

    method FinishMaterialized(ghost start: System, ghost q: seq<Row>, ghost rest: seq<nat>, ghost sup: set<nat>, r: nat)
      requires rest != [] && rest[0] == r && At(start, ExpansionProtocol.Finish(q, rest, sup))
      modifies this`sys, store
      ensures At(start, Each(q, rest[1..], sup))
    {
      hide Reaches;
      Interfere(start, ExpansionProtocol.Finish(q, rest, sup));
      var c := Luck();
      if c.outcome != Outcome.Failed { store.MarkBroadcastRecipientMaterialized(r); }
      Commit(start, ExpansionProtocol.Finish(q, rest, sup), c, Each(q, rest[1..], sup));
    }

    method DeleteFile(ghost start: System, ghost q: seq<Row>, ghost rest: seq<nat>, ghost sup: set<nat>, r: nat, attempt: nat)
      returns (deleted: bool)
      requires rest != [] && rest[0] == r && At(start, Cleanup(q, rest, sup, attempt))
      modifies this`sys, store
      ensures At(start, if deleted then PendingTest(q)
                        else if attempt + 1 < CLEANUP_TRIES then Cleanup(q, rest, sup, attempt + 1)
                        else Each(q, rest[1..], sup))
    {
      hide Reaches;
      Interfere(start, Cleanup(q, rest, sup, attempt));
      var c := Luck();
      if c.outcome != Outcome.Failed { store.DeleteFile(r); }
      deleted := c.outcome == Done;
      Commit(start, Cleanup(q, rest, sup, attempt), c,
             if deleted then PendingTest(q)
             else if attempt + 1 < CLEANUP_TRIES then Cleanup(q, rest, sup, attempt + 1)
             else Each(q, rest[1..], sup));
    }

    /** Up to three attempts to delete the stored file of a refused insert. */
    method CleanUp(ghost start: System, ghost q: seq<Row>, ghost rest: seq<nat>, ghost sup: set<nat>, r: nat)
      returns (err: Error)
      requires rest != [] && rest[0] == r && At(start, Cleanup(q, rest, sup, 0))
      modifies this`sys, store
      ensures err == ConflictError || err == OtherError
      ensures At(start, if err == ConflictError then PendingTest(q) else Each(q, rest[1..], sup))
    {
      hide At;
      var attempt := 0;
      while attempt < CLEANUP_TRIES
        invariant attempt <= CLEANUP_TRIES
        invariant At(start, if attempt < CLEANUP_TRIES then Cleanup(q, rest, sup, attempt) else Each(q, rest[1..], sup))
      {
        var deleted := DeleteFile(start, q, rest, sup, r, attempt);
        if deleted { return ConflictError; }
        attempt := attempt + 1;
      }
      err := OtherError;
    }

    /** Where the caller resumes after materializeOne. */
    static function AfterOne(err: Error, q: seq<Row>, rest: seq<nat>, sup: set<nat>): Pc
      requires rest != []
    {
      match err
      case NoError => ExpansionProtocol.Finish(q, rest, sup)
      case ConflictError => PendingTest(q)
      case DeterministicError => FailRecipient(q, rest, sup)
      case OtherError => Each(q, rest[1..], sup)
    }

    method SaveFile(ghost start: System, ghost q: seq<Row>, ghost rest: seq<nat>, ghost sup: set<nat>, r: nat)
      returns (err: Error)
      requires rest != [] && rest[0] == r && At(start, Save(q, rest, sup))
      modifies this`sys, store
      ensures At(start, if err == NoError then Insert(q, rest, sup) else Each(q, rest[1..], sup))
    {
      hide Reaches;
      Interfere(start, Save(q, rest, sup));
      var c := Luck();
      if c.outcome != Outcome.Failed { store.SaveFile(r); }
      err := if c.outcome == Done then NoError else OtherError;
      Commit(start, Save(q, rest, sup), c, if err == NoError then Insert(q, rest, sup) else Each(q, rest[1..], sup));
    }

    method InsertMessage(ghost start: System, ghost q: seq<Row>, ghost rest: seq<nat>, ghost sup: set<nat>, r: nat)
      returns (err: Error)
      requires rest != [] && rest[0] == r && At(start, Insert(q, rest, sup))
      modifies this`sys, store
      ensures err != DeterministicError
      ensures At(start, if err == ConflictError then Cleanup(q, rest, sup, 0)
                        else if err == NoError then ExpansionProtocol.Finish(q, rest, sup)
                        else Each(q, rest[1..], sup))
    {
      hide Reaches;
      Interfere(start, Insert(q, rest, sup));
      var c := Luck();
      var reply := LockFailed;
      if c.outcome != Outcome.Failed { reply := store.InsertMessage(r, c.domainVerified); }
      if c.outcome != Done { err := OtherError; }
      else if reply == Refused { err := ConflictError; }
      else { err := if reply == Inserted || reply == AlreadyInserted then NoError else OtherError; }
      Commit(start, Insert(q, rest, sup), c,
             if err == ConflictError then Cleanup(q, rest, sup, 0)
             else if err == NoError then ExpansionProtocol.Finish(q, rest, sup)
             else Each(q, rest[1..], sup));
    }

    method BuildMessage(ghost start: System, ghost q: seq<Row>, ghost rest: seq<nat>, ghost sup: set<nat>)
      returns (err: Error)
      requires rest != [] && At(start, Build(q, rest, sup))
      modifies this`sys, store
      ensures err != ConflictError
      ensures At(start, if err == NoError then Save(q, rest, sup) else AfterOne(err, q, rest, sup))
    {
      hide Reaches;
      Interfere(start, Build(q, rest, sup));
      var c := Luck();
      err := match c.build
        case Built => NoError
        case Deterministic => DeterministicError
        case Transient => OtherError;
      Commit(start, Build(q, rest, sup), c, if err == NoError then Save(q, rest, sup) else AfterOne(err, q, rest, sup));
    }

    method MaterializeOne(ghost start: System, ghost q: seq<Row>, ghost rest: seq<nat>, ghost sup: set<nat>, r: nat)
      returns (err: Error)
      requires rest != [] && rest[0] == r && At(start, Build(q, rest, sup))
      modifies this`sys, store
      ensures At(start, AfterOne(err, q, rest, sup))
    {
      hide At;
      err := BuildMessage(start, q, rest, sup);
      if err != NoError { return; }
      err := SaveFile(start, q, rest, sup, r);
      if err != NoError { return OtherError; }
      err := InsertMessage(start, q, rest, sup, r);
      if err == ConflictError { err := CleanUp(start, q, rest, sup, r); }
    }

    method MaterializeBatch(ghost start: System, ghost q: seq<Row>, ids: seq<nat>)
      requires At(start, Suppression(q, ids))
      modifies this`sys, store
      ensures At(start, PendingTest(q))
    {
      hide At;
      var failure, sup := SuppressedForTenant(start, q, ids);
      if failure != NoError { return; }
      var i := 0;
      while i < |ids|
        invariant 0 <= i <= |ids| && At(start, Each(q, ids[i..], sup))
      {
        var r := ids[i];
        ghost var rest := ids[i..];
        assert rest[1..] == ids[i + 1..];
        i := i + 1;
        if r in sup {
          MarkSuppressed(start, q, rest, sup, r);
          continue;
        }
        var err, found := GetMessage(start, q, rest, sup, r);
        if err != NoError { continue; }
        if found {
          FinishMaterialized(start, q, rest, sup, r);
          continue;
        }
        var admitted := Admit(start, q, rest, sup);
        if !admitted { return; }
        err := MaterializeOne(start, q, rest, sup, r);
        if err == ConflictError { return; }
        if err == DeterministicError { RecordFailure(start, q, rest, sup, r); }
        if err == NoError { FinishMaterialized(start, q, rest, sup, r); }
      }
      assert ids[i..] == [];
      LeaveLoop(start, q, sup);
    }

    ghost method LeaveLoop(start: System, q: seq<Row>, sup: set<nat>)
      requires At(start, Each(q, [], sup))
      modifies this`sys
      ensures At(start, PendingTest(q))
    {
      var c :| true;
      Commit(start, Each(q, [], sup), c, PendingTest(q));
    }

    /** One bounded step of one broadcast. */
    method Process(ghost start: System, ghost q: seq<Row>, row: Row)
      requires q != [] && q[0] == row && At(start, Mark(q))
      modifies this`sys, store
      ensures At(start, NextBroadcast(q))
    {
      hide At;
      var err := MarkExpanding(start, q, row);
      if err != NoError { return; }
      if !row.snapshotComplete {
        err := Snapshot(start, q, row);
        if err != NoError { return; }
      }
      var ids;
      err, ids := Claim(start, q, row);
      if err != NoError { return; }
      if |ids| > 0 {
        err := VerifiedSenderDomain(start, q, ids);
        if err != NoError {
          MarkFailed(start, q, row);
          return;
        }
        MaterializeBatch(start, q, ids);
      }
      TryComplete(start, q, row);
    }

    /** A whole tick is a run of the protocol that leaves the expander idle. */
    method Tick(ghost start: System)
      requires At(start, Idle)
      modifies this`sys, store
      ensures At(start, Idle)
    {
      hide At;
      var rows := ClaimActive(start);
      var i := 0;
      while i < |rows|
        invariant 0 <= i <= |rows|
        invariant At(start, if i == |rows| then Idle else Mark(rows[i..]))
      {
        assert NextBroadcast(rows[i..]) == if i + 1 == |rows| then Idle else Mark(rows[i + 1..]);
        Process(start, rows[i..], rows[i]);
        i := i + 1;
      }
    }

    /** So whatever holds of runs holds after any number of ticks: the rows
        satisfy the invariant, and no earlier fact has been undone. */
    method TickSafely()
      requires store.State() == sys.db && PcOf(sys, me) == Idle && SystemOk(sys)
      modifies this`sys, store
      ensures store.State() == sys.db && PcOf(sys, me) == Idle && SystemOk(sys)
      ensures Inv(store.State()) && Evolves(old(store.State()), store.State())
    {
      ghost var start := sys;
      ReachesItself(lim, start);
      Tick(start);
      ghost var acts :| Exec(lim, start, acts) == sys;
      ExecKeeps(lim, start, acts);
    }
  }
}
