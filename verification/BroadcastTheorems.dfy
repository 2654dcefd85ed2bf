/** What the expansion protocol guarantees over whole runs: for every number of
    expanders and every interleaving of their statements with cancellations,
    reschedulings, audience changes, clock ticks and crashes. */
module BroadcastTheorems {
  import opened Options
  import opened Keyset
  import opened BroadcastRows
  import opened BroadcastInvariant
  import opened ExpansionProtocol

  function EmptyDb(now: Time): Db {
    Db(now, map[], map[], map[], {}, {}, 0, [])
  }

  /** Every run of an empty installation is covered, and so is every run that
      starts from rows an earlier release left behind, as long as they satisfy
      the invariant and no expander is running. */
  lemma StartsAreCovered(now: Time, left: Db)
    requires Inv(left)
    ensures SystemOk(System(EmptyDb(now), map[])) && SystemOk(System(left, map[]))
  {
  }

  /** The API never holds a message it has no bytes for: not even while one
      expander deletes a file another has just written. */
  lemma MessagesAreBacked(lim: Limits, s: System, acts: seq<Action>, m: nat)
    requires SystemOk(s)
    ensures m in Exec(lim, s, acts).db.messages ==> m in Exec(lim, s, acts).db.files
  {
    ExecKeeps(lim, s, acts);
  }

  /** The refusal that makes materializeOne delete the stored file is stable:
      whatever runs afterwards, that id never becomes a message. */
  lemma RefusedStaysUnsent(lim: Limits, s: System, acts: seq<Action>, r: nat, domainVerified: bool)
    requires SystemOk(s) && InsertReplyOf(s.db, r, domainVerified) == Refused
    ensures r !in Exec(lim, s, acts).db.messages
    ensures forall v :: InsertReplyOf(Exec(lim, s, acts).db, r, v) == Refused
  {
    var s' := Exec(lim, s, acts);
    ExecKeeps(lim, s, acts);
    RefusalIsFinal(s.db, r, domainVerified);
    ClosedIsStable(s.db, s'.db, r);
    assert RecipientOk(s'.db, r);
  }

  /** cancelled, completed and failed are absorbing, and the commit that ends a
      broadcast cuts off every later recipient row, claim and message. */
  lemma EndIsACut(lim: Limits, s: System, acts: seq<Action>, id: nat)
    requires SystemOk(s) && Ended(s.db, id)
    ensures var s' := Exec(lim, s, acts);
      && Ended(s'.db, id) && s'.db.broadcasts[id].status == s.db.broadcasts[id].status
      && (forall i :: |s.db.log| <= i < |s'.db.log| ==> s'.db.log[i].broadcast != id)
      && (forall r :: r in s'.db.recipients && s'.db.recipients[r].broadcast == id ==>
            r in s.db.recipients && (r in s'.db.messages ==> r in s.db.messages))
  {
    var s' := Exec(lim, s, acts);
    ExecKeeps(lim, s, acts);
    EndedIsStable(s.db, s'.db, id);
    forall r | r in s'.db.recipients && s'.db.recipients[r].broadcast == id
      ensures r in s.db.recipients && (r in s'.db.messages ==> r in s.db.messages)
    {
      assert r in s.db.recipients ==> RecipientEvolves(s.db.recipients[r], s'.db.recipients[r]);
    }
  }

  /** The owner's cancellation is such an end: after the commit nothing more
      leaves, whoever had claimed what before it. */
  lemma CancelCutsOff(lim: Limits, s: System, acts: seq<Action>, id: nat)
    requires SystemOk(s) && CancelReply(s.db, id) in {Changed, Unchanged}
    ensures var s0 := Apply(lim, s, Cancel(id));
      var s' := Exec(lim, s0, acts);
      && s'.db.broadcasts.Keys >= {id} && s'.db.broadcasts[id].status == Cancelled
      && (forall i :: |s0.db.log| <= i < |s'.db.log| ==> s'.db.log[i].broadcast != id)
  {
    ApplyKeeps(lim, s, Cancel(id));
    EndIsACut(lim, Apply(lim, s, Cancel(id)), acts, id);
  }

  /** Any error of the domain lookup, also a passing one, costs the whole
      broadcast: once the expander's next statement has committed, the broadcast
      is failed in every run that follows, and nothing more is sent for it. */
  lemma LookupErrorEndsBroadcast(lim: Limits, s: System, e: nat, lookup: Chance, mark: Chance, acts: seq<Action>)
    requires SystemOk(s) && PcOf(s, e).Domain?
    requires lookup.outcome != Done || !lookup.domainVerified
    requires !mark.outcome.Failed? && Active(s.db.broadcasts[PcOf(s, e).q[0].id].status)
    ensures var id := PcOf(s, e).q[0].id;
      var s2 := Apply(lim, Apply(lim, s, Expand(e, lookup)), Expand(e, mark));
      var s' := Exec(lim, s2, acts);
      && id in s'.db.broadcasts && s'.db.broadcasts[id].status == BroadcastStatus.Failed
      && s2.db.log == s.db.log
      && (forall i :: |s.db.log| <= i < |s'.db.log| ==> s'.db.log[i].broadcast != id)
  {
    assert PcOk(s.db, PcOf(s, e));
    var id := PcOf(s, e).q[0].id;
    var s1 := Apply(lim, s, Expand(e, lookup));
    var s2 := Apply(lim, s1, Expand(e, mark));
    assert s1.db == s.db && PcOf(s1, e) == FailBroadcast(PcOf(s, e).q);
    assert s2.db == MarkFailed(s.db, id);
    hide Next, Inv;
    ApplyKeeps(lim, s, Expand(e, lookup));
    ApplyKeeps(lim, s1, Expand(e, mark));
    hide Apply, SystemOk, Evolves;
    EndIsACut(lim, s2, acts, id);
  }

  // And only that makes a broadcast failed.

  predicate IsFailed(db: Db, id: nat) {
    id in db.broadcasts && db.broadcasts[id].status == BroadcastStatus.Failed
  }

  /** The lookup for broadcast id errs or finds the domain unverified. */
  predicate LookupFails(s: System, a: Action, id: nat) {
    && a.Expand? && (a.chance.outcome != Done || !a.chance.domainVerified)
    && var pc := PcOf(s, a.expander); pc.Domain? && pc.q != [] && pc.q[0].id == id
  }

  /** An expander is about to mark the broadcast failed. */
  predicate AboutToFail(s: System, e: nat, id: nat) {
    var pc := PcOf(s, e); pc.FailBroadcast? && pc.q != [] && pc.q[0].id == id
  }

  /** The statement that marks it. */
  predicate Fails(s: System, a: Action, id: nat) {
    && a.Expand? && !a.chance.outcome.Failed? && AboutToFail(s, a.expander, id)
    && id in s.db.broadcasts && Active(s.db.broadcasts[id].status)
  }

  lemma FailStatement(lim: Limits, db: Db, pc: Pc, c: Chance, id: nat)
    requires !IsFailed(db, id)
    ensures IsFailed(Next(lim, db, pc, c).0, id) <==>
      pc.FailBroadcast? && pc.q != [] && pc.q[0].id == id && !c.outcome.Failed?
      && id in db.broadcasts && Active(db.broadcasts[id].status)
  {
    hide SnapshotBatch, ClaimPending, ClaimedRows, ClaimActive, NextForRecipient, HasPending, SnapshotReplyOf;
    if InRecipientLoop(pc) {
      LoopKeepsBroadcasts(db, pc, c);
    } else if pc.Snapshot? && pc.q != [] {
      BatchDoesNotFail(db, pc.q[0].id, lim.snapshot, id);
    } else if pc.Claim? && pc.q != [] {
      ClaimKeepsBroadcasts(db, pc.q[0].id, lim.materialize, c.locked);
    }
  }

  lemma BatchDoesNotFail(db: Db, b: nat, batch: nat, id: nat)
    ensures IsFailed(SnapshotBatch(db, b, batch), id) <==> IsFailed(db, id)
  {
    if b in db.broadcasts {
      InsertMembersFrame(db, b, Page(MemberKeys(db, db.broadcasts[b]), db.broadcasts[b].cursor, batch));
    }
  }

  /** Exactly the step that makes a broadcast failed. */
  lemma FailedWhen(lim: Limits, s: System, a: Action, id: nat)
    requires !IsFailed(s.db, id)
    ensures IsFailed(Apply(lim, s, a).db, id) <==> Fails(s, a, id)
  {
    hide Next;
    if a.Expand? { FailStatement(lim, s.db, PcOf(s, a.expander), a.chance, id); }
  }

  lemma LoopDoesNotFail(db: Db, pc: Pc, c: Chance)
    requires InRecipientLoop(pc)
    ensures !NextForRecipient(db, pc, c).1.FailBroadcast?
  {
    hide MarkSuppressed, RecordFailure, SaveFile, InsertMessage, DeleteFile, MarkMaterialized, InsertReplyOf;
  }

  lemma ScanDoesNotFail(lim: Limits, db: Db, pc: Pc, c: Chance)
    requires pc.Idle? || pc.Mark? || pc.MarkCheck? || pc.Snapshot? || pc.Claim?
    ensures !Next(lim, db, pc, c).1.FailBroadcast?
  {
    hide ClaimActive, MarkExpanding, SnapshotBatch, ClaimPending, ClaimedRows, SnapshotReplyOf;
  }

  lemma EndDoesNotFail(lim: Limits, db: Db, pc: Pc, c: Chance)
    requires pc.FailBroadcast? || pc.PendingTest? || pc.Complete? || pc.Suppression?
    ensures !Next(lim, db, pc, c).1.FailBroadcast?
  {
    hide MarkFailed, CompleteBroadcast, HasPending;
  }

  lemma DomainFailsWhen(lim: Limits, db: Db, pc: Pc, c: Chance)
    requires pc.Domain?
    ensures Next(lim, db, pc, c).1 ==
      if c.outcome == Done && c.domainVerified then Suppression(pc.q, pc.rest) else FailBroadcast(pc.q)
  {
  }

  lemma NextFailsWhen(lim: Limits, db: Db, pc: Pc, c: Chance)
    ensures Next(lim, db, pc, c).1.FailBroadcast? <==> pc.Domain? && (c.outcome != Done || !c.domainVerified)
  {
    hide NextForRecipient;
    if InRecipientLoop(pc) {
      LoopDoesNotFail(db, pc, c);
    } else if pc.Domain? {
      hide Next;
      DomainFailsWhen(lim, db, pc, c);
    } else if pc.FailBroadcast? || pc.PendingTest? || pc.Complete? || pc.Suppression? {
      hide Next;
      EndDoesNotFail(lim, db, pc, c);
    } else {
      hide Next;
      ScanDoesNotFail(lim, db, pc, c);
    }
  }

  /** Exactly the step that brings an expander there. */
  lemma AboutToFailWhen(lim: Limits, s: System, a: Action, e: nat, id: nat)
    requires !AboutToFail(s, e, id)
    ensures AboutToFail(Apply(lim, s, a), e, id) <==> a.Expand? && a.expander == e && LookupFails(s, a, id)
  {
    hide Next;
    if a.Expand? && a.expander == e {
      NextFailsWhen(lim, s.db, PcOf(s, e), a.chance);
      if PcOf(s, e).Domain? { DomainFailsWhen(lim, s.db, PcOf(s, e), a.chance); }
    }
  }

  ghost predicate LookupFailedIn(lim: Limits, s: System, acts: seq<Action>, id: nat)
    decreases |acts|
  {
    acts != [] && (LookupFails(s, acts[0], id) || LookupFailedIn(lim, Apply(lim, s, acts[0]), acts[1..], id))
  }

  /** A broadcast that failed in a run had a lookup in it that erred or found the
      domain unverified. */
  lemma {:induction false} FailedByLookup(lim: Limits, s: System, acts: seq<Action>, id: nat)
    requires !IsFailed(s.db, id) && (forall e: nat :: !AboutToFail(s, e, id))
    requires IsFailed(Exec(lim, s, acts).db, id)
    ensures LookupFailedIn(lim, s, acts, id)
    decreases |acts|
  {
    if acts != [] {
      var a := acts[0];
      hide AboutToFail, LookupFails, IsFailed, Apply;
      if !LookupFails(s, a, id) {
        FailedWhen(lim, s, a, id);
        forall e: nat ensures !AboutToFail(Apply(lim, s, a), e, id) { AboutToFailWhen(lim, s, a, e, id); }
        FailedByLookup(lim, Apply(lim, s, a), acts[1..], id);
      }
    }
  }

  /** No two handoffs of the log are for one recipient, or for one contact of one
      broadcast. */
  ghost predicate HandoffsDiffer(db: Db) {
    forall i, j :: 0 <= i < j < |db.log| && db.log[i].HandedOff? && db.log[j].HandedOff? ==>
      var r, q := db.log[i].recipient, db.log[j].recipient;
      && r != q && r in db.recipients && q in db.recipients
      && (db.recipients[r].broadcast, db.recipients[r].contact) != (db.recipients[q].broadcast, db.recipients[q].contact)
  }

  /** At most one message per recipient row and per (broadcast, contact), for
      any number of expanders, crashes and reclaims after the lease. */
  lemma HandedOffOnce(lim: Limits, s: System, acts: seq<Action>)
    requires SystemOk(s)
    ensures HandoffsDiffer(Exec(lim, s, acts).db)
  {
    ExecKeeps(lim, s, acts);
    LogHandsOffOnce(Exec(lim, s, acts).db);
  }

  lemma LogHandsOffOnce(db: Db)
    requires Inv(db)
    ensures HandoffsDiffer(db)
  {
    forall i, j | 0 <= i < j < |db.log| && db.log[i].HandedOff? && db.log[j].HandedOff?
      ensures var r, q := db.log[i].recipient, db.log[j].recipient;
        && r != q && r in db.recipients && q in db.recipients
        && (db.recipients[r].broadcast, db.recipients[r].contact) != (db.recipients[q].broadcast, db.recipients[q].contact)
    {
      assert PairOk(db.log[i], db.log[j]);
      assert EventOk(db, db.log[i]) && EventOk(db, db.log[j]);
    }
  }

  /** Once a recipient has left 'pending', no message is ever inserted for it. */
  lemma NoMessageAfterPending(lim: Limits, s: System, acts: seq<Action>, r: nat)
    requires SystemOk(s) && r in s.db.recipients && s.db.recipients[r].status != Pending
    ensures var s' := Exec(lim, s, acts);
      && (r in s'.db.messages <==> r in s.db.messages)
      && s'.db.recipients.Keys >= {r} && s'.db.recipients[r].status == s.db.recipients[r].status
      && (forall i :: |s.db.log| <= i < |s'.db.log| ==> !(s'.db.log[i].HandedOff? && s'.db.log[i].recipient == r))
  {
    hide Exec, SystemOk;
    ExecKeeps(lim, s, acts);
    SettledGetsNoMessage(s.db, Exec(lim, s, acts).db, r);
  }

  lemma SettledGetsNoMessage(a: Db, b: Db, r: nat)
    requires Evolves(a, b) && r in a.recipients && a.recipients[r].status != Pending
    ensures r in b.messages <==> r in a.messages
    ensures r in b.recipients && b.recipients[r].status == a.recipients[r].status
    ensures forall i :: |a.log| <= i < |b.log| ==> !(b.log[i].HandedOff? && b.log[i].recipient == r)
  {
    assert RecipientEvolves(a.recipients[r], b.recipients[r]);
    assert Closed(a, r);
  }

  /** Nothing is snapshotted or handed off before send_at, and send_at is the
      one in force then: it cannot change once recipients exist. */
  lemma NoEarlyStart(lim: Limits, s: System, acts: seq<Action>)
    requires SystemOk(s)
    ensures var db := Exec(lim, s, acts).db;
      && (forall i :: 0 <= i < |db.log| && (db.log[i].Snapshotted? || db.log[i].HandedOff?) ==>
            db.log[i].broadcast in db.broadcasts && Due(db.broadcasts[db.log[i].broadcast], db.log[i].at))
      && (forall r :: r in db.recipients ==>
            db.recipients[r].broadcast in db.broadcasts && db.broadcasts[db.recipients[r].broadcast].status != Accepted)
  {
    var db := Exec(lim, s, acts).db;
    ExecKeeps(lim, s, acts);
    forall i | 0 <= i < |db.log| && (db.log[i].Snapshotted? || db.log[i].HandedOff?)
      ensures db.log[i].broadcast in db.broadcasts && Due(db.broadcasts[db.log[i].broadcast], db.log[i].at)
    {
      assert EventOk(db, db.log[i]);
    }
    forall r | r in db.recipients
      ensures db.recipients[r].broadcast in db.broadcasts && db.broadcasts[db.recipients[r].broadcast].status != Accepted
    {
      assert RecipientOk(db, r);
    }
  }

  lemma SendAtFreezes(lim: Limits, s: System, acts: seq<Action>, id: nat)
    requires SystemOk(s) && id in s.db.broadcasts && s.db.broadcasts[id].status != Accepted
    ensures var s' := Exec(lim, s, acts);
      id in s'.db.broadcasts && s'.db.broadcasts[id].status != Accepted
      && s'.db.broadcasts[id].sendAt == s.db.broadcasts[id].sendAt
  {
    ExecKeeps(lim, s, acts);
    assert BroadcastEvolves(s.db.broadcasts[id], Exec(lim, s, acts).db.broadcasts[id]);
  }

  /** Two claims of one recipient are more than a lease apart on the database
      clock, and the attempt budget is exact. */
  lemma ClaimsAreALeaseApart(lim: Limits, s: System, acts: seq<Action>)
    requires SystemOk(s)
    ensures var db := Exec(lim, s, acts).db;
      && (forall i, j :: 0 <= i < j < |db.log| && db.log[i].Claimed? && db.log[j].Claimed? ==>
            db.log[i].recipient == db.log[j].recipient ==> db.log[j].at > db.log[i].at + RECIPIENT_CLAIM_LEASE)
      && (forall r :: r in db.recipients ==>
            && (db.recipients[r].status == Pending ==> db.recipients[r].attempts < MAX_RECIPIENT_ATTEMPTS)
            && (db.recipients[r].status == Exhausted ==> db.recipients[r].attempts == MAX_RECIPIENT_ATTEMPTS))
  {
    var db := Exec(lim, s, acts).db;
    ExecKeeps(lim, s, acts);
    forall i, j | 0 <= i < j < |db.log| && db.log[i].Claimed? && db.log[j].Claimed?
      && db.log[i].recipient == db.log[j].recipient
      ensures db.log[j].at > db.log[i].at + RECIPIENT_CLAIM_LEASE
    {
      assert PairOk(db.log[i], db.log[j]);
    }
    forall r | r in db.recipients
      ensures db.recipients[r].status == Pending ==> db.recipients[r].attempts < MAX_RECIPIENT_ATTEMPTS
      ensures db.recipients[r].status == Exhausted ==> db.recipients[r].attempts == MAX_RECIPIENT_ATTEMPTS
    {
      assert RecipientOk(db, r);
    }
  }

  // The log tells the whole story, and a message is the same thing as a
  // recipient marked materialized, when all rows were written by this code.

  ghost predicate SnapshotLogged(db: Db, r: nat) {
    exists i :: 0 <= i < |db.log| && db.log[i].Snapshotted? && db.log[i].recipient == r
  }

  ghost predicate HandoffLogged(db: Db, r: nat) {
    exists i :: 0 <= i < |db.log| && db.log[i].HandedOff? && db.log[i].recipient == r
  }

  ghost predicate CancelLogged(db: Db, id: nat) {
    exists i :: 0 <= i < |db.log| && db.log[i].CancelledAt? && db.log[i].broadcast == id
  }

  ghost predicate Accounted(db: Db) {
    && (forall r :: r in db.recipients ==> SnapshotLogged(db, r))
    && (forall r :: r in db.messages ==> HandoffLogged(db, r) && r in db.recipients)
    && (forall r :: r in db.recipients ==> (db.recipients[r].status == Materialized <==> r in db.messages))
    && (forall id :: id in db.broadcasts && db.broadcasts[id].status == Cancelled ==> CancelLogged(db, id))
  }

  lemma RecordAccounts(a: Db, b: Db, e: Event)
    requires b.log == a.log + [e]
    ensures forall r :: SnapshotLogged(a, r) ==> SnapshotLogged(b, r)
    ensures forall r :: HandoffLogged(a, r) ==> HandoffLogged(b, r)
    ensures forall id :: CancelLogged(a, id) ==> CancelLogged(b, id)
    ensures e.Snapshotted? ==> SnapshotLogged(b, e.recipient)
    ensures e.HandedOff? ==> HandoffLogged(b, e.recipient)
    ensures e.CancelledAt? ==> CancelLogged(b, e.broadcast)
  {
    assert b.log[|a.log|] == e;
    forall r | SnapshotLogged(a, r) ensures SnapshotLogged(b, r) {
      var i :| 0 <= i < |a.log| && a.log[i].Snapshotted? && a.log[i].recipient == r;
      assert b.log[i] == a.log[i];
    }
    forall r | HandoffLogged(a, r) ensures HandoffLogged(b, r) {
      var i :| 0 <= i < |a.log| && a.log[i].HandedOff? && a.log[i].recipient == r;
      assert b.log[i] == a.log[i];
    }
    forall id | CancelLogged(a, id) ensures CancelLogged(b, id) {
      var i :| 0 <= i < |a.log| && a.log[i].CancelledAt? && a.log[i].broadcast == id;
      assert b.log[i] == a.log[i];
    }
  }

  lemma SameLog(a: Db, b: Db)
    requires b.log == a.log
    ensures forall r :: SnapshotLogged(a, r) <==> SnapshotLogged(b, r)
    ensures forall r :: HandoffLogged(a, r) <==> HandoffLogged(b, r)
    ensures forall id :: CancelLogged(a, id) <==> CancelLogged(b, id)
  {
  }

  lemma InsertMemberAccounts(db: Db, id: nat, k: Key)
    requires Accounted(db) && IdsFresh(db)
    ensures Accounted(InsertMember(db, id, k)) && IdsFresh(InsertMember(db, id, k))
  {
    if !HasRow(db, id, k.id) {
      RecordAccounts(db, InsertMember(db, id, k), InsertMember(db, id, k).log[|db.log|]);
      assert db.nextId !in db.recipients && db.nextId !in db.messages;
    }
  }

  lemma {:induction false} InsertMembersAccount(db: Db, id: nat, page: seq<Key>)
    requires Accounted(db) && IdsFresh(db)
    ensures Accounted(InsertMembers(db, id, page))
    decreases |page|
  {
    if page != [] {
      InsertMemberAccounts(db, id, page[0]);
      InsertMembersAccount(InsertMember(db, id, page[0]), id, page[1..]);
    }
  }

  lemma {:induction false} StampClaimsAccount(db: Db, rows: seq<Key>)
    requires Accounted(db)
    ensures Accounted(StampClaims(db, rows))
    decreases |rows|
  {
    if rows != [] {
      var db1 := StampClaim(db, rows[0]);
      if db1 != db { RecordAccounts(db, db1, db1.log[|db.log|]); }
      StampClaimsAccount(db1, rows[1..]);
    }
  }

  lemma SnapshotBatchAccounts(db: Db, id: nat, batch: nat)
    requires Accounted(db) && IdsFresh(db)
    ensures Accounted(SnapshotBatch(db, id, batch))
  {
    if SnapshotReplyOf(db, id, batch).Advanced? && !db.broadcasts[id].snapshotComplete {
      var b := db.broadcasts[id];
      var page := Page(MemberKeys(db, b), b.cursor, batch);
      InsertMembersAccount(db, id, page);
      BroadcastUpdateAccounts(InsertMembers(db, id, page), id, AdvanceCursor(b, page, batch));
    }
  }

  lemma BroadcastUpdateAccounts(db: Db, id: nat, b: Broadcast)
    requires Accounted(db)
    requires b.status == Cancelled ==> id in db.broadcasts && db.broadcasts[id].status == Cancelled
    ensures Accounted(SetBroadcast(db, id, b))
  {
  }

  lemma RecipientUpdateAccounts(db: Db, r: nat, row: Recipient)
    requires Accounted(db) && r in db.recipients
    requires row.status == Materialized <==> r in db.messages
    ensures Accounted(SetRecipient(db, r, row))
  {
  }

  lemma InsertMessageAccounts(db: Db, r: nat, domainVerified: bool)
    requires Accounted(db)
    ensures Accounted(InsertMessage(db, r, domainVerified))
  {
    var db' := InsertMessage(db, r, domainVerified);
    if InsertReplyOf(db, r, domainVerified) == Inserted { RecordAccounts(db, db', db'.log[|db.log|]); }
  }

  lemma BroadcastStepAccounts(lim: Limits, db: Db, pc: Pc, c: Chance)
    requires Accounted(db) && IdsFresh(db) && !InRecipientLoop(pc)
    ensures Accounted(Next(lim, db, pc, c).0)
  {
    if !pc.Idle? && pc.q != [] {
      var id := pc.q[0].id;
      match pc {
        case Mark(_) => if Startable(db, id) { BroadcastUpdateAccounts(db, id, MarkExpanding(db, id).broadcasts[id]); }
        case Snapshot(_) => SnapshotBatchAccounts(db, id, lim.snapshot);
        case Claim(_) => StampClaimsAccount(db, ClaimedRows(db, id, lim.materialize, c.locked));
        case FailBroadcast(_) =>
          if id in db.broadcasts && MarkFailed(db, id) != db { BroadcastUpdateAccounts(db, id, MarkFailed(db, id).broadcasts[id]); }
        case Complete(_) =>
          if id in db.broadcasts && CompleteBroadcast(db, id) != db { BroadcastUpdateAccounts(db, id, CompleteBroadcast(db, id).broadcasts[id]); }
        case _ =>
      }
    }
  }

  lemma RecipientStepAccounts(db: Db, pc: Pc, c: Chance)
    requires Accounted(db) && InRecipientLoop(pc)
    requires pc.Finish? && pc.rest != [] ==> pc.rest[0] in db.messages
    ensures Accounted(NextForRecipient(db, pc, c).0)
  {
    if pc.rest != [] {
      var r := pc.rest[0];
      hide Accounted, InsertMessage, InsertReplyOf;
      match pc {
        case Insert(_, _, _) => InsertMessageAccounts(db, r, c.domainVerified);
        case Save(_, _, _) => FilesAccount(db, SaveFile(db, r).files);
        case Cleanup(_, _, _, _) => FilesAccount(db, DeleteFile(db, r).files);
        case Finish(_, _, _) => FinishedAlready(db, r);
        case Each(_, _, _) => MarksAccount(db, r);
        case FailRecipient(_, _, _) => MarksAccount(db, r);
        case _ =>
      }
      assert Accounted(NextForRecipient(db, pc, c).0);
    }
  }

  lemma FilesAccount(db: Db, files: set<nat>)
    requires Accounted(db)
    ensures Accounted(db.(files := files))
  {
    SameLog(db, db.(files := files));
  }

  lemma FinishedAlready(db: Db, r: nat)
    requires Accounted(db) && r in db.messages
    ensures MarkMaterialized(db, r) == db
  {
  }

  lemma MarksAccount(db: Db, r: nat)
    requires Accounted(db)
    ensures Accounted(MarkSuppressed(db, r)) && Accounted(RecordFailure(db, r))
  {
    if IsPending(db, r) {
      RecipientUpdateAccounts(db, r, MarkSuppressed(db, r).recipients[r]);
      RecipientUpdateAccounts(db, r, RecordFailure(db, r).recipients[r]);
    }
  }

  lemma NextAccounts(lim: Limits, db: Db, pc: Pc, c: Chance)
    requires Accounted(db) && Inv(db) && PcOk(db, pc)
    ensures Accounted(Next(lim, db, pc, c).0)
  {
    if InRecipientLoop(pc) {
      RecipientStepAccounts(db, pc, c);
    } else {
      InvKeepsIdsFresh(db);
      BroadcastStepAccounts(lim, db, pc, c);
    }
  }

  lemma ApplyAccounts(lim: Limits, s: System, a: Action)
    requires SystemOk(s) && Accounted(s.db)
    ensures Accounted(Apply(lim, s, a).db)
  {
    var db' := Apply(lim, s, a).db;
    match a {
      case Expand(e, c) => NextAccounts(lim, s.db, PcOf(s, e), c);
      case Cancel(id) =>
        if CancelReply(s.db, id) == Changed { RecordAccounts(s.db, db', CancelledAt(id, s.db.clock)); }
      case _ => SameLog(s.db, db');
    }
  }

  /** In every run of an installation that started empty: a message row exists
      exactly when its recipient is stored as materialized, so a suppressed
      recipient has none; and every row, message and cancellation is logged. */
  lemma {:induction false} MessagesAreMaterializedRecipients(lim: Limits, s: System, acts: seq<Action>)
    requires SystemOk(s) && Accounted(s.db)
    ensures Accounted(Exec(lim, s, acts).db)
    decreases |acts|
  {
    if acts != [] {
      ApplyKeeps(lim, s, acts[0]);
      ApplyAccounts(lim, s, acts[0]);
      MessagesAreMaterializedRecipients(lim, Apply(lim, s, acts[0]), acts[1..]);
    }
  }
}
