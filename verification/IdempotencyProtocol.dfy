/** Requests that carry an Idempotency-Key, as a transition system: any number
    of them claim, stall, reclaim, are refused, complete and replay, one
    statement at a time, on application clocks of their own. */
module IdempotencyProtocol {
  import opened Options
  import opened IdempotencyRows

  /** `now` is the application clock when the request arrived. */
  datatype Request = Request(key: Key, fingerprint: nat, id: nat, now: Time)

  /** How a replay came about: before doing any work, after losing the claim,
      or after losing the completion race for a claim of one's own. */
  datatype Via = EarlyRead | LateRead | PollRead | RaceRead

  /** Where a request stands. `claim` and `at` describe the claim it won. */
  datatype Pc =
    | Early(rq: Request)
    | Claiming(rq: Request)
    | Reclaiming(rq: Request)
    | Reading(rq: Request)
    | Polling(rq: Request)
    | Admitting(rq: Request, claim: nat, at: Time)
    | Releasing(rq: Request, claim: nat, at: Time)
    | Saving(rq: Request, claim: nat, at: Time)
    | Committing(rq: Request, claim: nat, at: Time)
    | Recovering(rq: Request)
    | Loading(rq: Request, id: nat, via: Via)
    | Created(rq: Request)
    | Replayed(rq: Request, id: nat, via: Via)
    | Answered

  datatype Outcome = Done | Failed | Lost

  datatype Chance = Chance(outcome: Outcome, admitted: bool, keepsPolling: bool)

  function Effect(c: Chance, before: Db, after: Db): Db {
    if c.outcome.Failed? then before else after
  }

  function Begin(rq: Request): Pc {
    if rq.key.operation == EmailsCreate then Early(rq) else Claiming(rq)
  }

  /** Abuse controls and the file belong to POST /v1/emails only. */
  function Own(rq: Request, claim: nat, at: Time): Pc {
    if rq.key.operation == EmailsCreate then Admitting(rq, claim, at) else Committing(rq, claim, at)
  }

  predicate Finished(r: Option<Record>) {
    r.Some? && r.value.status == Completed
  }

  /** The test of replayIfCompleted, which looks at the fingerprint; that of
      pollIdempotencyCompletion is Finished, which does not. */
  predicate Replayable(r: Option<Record>, rq: Request) {
    Finished(r) && r.value.fingerprint == rq.fingerprint
  }

  /** Nothing to replay: the early check goes on, the others give up. */
  function NoReplay(rq: Request, via: Via): Pc {
    if via == EarlyRead then Claiming(rq) else Answered
  }

  function Load(r: Record, rq: Request, via: Via): Pc {
    if r.resource.Some? then Loading(rq, r.resource.value, via) else NoReplay(rq, via)
  }

  /** What the statement at pc writes when it commits. */
  function After(db: Db, pc: Pc): Db {
    match pc
    case Claiming(rq) => InsertClaim(db, rq.key, rq.fingerprint, rq.now + RETENTION)
    case Reclaiming(rq) => ReclaimStale(db, rq.key, rq.fingerprint, rq.now + RETENTION, rq.now - STALE_AFTER)
    case Releasing(rq, _, at) => ReleaseClaim(db, rq.key, rq.fingerprint, at)
    case Saving(rq, _, _) => SaveFile(db, rq.id)
    case Committing(rq, _, _) => Commit(db, rq.key, rq.fingerprint, rq.id)
    case _ => db
  }

  /** Where the handler goes from there. */
  function Goto(db: Db, pc: Pc, c: Chance): Pc {
    match pc
    case Early(rq) =>
      var r := Find(db, rq.key);
      if c.outcome == Done && Replayable(r, rq) then Load(r.value, rq, EarlyRead) else Claiming(rq)
    case Claiming(rq) =>
      if c.outcome != Done then Answered
      else if rq.key !in db.records then Own(rq, db.nextClaim, db.clock)
      else Reclaiming(rq)
    case Reclaiming(rq) =>
      if c.outcome != Done then Answered
      else if Stale(db, rq.key, rq.now - STALE_AFTER) then Own(rq, db.nextClaim, db.clock)
      else Reading(rq)
    case Reading(rq) =>
      var r := Find(db, rq.key);
      if c.outcome != Done || r.None? || r.value.fingerprint != rq.fingerprint then Answered
      else if r.value.status == InProgress then Polling(rq)
      else Load(r.value, rq, LateRead)
    case Polling(rq) =>
      var r := Find(db, rq.key);
      if c.outcome != Done || r.None? then Answered
      else if Finished(r) then Load(r.value, rq, PollRead)
      else if c.keepsPolling then Polling(rq)
      else Answered
    case Admitting(rq, claim, at) =>
      if c.outcome == Done && c.admitted then Saving(rq, claim, at) else Releasing(rq, claim, at)
    case Releasing(rq, claim, at) => Answered
    case Saving(rq, claim, at) => if c.outcome == Done then Committing(rq, claim, at) else Answered
    case Committing(rq, claim, at) =>
      if c.outcome != Done then Answered
      else if Completable(db, rq.key, rq.fingerprint, rq.id) then Created(rq)
      else Recovering(rq)
    case Recovering(rq) =>
      var r := Find(db, rq.key);
      if c.outcome == Done && Replayable(r, rq) then Load(r.value, rq, RaceRead) else Answered
    case Loading(rq, id, via) =>
      if c.outcome == Done && id in db.resources then Replayed(rq, id, via) else NoReplay(rq, via)
    case Created(_) => pc
    case Replayed(_, _, _) => pc
    case Answered => pc
  }

  /** One statement of the handler. */
  function Next(db: Db, pc: Pc, c: Chance): (Db, Pc) {
    (Effect(c, db, After(db, pc)), Goto(db, pc, c))
  }

  datatype System = System(db: Db, pcs: map<nat, Pc>)

  datatype Action =
    | Arrive(request: nat, key: Key, fingerprint: nat, now: Time)
    | Step(request: nat, chance: Chance)
    | Crash(request: nat)
    | PurgeKey(key: Key, now: Time)
    | Tick(elapsed: nat)

  function Apply(s: System, a: Action): System {
    match a
    case Arrive(e, key, fingerprint, now) =>
      if e in s.pcs then s else
        System(s.db.(nextId := s.db.nextId + 1), s.pcs[e := Begin(Request(key, fingerprint, s.db.nextId, now))])
    case Step(e, c) =>
      if e !in s.pcs then s else
        var (db, pc) := Next(s.db, s.pcs[e], c);
        System(db, s.pcs[e := pc])
    case Crash(e) => s.(pcs := s.pcs - {e})
    case PurgeKey(k, now) => s.(db := Purge(s.db, k, now))
    case Tick(elapsed) => s.(db := s.db.(clock := s.db.clock + elapsed))
  }

  function Exec(s: System, acts: seq<Action>): System
    decreases |acts|
  {
    if acts == [] then s else Exec(Apply(s, acts[0]), acts[1..])
  }

  lemma {:induction false} ExecConcat(s: System, p: seq<Action>, q: seq<Action>)
    ensures Exec(s, p + q) == Exec(Exec(s, p), q)
    decreases |p|
  {
    if p == [] {
      assert p + q == q;
    } else {
      assert (p + q)[0] == p[0] && (p + q)[1..] == p[1..] + q;
      ExecConcat(Apply(s, p[0]), p[1..], q);
    }
  }

  ghost predicate Reaches(s: System, t: System) {
    exists acts :: Exec(s, acts) == t
  }

  lemma ReachesItself(s: System)
    ensures Reaches(s, s)
  {
    assert Exec(s, []) == s;
  }

  lemma ReachesNext(s: System, t: System, a: Action)
    requires Reaches(s, t)
    ensures Reaches(s, Apply(t, a))
  {
    var acts :| Exec(s, acts) == t;
    ExecConcat(s, acts, [a]);
    assert Exec(t, [a]) == Exec(Apply(t, a), []);
  }

  // The invariant, whatever the clocks say.

  ghost predicate RecordOk(db: Db, k: Key) {
    k in db.records ==>
      var r := db.records[k];
      if r.status == InProgress then r.resource == None
      else r.resource.Some? && r.resource.value in db.resources
           && db.resources[r.resource.value] == Origin(k, r.fingerprint, EraOf(db, k))
  }

  /** A resource of the current era is the one its key's record names. */
  ghost predicate ResourceOk(db: Db, id: nat) {
    id in db.resources ==>
      var o := db.resources[id];
      && o.era <= EraOf(db, o.key)
      && (o.era == EraOf(db, o.key) ==>
            o.key in db.records && db.records[o.key].status == Completed && db.records[o.key].resource == Some(id))
      && (o.key.operation == EmailsCreate ==> id in db.files)
  }

  /** At most one resource per key and era. */
  ghost predicate OnePerEra(db: Db) {
    forall i, j :: (
      && i in db.resources && j in db.resources
      && db.resources[i].key == db.resources[j].key && db.resources[i].era == db.resources[j].era) ==> i == j
  }

  ghost predicate Inv(db: Db) {
    && (forall k :: k in db.records ==> RecordOk(db, k))
    && (forall id :: id in db.resources ==> ResourceOk(db, id))
    && OnePerEra(db)
  }

  /** A successful answer names a resource of the request's own key, and of its
      own payload unless it was polled for. */
  ghost predicate Names(db: Db, rq: Request, id: nat, via: Via) {
    && id in db.resources && db.resources[id].key == rq.key
    && (via != PollRead ==> db.resources[id].fingerprint == rq.fingerprint)
  }

  ghost predicate PcOk(db: Db, pc: Pc) {
    match pc
    case Loading(rq, id, via) => Names(db, rq, id, via)
    case Replayed(rq, id, via) => Names(db, rq, id, via)
    case Created(rq) => Names(db, rq, rq.id, RaceRead)
    case Committing(rq, _, _) => rq.key.operation == EmailsCreate ==> rq.id in db.files
    case _ => true
  }

  ghost predicate SystemOk(s: System) {
    Inv(s.db) && forall e :: e in s.pcs ==> PcOk(s.db, s.pcs[e])
  }

  /** Resources and files are never taken back; eras only move on. */
  ghost predicate Grows(a: Db, b: Db) {
    && (forall id :: id in a.resources ==> id in b.resources && b.resources[id] == a.resources[id])
    && a.files <= b.files && a.clock <= b.clock
    && (forall k :: EraOf(a, k) <= EraOf(b, k))
  }

  lemma NewClaimKeeps(db: Db, k: Key, fingerprint: nat, expiresAt: Time)
    requires Inv(db) && (k in db.records ==> db.records[k].status == InProgress)
    ensures Inv(NewClaim(db, k, fingerprint, expiresAt)) && Grows(db, NewClaim(db, k, fingerprint, expiresAt))
  {
    var db' := NewClaim(db, k, fingerprint, expiresAt);
    forall j | j in db'.records ensures RecordOk(db', j) { assert RecordOk(db, j); }
    forall id | id in db'.resources ensures ResourceOk(db', id) { assert ResourceOk(db, id); }
  }

  lemma CommitKeeps(db: Db, k: Key, fingerprint: nat, id: nat)
    requires Inv(db) && (k.operation == EmailsCreate ==> id in db.files)
    ensures Inv(Commit(db, k, fingerprint, id)) && Grows(db, Commit(db, k, fingerprint, id))
  {
    FrameKeeps(db, db);
    if Completable(db, k, fingerprint, id) {
      CommittedOnce(db, k, fingerprint, id);
      CommittedRows(db, k, fingerprint, id);
      hide OnePerEra, RecordOk, ResourceOk, Commit;
    } else {
      hide Inv, Grows, Completable;
    }
  }

  lemma CommittedRows(db: Db, k: Key, fingerprint: nat, id: nat)
    requires Inv(db) && Completable(db, k, fingerprint, id) && (k.operation == EmailsCreate ==> id in db.files)
    ensures var db' := Commit(db, k, fingerprint, id);
      && (forall j :: j in db'.records ==> RecordOk(db', j)) && (forall i :: i in db'.resources ==> ResourceOk(db', i))
      && Grows(db, db')
  {
    hide OnePerEra, RecordOk, ResourceOk;
    var db' := Commit(db, k, fingerprint, id);
    assert RecordOk(db, k);
    forall j | j in db'.records ensures RecordOk(db', j) {
      assert RecordOk(db, j);
      CommittedRecord(db, k, fingerprint, id, j);
    }
    forall i | i in db'.resources ensures ResourceOk(db', i) {
      assert i != id ==> ResourceOk(db, i);
      CommittedResource(db, k, fingerprint, id, i);
    }
  }

  lemma CommittedRecord(db: Db, k: Key, fingerprint: nat, id: nat, j: Key)
    requires Completable(db, k, fingerprint, id) && j in db.records && RecordOk(db, j)
    ensures RecordOk(Commit(db, k, fingerprint, id), j)
  {
  }

  lemma CommittedResource(db: Db, k: Key, fingerprint: nat, id: nat, i: nat)
    requires Completable(db, k, fingerprint, id) && RecordOk(db, k) && (k.operation == EmailsCreate ==> id in db.files)
    requires i != id ==> i in db.resources && ResourceOk(db, i)
    ensures ResourceOk(Commit(db, k, fingerprint, id), i)
  {
  }

  /** The key was in progress, so its era has no resource yet. */
  lemma CommittedOnce(db: Db, k: Key, fingerprint: nat, id: nat)
    requires Inv(db) && Completable(db, k, fingerprint, id)
    ensures OnePerEra(Commit(db, k, fingerprint, id))
  {
  }

  /** Taking away an unfinished record, or one whose era is over. */
  lemma RemovalKeeps(db: Db, db': Db, k: Key)
    requires Inv(db) && k in db.records
    requires db' == db.(records := db.records - {k}, eras := db'.eras)
    requires forall j :: j != k ==> EraOf(db', j) == EraOf(db, j)
    requires if db.records[k].status == InProgress then EraOf(db', k) >= EraOf(db, k) else EraOf(db', k) > EraOf(db, k)
    ensures Inv(db') && Grows(db, db')
  {
  }

  lemma PurgeKeeps(db: Db, k: Key, now: Time)
    requires Inv(db)
    ensures Inv(Purge(db, k, now)) && Grows(db, Purge(db, k, now))
  {
    if Expired(db, k, now) { RemovalKeeps(db, Purge(db, k, now), k); }
  }

  lemma FrameKeeps(db: Db, db': Db)
    requires Inv(db) && db'.records == db.records && db'.resources == db.resources && db'.eras == db.eras
    requires db.files <= db'.files && db.clock <= db'.clock
    ensures Inv(db') && Grows(db, db')
  {
  }

  lemma ClaimsKeep(db: Db, k: Key, fingerprint: nat, expiresAt: Time, cutoff: Time, claimedAt: Time)
    requires Inv(db)
    ensures Inv(InsertClaim(db, k, fingerprint, expiresAt)) && Grows(db, InsertClaim(db, k, fingerprint, expiresAt))
    ensures Inv(ReclaimStale(db, k, fingerprint, expiresAt, cutoff))
    ensures Grows(db, ReclaimStale(db, k, fingerprint, expiresAt, cutoff))
    ensures Inv(ReleaseClaim(db, k, fingerprint, claimedAt)) && Grows(db, ReleaseClaim(db, k, fingerprint, claimedAt))
  {
    FrameKeeps(db, db);
    if k !in db.records || Stale(db, k, cutoff) { NewClaimKeeps(db, k, fingerprint, expiresAt); }
    if Releasable(db, k, fingerprint, claimedAt) { RemovalKeeps(db, ReleaseClaim(db, k, fingerprint, claimedAt), k); }
    hide Inv, Grows, NewClaim;
  }

  lemma AfterKeeps(db: Db, pc: Pc)
    requires Inv(db) && PcOk(db, pc)
    ensures Inv(After(db, pc)) && Grows(db, After(db, pc))
  {
    hide Inv, Grows, InsertClaim, ReclaimStale, ReleaseClaim, SaveFile, Commit;
    match pc
    case Claiming(rq) => ClaimsKeep(db, rq.key, rq.fingerprint, rq.now + RETENTION, 0, 0);
    case Reclaiming(rq) => ClaimsKeep(db, rq.key, rq.fingerprint, rq.now + RETENTION, rq.now - STALE_AFTER, 0);
    case Releasing(rq, _, at) => ClaimsKeep(db, rq.key, rq.fingerprint, 0, 0, at);
    case Saving(rq, _, _) => SaveKeeps(db, rq.id);
    case Committing(rq, _, _) => CommitKeeps(db, rq.key, rq.fingerprint, rq.id);
    case _ => FrameKeeps(db, db);
  }

  lemma SaveKeeps(db: Db, id: nat)
    requires Inv(db)
    ensures Inv(SaveFile(db, id)) && Grows(db, SaveFile(db, id))
  {
  }

  lemma NextKeepsInv(db: Db, pc: Pc, c: Chance)
    requires Inv(db) && PcOk(db, pc)
    ensures Inv(Next(db, pc, c).0) && Grows(db, Next(db, pc, c).0)
  {
    FrameKeeps(db, db);
    AfterKeeps(db, pc);
    hide Inv, Grows, After, Goto, PcOk;
  }

  lemma NextKeepsPc(db: Db, pc: Pc, c: Chance)
    requires Inv(db) && PcOk(db, pc)
    ensures PcOk(Next(db, pc, c).0, Next(db, pc, c).1)
  {
    hide InsertClaim, ReclaimStale, ReleaseClaim;
    if pc.Early? || pc.Reading? || pc.Polling? || pc.Recovering? {
      assert RecordOk(db, pc.rq.key);
    }
  }

  lemma PcStays(a: Db, b: Db, pc: Pc)
    requires Grows(a, b) && PcOk(a, pc)
    ensures PcOk(b, pc)
  {
  }

  lemma ApplyKeeps(s: System, a: Action)
    requires SystemOk(s)
    ensures SystemOk(Apply(s, a)) && Grows(s.db, Apply(s, a).db)
  {
    var s' := Apply(s, a);
    assert Inv(s'.db) && Grows(s.db, s'.db) by {
      match a {
        case Step(e, c) => if e in s.pcs { NextKeepsInv(s.db, s.pcs[e], c); } else { FrameKeeps(s.db, s.db); }
        case PurgeKey(k, now) => PurgeKeeps(s.db, k, now);
        case _ => FrameKeeps(s.db, s'.db);
      }
    }
    forall e | e in s'.pcs ensures PcOk(s'.db, s'.pcs[e]) {
      if a.Step? && e == a.request {
        NextKeepsPc(s.db, s.pcs[e], a.chance);
      } else if e in s.pcs && s'.pcs[e] == s.pcs[e] {
        PcStays(s.db, s'.db, s.pcs[e]);
      }
    }
  }

  lemma GrowsTransitive(a: Db, b: Db, c: Db)
    requires Grows(a, b) && Grows(b, c)
    ensures Grows(a, c)
  {
  }

  lemma {:induction false} ExecKeeps(s: System, acts: seq<Action>)
    requires SystemOk(s)
    ensures SystemOk(Exec(s, acts)) && Grows(s.db, Exec(s, acts).db)
    decreases |acts|
  {
    if acts == [] {
      FrameKeeps(s.db, s.db);
    } else {
      ApplyKeeps(s, acts[0]);
      ExecKeeps(Apply(s, acts[0]), acts[1..]);
      GrowsTransitive(s.db, Apply(s, acts[0]).db, Exec(s, acts).db);
    }
  }
}
