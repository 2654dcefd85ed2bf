/** How long a key is remembered, and by which steps it is claimed, in the rows'
    own fields and with the service's own figures. */
module IdempotencyRetention {
  import opened Options
  import opened IdempotencyRows
  import opened IdempotencyProtocol
  import opened IdempotencyTheorems

  /** The purge takes the key whose time is over, and nothing else. */
  lemma PurgeTakesTheExpired(db: Db, k: Key, now: Time)
    ensures var db' := Purge(db, k, now);
      && (forall j :: j in db'.records <==> j in db.records && !(j == k && db.records[j].expiresAt < now))
      && (forall j :: j in db'.records ==> db'.records[j] == db.records[j])
      && db'.resources == db.resources && db'.files == db.files
  {
  }

  /** No request for k arrives before `first`, and k is purged, if at all, within
      24 hours of it. */
  predicate KeptSince(acts: seq<Action>, k: Key, first: Time) {
    forall a :: a in acts ==>
      && (a.Arrive? && a.key == k ==> a.now >= first)
      && (a.PurgeKey? && a.key == k ==> a.now <= first + 86_400_000_000)
  }

  /** Whatever claims k keeps it for 24 hours from `first` at least. */
  ghost predicate Remembers(s: System, k: Key, first: Time) {
    && (k in s.db.records ==> s.db.records[k].expiresAt >= first + 86_400_000_000)
    && (forall e :: e in s.pcs && !s.pcs[e].Answered? && s.pcs[e].rq.key == k ==> s.pcs[e].rq.now >= first)
  }

  lemma StatementRemembers(db: Db, pc: Pc, k: Key, first: Time)
    requires k in db.records ==> db.records[k].expiresAt >= first + 86_400_000_000
    requires !pc.Answered? && pc.rq.key == k ==> pc.rq.now >= first
    ensures k in After(db, pc).records ==> After(db, pc).records[k].expiresAt >= first + 86_400_000_000
    ensures EraOf(After(db, pc), k) == EraOf(db, k)
  {
  }

  lemma StepRemembers(s: System, a: Action, k: Key, first: Time)
    requires Remembers(s, k, first) && KeptSince([a], k, first)
    ensures Remembers(Apply(s, a), k, first) && EraOf(Apply(s, a).db, k) == EraOf(s.db, k)
  {
    assert a in [a];
    if a.Step? && a.request in s.pcs {
      NextCarries(s.db, s.pcs[a.request], a.chance);
      StatementRemembers(s.db, s.pcs[a.request], k, first);
      hide After, Goto, EraOf;
    }
  }

  lemma {:induction false} EraIsKept(s: System, acts: seq<Action>, k: Key, first: Time)
    requires Remembers(s, k, first) && KeptSince(acts, k, first)
    ensures Remembers(Exec(s, acts), k, first) && EraOf(Exec(s, acts).db, k) == EraOf(s.db, k)
    decreases |acts|
  {
    if acts != [] {
      hide Remembers, Apply, EraOf;
      assert acts[0] in acts;
      assert forall a :: a in acts[1..] ==> a in acts;
      StepRemembers(s, acts[0], k, first);
      EraIsKept(Apply(s, acts[0]), acts[1..], k, first);
    }
  }

  /** A retry within the retention is never a second message: however often the
      purge runs, for 24 hours from the first request a key has at most one
      committed email or broadcast. */
  lemma OneResourceWhileKept(now: Time, acts: seq<Action>, k: Key, first: Time, i: nat, j: nat)
    requires KeptSince(acts, k, first)
    requires var db := Exec(System(Empty(now), map[]), acts).db;
      i in db.resources && j in db.resources && db.resources[i].key == k && db.resources[j].key == k
    ensures i == j
  {
    var s := System(Empty(now), map[]);
    EraIsKept(s, acts, k, first);
    ExecKeeps(s, acts);
    ErasBegin(s, acts, i);
    ErasBegin(s, acts, j);
  }

  /** No resource is of an era that has not begun. */
  lemma ErasBegin(s: System, acts: seq<Action>, i: nat)
    requires SystemOk(s) && i in Exec(s, acts).db.resources
    ensures var db := Exec(s, acts).db; db.resources[i].era <= EraOf(db, db.resources[i].key)
  {
    ExecKeeps(s, acts);
    assert ResourceOk(Exec(s, acts).db, i);
  }

  /** And all its 202 responses name that one. */
  lemma AnswersAgree(now: Time, acts: seq<Action>, first: Time, e: nat, f: nat)
    requires var s' := Exec(System(Empty(now), map[]), acts);
      && e in s'.pcs && f in s'.pcs && Answer(s'.pcs[e]).Some? && Answer(s'.pcs[f]).Some?
      && s'.pcs[e].rq.key == s'.pcs[f].rq.key && KeptSince(acts, s'.pcs[e].rq.key, first)
    ensures var s' := Exec(System(Empty(now), map[]), acts);
      Answer(s'.pcs[e]) == Answer(s'.pcs[f])
  {
    var s := System(Empty(now), map[]);
    var s' := Exec(s, acts);
    AnswersAreBacked(s, acts, e);
    AnswersAreBacked(s, acts, f);
    OneResourceWhileKept(now, acts, s'.pcs[e].rq.key, first, Answer(s'.pcs[e]).value, Answer(s'.pcs[f]).value);
  }

  // By which steps.

  /** The key is free, or held unfinished for more than 30 seconds by the request's
      own clock. */
  predicate Winning(db: Db, pc: Pc, k: Key) {
    || (pc.Claiming? && pc.rq.key == k && k !in db.records)
    || (pc.Reclaiming? && pc.rq.key == k && k in db.records && db.records[k].status == InProgress
        && db.records[k].createdAt + 30_000_000 < pc.rq.now)
  }

  /** The statement wins the key. */
  predicate Wins(s: System, a: Action, k: Key) {
    a.Step? && a.request in s.pcs && !a.chance.outcome.Failed? && Winning(s.db, s.pcs[a.request], k)
  }

  /** A key is claimed if and only if a statement wins it; the row then carries the
      request's payload and the database's instant, and expires 24 hours after
      the request. */
  lemma ClaimedWhen(s: System, a: Action, k: Key)
    ensures var db' := Apply(s, a).db;
      && (Wins(s, a, k) ==>
            && db'.nextClaim == s.db.nextClaim + 1
            && k in db'.records && db'.records[k] ==
              Record(s.pcs[a.request].rq.fingerprint, InProgress, None, s.db.clock,
                     s.pcs[a.request].rq.now + 86_400_000_000, s.db.nextClaim))
      && (db'.nextClaim != s.db.nextClaim ==>
            a.Step? && a.request in s.pcs && !s.pcs[a.request].Answered? && Wins(s, a, s.pcs[a.request].rq.key))
  {
    if a.Step? && a.request in s.pcs {
      WinningStatement(s.db, s.pcs[a.request], k);
      hide After, Goto;
    }
  }

  lemma WinningStatement(db: Db, pc: Pc, k: Key)
    ensures var db' := After(db, pc);
      && (Winning(db, pc, k) ==>
            && db'.nextClaim == db.nextClaim + 1
            && k in db'.records && db'.records[k] ==
              Record(pc.rq.fingerprint, InProgress, None, db.clock, pc.rq.now + 86_400_000_000, db.nextClaim))
      && (db'.nextClaim != db.nextClaim ==> !pc.Answered? && Winning(db, pc, pc.rq.key))
  {
  }

  /** Where a request is after a statement that won. */
  lemma WinnerGoesOn(s: System, a: Action, k: Key)
    requires Wins(s, a, k) && a.chance.outcome == Done
    ensures var rq := s.pcs[a.request].rq;
      Apply(s, a).pcs[a.request] ==
        if rq.key.operation == EmailsCreate then Admitting(rq, s.db.nextClaim, s.db.clock)
        else Committing(rq, s.db.nextClaim, s.db.clock)
  {
  }

  /** Whoever waits for another request's result has seen the key in progress with
      its own payload. */
  lemma WaitsWhen(db: Db, pc: Pc, c: Chance)
    ensures Goto(db, pc, c).Polling? <==>
      || (pc.Reading? && c.outcome == Done && pc.rq.key in db.records && db.records[pc.rq.key].status == InProgress
          && db.records[pc.rq.key].fingerprint == pc.rq.fingerprint)
      || (pc.Polling? && c.outcome == Done && pc.rq.key in db.records && db.records[pc.rq.key].status == InProgress
          && c.keepsPolling)
  {
  }

  /** An email is saved and committed only after it was admitted, and a refused
      one goes on to release its key. */
  lemma AdmittedWhen(db: Db, pc: Pc, c: Chance)
    ensures Goto(db, pc, c).Saving? <==> pc.Admitting? && c.outcome == Done && c.admitted
    ensures Goto(db, pc, c).Releasing? <==> pc.Admitting? && !(c.outcome == Done && c.admitted)
    ensures Goto(db, pc, c).Committing? <==>
      || (pc.Saving? && c.outcome == Done)
      || (!pc.Answered? && Winning(db, pc, pc.rq.key) && c.outcome == Done && pc.rq.key.operation == BroadcastsCreate)
  {
  }

  /** And only a commit of its own makes a request a creator. */
  lemma CreatedWhen(db: Db, pc: Pc, c: Chance)
    requires !pc.Created?
    ensures Goto(db, pc, c).Created? <==>
      && pc.Committing? && c.outcome == Done && pc.rq.key in db.records && db.records[pc.rq.key].status == InProgress
      && db.records[pc.rq.key].fingerprint == pc.rq.fingerprint && pc.rq.id !in db.resources
  {
  }
}
