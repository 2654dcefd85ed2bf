/** Two runs of the code that show where the guarantees stop. */
module IdempotencyWitnesses {
  import opened Options
  import opened IdempotencyRows
  import opened IdempotencyProtocol
  import opened IdempotencyTheorems
  import opened IdempotencyReleases

  const KEY := Key(EmailsCreate, 0)
  const SECOND: Time := 1_000_000
  const CALM := Chance(Outcome.Done, true, true)
  const REFUSING := CALM.(admitted := false)

  function Start(): System {
    System(Empty(0), map[])
  }

  lemma Goes(s: System, a: Action, t: System)
    requires Reaches(Start(), s) && Apply(s, a) == t
    ensures Reaches(Start(), t)
  {
    ReachesNext(Start(), s, a);
  }

  const FIRST := Request(KEY, 7, 0, 0)

  /** Only the record, its latest claim and the counters differ. */
  function Rows(clock: Time, r: Record, nextId: nat): Db {
    Db(clock, map[KEY := r], map[], {}, map[], map[KEY := Claim(r.claim, r.createdAt)], nextId, r.claim + 1)
  }

  const FIRST_CLAIM := Record(7, InProgress, None, 0, RETENTION, 0)

  lemma FirstClaims()
    ensures Reaches(Start(), System(Rows(0, FIRST_CLAIM, 1), map[1 := Admitting(FIRST, 0, 0)]))
  {
    ReachesItself(Start());
    var s1 := System(Empty(0).(nextId := 1), map[1 := Early(FIRST)]);
    Goes(Start(), Arrive(1, KEY, 7, 0), s1);
    var s2 := System(Empty(0).(nextId := 1), map[1 := Claiming(FIRST)]);
    assert Apply(s1, Step(1, CALM)) == s2;
    Goes(s1, Step(1, CALM), s2);
    var s3 := System(Rows(0, FIRST_CLAIM, 1), map[1 := Admitting(FIRST, 0, 0)]);
    assert Apply(s2, Step(1, CALM)) == s3;
    Goes(s2, Step(1, CALM), s3);
  }

  // Another payload through the poll.

  const WAITER := Request(KEY, 7, 1, 27 * SECOND)
  const OTHER := Request(KEY, 8, 2, 31 * SECOND)
  const OTHER_CLAIM := Record(8, InProgress, None, 31 * SECOND, 31 * SECOND + RETENTION, 1)

  function Pcs(two: Pc): map<nat, Pc> {
    map[1 := Admitting(FIRST, 0, 0), 2 := two]
  }

  /** The second request finds the first in progress, not yet stale, and waits. */
  lemma WaiterPolls()
    ensures Reaches(Start(), System(Rows(27 * SECOND, FIRST_CLAIM, 2), Pcs(Polling(WAITER))))
  {
    FirstClaims();
    var pcs := map[1 := Admitting(FIRST, 0, 0)];
    var s0 := System(Rows(27 * SECOND, FIRST_CLAIM, 1), pcs);
    Goes(System(Rows(0, FIRST_CLAIM, 1), pcs), Tick(27 * SECOND), s0);
    var db := Rows(27 * SECOND, FIRST_CLAIM, 2);
    assert Apply(s0, Arrive(2, KEY, 7, 27 * SECOND)) == System(db, Pcs(Early(WAITER)));
    Goes(s0, Arrive(2, KEY, 7, 27 * SECOND), System(db, Pcs(Early(WAITER))));
    Waits(db, Early(WAITER), Claiming(WAITER));
    Waits(db, Claiming(WAITER), Reclaiming(WAITER));
    Waits(db, Reclaiming(WAITER), Reading(WAITER));
    Waits(db, Reading(WAITER), Polling(WAITER));
  }

  lemma Waits(db: Db, pc: Pc, pc': Pc)
    requires Reaches(Start(), System(db, Pcs(pc))) && Next(db, pc, CALM) == (db, pc')
    ensures Reaches(Start(), System(db, Pcs(pc')))
  {
    hide Next;
    assert Apply(System(db, Pcs(pc)), Step(2, CALM)) == System(db, Pcs(pc'));
    Goes(System(db, Pcs(pc)), Step(2, CALM), System(db, Pcs(pc')));
  }

  function Three(two: Pc, three: Pc): map<nat, Pc> {
    map[1 := Admitting(FIRST, 0, 0), 2 := two, 3 := three]
  }

  lemma Takes(db: Db, pc: Pc, db': Db, pc': Pc)
    requires Reaches(Start(), System(db, Three(Polling(WAITER), pc))) && Next(db, pc, CALM) == (db', pc')
    ensures Reaches(Start(), System(db', Three(Polling(WAITER), pc')))
  {
    hide Next;
    var s := System(db, Three(Polling(WAITER), pc));
    assert Apply(s, Step(3, CALM)) == System(db', Three(Polling(WAITER), pc'));
    Goes(s, Step(3, CALM), System(db', Three(Polling(WAITER), pc')));
  }

  function TakenOver(): Db {
    Rows(31 * SECOND, OTHER_CLAIM, 3)
  }

  function Finished(): Db {
    TakenOver().(records := map[KEY := OTHER_CLAIM.(status := Completed, resource := Some(2))],
                 resources := map[2 := Origin(KEY, 8, 0)], files := {2})
  }

  lemma OtherArrives()
    ensures Reaches(Start(), System(Rows(31 * SECOND, FIRST_CLAIM, 3), Three(Polling(WAITER), Early(OTHER))))
  {
    WaiterPolls();
    var s0 := System(Rows(27 * SECOND, FIRST_CLAIM, 2), Pcs(Polling(WAITER)));
    var s1 := System(Rows(31 * SECOND, FIRST_CLAIM, 2), Pcs(Polling(WAITER)));
    Goes(s0, Tick(4 * SECOND), s1);
    var s2 := System(Rows(31 * SECOND, FIRST_CLAIM, 3), Three(Polling(WAITER), Early(OTHER)));
    assert Apply(s1, Arrive(3, KEY, 8, 31 * SECOND)) == s2;
    Goes(s1, Arrive(3, KEY, 8, 31 * SECOND), s2);
  }

  lemma Reclaims()
    ensures Next(Rows(31 * SECOND, FIRST_CLAIM, 3), Reclaiming(OTHER), CALM) == (TakenOver(), Admitting(OTHER, 1, 31 * SECOND))
  {
    var db := Rows(31 * SECOND, FIRST_CLAIM, 3);
    assert Stale(db, KEY, OTHER.now - STALE_AFTER);
    assert db.records[KEY := OTHER_CLAIM] == map[KEY := OTHER_CLAIM];
    assert db.latest[KEY := Claim(1, 31 * SECOND)] == map[KEY := Claim(1, 31 * SECOND)];
    assert NewClaim(db, KEY, 8, OTHER.now + RETENTION) == TakenOver();
  }

  /** A third request reuses the key for another payload once the first has gone
      stale, and completes. */
  lemma OtherCompletes()
    ensures Reaches(Start(), System(Finished(), Three(Polling(WAITER), Created(OTHER))))
  {
    OtherArrives();
    var db := Rows(31 * SECOND, FIRST_CLAIM, 3);
    Takes(db, Early(OTHER), db, Claiming(OTHER));
    Takes(db, Claiming(OTHER), db, Reclaiming(OTHER));
    Reclaims();
    Takes(db, Reclaiming(OTHER), TakenOver(), Admitting(OTHER, 1, 31 * SECOND));
    CompletesSteps();
    var saved := TakenOver().(files := {2});
    Takes(TakenOver(), Admitting(OTHER, 1, 31 * SECOND), TakenOver(), Saving(OTHER, 1, 31 * SECOND));
    Takes(TakenOver(), Saving(OTHER, 1, 31 * SECOND), saved, Committing(OTHER, 1, 31 * SECOND));
    Takes(saved, Committing(OTHER, 1, 31 * SECOND), Finished(), Created(OTHER));
  }

  lemma CompletesSteps()
    ensures var saved := TakenOver().(files := {2});
      && Next(TakenOver(), Admitting(OTHER, 1, 31 * SECOND), CALM) == (TakenOver(), Saving(OTHER, 1, 31 * SECOND))
      && Next(TakenOver(), Saving(OTHER, 1, 31 * SECOND), CALM) == (saved, Committing(OTHER, 1, 31 * SECOND))
      && Next(saved, Committing(OTHER, 1, 31 * SECOND), CALM) == (Finished(), Created(OTHER))
  {
    var saved := TakenOver().(files := {2});
    assert SaveFile(TakenOver(), 2) == saved by { assert TakenOver().files + {2} == {2}; }
    assert Completable(saved, KEY, 8, 2);
    assert saved.resources[2 := Origin(KEY, 8, 0)] == map[2 := Origin(KEY, 8, 0)];
    assert Commit(saved, KEY, 8, 2) == Finished() by {
      var done := OTHER_CLAIM.(status := Completed, resource := Some(2));
      assert saved.records[KEY := done] == map[KEY := done];
    }
  }

  /** So the waiter is answered with a message of another payload. */
  lemma PollMayReplayAnotherPayload()
    ensures exists t ::
      && Reaches(Start(), t) && 2 in t.pcs && t.pcs[2] == Replayed(WAITER, 2, PollRead)
      && 2 in t.db.resources && t.db.resources[2].fingerprint != WAITER.fingerprint
  {
    OtherCompletes();
    var db := Finished();
    var s0 := System(db, Three(Polling(WAITER), Created(OTHER)));
    var s1 := System(db, Three(Loading(WAITER, 2, PollRead), Created(OTHER)));
    var s2 := System(db, Three(Replayed(WAITER, 2, PollRead), Created(OTHER)));
    assert Apply(s0, Step(2, CALM)) == s1;
    Goes(s0, Step(2, CALM), s1);
    assert Apply(s1, Step(2, CALM)) == s2;
    Goes(s1, Step(2, CALM), s2);
  }

  // A release that takes another request's claim.

  const EARLY_BIRD := Request(KEY, 7, 1, 31 * SECOND)
  const SAME_INSTANT := Record(7, InProgress, None, 0, 31 * SECOND + RETENTION, 1)

  /** The second request's application clock is 31 seconds ahead and it comes
      within the same microsecond of the database clock, so it reclaims at once
      and gets the same created_at. */
  lemma ReclaimsAtOnce()
    ensures Reaches(Start(), System(Rows(0, SAME_INSTANT, 2), Pcs(Admitting(EARLY_BIRD, 1, 0))))
  {
    FirstClaims();
    var s0 := System(Rows(0, FIRST_CLAIM, 1), map[1 := Admitting(FIRST, 0, 0)]);
    var db := Rows(0, FIRST_CLAIM, 2);
    assert Apply(s0, Arrive(2, KEY, 7, 31 * SECOND)) == System(db, Pcs(Early(EARLY_BIRD)));
    Goes(s0, Arrive(2, KEY, 7, 31 * SECOND), System(db, Pcs(Early(EARLY_BIRD))));
    Waits(db, Early(EARLY_BIRD), Claiming(EARLY_BIRD));
    Waits(db, Claiming(EARLY_BIRD), Reclaiming(EARLY_BIRD));
    var s1 := System(db, Pcs(Reclaiming(EARLY_BIRD)));
    var s2 := System(Rows(0, SAME_INSTANT, 2), Pcs(Admitting(EARLY_BIRD, 1, 0)));
    assert Stale(db, KEY, EARLY_BIRD.now - STALE_AFTER);
    assert db.records[KEY := SAME_INSTANT] == map[KEY := SAME_INSTANT];
    assert Apply(s1, Step(2, CALM)) == s2;
    Goes(s1, Step(2, CALM), s2);
  }

  /** The two claims of one instant: refusing the first frees the key that the
      second holds. */
  lemma SkewLetsAReleaseTakeAnothersClaim()
    ensures exists t ::
      && Reaches(Start(), t) && TakesAnothers(t, Step(1, CALM))
      && 2 in t.pcs && Holding(t.pcs[2]) && t.pcs[2].rq.key !in Apply(t, Step(1, CALM)).db.records
  {
    ReclaimsAtOnce();
    var s0 := System(Rows(0, SAME_INSTANT, 2), Pcs(Admitting(EARLY_BIRD, 1, 0)));
    var t := System(Rows(0, SAME_INSTANT, 2), map[1 := Releasing(FIRST, 0, 0), 2 := Admitting(EARLY_BIRD, 1, 0)]);
    assert Apply(s0, Step(1, REFUSING)) == t;
    Goes(s0, Step(1, REFUSING), t);
    assert TakesAnothers(t, Step(1, CALM));
  }
}
