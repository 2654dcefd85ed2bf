/** What PromptRun rules out: a renewer that stalls between its claim and its
    charge for longer than reconcilePending waits. */
module RenewalWitness {
  import opened Options
  import opened Paystack
  import opened RenewalRows
  import opened RenewalProtocol
  import opened RenewalTheorems

  const END: Time := 48 * HOUR
  const PERIOD := Period(0, END)
  const TENANT := Tenant(Plus, true, Some(END), true, true, Some(Reminder(END, -24 * HOUR, true)))
  const FIRST := Claim(Renewal(PERIOD, 1), 0, Plus, 600)
  const SECOND := Claim(Renewal(PERIOD, 2), 0, Plus, 600)
  const FIRST_ROW := Attempt(Plus, 600, AttemptPending, 0)
  const SECOND_ROW := Attempt(Plus, 600, AttemptPending, 12 * HOUR)
  const NO_SUCH_REFERENCE := Reply(404, true, false, "", 0, "")

  function Rows(now: Time, attempts: seq<Attempt>): Db {
    Db(now, map[0 := TENANT], map[PERIOD := attempts], map[], [])
  }

  function Both(one: Pc, two: Pc): map<nat, Pc> {
    map[1 := one, 2 := two]
  }

  function Here(now: Time, rows: seq<Attempt>, gateway: Gateway, one: Pc, two: Pc): System {
    System(Rows(now, rows), gateway, Both(one, two))
  }

  ghost predicate Gets(t: System) {
    Reaches(Empty(0), t)
  }

  lemma Does(s: System, a: Action, t: System)
    requires Gets(s) && Apply(s, a) == t
    ensures Gets(t)
  {
    hide Apply;
    ReachesNext(Empty(0), s, a);
  }

  /** Both clocks go on. */
  lemma Waits(now: Time, rows: seq<Attempt>, gateway: Gateway, one: Pc, elapsed: nat)
    requires Gets(Here(now, rows, gateway, one, Idle))
    ensures Gets(Here(now + elapsed, rows, gateway, one, Idle))
  {
    Does(Here(now, rows, gateway, one, Idle), Tick(elapsed), Here(now + elapsed, rows, gateway, one, Idle));
  }

  const NOTHING := Gateway({}, map[])

  /** Renewer 1 claims and stalls; renewer 2 is idle. */
  lemma Claimed()
    ensures Gets(Here(0, [FIRST_ROW], NOTHING, Charging(FIRST), Idle))
  {
    ReachesItself(Empty(0));
    var s1 := System(Db(0, map[0 := TENANT], map[], map[], []), NOTHING, map[]);
    assert Apply(Empty(0), Configure(0, TENANT)) == s1;
    Does(Empty(0), Configure(0, TENANT), s1);
    var s2 := System(Rows(0, [FIRST_ROW]), NOTHING, map[1 := Charging(FIRST)]);
    assert AttemptsOf(s1.db, PERIOD) == [] && [] + [FIRST_ROW] == [FIRST_ROW];
    assert Apply(s1, ClaimNext(1, 0, 0, Done, true)) == s2;
    Does(s1, ClaimNext(1, 0, 0, Done, true), s2);
    assert Apply(s2, Crash(2)) == Here(0, [FIRST_ROW], NOTHING, Charging(FIRST), Idle);
    Does(s2, Crash(2), Here(0, [FIRST_ROW], NOTHING, Charging(FIRST), Idle));
  }

  const FAILED_ROW := FIRST_ROW.(status := AttemptFailed)

  /** An hour later renewer 2 verifies a charge that was never sent, and settles
      it as failed. */
  lemma Reconciled()
    ensures Gets(Here(HOUR, [FAILED_ROW], NOTHING, Charging(FIRST), Idle))
  {
    Claimed();
    Waits(0, [FIRST_ROW], NOTHING, Charging(FIRST), HOUR);
    var rows := [FIRST_ROW];
    var one := Charging(FIRST);
    var s0 := Here(HOUR, rows, NOTHING, one, Idle);
    var s1 := Here(HOUR, rows, NOTHING, one, Verifying([FIRST]));
    assert FindAttempt(s0.db, FIRST.ref) == Some(FIRST_ROW);
    assert Apply(s0, ListPending(2, [FIRST], HOUR)) == s1;
    Does(s0, ListPending(2, [FIRST], HOUR), s1);
    var s2 := Here(HOUR, rows, NOTHING, one, Settling(FIRST, FAILED, []));
    assert [FIRST][1..] == [];
    assert Apply(s1, VerifyReply(2, NO_SUCH_REFERENCE)) == s2;
    Does(s1, VerifyReply(2, NO_SUCH_REFERENCE), s2);
    SettlesAsFailed();
  }

  lemma SettlesAsFailed()
    requires Gets(Here(HOUR, [FIRST_ROW], NOTHING, Charging(FIRST), Settling(FIRST, FAILED, [])))
    ensures Gets(Here(HOUR, [FAILED_ROW], NOTHING, Charging(FIRST), Idle))
  {
    var one := Charging(FIRST);
    var s2 := Here(HOUR, [FIRST_ROW], NOTHING, one, Settling(FIRST, FAILED, []));
    var s3 := Here(HOUR, [FIRST_ROW], NOTHING, one, Finishing(FIRST, false, []));
    assert Apply(s2, Settle(2, Done)) == s3;
    Does(s2, Settle(2, Done), s3);
    var s4 := Here(HOUR, [FAILED_ROW], NOTHING, one, Idle);
    assert [FIRST_ROW][0 := FAILED_ROW] == [FAILED_ROW];
    assert FinishAttempt(s3.db, FIRST.ref, false) == s4.db by {
      assert s3.db.attempts[PERIOD := [FAILED_ROW]] == map[PERIOD := [FAILED_ROW]];
    }
    assert Apply(s3, Settle(2, Done)) == s4;
    Does(s3, Settle(2, Done), s4);
  }

  const ONE_CHARGED := Gateway({}, map[FIRST.ref := Charged])

  /** Renewer 1 wakes up and charges. */
  lemma LateCharge()
    ensures Gets(Here(HOUR, [FAILED_ROW], ONE_CHARGED, Awaiting(FIRST), Idle))
  {
    Reconciled();
    var s0 := Here(HOUR, [FAILED_ROW], NOTHING, Charging(FIRST), Idle);
    var s1 := Here(HOUR, [FAILED_ROW], Gateway({FIRST.ref}, map[]), Awaiting(FIRST), Idle);
    assert {} + {FIRST.ref} == {FIRST.ref};
    assert Apply(s0, SendCharge(1)) == s1;
    Does(s0, SendCharge(1), s1);
    var s2 := Here(HOUR, [FAILED_ROW], ONE_CHARGED, Awaiting(FIRST), Idle);
    assert {FIRST.ref} - {FIRST.ref} == {};
    assert Apply(s1, Receive(FIRST.ref, Some(Charged))) == s2;
    Does(s1, Receive(FIRST.ref, Some(Charged)), s2);
  }

  lemma SecondClaim()
    ensures Gets(Here(12 * HOUR, [FAILED_ROW, SECOND_ROW], ONE_CHARGED, Awaiting(FIRST), Charging(SECOND)))
  {
    LateCharge();
    Waits(HOUR, [FAILED_ROW], ONE_CHARGED, Awaiting(FIRST), 11 * HOUR);
    var s0 := Here(12 * HOUR, [FAILED_ROW], ONE_CHARGED, Awaiting(FIRST), Idle);
    var s1 := Here(12 * HOUR, [FAILED_ROW, SECOND_ROW], ONE_CHARGED, Awaiting(FIRST), Charging(SECOND));
    assert AttemptsOf(s0.db, PERIOD) == [FAILED_ROW] && [FAILED_ROW] + [SECOND_ROW] == [FAILED_ROW, SECOND_ROW];
    assert Claimable(s0.db, 0, 12 * HOUR);
    assert s0.db.attempts[PERIOD := [FAILED_ROW, SECOND_ROW]] == map[PERIOD := [FAILED_ROW, SECOND_ROW]];
    assert ClaimAttempt(s0.db, 0, 12 * HOUR) == s1.db;
    assert Apply(s0, ClaimNext(2, 0, 12 * HOUR, Done, true)) == s1;
    Does(s0, ClaimNext(2, 0, 12 * HOUR, Done, true), s1);
  }

  /** One period, two charges that both keep their money. */
  lemma StalledRenewerChargesTwice()
    ensures exists t ::
      && Reaches(Empty(0), t)
      && TxOf(t, Renewal(PERIOD, 1)) == Some(Charged) && TxOf(t, Renewal(PERIOD, 2)) == Some(Charged)
  {
    SecondClaim();
    var rows := [FAILED_ROW, SECOND_ROW];
    var s0 := Here(12 * HOUR, rows, ONE_CHARGED, Awaiting(FIRST), Charging(SECOND));
    var s1 := Here(12 * HOUR, rows, ONE_CHARGED.(inflight := {SECOND.ref}), Awaiting(FIRST), Awaiting(SECOND));
    assert {} + {SECOND.ref} == {SECOND.ref};
    assert Apply(s0, SendCharge(2)) == s1;
    Does(s0, SendCharge(2), s1);
    var t := Apply(s1, Receive(SECOND.ref, Some(Charged)));
    Does(s1, Receive(SECOND.ref, Some(Charged)), t);
    assert TxOf(t, Renewal(PERIOD, 1)) == Some(Charged) && TxOf(t, Renewal(PERIOD, 2)) == Some(Charged);
  }
}
