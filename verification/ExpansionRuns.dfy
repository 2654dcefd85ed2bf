/** Runs of two expanders, built step by step from an empty installation: what
    the runs that show a condition to be needed are made of. */
module ExpansionRuns {
  import opened Options
  import opened BroadcastRows
  import opened BroadcastInvariant
  import opened ExpansionProtocol
  import opened BroadcastTheorems

  const CALM := Chance(Done, {}, [], true, {}, true, Built)

  function Stand(one: Pc, two: Pc): map<nat, Pc> {
    map[1 := one, 2 := two]
  }

  /** Some run from empty leads to db, with the expanders at `one` and `two`. */
  ghost predicate Gets(lim: Limits, db: Db, one: Pc, two: Pc) {
    Reaches(lim, System(EmptyDb(0), map[]), System(db, Stand(one, two)))
  }

  lemma BothStart(lim: Limits)
    ensures Gets(lim, EmptyDb(0), Idle, Idle)
  {
    var s := System(EmptyDb(0), map[]);
    var s1 := System(EmptyDb(0), map[1 := Idle]);
    assert Apply(lim, s, Crash(1)) == s1;
    assert Apply(lim, s1, Crash(2)) == System(EmptyDb(0), Stand(Idle, Idle));
    hide Apply, Reaches, Stand;
    ReachesItself(lim, s);
    ReachesNext(lim, s, s, Crash(1));
    ReachesNext(lim, s, s1, Crash(2));
  }

  /** One action further along the run. */
  lemma GetsNext(lim: Limits, db: Db, one: Pc, two: Pc, a: Action, db': Db, one': Pc, two': Pc)
    requires Gets(lim, db, one, two)
    requires Apply(lim, System(db, Stand(one, two)), a) == System(db', Stand(one', two'))
    ensures Gets(lim, db', one', two')
  {
    hide Apply, Reaches, Stand;
    ReachesNext(lim, System(EmptyDb(0), map[]), System(db, Stand(one, two)), a);
  }

  lemma StandMoves(one: Pc, two: Pc, pc: Pc)
    ensures Stand(one, two)[1 := pc] == Stand(pc, two) && Stand(one, two)[2 := pc] == Stand(one, pc)
  {
  }

  lemma First(lim: Limits, db: Db, one: Pc, two: Pc, c: Chance)
    requires Gets(lim, db, one, two)
    ensures Gets(lim, Next(lim, db, one, c).0, Next(lim, db, one, c).1, two)
  {
    var (db', one') := Next(lim, db, one, c);
    var t := System(db, Stand(one, two));
    assert PcOf(t, 1) == one;
    hide Next, Apply, Gets, Stand, PcOf;
    ApplyExpand(lim, t, 1, c);
    StandMoves(one, two, one');
    GetsNext(lim, db, one, two, Expand(1, c), db', one', two);
  }

  lemma Second(lim: Limits, db: Db, one: Pc, two: Pc, c: Chance)
    requires Gets(lim, db, one, two)
    ensures Gets(lim, Next(lim, db, two, c).0, one, Next(lim, db, two, c).1)
  {
    var (db', two') := Next(lim, db, two, c);
    var t := System(db, Stand(one, two));
    assert PcOf(t, 2) == two;
    hide Next, Apply, Gets, Stand, PcOf;
    ApplyExpand(lim, t, 2, c);
    StandMoves(one, two, two');
    GetsNext(lim, db, one, two, Expand(2, c), db', one, two');
  }

  lemma Stops(lim: Limits, db: Db, one: Pc, two: Pc)
    requires Gets(lim, db, one, two)
    ensures Gets(lim, db, Idle, two) && Gets(lim, db, one, Idle)
  {
    hide Gets, Stand;
    StandMoves(one, two, Idle);
    GetsNext(lim, db, one, two, Crash(1), db, Idle, two);
    GetsNext(lim, db, one, two, Crash(2), db, one, Idle);
  }

  lemma OutsideStays(lim: Limits, s: System, a: Action)
    requires !a.Expand? && !a.Crash?
    ensures Apply(lim, s, a).pcs == s.pcs
  {
  }

  lemma Outside(lim: Limits, db: Db, one: Pc, two: Pc, a: Action)
    requires Gets(lim, db, one, two) && !a.Expand? && !a.Crash?
    ensures Gets(lim, Apply(lim, System(db, Stand(one, two)), a).db, one, two)
  {
    hide Gets, Stand, Apply;
    var t := System(db, Stand(one, two));
    OutsideStays(lim, t, a);
    GetsNext(lim, db, one, two, a, Apply(lim, t, a).db, one, two);
  }

  lemma GetsOk(lim: Limits, db: Db, one: Pc, two: Pc)
    requires Gets(lim, db, one, two)
    ensures SystemOk(System(db, Stand(one, two))) && Inv(db)
  {
    var s := System(EmptyDb(0), map[]);
    var acts :| Exec(lim, s, acts) == System(db, Stand(one, two));
    StartsAreCovered(0, EmptyDb(0));
    ExecKeeps(lim, s, acts);
  }
}
