/** Key rotation as a transition system: services read a row, sample the clock,
    check, and only then lock and retire; others rotate, revoke and create
    meanwhile. */
module ApiKeyLineage {
  import opened Options
  import opened ApiKeyRows

  datatype Pc =
    | Idle
    /** Rotate has read the row. */
    | Checking(k: nat, row: Row, grace: int)
    /** It has sampled `now` and found the key alive. */
    | Locking(k: nat, newExpiresAt: Option<Time>, now: Time, grace: int)
    /** Authenticate has read the row. */
    | Deciding(k: nat, row: Row)

  datatype System = System(db: Db, clock: Time, pcs: map<nat, Pc>)

  datatype Action =
    | Create(expiresAt: Option<Time>)
    | RevokeKey(k: nat)
    | ReadForRotate(e: nat, k: nat, grace: int)
    | Check(e: nat)
    | Commit(e: nat)
    | ReadForAuth(e: nat, k: nat)
    | Decide(e: nat)
    | Crash(e: nat)
    | Tick(elapsed: nat)

  function PcOf(s: System, e: nat): Pc {
    if e in s.pcs then s.pcs[e] else Idle
  }

  function Goes(s: System, e: nat, pc: Pc): System {
    s.(pcs := s.pcs[e := pc])
  }

  function AfterCheck(pc: Pc, now: Time): Pc
    requires pc.Checking?
  {
    if Alive(pc.row, now) then Locking(pc.k, pc.row.expiresAt, now, pc.grace) else Idle
  }

  function AfterCommit(db: Db, pc: Pc): Db
    requires pc.Locking?
  {
    Rotate(db, pc.k, pc.newExpiresAt, pc.now, pc.now + pc.grace)
  }

  function Apply(s: System, a: Action): System {
    match a
    case Create(expiresAt) => s.(db := Insert(s.db, expiresAt))
    case RevokeKey(k) => s.(db := Revoke(s.db, k, s.clock))
    case ReadForRotate(e, k, grace) =>
      if PcOf(s, e) == Idle && k in s.db.rows then Goes(s, e, Checking(k, s.db.rows[k], grace)) else s
    case Check(e) => if PcOf(s, e).Checking? then Goes(s, e, AfterCheck(PcOf(s, e), s.clock)) else s
    case Commit(e) => if PcOf(s, e).Locking? then Goes(s.(db := AfterCommit(s.db, PcOf(s, e))), e, Idle) else s
    case ReadForAuth(e, k) =>
      if PcOf(s, e) == Idle && k in s.db.rows then Goes(s, e, Deciding(k, s.db.rows[k])) else s
    case Decide(e) => if PcOf(s, e).Deciding? then Goes(s, e, Idle) else s
    case Crash(e) => Goes(s, e, Idle)
    case Tick(elapsed) => s.(clock := s.clock + elapsed)
  }

  function Exec(s: System, acts: seq<Action>): System
    decreases |acts|
  {
    if acts == [] then s else Exec(Apply(s, acts[0]), acts[1..])
  }

  function Empty(now: Time): System {
    System(Db(map[], 0), now, map[])
  }

  // The links.

  /** Links lead to younger keys, */
  ghost predicate LinksClimb(db: Db) {
    && (forall k :: k in db.rows ==> k < db.nextId)
    && (forall k :: k in db.rows && db.rows[k].replacedBy.Some? ==>
          db.rows[k].replacedBy.value in db.rows && k < db.rows[k].replacedBy.value)
  }

  /** and no two keys to the same one. */
  ghost predicate LinksPart(db: Db) {
    forall j, k :: (
      && j in db.rows && k in db.rows && db.rows[j].replacedBy.Some?
      && db.rows[j].replacedBy == db.rows[k].replacedBy) ==> j == k
  }

  ghost predicate LinksOk(db: Db) {
    LinksClimb(db) && LinksPart(db)
  }

  /** A link, once set, stays; so does a revocation. */
  ghost predicate LinksGrow(a: Db, b: Db) {
    forall k :: k in a.rows ==>
      && k in b.rows
      && (a.rows[k].replacedBy.Some? ==> b.rows[k].replacedBy == a.rows[k].replacedBy && b.rows[k].expiresAt == a.rows[k].expiresAt)
      && (a.rows[k].revokedAt.Some? ==> b.rows[k].revokedAt == a.rows[k].revokedAt)
  }

  lemma RotateLinks(db: Db, k: nat, newExpiresAt: Option<Time>, now: Time, retireAt: Time)
    requires LinksOk(db)
    ensures LinksOk(Rotate(db, k, newExpiresAt, now, retireAt)) && LinksGrow(db, Rotate(db, k, newExpiresAt, now, retireAt))
  {
    var db' := Rotate(db, k, newExpiresAt, now, retireAt);
    if RotateReplyOf(db, k, now).Rotated? {
      assert db.nextId !in db.rows;
      RotatedLinks(db, k, newExpiresAt, now, retireAt);
      hide Rotate, RotateReplyOf;
      assert LinksClimb(db') && LinksGrow(db, db') by { hide LinksPart; }
      NewLinkParts(db, db', k);
    }
  }

  lemma RotatedLinks(db: Db, k: nat, newExpiresAt: Option<Time>, now: Time, retireAt: Time)
    requires RotateReplyOf(db, k, now).Rotated? && db.nextId !in db.rows
    ensures var db' := Rotate(db, k, newExpiresAt, now, retireAt);
      && db'.nextId == db.nextId + 1 && db'.rows.Keys == db.rows.Keys + {db.nextId}
      && (forall j :: j in db.rows && j != k ==> db'.rows[j] == db.rows[j])
      && db.rows[k].replacedBy.None? && db.rows[k].revokedAt.None?
      && db'.rows[k].replacedBy == Some(db.nextId) && db'.rows[db.nextId].replacedBy == None
  {
  }

  lemma NewLinkParts(db: Db, db': Db, k: nat)
    requires LinksOk(db) && k in db.rows && db.nextId !in db.rows
    requires db'.rows.Keys == db.rows.Keys + {db.nextId}
    requires forall j :: j in db.rows && j != k ==> db'.rows[j] == db.rows[j]
    requires db'.rows[k].replacedBy == Some(db.nextId) && db'.rows[db.nextId].replacedBy == None
    ensures LinksPart(db')
  {
  }

  lemma OtherLinks(s: System, a: Action)
    requires LinksOk(s.db) && !a.Commit?
    ensures LinksOk(Apply(s, a).db) && LinksGrow(s.db, Apply(s, a).db)
  {
    var db, db' := s.db, Apply(s, a).db;
    if a.Create? { InsertLinks(db, a.expiresAt); }
    else if a.RevokeKey? { RevokeLinks(db, a.k, s.clock); }
    else { assert db' == db; }
    hide Insert, Revoke, LinksOk;
  }

  lemma InsertLinks(db: Db, expiresAt: Option<Time>)
    requires LinksOk(db)
    ensures LinksOk(Insert(db, expiresAt)) && LinksGrow(db, Insert(db, expiresAt))
  {
  }

  lemma RevokeLinks(db: Db, k: nat, now: Time)
    requires LinksOk(db)
    ensures LinksOk(Revoke(db, k, now)) && LinksGrow(db, Revoke(db, k, now))
  {
  }

  lemma ApplyLinks(s: System, a: Action)
    requires LinksOk(s.db)
    ensures LinksOk(Apply(s, a).db) && LinksGrow(s.db, Apply(s, a).db)
  {
    if a.Commit? { CommitLinks(s, a.e); } else { OtherLinks(s, a); }
    hide *;
  }

  lemma CommitLinks(s: System, e: nat)
    requires LinksOk(s.db)
    ensures LinksOk(Apply(s, Commit(e)).db) && LinksGrow(s.db, Apply(s, Commit(e)).db)
  {
    hide LinksOk, LinksGrow, Rotate;
    var pc := PcOf(s, e);
    LinksStay(s.db);
    assert Apply(s, Commit(e)).db == if pc.Locking? then AfterCommit(s.db, pc) else s.db;
    hide Apply;
    if pc.Locking? { RotateLinks(s.db, pc.k, pc.newExpiresAt, pc.now, pc.now + pc.grace); }
  }

  lemma LinksStay(db: Db)
    ensures LinksGrow(db, db)
  {
  }

  lemma {:induction false} ExecLinks(s: System, acts: seq<Action>)
    requires LinksOk(s.db)
    ensures LinksOk(Exec(s, acts).db) && LinksGrow(s.db, Exec(s, acts).db)
    decreases |acts|
  {
    if acts != [] {
      ApplyLinks(s, acts[0]);
      ExecLinks(Apply(s, acts[0]), acts[1..]);
    }
  }

  // A lineage is a chain.

  /** The key n rotations after k. */
  function Walk(db: Db, k: nat, n: nat): Option<nat>
    decreases n
  {
    if n == 0 then Some(k) else
      match Walk(db, k, n - 1)
      case None => None
      case Some(j) => if j in db.rows then db.rows[j].replacedBy else None
  }

  ghost predicate LeadsTo(db: Db, a: nat, b: nat) {
    exists n :: Walk(db, a, n) == Some(b)
  }

  /** One of the two came, rotation by rotation, from the other. */
  ghost predicate SameLineage(db: Db, a: nat, b: nat) {
    LeadsTo(db, a, b) || LeadsTo(db, b, a)
  }

  lemma {:induction false} WalksCompose(db: Db, a: nat, m: nat, b: nat, n: nat)
    requires Walk(db, a, m) == Some(b)
    ensures Walk(db, a, m + n) == Walk(db, b, n)
  {
    if n > 0 { WalksCompose(db, a, m, b, n - 1); }
  }

  /** The key before the last of a walk, which the last one replaced. */
  lemma WalkBefore(db: Db, a: nat, n: nat)
    requires n > 0 && Walk(db, a, n).Some?
    ensures var before := Walk(db, a, n - 1);
      before.Some? && before.value in db.rows && db.rows[before.value].replacedBy == Walk(db, a, n)
  {
  }

  lemma OnePredecessor(db: Db, i: nat, j: nat)
    requires LinksOk(db) && i in db.rows && j in db.rows
    requires db.rows[i].replacedBy.Some? && db.rows[i].replacedBy == db.rows[j].replacedBy
    ensures i == j
  {
  }

  /** Two walks that end in the same key come one from the other. */
  lemma {:induction false} WalksMeet(db: Db, a: nat, m: nat, b: nat, n: nat)
    requires LinksOk(db) && m <= n && Walk(db, a, m).Some? && Walk(db, a, m) == Walk(db, b, n)
    ensures Walk(db, b, n - m) == Some(a)
    decreases m
  {
    hide LinksOk;
    if m == 0 {
      assert Walk(db, a, 0) == Some(a);
    } else {
      hide Walk;
      WalkBefore(db, a, m);
      WalkBefore(db, b, n);
      OnePredecessor(db, Walk(db, a, m - 1).value, Walk(db, b, n - 1).value);
      WalksMeet(db, a, m - 1, b, n - 1);
    }
  }

  lemma {:induction false} WalksClimb(db: Db, a: nat, n: nat)
    requires LinksOk(db) && n > 0 && Walk(db, a, n).Some?
    ensures Walk(db, a, n).value > a && a in db.rows && db.rows[a].replacedBy.Some?
    decreases n
  {
    if n > 1 { WalksClimb(db, a, n - 1); }
    else { assert Walk(db, a, 0) == Some(a); }
  }

  /** Lineages neither branch nor merge nor close into a ring, whatever
      rotations and revocations ran into each other: keys with a common ancestor
      or a common successor are on one chain, and a chain never returns. */
  lemma LineagesAreChains(now: Time, acts: seq<Action>, a: nat, b: nat, c: nat)
    ensures var db := Exec(Empty(now), acts).db;
      && (LeadsTo(db, c, a) && LeadsTo(db, c, b) ==> SameLineage(db, a, b))
      && (LeadsTo(db, a, c) && LeadsTo(db, b, c) ==> SameLineage(db, a, b))
      && (LeadsTo(db, a, b) && LeadsTo(db, b, a) ==> a == b)
  {
    var db := Exec(Empty(now), acts).db;
    ExecLinks(Empty(now), acts);
    if LeadsTo(db, c, a) && LeadsTo(db, c, b) { CommonAncestor(db, a, b, c); }
    if LeadsTo(db, a, c) && LeadsTo(db, b, c) { CommonSuccessor(db, a, b, c); }
    if LeadsTo(db, a, b) && LeadsTo(db, b, a) {
      var m: nat :| Walk(db, a, m) == Some(b);
      var n: nat :| Walk(db, b, n) == Some(a);
      if m > 0 { WalksClimb(db, a, m); }
      if n > 0 { WalksClimb(db, b, n); }
    }
  }

  lemma CommonAncestor(db: Db, a: nat, b: nat, c: nat)
    requires LeadsTo(db, c, a) && LeadsTo(db, c, b)
    ensures SameLineage(db, a, b)
  {
    var m: nat :| Walk(db, c, m) == Some(a);
    var n: nat :| Walk(db, c, n) == Some(b);
    if m <= n {
      WalksCompose(db, c, m, a, n - m);
      assert LeadsTo(db, a, b);
    } else {
      WalksCompose(db, c, n, b, m - n);
      assert LeadsTo(db, b, a);
    }
  }

  lemma CommonSuccessor(db: Db, a: nat, b: nat, c: nat)
    requires LinksOk(db) && LeadsTo(db, a, c) && LeadsTo(db, b, c)
    ensures SameLineage(db, a, b)
  {
    var m: nat :| Walk(db, a, m) == Some(c);
    var n: nat :| Walk(db, b, n) == Some(c);
    if m <= n {
      WalksMeet(db, a, m, b, n);
      assert LeadsTo(db, b, a);
    } else {
      WalksMeet(db, b, n, a, m);
      assert LeadsTo(db, a, b);
    }
  }

  // Who authenticates.

  /** Every rotation invalidates at once. */
  predicate NoGrace(acts: seq<Action>) {
    forall a :: a in acts && a.ReadForRotate? ==> a.grace <= 0
  }

  /** `now` was sampled in the past, and grace does not reach into the future. */
  ghost predicate SampledOk(s: System) {
    forall e :: e in s.pcs ==>
      (s.pcs[e].Checking? ==> s.pcs[e].grace <= 0) && (s.pcs[e].Locking? ==> s.pcs[e].now <= s.clock && s.pcs[e].grace <= 0)
  }

  ghost predicate RetiredIsDead(s: System) {
    forall k :: k in s.db.rows && s.db.rows[k].replacedBy.Some? ==>
      s.db.rows[k].expiresAt.Some? && s.db.rows[k].expiresAt.value <= s.clock
  }

  ghost predicate GraceFree(s: System) {
    LinksOk(s.db) && SampledOk(s) && RetiredIsDead(s)
  }

  lemma ApplyGraceFree(s: System, a: Action)
    requires GraceFree(s) && (a.ReadForRotate? ==> a.grace <= 0)
    ensures GraceFree(Apply(s, a))
  {
    ApplyLinks(s, a);
    hide LinksOk, LinksGrow;
    assert SampledOk(Apply(s, a)) by { hide RetiredIsDead, Insert, Revoke, Rotate; }
    RetiredStaysDead(s, a);
  }

  lemma RetiredStaysDead(s: System, a: Action)
    requires SampledOk(s) && RetiredIsDead(s)
    ensures RetiredIsDead(Apply(s, a))
  {
    if a.Commit? && PcOf(s, a.e).Locking? {
      var pc := PcOf(s, a.e);
      assert pc.now + pc.grace <= s.clock;
    }
  }

  lemma {:induction false} ExecGraceFree(s: System, acts: seq<Action>)
    requires GraceFree(s) && NoGrace(acts)
    ensures GraceFree(Exec(s, acts))
    decreases |acts|
  {
    if acts != [] {
      assert acts[0] in acts;
      assert forall a :: a in acts[1..] ==> a in acts;
      ApplyGraceFree(s, acts[0]);
      ExecGraceFree(Apply(s, acts[0]), acts[1..]);
    }
  }

  /** With no grace, at most one key of a lineage is accepted at any instant. */
  lemma AtMostOneAuthenticates(now: Time, acts: seq<Action>, a: nat, b: nat)
    requires NoGrace(acts) && a != b
    ensures var s := Exec(Empty(now), acts);
      SameLineage(s.db, a, b) ==> !(Accepts(s.db, a, s.clock) && Accepts(s.db, b, s.clock))
  {
    var s := Exec(Empty(now), acts);
    assert GraceFree(Empty(now));
    ExecGraceFree(Empty(now), acts);
    if LeadsTo(s.db, a, b) { AncestorIsDead(s, a, b); }
    if LeadsTo(s.db, b, a) { AncestorIsDead(s, b, a); }
  }

  lemma AncestorIsDead(s: System, a: nat, b: nat)
    requires GraceFree(s) && a != b && LeadsTo(s.db, a, b)
    ensures !Accepts(s.db, a, s.clock)
  {
    var n: nat :| Walk(s.db, a, n) == Some(b);
    WalksClimb(s.db, a, n);
  }

  lemma StepStaysRefused(s: System, a: Action, k: nat)
    requires GraceFree(s) && (a.ReadForRotate? ==> a.grace <= 0)
    requires k in s.db.rows && !Accepts(s.db, k, s.clock)
    ensures k in Apply(s, a).db.rows && !Accepts(Apply(s, a).db, k, Apply(s, a).clock)
  {
  }

  /** And a key once refused, as revoked or expired, is refused for good, even by
      a rotation that sampled its clock while the key was still alive. */
  lemma {:induction false} RefusedStaysRefused(s: System, acts: seq<Action>, k: nat)
    requires GraceFree(s) && NoGrace(acts) && k in s.db.rows && !Accepts(s.db, k, s.clock)
    ensures var s' := Exec(s, acts); k in s'.db.rows && !Accepts(s'.db, k, s'.clock)
    decreases |acts|
  {
    if acts != [] {
      assert acts[0] in acts;
      assert forall a :: a in acts[1..] ==> a in acts;
      StepStaysRefused(s, acts[0], k);
      ApplyGraceFree(s, acts[0]);
      RefusedStaysRefused(Apply(s, acts[0]), acts[1..], k);
    }
  }

  /** No authentication under way holds a copy of k's row it would accept. */
  ghost predicate CopiesRefused(s: System, k: nat) {
    forall e :: e in s.pcs && s.pcs[e].Deciding? && s.pcs[e].k == k ==> !Alive(s.pcs[e].row, s.clock)
  }

  lemma StepKeepsCopiesRefused(s: System, a: Action, k: nat)
    requires CopiesRefused(s, k) && k in s.db.rows && !Accepts(s.db, k, s.clock)
    ensures CopiesRefused(Apply(s, a), k)
  {
  }

  /** So every authentication that reads the row after the refusal is refused as
      well, however late it decides. */
  lemma {:induction false} LaterReadsAreRefused(s: System, acts: seq<Action>, k: nat)
    requires GraceFree(s) && NoGrace(acts) && k in s.db.rows && !Accepts(s.db, k, s.clock) && CopiesRefused(s, k)
    ensures CopiesRefused(Exec(s, acts), k)
    decreases |acts|
  {
    if acts != [] {
      assert acts[0] in acts;
      assert forall a :: a in acts[1..] ==> a in acts;
      StepStaysRefused(s, acts[0], k);
      StepKeepsCopiesRefused(s, acts[0], k);
      ApplyGraceFree(s, acts[0]);
      LaterReadsAreRefused(Apply(s, acts[0]), acts[1..], k);
    }
  }

  // How long a key is accepted.

  /** Nobody is rotating k, and nobody begins to. */
  ghost predicate LeftAlone(s: System, acts: seq<Action>, k: nat) {
    && (forall e :: e in s.pcs && (s.pcs[e].Checking? || s.pcs[e].Locking?) ==> s.pcs[e].k != k)
    && (forall a :: a in acts && a.ReadForRotate? ==> a.k != k)
  }

  /** Either k has been rotated already, or it will not be. */
  ghost predicate ExpiryIsFixed(s: System, acts: seq<Action>, k: nat) {
    k in s.db.rows && (s.db.rows[k].replacedBy.Some? || LeftAlone(s, acts, k))
  }

  lemma StaysLeftAlone(s: System, a: Action, acts: seq<Action>, k: nat)
    requires LeftAlone(s, [a] + acts, k)
    ensures LeftAlone(Apply(s, a), acts, k)
  {
    assert a in [a] + acts;
    assert forall b :: b in acts ==> b in [a] + acts;
    hide Insert, Revoke, Rotate;
  }

  lemma StepOfLife(s: System, a: Action, acts: seq<Action>, k: nat)
    requires LinksOk(s.db) && ExpiryIsFixed(s, [a] + acts, k)
    ensures var t := Apply(s, a);
      && ExpiryIsFixed(t, acts, k)
      && t.db.rows[k].expiresAt == s.db.rows[k].expiresAt
      && (t.db.rows[k].revokedAt.Some? <==> s.db.rows[k].revokedAt.Some? || a == RevokeKey(k))
  {
    assert s.db.nextId !in s.db.rows;
    if s.db.rows[k].replacedBy.None? { StaysLeftAlone(s, a, acts, k); }
    hide LinksOk;
  }

  lemma {:induction false} LifeOf(s: System, acts: seq<Action>, k: nat)
    requires LinksOk(s.db) && ExpiryIsFixed(s, acts, k)
    ensures var t := Exec(s, acts);
      && k in t.db.rows && t.db.rows[k].expiresAt == s.db.rows[k].expiresAt
      && (t.db.rows[k].revokedAt.Some? <==> s.db.rows[k].revokedAt.Some? || RevokeKey(k) in acts)
    decreases |acts|
  {
    if acts != [] {
      hide LinksOk, ExpiryIsFixed, Apply;
      assert [acts[0]] + acts[1..] == acts;
      StepOfLife(s, acts[0], acts[1..], k);
      ApplyLinks(s, acts[0]);
      LifeOf(Apply(s, acts[0]), acts[1..], k);
      assert RevokeKey(k) in acts <==> acts[0] == RevokeKey(k) || RevokeKey(k) in acts[1..];
      hide *;
    }
  }

  /** A key that nobody rotates is accepted from its creation until it is revoked
      or its own expiry has come, whatever else happens. */
  lemma AcceptedExactlyWhile(s: System, expiresAt: Option<Time>, acts: seq<Action>)
    requires LinksOk(s.db) && LeftAlone(Apply(s, Create(expiresAt)), acts, s.db.nextId)
    ensures var k := s.db.nextId;
      var t := Exec(Apply(s, Create(expiresAt)), acts);
      Accepts(t.db, k, t.clock) <==> RevokeKey(k) !in acts && (expiresAt.None? || t.clock < expiresAt.value)
  {
    var s1 := Apply(s, Create(expiresAt));
    ApplyLinks(s, Create(expiresAt));
    LifeOf(s1, acts, s.db.nextId);
  }

  /** A rotated key is accepted for the grace from the clock its rotation sampled,
      unless it is revoked; and the key that replaces it is unrevoked. */
  lemma GraceExactly(s: System, e: nat, acts: seq<Action>)
    requires LinksOk(s.db) && PcOf(s, e).Locking?
    requires var pc := PcOf(s, e);
      && pc.k in s.db.rows && s.db.rows[pc.k].replacedBy.None? && s.db.rows[pc.k].revokedAt.None?
      && (s.db.rows[pc.k].expiresAt.None? || pc.now < s.db.rows[pc.k].expiresAt.value)
    ensures var pc, s1 := PcOf(s, e), Apply(s, Commit(e));
      var t := Exec(s1, acts);
      && (Accepts(t.db, pc.k, t.clock) <==> RevokeKey(pc.k) !in acts && t.clock < pc.now + pc.grace)
      && s1.db.rows[pc.k].replacedBy == Some(s.db.nextId) && s1.db.rows[s.db.nextId] == Row(pc.newExpiresAt, None, None)
  {
    ApplyLinks(s, Commit(e));
    assert s.db.nextId !in s.db.rows;
    LifeOf(Apply(s, Commit(e)), acts, PcOf(s, e).k);
  }

  /** The lock refuses everything else, and then changes nothing. */
  lemma RefusedRotation(s: System, e: nat)
    requires PcOf(s, e).Locking?
    ensures var pc := PcOf(s, e);
      Apply(s, Commit(e)).db != s.db ==>
        && pc.k in s.db.rows && s.db.rows[pc.k].replacedBy.None? && s.db.rows[pc.k].revokedAt.None?
        && (s.db.rows[pc.k].expiresAt.None? || pc.now < s.db.rows[pc.k].expiresAt.value)
  {
  }

  /** Every copy of k's row without a revocation was read before `since`. */
  ghost predicate OldCopies(s: System, since: map<nat, Pc>, k: nat) {
    && k in s.db.rows && s.db.rows[k].revokedAt.Some?
    && forall e :: e in s.pcs && s.pcs[e].Deciding? && s.pcs[e].k == k && s.pcs[e].row.revokedAt.None? ==>
         e in since && since[e] == s.pcs[e]
  }

  lemma StepCopiesOld(s: System, since: map<nat, Pc>, a: Action, k: nat)
    requires OldCopies(s, since, k) && LinksGrow(s.db, Apply(s, a).db)
    ensures OldCopies(Apply(s, a), since, k)
  {
    var t := Apply(s, a);
    OneMoves(s, a);
    hide Apply;
  }

  /** An action moves one actor at most, and only a read makes it decide. */
  lemma OneMoves(s: System, a: Action)
    ensures forall e :: e in Apply(s, a).pcs && Apply(s, a).pcs[e].Deciding? ==>
      (e in s.pcs && s.pcs[e] == Apply(s, a).pcs[e])
      || (a.ReadForAuth? && a.e == e && PcOf(s, e) == Idle && a.k in s.db.rows && Apply(s, a).pcs[e] == Deciding(a.k, s.db.rows[a.k]))
  {
    hide Insert, Revoke, AfterCommit;
  }

  lemma {:induction false} CopiesStayOld(s: System, since: map<nat, Pc>, acts: seq<Action>, k: nat)
    requires LinksOk(s.db) && OldCopies(s, since, k)
    ensures OldCopies(Exec(s, acts), since, k)
    decreases |acts|
  {
    if acts != [] {
      hide LinksOk, OldCopies, Apply, LinksGrow;
      ApplyLinks(s, acts[0]);
      StepCopiesOld(s, since, acts[0], k);
      CopiesStayOld(Apply(s, acts[0]), since, acts[1..], k);
    }
  }

  /** After a revocation, with or without grace and whatever rotations are under
      way: the key is refused at every instant, and every authentication that
      reads its row from then on reads the revocation. */
  lemma RevokedIsRefused(s: System, k: nat, acts: seq<Action>, now: Time)
    requires LinksOk(s.db) && k in s.db.rows
    ensures var s1 := Apply(s, RevokeKey(k));
      var t := Exec(s1, acts);
      && k in t.db.rows && t.db.rows[k].revokedAt.Some? && !Accepts(t.db, k, now)
      && forall e :: e in t.pcs && t.pcs[e].Deciding? && t.pcs[e].k == k ==>
           t.pcs[e].row.revokedAt.Some? || (e in s1.pcs && s1.pcs[e] == t.pcs[e])
  {
    var s1 := Apply(s, RevokeKey(k));
    ApplyLinks(s, RevokeKey(k));
    CopiesStayOld(s1, s1.pcs, acts, k);
    hide LinksOk, Exec, Apply;
  }

  // With grace.

  /** A committing rotation revives a key that is already refused if and only if
      the key expired after the clock was sampled and the grace still runs. */
  lemma RevivedExactlyWhen(s: System, e: nat)
    requires PcOf(s, e).Locking? && LinksOk(s.db)
    requires var k := PcOf(s, e).k; k in s.db.rows && !Accepts(s.db, k, s.clock)
    ensures var pc, s' := PcOf(s, e), Apply(s, Commit(e));
      var row := s.db.rows[pc.k];
      Accepts(s'.db, pc.k, s'.clock) <==>
        && row.revokedAt.None? && row.replacedBy.None? && row.expiresAt.Some?
        && pc.now < row.expiresAt.value <= s.clock < pc.now + pc.grace
  {
  }

  /** Rotation does not lengthen a credential's life: the new key expires when
      the old one would have, unless the old one was changed under it. */
  ghost predicate CopiedOk(s: System) {
    forall e :: e in s.pcs ==>
      (s.pcs[e].Checking? ==> CopyOk(s.db, s.pcs[e].k, s.pcs[e].row.expiresAt))
      && (s.pcs[e].Locking? ==> CopyOk(s.db, s.pcs[e].k, s.pcs[e].newExpiresAt))
  }

  ghost predicate CopyOk(db: Db, k: nat, expiresAt: Option<Time>) {
    k in db.rows && (db.rows[k].replacedBy.None? ==> db.rows[k].expiresAt == expiresAt)
  }

  lemma ApplyCopies(s: System, a: Action)
    requires CopiedOk(s) && LinksOk(s.db)
    ensures CopiedOk(Apply(s, a))
  {
    ExpiryFrozen(s, a);
    hide LinksOk, Insert, Revoke, Rotate;
  }

  /** No key is lost, and until it is replaced a key keeps its expiry. */
  ghost predicate Frozen(a: Db, b: Db) {
    forall k :: k in a.rows ==>
      && k in b.rows
      && (b.rows[k].replacedBy.None? ==> a.rows[k].replacedBy.None? && b.rows[k].expiresAt == a.rows[k].expiresAt)
  }

  lemma WritesFreeze(db: Db, expiresAt: Option<Time>, k: nat, now: Time)
    requires db.nextId !in db.rows
    ensures Frozen(db, db) && Frozen(db, Insert(db, expiresAt)) && Frozen(db, Revoke(db, k, now))
  {
  }

  lemma CommitFreezes(db: Db, pc: Pc)
    requires pc.Locking? && db.nextId !in db.rows
    ensures Frozen(db, AfterCommit(db, pc))
  {
  }

  lemma ExpiryFrozen(s: System, a: Action)
    requires LinksOk(s.db)
    ensures Frozen(s.db, Apply(s, a).db)
  {
    assert s.db.nextId !in s.db.rows;
    hide LinksOk, Frozen, Insert, Revoke, AfterCommit;
    WritesFreeze(s.db, None, 0, 0);
    match a
    case Create(expiresAt) => WritesFreeze(s.db, expiresAt, 0, 0);
    case RevokeKey(k) => WritesFreeze(s.db, None, k, s.clock);
    case Commit(e) => if PcOf(s, e).Locking? { CommitFreezes(s.db, PcOf(s, e)); }
    case _ =>
  }

  lemma {:induction false} ExecCopies(s: System, acts: seq<Action>)
    requires CopiedOk(s) && LinksOk(s.db)
    ensures CopiedOk(Exec(s, acts))
    decreases |acts|
  {
    if acts != [] {
      ApplyCopies(s, acts[0]);
      ApplyLinks(s, acts[0]);
      ExecCopies(Apply(s, acts[0]), acts[1..]);
    }
  }

  lemma RotationInheritsExpiry(now: Time, acts: seq<Action>, e: nat)
    requires PcOf(Exec(Empty(now), acts), e).Locking?
    requires var s := Exec(Empty(now), acts); RotateReplyOf(s.db, PcOf(s, e).k, PcOf(s, e).now).Rotated?
    ensures var s := Exec(Empty(now), acts);
      var s' := Apply(s, Commit(e));
      var k := PcOf(s, e).k;
      && k in s.db.rows && k in s'.db.rows && s.db.nextId in s'.db.rows && s.db.nextId !in s.db.rows
      && s'.db.rows[s.db.nextId].expiresAt == s.db.rows[k].expiresAt
      && s'.db.rows[k].replacedBy == Some(s.db.nextId)
  {
    ExecCopies(Empty(now), acts);
    ExecLinks(Empty(now), acts);
  }

  const REVIVING := [Create(Some(5)), Tick(4), ReadForRotate(1, 0, 10), Check(1), Tick(2)]

  /** Created to expire at 5, read and checked at 4, refused at 6. */
  function Refused(): System {
    System(Db(map[0 := Row(Some(5), None, None)], 1), 6, map[1 := Locking(0, Some(5), 4, 10)])
  }

  lemma RevivingRun()
    ensures Exec(Empty(0), REVIVING) == Refused()
  {
  }

  /** With ten seconds of grace it is accepted again once the rotation commits. */
  lemma GraceMayRevive()
    ensures exists acts, s, s' ::
      && s == Exec(Empty(0), acts) && s' == Exec(Empty(0), acts + [Commit(1)])
      && 0 in s.db.rows && !Accepts(s.db, 0, s.clock) && Accepts(s'.db, 0, s'.clock)
  {
    RevivingRun();
    RevivedExactlyWhen(Refused(), 1);
    assert 0 in Refused().db.rows && !Accepts(Refused().db, 0, Refused().clock);
    hide Apply, Refused, Accepts, Exec, Empty;
    ExecSnoc(Empty(0), REVIVING, Commit(1));
  }

  lemma {:induction false} ExecSnoc(s: System, acts: seq<Action>, a: Action)
    ensures Exec(s, acts + [a]) == Apply(Exec(s, acts), a)
    decreases |acts|
  {
    if acts == [] {
      assert acts + [a] == [a] && [a][1..] == [];
    } else {
      assert (acts + [a])[0] == acts[0] && (acts + [a])[1..] == acts[1..] + [a];
      ExecSnoc(Apply(s, acts[0]), acts[1..], a);
    }
  }

  ghost predicate Reaches(s: System, t: System) {
    exists acts :: Exec(s, acts) == t
  }

  lemma ReachesItself(s: System)
    ensures Reaches(s, s)
  {
    assert Exec(s, []) == s;
  }

  lemma ReachesNext(s: System, t: System, a: Action)
    requires Reaches(s, t)
    ensures Reaches(s, Apply(t, a))
  {
    hide Apply;
    var acts :| Exec(s, acts) == t;
    ExecSnoc(s, acts, a);
  }

  lemma {:induction false} ClockAdvances(s: System, acts: seq<Action>)
    ensures s.clock <= Exec(s, acts).clock
    decreases |acts|
  {
    if acts != [] { ClockAdvances(Apply(s, acts[0]), acts[1..]); }
  }
}
