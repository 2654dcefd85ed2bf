/** Which claim a refused request releases. The release is guarded by the claim's
    created_at, which tells claims apart unless two are made at one instant of the
    database clock. */
module IdempotencyReleases {
  import opened Options
  import opened IdempotencyRows
  import opened IdempotencyProtocol

  predicate Holding(pc: Pc) {
    pc.Admitting? || pc.Releasing? || pc.Saving? || pc.Committing?
  }

  /** A claim held is the latest of its key, or strictly older than it. */
  ghost predicate HolderOk(s: System, e: nat) {
    e in s.pcs && Holding(s.pcs[e]) ==>
      var pc := s.pcs[e];
      && pc.rq.key in s.db.latest
      && var latest := s.db.latest[pc.rq.key];
         if pc.claim == latest.number then pc.at == latest.at else pc.at < latest.at
  }

  ghost predicate HeldBy(s: System, k: Key, claim: nat) {
    exists e :: e in s.pcs && Holding(s.pcs[e]) && s.pcs[e].rq.key == k && s.pcs[e].claim == claim
  }

  ghost predicate LatestOk(s: System, k: Key) {
    && (k in s.db.records ==>
          && k in s.db.latest
          && s.db.records[k].claim == s.db.latest[k].number && s.db.records[k].createdAt == s.db.latest[k].at)
    && (k in s.db.latest ==> s.db.latest[k].at <= s.db.clock && s.db.latest[k].number < s.db.nextClaim)
    && (k in s.db.latest && k !in s.db.records ==>
          s.db.latest[k].at < s.db.clock || !HeldBy(s, k, s.db.latest[k].number))
  }

  ghost predicate ClaimsOk(s: System) {
    && (forall k: Key :: LatestOk(s, k))
    && (forall e :: HolderOk(s, e))
    && (forall e :: e in s.pcs && Holding(s.pcs[e]) ==> s.pcs[e].claim < s.db.nextClaim)
    && (forall e, f :: (e in s.pcs && f in s.pcs && Holding(s.pcs[e]) && Holding(s.pcs[f]) && s.pcs[e].claim == s.pcs[f].claim) ==> e == f)
  }

  /** The release at this step deletes a row that some other request claimed. */
  ghost predicate TakesAnothers(s: System, a: Action) {
    && a.Step? && a.request in s.pcs && s.pcs[a.request].Releasing? && !a.chance.outcome.Failed?
    && var pc := s.pcs[a.request];
       Releasable(s.db, pc.rq.key, pc.rq.fingerprint, pc.at) && s.db.records[pc.rq.key].claim != pc.claim
  }

  lemma ReleaseIsOwn(s: System, a: Action)
    requires ClaimsOk(s)
    ensures !TakesAnothers(s, a)
  {
    if a.Step? && a.request in s.pcs && s.pcs[a.request].Releasing? {
      assert HolderOk(s, a.request) && LatestOk(s, s.pcs[a.request].rq.key);
    }
  }

  /** A new claim of k by request e: younger than all others. */
  lemma NewClaimOk(s: System, e: nat, rq: Request, s': System, pc': Pc)
    requires ClaimsOk(s) && e in s.pcs && !Holding(s.pcs[e])
    requires rq.key in s.db.latest ==>
      s.db.latest[rq.key].at < s.db.clock || !HeldBy(s, rq.key, s.db.latest[rq.key].number)
    requires s' == System(NewClaim(s.db, rq.key, rq.fingerprint, rq.now + RETENTION), s.pcs[e := pc'])
    requires Holding(pc') ==> pc'.rq == rq && pc'.claim == s.db.nextClaim && pc'.at == s.db.clock
    ensures ClaimsOk(s')
  {
    var k := rq.key;
    forall f ensures HolderOk(s', f) {
      assert HolderOk(s, f);
      if f != e && f in s.pcs && Holding(s.pcs[f]) && s.pcs[f].rq.key == k {
        assert LatestOk(s, k);
        assert s.pcs[f].claim == s.db.latest[k].number ==> HeldBy(s, k, s.db.latest[k].number);
      }
    }
    forall j: Key ensures LatestOk(s', j) {
      assert LatestOk(s, j);
      if j != k { HoldersShrink(s, s', e, j); }
    }
  }

  lemma HoldersShrink(s: System, s': System, e: nat, k: Key)
    requires forall f :: f != e && f in s'.pcs ==> f in s.pcs && s'.pcs[f] == s.pcs[f]
    requires e in s'.pcs && Holding(s'.pcs[e]) && s'.pcs[e].rq.key == k ==>
      e in s.pcs && Holding(s.pcs[e]) && s.pcs[e].rq.key == k && s.pcs[e].claim == s'.pcs[e].claim
    ensures forall claim :: HeldBy(s', k, claim) ==> HeldBy(s, k, claim)
  {
  }

  /** A request moves on with its claim, or gives it up; the rows of other keys
      stay. `gone` is the key whose row the step may remove. */
  lemma MovedOn(s: System, e: nat, s': System, gone: Key)
    requires ClaimsOk(s) && e in s.pcs && s'.pcs.Keys == s.pcs.Keys
    requires forall f :: f in s.pcs && f != e ==> s'.pcs[f] == s.pcs[f]
    requires Holding(s'.pcs[e]) ==>
      Holding(s.pcs[e]) && s'.pcs[e].rq == s.pcs[e].rq && s'.pcs[e].claim == s.pcs[e].claim && s'.pcs[e].at == s.pcs[e].at
    requires s'.db.latest == s.db.latest && s'.db.nextClaim == s.db.nextClaim && s'.db.clock == s.db.clock
    requires forall k :: k in s'.db.records ==>
      && k in s.db.records
      && s'.db.records[k].claim == s.db.records[k].claim && s'.db.records[k].createdAt == s.db.records[k].createdAt
    requires forall k :: k in s.db.records && k !in s'.db.records ==>
      k == gone && Holding(s.pcs[e]) && s.pcs[e].claim == s.db.records[k].claim && !Holding(s'.pcs[e])
    ensures ClaimsOk(s')
  {
    forall f ensures HolderOk(s', f) { assert HolderOk(s, f); }
    forall k: Key ensures LatestOk(s', k) {
      assert LatestOk(s, k);
      HoldersShrink(s, s', e, k);
    }
  }

  /** The step records a new claim of k: by INSERT or by reclaiming. */
  predicate Claims(s: System, a: Action, k: Key) {
    && a.Step? && a.request in s.pcs && !a.chance.outcome.Failed?
    && var pc := s.pcs[a.request];
       || (pc.Claiming? && pc.rq.key == k && k !in s.db.records)
       || (pc.Reclaiming? && pc.rq.key == k && Stale(s.db, k, pc.rq.now - STALE_AFTER))
  }

  predicate Purges(s: System, a: Action, k: Key) {
    a.PurgeKey? && a.key == k && Expired(s.db, k, a.now)
  }

  /** The step replaces or purges a claim that was made at this very instant and
      is still held. */
  ghost predicate Clash(s: System, a: Action, k: Key) {
    && (Claims(s, a, k) || Purges(s, a, k))
    && k in s.db.latest && s.db.latest[k].at == s.db.clock && HeldBy(s, k, s.db.latest[k].number)
  }

  ghost predicate Clashes(s: System, a: Action) {
    exists k :: Clash(s, a, k)
  }

  lemma NotAClash(s: System, a: Action, k: Key)
    requires ClaimsOk(s) && !Clashes(s, a) && (Claims(s, a, k) || Purges(s, a, k))
    ensures k in s.db.latest ==> s.db.latest[k].at < s.db.clock || !HeldBy(s, k, s.db.latest[k].number)
  {
    assert !Clash(s, a, k);
    assert LatestOk(s, k);
  }

  lemma StepKeepsClaims(s: System, e: nat, c: Chance)
    requires ClaimsOk(s) && e in s.pcs && !Clashes(s, Step(e, c))
    ensures ClaimsOk(Apply(s, Step(e, c)))
  {
    var pc := s.pcs[e];
    var s' := Apply(s, Step(e, c));
    if s'.db.nextClaim != s.db.nextClaim {
      assert pc.Claiming? || pc.Reclaiming?;
      assert Claims(s, Step(e, c), pc.rq.key);
      NotAClash(s, Step(e, c), pc.rq.key);
      NewClaimOk(s, e, pc.rq, s', s'.pcs[e]);
    } else if pc.Answered? {
      assert s' == s by { assert s.pcs[e := pc] == s.pcs; }
    } else {
      ReleaseIsOwn(s, Step(e, c));
      assert s'.pcs.Keys == s.pcs.Keys;
      MovedOn(s, e, s', pc.rq.key);
    }
  }

  lemma OthersKeepClaims(s: System, s': System, e: nat)
    requires ClaimsOk(s)
    requires forall f :: f in s'.pcs && Holding(s'.pcs[f]) ==> f in s.pcs && s'.pcs[f] == s.pcs[f]
    requires s'.db.latest == s.db.latest && s'.db.nextClaim == s.db.nextClaim && s.db.clock <= s'.db.clock
    requires forall k :: k in s'.db.records ==> k in s.db.records && s'.db.records[k] == s.db.records[k]
    requires forall k :: k in s.db.records && k !in s'.db.records ==>
      k in s.db.latest && (s.db.latest[k].at < s.db.clock || !HeldBy(s, k, s.db.latest[k].number))
    ensures ClaimsOk(s')
  {
    forall f ensures HolderOk(s', f) { assert HolderOk(s, f); }
    forall k: Key ensures LatestOk(s', k) {
      assert LatestOk(s, k);
      assert forall claim :: HeldBy(s', k, claim) ==> HeldBy(s, k, claim);
    }
  }

  lemma QuietStepKeepsClaims(s: System, a: Action)
    requires ClaimsOk(s) && !Clashes(s, a)
    ensures ClaimsOk(Apply(s, a))
  {
    var s' := Apply(s, a);
    match a
    case Step(e, c) => if e in s.pcs { StepKeepsClaims(s, e, c); }
    case Arrive(e, _, _, _) => OthersKeepClaims(s, s', e);
    case Crash(e) => OthersKeepClaims(s, s', e);
    case PurgeKey(k, _) =>
      if Purges(s, a, k) {
        assert LatestOk(s, k);
        NotAClash(s, a, k);
      }
      OthersKeepClaims(s, s', 0);
    case Tick(_) => OthersKeepClaims(s, s', 0);
  }

  /** After a clash the older holder cannot be told from the younger one, or its
      key is free while it holds it. */
  lemma ClashBreaksClaims(s: System, a: Action, k: Key)
    requires ClaimsOk(s) && Clash(s, a, k)
    ensures !ClaimsOk(Apply(s, a))
  {
    var s' := Apply(s, a);
    var f :| f in s.pcs && Holding(s.pcs[f]) && s.pcs[f].rq.key == k && s.pcs[f].claim == s.db.latest[k].number;
    assert HolderOk(s, f) && LatestOk(s, k);
    assert f in s'.pcs && s'.pcs[f] == s.pcs[f];
    if a.PurgeKey? {
      assert HeldBy(s', k, s.db.latest[k].number);
      assert !LatestOk(s', k);
    } else {
      assert !HolderOk(s', f);
    }
  }

  /** Exactly when claims stop being told apart by their instants: a claim made
      at this very instant and still held is replaced or purged. */
  lemma ClaimsStayOkWhen(s: System, a: Action)
    requires ClaimsOk(s)
    ensures ClaimsOk(Apply(s, a)) <==> !Clashes(s, a)
  {
    hide ClaimsOk, Clash, Apply;
    if Clashes(s, a) {
      var k :| Clash(s, a, k);
      ClashBreaksClaims(s, a, k);
    } else {
      QuietStepKeepsClaims(s, a);
    }
  }

  ghost predicate NoClash(s: System, acts: seq<Action>)
    decreases |acts|
  {
    acts != [] ==> !Clashes(s, acts[0]) && NoClash(Apply(s, acts[0]), acts[1..])
  }

  lemma {:induction false} ExecKeepsClaims(s: System, acts: seq<Action>)
    requires ClaimsOk(s) && NoClash(s, acts)
    ensures ClaimsOk(Exec(s, acts))
    decreases |acts|
  {
    if acts != [] {
      ClaimsStayOkWhen(s, acts[0]);
      ExecKeepsClaims(Apply(s, acts[0]), acts[1..]);
    }
  }

  /** What the code leaves to its clocks: an application clock is at most the
      staleness window ahead of the database's, and no key is purged at the
      very instant it was claimed. */
  ghost predicate Punctual(s: System, a: Action) {
    && (a.Step? && a.request in s.pcs && s.pcs[a.request].Reclaiming? ==> s.pcs[a.request].rq.now - STALE_AFTER <= s.db.clock)
    && (a.PurgeKey? && a.key in s.db.records ==> s.db.records[a.key].createdAt < s.db.clock)
  }

  ghost predicate PunctualRun(s: System, acts: seq<Action>)
    decreases |acts|
  {
    acts != [] ==> Punctual(s, acts[0]) && PunctualRun(Apply(s, acts[0]), acts[1..])
  }

  lemma {:induction false} PunctualRunsDoNotClash(s: System, acts: seq<Action>)
    requires ClaimsOk(s) && PunctualRun(s, acts)
    ensures NoClash(s, acts)
    decreases |acts|
  {
    if acts != [] {
      forall k ensures !Clash(s, acts[0], k) { assert LatestOk(s, k); }
      ClaimsStayOkWhen(s, acts[0]);
      PunctualRunsDoNotClash(Apply(s, acts[0]), acts[1..]);
    }
  }

  /** While the clocks behave, a refused request only ever releases the claim it
      won itself, even if the same payload was reclaimed meanwhile. */
  lemma ReleasesOnlyItsOwn(now: Time, acts: seq<Action>, a: Action)
    requires PunctualRun(System(Empty(now), map[]), acts)
    ensures !TakesAnothers(Exec(System(Empty(now), map[]), acts), a)
  {
    var s := System(Empty(now), map[]);
    assert ClaimsOk(s);
    PunctualRunsDoNotClash(s, acts);
    ExecKeepsClaims(s, acts);
    ReleaseIsOwn(Exec(s, acts), a);
  }

  // The exact condition for the release itself.

  predicate MayRelease(pc: Pc) {
    pc.Admitting? || pc.Releasing?
  }

  /** A refusal of e would delete a row that some other request claimed. */
  ghost predicate PoisedAt(s: System, e: nat) {
    && e in s.pcs && MayRelease(s.pcs[e])
    && var pc := s.pcs[e];
       Releasable(s.db, pc.rq.key, pc.rq.fingerprint, pc.at) && s.db.records[pc.rq.key].claim != pc.claim
  }

  ghost predicate Poised(s: System) {
    exists e :: PoisedAt(s, e)
  }

  const REFUSED := Chance(Outcome.Done, false, false)

  /** Being poised is being at most one refusal away from taking another's claim. */
  lemma PoisedTakesAnothers(s: System, e: nat)
    ensures var refuse := Step(e, REFUSED);
      PoisedAt(s, e) <==> TakesAnothers(s, refuse) || TakesAnothers(Apply(s, refuse), refuse)
  {
  }

  /** The step wins a claim for the key and payload of a request that won its own
      at this very instant and may still be refused. */
  ghost predicate SameInstantClaim(s: System, a: Action) {
    exists f :: f in s.pcs && Rivals(s, a, f)
  }

  ghost predicate Rivals(s: System, a: Action, f: nat)
    requires f in s.pcs
  {
    && MayRelease(s.pcs[f]) && s.pcs[f].at == s.db.clock
    && Claims(s, a, s.pcs[f].rq.key) && s.pcs[a.request].rq.fingerprint == s.pcs[f].rq.fingerprint
  }

  ghost predicate ClaimsNumbered(s: System) {
    forall e :: e in s.pcs && Holding(s.pcs[e]) ==> s.pcs[e].claim < s.db.nextClaim
  }

  lemma NumbersGrow(s: System, a: Action)
    requires ClaimsNumbered(s)
    ensures ClaimsNumbered(Apply(s, a))
  {
  }

  /** Only a new claim puts a record in the place a release looks for. */
  lemma PoisonIsAClaim(s: System, a: Action, f: nat)
    requires ClaimsNumbered(s) && PoisedAt(Apply(s, a), f) && !PoisedAt(s, f)
    ensures f in s.pcs && Rivals(s, a, f)
  {
  }

  lemma RivalIsPoised(s: System, a: Action, f: nat)
    requires ClaimsNumbered(s) && f in s.pcs && Rivals(s, a, f)
    ensures PoisedAt(Apply(s, a), f)
  {
    assert f != a.request;
  }

  /** Exactly when a refusal comes to threaten another request's claim. */
  lemma PoisedWhen(s: System, a: Action)
    requires ClaimsNumbered(s) && !Poised(s)
    ensures Poised(Apply(s, a)) <==> SameInstantClaim(s, a)
  {
    hide ClaimsNumbered, PoisedAt, Rivals, Apply;
    if SameInstantClaim(s, a) {
      var f :| f in s.pcs && Rivals(s, a, f);
      RivalIsPoised(s, a, f);
    }
    if Poised(Apply(s, a)) {
      var f :| PoisedAt(Apply(s, a), f);
      PoisonIsAClaim(s, a, f);
    }
  }

  /** Nowhere along the run is a refusal about to release another's claim. */
  ghost predicate NeverPoised(s: System, acts: seq<Action>)
    decreases |acts|
  {
    !Poised(s) && (acts != [] ==> NeverPoised(Apply(s, acts[0]), acts[1..]))
  }

  ghost predicate NoSameInstantClaims(s: System, acts: seq<Action>)
    decreases |acts|
  {
    acts != [] ==> !SameInstantClaim(s, acts[0]) && NoSameInstantClaims(Apply(s, acts[0]), acts[1..])
  }

  lemma {:induction false} NeverPoisedWhen(s: System, acts: seq<Action>)
    requires ClaimsNumbered(s) && !Poised(s)
    ensures NeverPoised(s, acts) <==> NoSameInstantClaims(s, acts)
    decreases |acts|
  {
    if acts != [] {
      hide ClaimsNumbered, Poised, SameInstantClaim, Apply;
      PoisedWhen(s, acts[0]);
      NumbersGrow(s, acts[0]);
      if !Poised(Apply(s, acts[0])) { NeverPoisedWhen(Apply(s, acts[0]), acts[1..]); }
    }
  }

  /** Over whole runs: refusals release only their own claims if and only if no
      two requests with one key and one payload win a claim at the same instant
      of the database clock while the first may still be refused. */
  lemma ReleasesAreOwnWhen(now: Time, acts: seq<Action>)
    ensures NeverPoised(System(Empty(now), map[]), acts) <==> NoSameInstantClaims(System(Empty(now), map[]), acts)
  {
    NeverPoisedWhen(System(Empty(now), map[]), acts);
  }

  /** And a refused request does not use up its key: the next one inserts. */
  lemma RefusalFreesTheKey(s: System, e: nat, c: Chance)
    requires ClaimsOk(s) && e in s.pcs && s.pcs[e].Releasing? && c.outcome == Done
    requires var rq := s.pcs[e].rq;
      rq.key in s.db.records && s.db.records[rq.key].claim == s.pcs[e].claim
      && s.db.records[rq.key].status == InProgress && s.db.records[rq.key].fingerprint == rq.fingerprint
    ensures var rq := s.pcs[e].rq;
      var db' := Apply(s, Step(e, c)).db;
      rq.key !in db'.records && forall k :: k != rq.key ==> Find(db', k) == Find(s.db, k)
  {
    assert HolderOk(s, e) && LatestOk(s, s.pcs[e].rq.key);
  }
}
