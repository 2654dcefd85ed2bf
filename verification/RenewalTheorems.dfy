/** Renewal charging over whole runs: no period is charged twice, and every
    charge extends the plan exactly once, wherever it is applied from. */
module RenewalTheorems {
  import opened Options
  import opened Paystack
  import opened RenewalRows
  import opened RenewalProtocol

  function Empty(now: Time): System {
    System(Db(now, map[], map[], map[], []), Gateway({}, map[]), map[])
  }

  // Attempts only accumulate, and a settled one is never rewritten.

  ghost predicate AttemptsGrow(a: Db, b: Db) {
    forall ref :: FindAttempt(a, ref).Some? ==>
      && FindAttempt(b, ref).Some?
      && (FindAttempt(a, ref).value.status != AttemptPending ==>
            FindAttempt(b, ref).value.status == FindAttempt(a, ref).value.status)
  }

  lemma ClaimGrows(db: Db, tenant: nat, now: Time)
    ensures AttemptsGrow(db, ClaimAttempt(db, tenant, now))
    ensures Claimable(db, tenant, now) ==>
      var c := ClaimOf(db, tenant, now);
      var db' := ClaimAttempt(db, tenant, now);
      && c.ref.Renewal? && FindAttempt(db, c.ref).None?
      && FindAttempt(db', c.ref).Some? && FindAttempt(db', c.ref).value.status == AttemptPending
      && (forall ref :: ref != c.ref ==> FindAttempt(db', ref) == FindAttempt(db, ref))
  {
  }

  lemma FinishGrows(db: Db, ref: Ref, succeeded: bool)
    ensures var db' := FinishAttempt(db, ref, succeeded);
      && AttemptsGrow(db, db')
      && (forall r :: FindAttempt(db', r).Some? <==> FindAttempt(db, r).Some?)
      && (forall r :: r != ref || !IsPending(db, ref) ==> FindAttempt(db', r) == FindAttempt(db, r))
      && (IsPending(db, ref) ==> FindAttempt(db', ref).value.status == if succeeded then AttemptSucceeded else AttemptFailed)
  {
  }

  // Who refers to what.

  predicate KnownRef(db: Db, ref: Ref) {
    ref.Renewal? ==> FindAttempt(db, ref).Some?
  }

  predicate KnownClaim(db: Db, c: Claim) {
    c.ref.Renewal? && FindAttempt(db, c.ref).Some?
  }

  /** The claim an actor is working on. */
  function Current(pc: Pc): Option<Claim> {
    match pc
    case Idle => None
    case Charging(c) => Some(c)
    case Awaiting(c) => Some(c)
    case Verifying(rest) => if rest == [] then None else Some(rest[0])
    case Settling(c, _, _) => Some(c)
    case Applying(c, _) => Some(c)
    case Finishing(c, _, _) => Some(c)
  }

  function Listing(pc: Pc): seq<Claim> {
    match pc
    case Verifying(rest) => rest
    case Settling(_, _, rest) => rest
    case Applying(_, rest) => rest
    case Finishing(_, _, rest) => rest
    case _ => []
  }

  ghost predicate PcKnown(db: Db, pc: Pc) {
    && (Current(pc).Some? ==> KnownClaim(db, Current(pc).value))
    && (forall c :: c in Listing(pc) ==> KnownClaim(db, c))
  }

  ghost predicate KnownOk(s: System) {
    && (forall ref :: ref in s.gateway.txs ==> KnownRef(s.db, ref))
    && (forall ref :: ref in s.gateway.inflight ==> KnownRef(s.db, ref))
    && (forall e :: e in s.pcs ==> PcKnown(s.db, s.pcs[e]))
  }

  /** A step writes the rows, the gateway and one actor's place. */
  lemma KnownStays(s: System, s': System, e: nat)
    requires KnownOk(s) && AttemptsGrow(s.db, s'.db)
    requires forall ref :: ref in s'.gateway.txs ==> ref in s.gateway.txs || KnownRef(s'.db, ref)
    requires forall ref :: ref in s'.gateway.inflight ==> ref in s.gateway.inflight || KnownRef(s'.db, ref)
    requires forall f :: f in s'.pcs && f != e ==> f in s.pcs && s'.pcs[f] == s.pcs[f]
    requires e in s'.pcs ==> PcKnown(s'.db, s'.pcs[e]) || (e in s.pcs && s'.pcs[e] == s.pcs[e])
    ensures KnownOk(s')
  {
  }

  lemma ClaimKnown(s: System, a: Action)
    requires KnownOk(s) && a.ClaimNext?
    ensures KnownOk(Apply(s, a)) && AttemptsGrow(s.db, Apply(s, a).db)
  {
    ClaimGrows(s.db, a.tenant, a.now);
    KnownStays(s, Apply(s, a), a.e);
  }

  lemma TailKnown(db: Db, rest: seq<Claim>)
    requires forall c :: c in rest ==> KnownClaim(db, c)
    ensures PcKnown(db, Onward(rest))
    ensures rest != [] ==> KnownClaim(db, rest[0]) && forall c :: c in rest[1..] ==> KnownClaim(db, c)
  {
  }

  predicate MidSettle(pc: Pc) {
    pc.Settling? || pc.Applying? || pc.Finishing?
  }

  /** settle only moves on with the claim it has, or to the next one listed. */
  predicate SettleFollows(pc: Pc, pc': Pc)
    requires MidSettle(pc)
  {
    pc' == Onward(pc.rest) || (MidSettle(pc') && pc'.c == pc.c && pc'.rest == pc.rest)
  }

  lemma SettleShape(s: System, e: nat, how: Statement)
    ensures var s' := SettleStep(s, e, how);
      && s'.gateway == s.gateway && AttemptsGrow(s.db, s'.db)
      && (if MidSettle(PcOf(s, e)) then s'.pcs == s.pcs[e := PcOf(s', e)] && SettleFollows(PcOf(s, e), PcOf(s', e)) else s' == s)
  {
    var pc := PcOf(s, e);
    if pc.Finishing? { FinishGrows(s.db, pc.c.ref, pc.succeeded); }
    if pc.Applying? { PaymentKeepsAttempts(s.db, pc.c.ref, PaymentFor(pc.c)); }
    hide ApplyPayment, FinishAttempt, FindAttempt;
    assert AttemptsGrow(s.db, s.db);
  }

  lemma FollowsKnown(db: Db, pc: Pc, pc': Pc)
    requires MidSettle(pc) && PcKnown(db, pc) && SettleFollows(pc, pc')
    ensures PcKnown(db, pc')
  {
  }

  lemma SettleKnown(s: System, e: nat, how: Statement)
    requires KnownOk(s)
    ensures KnownOk(SettleStep(s, e, how)) && AttemptsGrow(s.db, SettleStep(s, e, how).db)
  {
    var pc := PcOf(s, e);
    var s' := SettleStep(s, e, how);
    SettleShape(s, e, how);
    assert PcKnown(s.db, pc);
    PcKnownStays(s.db, s'.db, pc);
    if MidSettle(pc) { FollowsKnown(s'.db, pc, PcOf(s', e)); }
    hide SettleStep, AttemptsGrow, PcKnown, SettleFollows;
    KnownStays(s, s', e);
  }

  lemma PcKnownStays(a: Db, b: Db, pc: Pc)
    requires AttemptsGrow(a, b) && PcKnown(a, pc)
    ensures PcKnown(b, pc)
  {
  }

  lemma MoveKnown(s: System, a: Action)
    requires KnownOk(s) && (a.SendCharge? || a.ChargeReply? || a.VerifyReply? || a.ListPending?)
    ensures KnownOk(Apply(s, a)) && Apply(s, a).db == s.db
  {
    var pc := PcOf(s, a.e);
    assert PcKnown(s.db, pc);
    if a.VerifyReply? && pc.Verifying? { TailKnown(s.db, pc.rest); }
    if a.ListPending? && Listed(s.db, a.claims, a.asOf - RECONCILE_AFTER) { TailKnown(s.db, a.claims); }
    hide FindAttempt, MayReply, DoTx;
    KnownStays(s, Apply(s, a), a.e);
  }

  lemma PaymentKeepsAttempts(db: Db, ref: Ref, p: Payment)
    ensures ApplyPayment(db, ref, p).attempts == db.attempts
  {
  }

  lemma ApplyKnown(s: System, a: Action)
    requires KnownOk(s)
    ensures KnownOk(Apply(s, a)) && AttemptsGrow(s.db, Apply(s, a).db)
  {
    if a.ClaimNext? { ClaimKnown(s, a); }
    else if a.Settle? { SettleKnown(s, a.e, a.how); }
    else if a.SendCharge? || a.ChargeReply? || a.VerifyReply? || a.ListPending? { MoveKnown(s, a); }
    else {
      if a.Webhook? { PaymentKeepsAttempts(s.db, a.ref, a.payment); }
      hide ClaimStep, SettleStep, ApplyPayment, ChargeStep, VerifyStep, SendStep;
      KnownStays(s, Apply(s, a), if a.Crash? then a.e else 0);
    }
  }

  // Each charge extends the plan once.

  predicate Distinct(refs: seq<Ref>) {
    forall i, j :: 0 <= i < j < |refs| ==> refs[i] != refs[j]
  }

  ghost predicate PcPaid(s: System, pc: Pc) {
    match pc
    case Settling(c, result, _) => result.outcome == Succeeded ==> WasCharged(s, c.ref)
    case Applying(c, _) => WasCharged(s, c.ref)
    case Finishing(c, succeeded, _) => succeeded ==> c.ref in s.db.payments
    case _ => true
  }

  ghost predicate PaidOk(s: System) {
    && Distinct(s.db.extended)
    && (forall ref :: ref in s.db.extended <==> ref in s.db.payments)
    && (forall ref :: ref in s.db.payments ==> WasCharged(s, ref))
    && (forall ref :: FindAttempt(s.db, ref).Some? && FindAttempt(s.db, ref).value.status == AttemptSucceeded ==>
          ref in s.db.payments)
    && (forall e :: e in s.pcs ==> PcPaid(s, s.pcs[e]))
  }

  /** Money once charged stays on record, as charged or as returned. */
  lemma ChargedStays(s: System, a: Action, ref: Ref)
    requires WasCharged(s, ref)
    ensures WasCharged(Apply(s, a), ref)
  {
  }

  lemma PaymentApplied(db: Db, ref: Ref, p: Payment)
    requires Distinct(db.extended) && forall r :: r in db.extended <==> r in db.payments
    ensures var db' := ApplyPayment(db, ref, p);
      && Distinct(db'.extended) && (forall r :: r in db'.extended <==> r in db'.payments)
      && (forall r :: r in db'.payments <==> r in db.payments || (r == ref && ApplyReplyOf(db, ref, p) == Applied))
      && db'.attempts == db.attempts
  {
  }

  /** Payments, attempts and places after a step, from what it may change. */
  lemma PaidStays(s: System, a: Action, e: nat)
    requires PaidOk(s)
    requires var s' := Apply(s, a);
      && Distinct(s'.db.extended) && (forall ref :: ref in s'.db.extended <==> ref in s'.db.payments)
      && (forall ref :: ref in s.db.payments ==> ref in s'.db.payments)
      && (forall ref :: ref in s'.db.payments ==> ref in s.db.payments || WasCharged(s', ref))
      && (forall ref :: FindAttempt(s'.db, ref).Some? && FindAttempt(s'.db, ref).value.status == AttemptSucceeded ==>
            ref in s'.db.payments || (FindAttempt(s.db, ref).Some? && FindAttempt(s.db, ref).value.status == AttemptSucceeded))
      && (forall f :: f in s'.pcs && f != e ==> f in s.pcs && s'.pcs[f] == s.pcs[f])
      && (e in s'.pcs ==> PcPaid(s', s'.pcs[e]) || (e in s.pcs && s'.pcs[e] == s.pcs[e]))
    ensures PaidOk(Apply(s, a))
  {
    var s' := Apply(s, a);
    hide Apply;
    forall ref | WasCharged(s, ref) ensures WasCharged(s', ref) { ChargedStays(s, a, ref); }
    forall f | f in s'.pcs ensures PcPaid(s', s'.pcs[f]) {
      if f in s.pcs { assert PcPaid(s, s.pcs[f]); }
    }
  }

  /** A step that writes neither attempts nor payments. */
  lemma PaidPasses(s: System, a: Action, e: nat)
    requires PaidOk(s)
    requires var s' := Apply(s, a);
      && s'.db.extended == s.db.extended && s'.db.payments == s.db.payments && s'.db.attempts == s.db.attempts
      && (forall f :: f in s'.pcs && f != e ==> f in s.pcs && s'.pcs[f] == s.pcs[f])
      && (e in s'.pcs ==> PcPaid(s', s'.pcs[e]) || (e in s.pcs && s'.pcs[e] == s.pcs[e]))
    ensures PaidOk(Apply(s, a))
  {
    hide Apply, WasCharged, PcPaid;
    assert forall ref :: FindAttempt(Apply(s, a).db, ref) == FindAttempt(s.db, ref);
    PaidStays(s, a, e);
  }

  lemma FinishingPaid(s: System, e: nat, how: Statement)
    requires PaidOk(s) && PcOf(s, e).Finishing?
    ensures PaidOk(Apply(s, RenewalProtocol.Settle(e, how)))
  {
    hide FinishAttempt, FindAttempt, WasCharged;
    var a := RenewalProtocol.Settle(e, how);
    var pc := PcOf(s, e);
    assert PcPaid(s, pc);
    FinishGrows(s.db, pc.c.ref, pc.succeeded);
    FinishingShape(s, e, how);
    hide Apply;
    PaidStays(s, a, e);
  }

  lemma FinishingShape(s: System, e: nat, how: Statement)
    requires PcOf(s, e).Finishing?
    ensures var pc := PcOf(s, e);
      var s' := Apply(s, RenewalProtocol.Settle(e, how));
      && s'.db in {s.db, FinishAttempt(s.db, pc.c.ref, pc.succeeded)}
      && s'.db.extended == s.db.extended && s'.db.payments == s.db.payments
      && s'.gateway == s.gateway && s'.pcs == s.pcs[e := Onward(pc.rest)]
  {
    hide FindAttempt;
  }

  lemma SettlePaid(s: System, e: nat, how: Statement)
    requires PaidOk(s)
    ensures PaidOk(Apply(s, RenewalProtocol.Settle(e, how)))
  {
    var a := RenewalProtocol.Settle(e, how);
    var pc := PcOf(s, e);
    if pc.Finishing? {
      FinishingPaid(s, e, how);
    } else if pc.Applying? {
      ApplyingPaid(s, e, how);
      assert forall ref :: FindAttempt(Apply(s, a).db, ref) == FindAttempt(s.db, ref);
      hide ApplyPayment, PcPaid, WasCharged;
      PaidStays(s, a, e);
    } else {
      assert PcPaid(s, pc);
      hide PaidOk;
      PaidPasses(s, a, e);
    }
  }

  lemma ApplyingPaid(s: System, e: nat, how: Statement)
    requires PaidOk(s) && PcOf(s, e).Applying?
    ensures var s' := Apply(s, RenewalProtocol.Settle(e, how));
      && Distinct(s'.db.extended) && (forall ref :: ref in s'.db.extended <==> ref in s'.db.payments)
      && (forall ref :: ref in s.db.payments ==> ref in s'.db.payments)
      && (forall ref :: ref in s'.db.payments ==> ref in s.db.payments || WasCharged(s', ref))
      && s'.db.attempts == s.db.attempts && PcPaid(s', s'.pcs[e])
  {
    var c := PcOf(s, e).c;
    assert PcPaid(s, PcOf(s, e));
    PaymentApplied(s.db, c.ref, PaymentFor(c));
  }

  lemma ReplyPaid(s: System, a: Action)
    requires PaidOk(s) && (a.ChargeReply? || a.VerifyReply?)
    ensures PaidOk(Apply(s, a))
  {
    VerdictHolds(s, a);
    hide DoTx, Honest, FindAttempt;
  }

  /** What a reply is taken for is so. */
  lemma VerdictHolds(s: System, a: Action)
    requires a.ChargeReply? || a.VerifyReply?
    ensures var op := if a.ChargeReply? then ChargeAuthorization else VerifyTransaction;
      forall ref :: MayReply(s, op, ref, a.reply) ==>
        && (DoTx(op, a.reply).outcome == Succeeded ==> TxOf(s, ref) == Some(Charged))
        && (DoTx(op, a.reply).outcome == Failed ==> Dead(TxOf(s, ref)))
  {
    var op := if a.ChargeReply? then ChargeAuthorization else VerifyTransaction;
    forall ref | MayReply(s, op, ref, a.reply) { VerdictIsSound(op, a.reply, TxOf(s, ref)); }
  }

  lemma ClaimPaid(s: System, a: Action)
    requires PaidOk(s) && a.ClaimNext?
    ensures PaidOk(Apply(s, a))
  {
    ClaimGrows(s.db, a.tenant, a.now);
    hide WasCharged, FindAttempt, Claimable;
    PaidStays(s, a, a.e);
  }

  lemma WebhookPaid(s: System, a: Action)
    requires PaidOk(s) && a.Webhook?
    ensures PaidOk(Apply(s, a))
  {
    PaymentApplied(s.db, a.ref, a.payment);
    assert forall ref :: FindAttempt(Apply(s, a).db, ref) == FindAttempt(s.db, ref);
    hide FindAttempt, ApplyPayment;
    PaidStays(s, a, 0);
  }

  lemma ApplyPaid(s: System, a: Action)
    requires PaidOk(s)
    ensures PaidOk(Apply(s, a))
  {
    hide PaidOk;
    match a
    case Settle(e, how) => SettlePaid(s, e, how);
    case ClaimNext(_, _, _, _, _) => ClaimPaid(s, a);
    case Webhook(_, _) => WebhookPaid(s, a);
    case ChargeReply(_, _) => ReplyPaid(s, a);
    case VerifyReply(_, _) => ReplyPaid(s, a);
    case SendCharge(e) => PaidPasses(s, a, e);
    case ListPending(e, _, _) => PaidPasses(s, a, e);
    case Crash(e) => PaidPasses(s, a, e);
    case _ => PaidPasses(s, a, 0);
  }

  lemma {:induction false} ExecPaid(s: System, acts: seq<Action>)
    requires PaidOk(s) && KnownOk(s)
    ensures PaidOk(Exec(s, acts)) && KnownOk(Exec(s, acts))
    decreases |acts|
  {
    if acts != [] {
      ApplyKnown(s, acts[0]);
      ApplyPaid(s, acts[0]);
      ExecPaid(Apply(s, acts[0]), acts[1..]);
    }
  }

  /** A reference extends a plan at most once, and only when the gateway took
      the money for it, although settle, reconcile and the webhook may all
      apply it, in any order and more than once; and an attempt settled as
      succeeded has extended it. */
  lemma EachChargeExtendsOnce(now: Time, acts: seq<Action>, ref: Ref)
    ensures var s := Exec(Empty(now), acts);
      && (forall i, j :: 0 <= i < j < |s.db.extended| ==> s.db.extended[i] != s.db.extended[j])
      && (ref in s.db.extended ==> WasCharged(s, ref))
      && (FindAttempt(s.db, ref).Some? && FindAttempt(s.db, ref).value.status == AttemptSucceeded ==> ref in s.db.extended)
  {
    ExecPaid(Empty(now), acts);
  }

  const THIRTY_DAYS: Time := 2_592_000_000_000

  /** Renewing early loses no days; every payment buys a full period. */
  lemma ExtensionLosesNoDays(db: Db, ref: Ref, p: Payment)
    requires ApplyReplyOf(db, ref, p) == Applied
    ensures var t, t' := db.tenants[p.tenant], ApplyPayment(db, ref, p).tenants[p.tenant];
      && t'.plan == p.plan && t'.active && t'.periodEnd.Some?
      && t'.periodEnd.value >= db.clock + THIRTY_DAYS
      && (t.plan == p.plan && t.active && t.periodEnd.Some? ==> t'.periodEnd.value >= t.periodEnd.value + THIRTY_DAYS)
      && (t'.periodEnd.value > db.clock + THIRTY_DAYS ==>
            t.plan == p.plan && t.active && t.periodEnd.Some? && t'.periodEnd == Some(t.periodEnd.value + THIRTY_DAYS))
      && t' == t.(plan := t'.plan, active := t'.active, periodEnd := t'.periodEnd)
      && forall other :: other != p.tenant && other in db.tenants ==> ApplyPayment(db, ref, p).tenants[other] == db.tenants[other]
  {
  }

  // No period is charged twice.

  predicate Sends(pc: Pc, ref: Ref) {
    pc.Charging? && pc.c.ref == ref
  }

  /** No money was kept for the reference, and none can be any more. */
  ghost predicate Quiet(s: System, ref: Ref) {
    && ref !in s.gateway.inflight && Dead(TxOf(s, ref))
    && forall e :: e in s.pcs ==> !Sends(s.pcs[e], ref)
  }

  predicate DeclaresFailed(pc: Pc) {
    (pc.Settling? && pc.result.outcome == Failed) || (pc.Finishing? && !pc.succeeded)
  }

  ghost predicate FailedIsQuiet(s: System) {
    && (forall ref :: FindAttempt(s.db, ref).Some? && FindAttempt(s.db, ref).value.status == AttemptFailed ==> Quiet(s, ref))
    && (forall e :: e in s.pcs && DeclaresFailed(s.pcs[e]) ==> Quiet(s, s.pcs[e].c.ref))
  }

  predicate Holds(pc: Pc) {
    pc.Charging? || pc.Awaiting?
  }

  ghost predicate OneSender(s: System) {
    forall e, f :: (e in s.pcs && f in s.pcs && Holds(s.pcs[e]) && Holds(s.pcs[f]) && s.pcs[e].c.ref == s.pcs[f].c.ref) ==> e == f
  }

  ghost predicate EarlierFailed(db: Db) {
    forall p, i :: 0 <= i < |AttemptsOf(db, p)| - 1 ==> AttemptsOf(db, p)[i].status == AttemptFailed
  }

  ghost predicate Sound(s: System) {
    KnownOk(s) && OneSender(s) && EarlierFailed(s.db) && FailedIsQuiet(s)
  }

  /** A verification denies a charge whose request has not even arrived: its
      sender has yet to send it, or it is still on its way. */
  ghost predicate Premature(s: System, a: Action) {
    && a.VerifyReply?
    && var pc := PcOf(s, a.e);
       && pc.Verifying? && pc.rest != [] && MayReply(s, VerifyTransaction, pc.rest[0].ref, a.reply)
       && DoTx(VerifyTransaction, a.reply).outcome == Failed
       && (pc.rest[0].ref in s.gateway.inflight || exists e :: e in s.pcs && Sends(s.pcs[e], pc.rest[0].ref))
  }

  lemma SettleMovesOn(s: System, e: nat, how: Statement)
    ensures var s' := SettleStep(s, e, how);
      && (forall f :: f in s'.pcs && f != e ==> f in s.pcs && s'.pcs[f] == s.pcs[f])
      && (e in s'.pcs ==> (e in s.pcs && s'.pcs[e] == s.pcs[e]) || !Holds(s'.pcs[e]))
  {
  }

  lemma SenderStays(s: System, a: Action)
    requires KnownOk(s) && OneSender(s)
    ensures OneSender(Apply(s, a))
  {
    hide SettleStep, ClaimAttempt;
    if a.Settle? { SettleMovesOn(s, a.e, a.how); }
    if a.ClaimNext? && Claimable(s.db, a.tenant, a.now) {
      ClaimGrows(s.db, a.tenant, a.now);
      assert forall f :: f in s.pcs && Holds(s.pcs[f]) ==> s.pcs[f].c.ref != ClaimOf(s.db, a.tenant, a.now).ref;
    }
  }

  lemma ClaimKeepsEarlier(db: Db, tenant: nat, now: Time)
    requires EarlierFailed(db)
    ensures EarlierFailed(ClaimAttempt(db, tenant, now))
  {
    var db' := ClaimAttempt(db, tenant, now);
    forall p, i | 0 <= i < |AttemptsOf(db', p)| - 1 ensures AttemptsOf(db', p)[i].status == AttemptFailed {
      if AttemptsOf(db', p) == AttemptsOf(db, p) {
        assert AttemptsOf(db, p)[i].status == AttemptFailed;
      } else {
        assert AttemptsOf(db', p)[i] == AttemptsOf(db, p)[i];
      }
    }
  }

  lemma FinishKeepsEarlier(db: Db, ref: Ref, succeeded: bool)
    requires EarlierFailed(db)
    ensures EarlierFailed(FinishAttempt(db, ref, succeeded))
  {
    var db' := FinishAttempt(db, ref, succeeded);
    forall p, i | 0 <= i < |AttemptsOf(db', p)| - 1 ensures AttemptsOf(db', p)[i].status == AttemptFailed {
      assert AttemptsOf(db, p)[i].status == AttemptFailed;
    }
  }

  lemma EarlierStaysFailed(s: System, a: Action)
    requires EarlierFailed(s.db)
    ensures EarlierFailed(Apply(s, a).db)
  {
    match a
    case ClaimNext(_, tenant, now, _, _) => ClaimKeepsEarlier(s.db, tenant, now);
    case Settle(e, _) =>
      if PcOf(s, e).Finishing? { FinishKeepsEarlier(s.db, PcOf(s, e).c.ref, PcOf(s, e).succeeded); }
      else { assert Apply(s, a).db.attempts == s.db.attempts; SameEarlier(s.db, Apply(s, a).db); }
    case _ =>
      assert Apply(s, a).db.attempts == s.db.attempts;
      SameEarlier(s.db, Apply(s, a).db);
  }

  lemma SameEarlier(a: Db, b: Db)
    requires EarlierFailed(a) && b.attempts == a.attempts
    ensures EarlierFailed(b)
  {
    assert forall p :: AttemptsOf(b, p) == AttemptsOf(a, p);
  }

  /** What is quiet stays quiet: only a reference claimed just now is sent. */
  lemma QuietStays(s: System, a: Action, ref: Ref)
    requires KnownOk(s) && KnownRef(s.db, ref) && ref.Renewal? && Quiet(s, ref)
    ensures Quiet(Apply(s, a), ref)
  {
    var s' := Apply(s, a);
    match a
    case ClaimNext(e, tenant, now, _, _) =>
      if Claimable(s.db, tenant, now) { ClaimGrows(s.db, tenant, now); }
    case SendCharge(e) => assert !Sends(PcOf(s, e), ref);
    case _ =>
  }

  lemma RepliesQuietly(s: System, a: Action)
    requires Sound(s) && !Premature(s, a) && (a.ChargeReply? || a.VerifyReply?)
    requires a.e in Apply(s, a).pcs && DeclaresFailed(Apply(s, a).pcs[a.e])
    ensures Quiet(Apply(s, a), Apply(s, a).pcs[a.e].c.ref)
  {
    VerdictHolds(s, a);
    hide DoTx, Honest;
  }

  /** Who declares a failure after the step. */
  lemma DeclaredQuiet(s: System, a: Action, f: nat)
    requires Sound(s) && !Premature(s, a)
    requires f in Apply(s, a).pcs && DeclaresFailed(Apply(s, a).pcs[f])
    ensures Quiet(Apply(s, a), Apply(s, a).pcs[f].c.ref)
  {
    var s' := Apply(s, a);
    if f in s.pcs && DeclaresFailed(s.pcs[f]) && s'.pcs[f].c == s.pcs[f].c {
      assert PcKnown(s.db, s.pcs[f]);
      hide Apply, Premature, OneSender, EarlierFailed;
      QuietStays(s, a, s.pcs[f].c.ref);
    } else if (a.ChargeReply? || a.VerifyReply?) && f == a.e {
      hide Apply, Sound, Premature;
      RepliesQuietly(s, a);
    } else {
      NewlyDeclared(s, a, f);
      hide Apply, Premature;
      UnreadableQuiet(s, a);
    }
  }

  /** Otherwise it is a claim whose card cannot be read. */
  lemma NewlyDeclared(s: System, a: Action, f: nat)
    requires f in Apply(s, a).pcs && DeclaresFailed(Apply(s, a).pcs[f])
    requires !(f in s.pcs && DeclaresFailed(s.pcs[f]) && Apply(s, a).pcs[f].c == s.pcs[f].c)
    requires !((a.ChargeReply? || a.VerifyReply?) && f == a.e)
    ensures a.ClaimNext? && f == a.e && PcOf(s, f) == Idle && Claimable(s.db, a.tenant, a.now)
    ensures Apply(s, a).pcs[f].c == ClaimOf(s.db, a.tenant, a.now)
  {
    hide ApplyPayment, FinishAttempt, ClaimAttempt, Honest, DoTx, Listed;
  }

  lemma UnreadableQuiet(s: System, a: Action)
    requires Sound(s) && a.ClaimNext? && PcOf(s, a.e) == Idle && Claimable(s.db, a.tenant, a.now)
    requires a.e in Apply(s, a).pcs && DeclaresFailed(Apply(s, a).pcs[a.e])
    ensures Quiet(Apply(s, a), ClaimOf(s.db, a.tenant, a.now).ref)
  {
    var ref := ClaimOf(s.db, a.tenant, a.now).ref;
    ClaimGrows(s.db, a.tenant, a.now);
    UnknownIsQuiet(s, ref);
    hide Sound, ClaimAttempt, ClaimOf, Claimable;
    assert Apply(s, a).gateway == s.gateway;
  }


  lemma AttemptQuiet(s: System, a: Action, ref: Ref)
    requires Sound(s)
    requires FindAttempt(Apply(s, a).db, ref).Some? && FindAttempt(Apply(s, a).db, ref).value.status == AttemptFailed
    ensures Quiet(Apply(s, a), ref)
  {
    if FindAttempt(s.db, ref).Some? && FindAttempt(s.db, ref).value.status == AttemptFailed {
      QuietStays(s, a, ref);
    } else {
      if a.ClaimNext? { ClaimGrows(s.db, a.tenant, a.now); }
      assert a.Settle? && PcOf(s, a.e).Finishing?;
      FinishGrows(s.db, PcOf(s, a.e).c.ref, PcOf(s, a.e).succeeded);
      assert ref == PcOf(s, a.e).c.ref;
      QuietStays(s, a, ref);
    }
  }

  /** The exact condition: a step keeps the books sound if and only if it is not
      a premature verification. */
  lemma OnlyAPrematureVerifyIsUnsound(s: System, a: Action)
    requires Sound(s)
    ensures Sound(Apply(s, a)) <==> !Premature(s, a)
  {
    var s' := Apply(s, a);
    if Premature(s, a) {
      PrematureIsUnsound(s, a);
    } else {
      ApplyKnown(s, a);
      SenderStays(s, a);
      EarlierStaysFailed(s, a);
      forall f | f in s'.pcs && DeclaresFailed(s'.pcs[f]) ensures Quiet(s', s'.pcs[f].c.ref) { DeclaredQuiet(s, a, f); }
      forall ref | FindAttempt(s'.db, ref).Some? && FindAttempt(s'.db, ref).value.status == AttemptFailed
        ensures Quiet(s', ref)
      {
        AttemptQuiet(s, a, ref);
      }
    }
  }

  lemma PrematureIsUnsound(s: System, a: Action)
    requires Premature(s, a)
    ensures !FailedIsQuiet(Apply(s, a))
  {
    var ref := PcOf(s, a.e).rest[0].ref;
    var s' := Apply(s, a);
    assert a.e in s'.pcs && DeclaresFailed(s'.pcs[a.e]) && s'.pcs[a.e].c.ref == ref;
    if ref !in s.gateway.inflight {
      var e :| e in s.pcs && Sends(s.pcs[e], ref);
      assert e in s'.pcs && Sends(s'.pcs[e], ref);
    }
    assert !Quiet(s', ref);
  }

  /** Charge requests arrive before reconcilePending asks about them. */
  ghost predicate PromptRun(s: System, acts: seq<Action>)
    decreases |acts|
  {
    acts != [] ==> !Premature(s, acts[0]) && PromptRun(Apply(s, acts[0]), acts[1..])
  }

  ghost predicate SoundAlong(s: System, acts: seq<Action>)
    decreases |acts|
  {
    Sound(s) && (acts != [] ==> SoundAlong(Apply(s, acts[0]), acts[1..]))
  }

  /** Over whole runs: the books are sound in every state if and only if no
      verification denies a charge that is still to arrive. */
  lemma {:induction false} SoundAlongWhen(s: System, acts: seq<Action>)
    requires Sound(s)
    ensures SoundAlong(s, acts) <==> PromptRun(s, acts)
    decreases |acts|
  {
    if acts != [] {
      hide Sound, Premature, Apply;
      OnlyAPrematureVerifyIsUnsound(s, acts[0]);
      if Sound(Apply(s, acts[0])) { SoundAlongWhen(Apply(s, acts[0]), acts[1..]); }
    }
  }

  lemma {:induction false} ExecSound(s: System, acts: seq<Action>)
    requires Sound(s) && PromptRun(s, acts)
    ensures Sound(Exec(s, acts))
    decreases |acts|
  {
    if acts != [] {
      OnlyAPrematureVerifyIsUnsound(s, acts[0]);
      ExecSound(Apply(s, acts[0]), acts[1..]);
    }
  }

  lemma UnknownIsQuiet(s: System, ref: Ref)
    requires KnownOk(s) && ref.Renewal? && FindAttempt(s.db, ref).None?
    ensures Quiet(s, ref)
  {
  }

  /** An attempt finished as failed took no money and never will. */
  lemma FailedTookNoMoney(s: System, acts: seq<Action>, ref: Ref)
    requires Sound(s) && PromptRun(s, acts)
    requires FindAttempt(s.db, ref).Some? && FindAttempt(s.db, ref).value.status == AttemptFailed
    ensures TxOf(Exec(s, acts), ref) in {None, Some(Declined), Some(Reversed)}
    decreases |acts|
  {
    if acts != [] {
      OnlyAPrematureVerifyIsUnsound(s, acts[0]);
      ApplyKnown(s, acts[0]);
      FailedTookNoMoney(Apply(s, acts[0]), acts[1..], ref);
    }
  }

  /** Against a gateway that may time out, answer non-finally or lose replies:
      once an attempt is claimed, no earlier attempt of its period holds money or
      ever will; and an attempt nobody has claimed holds none. */
  lemma AtMostOneNetCharge(now: Time, acts: seq<Action>, p: Period, i: nat, j: nat)
    requires PromptRun(Empty(now), acts) && 1 <= i < j
    ensures var s := Exec(Empty(now), acts);
      && (FindAttempt(s.db, Renewal(p, j)).Some? ==>
            forall more :: PromptRun(s, more) ==> Dead(TxOf(Exec(s, more), Renewal(p, i))))
      && (FindAttempt(s.db, Renewal(p, j)).None? ==> Quiet(s, Renewal(p, j)))
  {
    var s := Exec(Empty(now), acts);
    assert Sound(Empty(now));
    ExecSound(Empty(now), acts);
    if FindAttempt(s.db, Renewal(p, j)).Some? {
      assert AttemptsOf(s.db, p)[i - 1].status == AttemptFailed;
      assert FindAttempt(s.db, Renewal(p, i)).value.status == AttemptFailed;
      forall more | PromptRun(s, more) ensures Dead(TxOf(Exec(s, more), Renewal(p, i))) {
        FailedTookNoMoney(s, more, Renewal(p, i));
      }
    } else {
      UnknownIsQuiet(s, Renewal(p, j));
    }
  }

  /** And no charge is forgotten: when charges arrive before they are verified,
      money the gateway holds for a renewal has extended the plan, or belongs to
      an attempt that is still to be settled. */
  lemma NoChargeIsForgotten(now: Time, acts: seq<Action>, ref: Ref)
    requires PromptRun(Empty(now), acts) && ref.Renewal?
    ensures var s := Exec(Empty(now), acts);
      TxOf(s, ref) == Some(Charged) ==>
        ref in s.db.extended || (FindAttempt(s.db, ref).Some? && FindAttempt(s.db, ref).value.status == AttemptPending)
  {
    var s := Exec(Empty(now), acts);
    ExecSound(Empty(now), acts);
    ExecPaid(Empty(now), acts);
    hide Exec, FindAttempt, PcKnown, PcPaid;
    if TxOf(s, ref) == Some(Charged) { assert KnownRef(s.db, ref); }
  }
}
