/** Tenants' plans, renewal attempts and applied payments: one function per
    transaction. */
module RenewalRows {
  import opened Options

  /** Microseconds. */
  type Time = int

  const HOUR: Time := 3_600_000_000
  const CHARGE_WINDOW: Time := 48 * HOUR
  const RETRY_SPACING: Time := 12 * HOUR
  const MIN_NOTICE: Time := 24 * HOUR
  const RECONCILE_AFTER: Time := HOUR
  const PLAN_PERIOD: Time := 720 * HOUR
  const MAX_ATTEMPTS: nat := 3

  datatype Plan = Free | Plus | Pro

  function PriceUSDCents(p: Plan): nat {
    match p
    case Free => 0
    case Plus => 600
    case Pro => 2400
  }

  predicate IsPaid(p: Plan) {
    PriceUSDCents(p) > 0
  }

  datatype Reminder = Reminder(periodEnd: Time, sentAt: Time, autoRenew: bool)

  datatype Tenant = Tenant(
    plan: Plan,
    active: bool,
    periodEnd: Option<Time>,
    autoRenew: bool,
    card: bool,
    reminder: Option<Reminder>)

  /** A billing period of one tenant. */
  datatype Period = Period(tenant: nat, end: Time)

  /** A payment reference: the text is unique per tenant, period end and attempt,
      and checkout references never look like one. */
  datatype Ref = Renewal(period: Period, attempt: nat) | Checkout(n: nat)

  datatype AttemptStatus = AttemptPending | AttemptSucceeded | AttemptFailed

  datatype Attempt = Attempt(plan: Plan, amount: int, status: AttemptStatus, createdAt: Time)

  datatype Payment = Payment(tenant: nat, plan: Plan, amount: int)

  /** `extended` lists the references in the order they extended a plan. */
  datatype Db = Db(
    clock: Time,
    tenants: map<nat, Tenant>,
    attempts: map<Period, seq<Attempt>>,
    payments: map<Ref, Payment>,
    extended: seq<Ref>)

  function AttemptsOf(db: Db, p: Period): seq<Attempt> {
    if p in db.attempts then db.attempts[p] else []
  }

  /** The attempt a reference stands for; attempts count from 1. */
  function FindAttempt(db: Db, ref: Ref): Option<Attempt> {
    if ref.Renewal? && 1 <= ref.attempt <= |AttemptsOf(db, ref.period)|
    then Some(AttemptsOf(db, ref.period)[ref.attempt - 1])
    else None
  }

  predicate PlanDue(t: Tenant, now: Time) {
    && IsPaid(t.plan) && t.active && t.autoRenew && t.card
    && t.periodEnd.Some? && now < t.periodEnd.value && t.periodEnd.value - now <= CHARGE_WINDOW
    && t.reminder.Some? && t.reminder.value.periodEnd == t.periodEnd.value && t.reminder.value.autoRenew
    && now - t.reminder.value.sentAt >= MIN_NOTICE
  }

  /** A pending or succeeded attempt blocks, and so do three failed ones. */
  predicate AttemptDue(rows: seq<Attempt>, now: Time) {
    && (forall i :: 0 <= i < |rows| ==> rows[i].status == AttemptFailed)
    && |rows| < MAX_ATTEMPTS
    && (rows == [] || now - rows[|rows| - 1].createdAt >= RETRY_SPACING)
  }

  predicate Claimable(db: Db, tenant: nat, now: Time) {
    && tenant in db.tenants && PlanDue(db.tenants[tenant], now)
    && AttemptDue(AttemptsOf(db, Period(tenant, db.tenants[tenant].periodEnd.value)), now)
  }

  /** The claim handed to the caller that may charge. */
  datatype Claim = Claim(ref: Ref, tenant: nat, plan: Plan, amount: int)

  function ClaimOf(db: Db, tenant: nat, now: Time): Claim
    requires Claimable(db, tenant, now)
  {
    var t := db.tenants[tenant];
    var p := Period(tenant, t.periodEnd.value);
    Claim(Renewal(p, |AttemptsOf(db, p)| + 1), tenant, t.plan, PriceUSDCents(t.plan))
  }

  function ClaimAttempt(db: Db, tenant: nat, now: Time): Db {
    if !Claimable(db, tenant, now) then db else
      var c := ClaimOf(db, tenant, now);
      var rows := AttemptsOf(db, c.ref.period);
      db.(attempts := db.attempts[c.ref.period := rows + [Attempt(c.plan, c.amount, AttemptPending, now)]])
  }

  predicate IsPending(db: Db, ref: Ref) {
    FindAttempt(db, ref).Some? && FindAttempt(db, ref).value.status == AttemptPending
  }

  /** Settles a pending attempt only. */
  function FinishAttempt(db: Db, ref: Ref, succeeded: bool): Db {
    if !IsPending(db, ref) then db else
      var rows := AttemptsOf(db, ref.period);
      var i := ref.attempt - 1;
      db.(attempts := db.attempts[ref.period :=
        rows[i := rows[i].(status := if succeeded then AttemptSucceeded else AttemptFailed)]])
  }

  function CreatedAt(db: Db, ref: Ref): Time {
    if FindAttempt(db, ref).Some? then FindAttempt(db, ref).value.createdAt else 0
  }

  predicate PendingSince(db: Db, ref: Ref, olderThan: Time) {
    IsPending(db, ref) && FindAttempt(db, ref).value.createdAt <= olderThan
  }

  /** A row of PendingRenewalAttempts: an old pending attempt, with the plan and
      price it was claimed for. */
  predicate ListsAttempt(db: Db, c: Claim, olderThan: Time) {
    && c.ref.Renewal? && PendingSince(db, c.ref, olderThan) && c.tenant == c.ref.period.tenant
    && c.plan == FindAttempt(db, c.ref).value.plan && c.amount == FindAttempt(db, c.ref).value.amount
  }

  /** `GREATEST(now(), CASE ...) + period`. */
  function ExtendedEnd(t: Tenant, plan: Plan, now: Time): Time {
    (if t.plan == plan && t.active && t.periodEnd.Some? && t.periodEnd.value > now then t.periodEnd.value else now)
      + PLAN_PERIOD
  }

  datatype ApplyReply = Applied | AlreadyApplied | NotPurchasable | NoTenant

  function ApplyReplyOf(db: Db, ref: Ref, p: Payment): ApplyReply {
    if !IsPaid(p.plan) then NotPurchasable
    else if p.tenant !in db.tenants then NoTenant
    else if ref in db.payments then AlreadyApplied
    else Applied
  }

  function ApplyPayment(db: Db, ref: Ref, p: Payment): Db {
    if ApplyReplyOf(db, ref, p) != Applied then db else
      var t := db.tenants[p.tenant];
      db.(tenants := db.tenants[p.tenant :=
            t.(plan := p.plan, active := true, periodEnd := Some(ExtendedEnd(t, p.plan, db.clock)))],
          payments := db.payments[ref := p],
          extended := db.extended + [ref])
  }
}
