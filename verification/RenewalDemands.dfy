/** What it takes to be charged: the conditions of a claim, of an application and
    of a verification, in the rows' own fields and with the service's own
    figures, and what follows from them over whole runs. */
module RenewalDemands {
  import opened Options
  import opened Paystack
  import opened RenewalRows
  import opened RenewalProtocol
  import opened RenewalTheorems

  /** The tenant has agreed to be charged for the period ending at `end`: a paid,
      active plan on automatic renewal with a card, the period ending within 48
      hours, and a reminder of it, sent with automatic renewal on, 24 hours ago. */
  predicate Consents(t: Tenant, end: Time, now: Time) {
    && (t.plan == Plus || t.plan == Pro) && t.active && t.autoRenew && t.card
    && t.periodEnd == Some(end) && now < end <= now + 172_800_000_000
    && t.reminder.Some? && t.reminder.value.periodEnd == end && t.reminder.value.autoRenew
    && t.reminder.value.sentAt + 86_400_000_000 <= now
  }

  /** Fewer than three attempts, all failed, the last one 12 hours ago. */
  predicate MayTryAgain(rows: seq<Attempt>, now: Time) {
    && |rows| < 3 && (forall i :: 0 <= i < |rows| ==> rows[i].status == AttemptFailed)
    && (rows != [] ==> rows[|rows| - 1].createdAt + 43_200_000_000 <= now)
  }

  function Price(plan: Plan): int {
    match plan
    case Free => 0
    case Plus => 600
    case Pro => 2400
  }

  lemma DueIs(db: Db, tenant: nat, now: Time)
    ensures Claimable(db, tenant, now) <==>
      && tenant in db.tenants && db.tenants[tenant].periodEnd.Some?
      && Consents(db.tenants[tenant], db.tenants[tenant].periodEnd.value, now)
      && MayTryAgain(AttemptsOf(db, Period(tenant, db.tenants[tenant].periodEnd.value)), now)
  {
  }

  /** The statement that claims: what must hold for it. */
  predicate ClaimsFor(s: System, a: Action, p: Period) {
    && a.ClaimNext? && a.how != NotDone && PcOf(s, a.e) == Idle && a.tenant == p.tenant
    && p.tenant in s.db.tenants && Consents(s.db.tenants[p.tenant], p.end, a.now)
    && MayTryAgain(AttemptsOf(s.db, p), a.now)
  }

  lemma ClaimRecords(db: Db, tenant: nat, now: Time, p: Period)
    ensures var rows, rows' := AttemptsOf(db, p), AttemptsOf(ClaimAttempt(db, tenant, now), p);
      var claims := tenant == p.tenant && tenant in db.tenants
        && Consents(db.tenants[tenant], p.end, now) && MayTryAgain(rows, now);
      rows' == if claims
        then rows + [Attempt(db.tenants[tenant].plan, Price(db.tenants[tenant].plan), AttemptPending, now)]
        else rows
  {
    DueIs(db, tenant, now);
    hide Claimable, Consents, MayTryAgain;
    if Claimable(db, tenant, now) {
      assert ClaimOf(db, tenant, now).ref.period == Period(tenant, db.tenants[tenant].periodEnd.value);
      PeriodIs(db.tenants[tenant], p.end, now);
    } else if tenant == p.tenant && tenant in db.tenants {
      PeriodIs(db.tenants[tenant], p.end, now);
    }
  }

  lemma PeriodIs(t: Tenant, end: Time, now: Time)
    ensures Consents(t, end, now) ==> t.periodEnd == Some(end)
  {
  }

  lemma OthersKeepAttempts(s: System, a: Action, p: Period)
    requires !a.ClaimNext?
    ensures |AttemptsOf(Apply(s, a).db, p)| == |AttemptsOf(s.db, p)|
    ensures forall i :: 0 <= i < |AttemptsOf(s.db, p)| ==>
      var x, y := AttemptsOf(s.db, p)[i], AttemptsOf(Apply(s, a).db, p)[i];
      y == x.(status := y.status) && (x.status != AttemptPending ==> y == x)
  {
    hide DoTx, Honest, Listed;
  }

  /** An attempt is recorded if and only if the tenant consents at that moment and
      the earlier attempts allow it; it is pending, at the plan's price. */
  lemma AttemptRecordedWhen(s: System, a: Action, p: Period)
    ensures var rows, rows' := AttemptsOf(s.db, p), AttemptsOf(Apply(s, a).db, p);
      && (|rows'| > |rows| <==> ClaimsFor(s, a, p))
      && (ClaimsFor(s, a, p) ==>
            rows' == rows + [Attempt(s.db.tenants[p.tenant].plan, Price(s.db.tenants[p.tenant].plan), AttemptPending, a.now)])
  {
    if a.ClaimNext? {
      ClaimRecords(s.db, a.tenant, a.now, p);
      ClaimIs(s, a);
      hide Apply, ClaimAttempt, Consents, MayTryAgain;
    } else {
      hide Consents, MayTryAgain;
      OthersKeepAttempts(s, a, p);
    }
  }

  lemma ClaimIs(s: System, a: Action)
    requires a.ClaimNext?
    ensures Apply(s, a).db == if PcOf(s, a.e) == Idle && a.how != NotDone then ClaimAttempt(s.db, a.tenant, a.now) else s.db
  {
  }

  // Over whole runs.

  /** The attempts of a period: at most three, each at its plan's price, within 48
      hours of the period's end, 12 hours apart, and none after one that did not
      fail. */
  ghost predicate Spaced(p: Period, rows: seq<Attempt>) {
    && |rows| <= 3
    && (forall i :: 0 <= i < |rows| ==>
          && rows[i].plan != Free && rows[i].amount == Price(rows[i].plan)
          && rows[i].createdAt < p.end <= rows[i].createdAt + 172_800_000_000)
    && (forall i, j :: 0 <= i < j < |rows| ==>
          rows[i].status == AttemptFailed && rows[j].createdAt >= rows[i].createdAt + 43_200_000_000)
  }

  lemma OneMoreIsSpaced(p: Period, rows: seq<Attempt>, x: Attempt)
    requires Spaced(p, rows) && MayTryAgain(rows, x.createdAt) && x.plan != Free && x.amount == Price(x.plan)
    requires x.createdAt < p.end <= x.createdAt + 172_800_000_000
    ensures Spaced(p, rows + [x])
  {
  }

  lemma SettledIsSpaced(p: Period, rows: seq<Attempt>, rows': seq<Attempt>)
    requires Spaced(p, rows) && |rows'| == |rows|
    requires forall i :: 0 <= i < |rows| ==>
      rows'[i] == rows[i].(status := rows'[i].status) && (rows[i].status != AttemptPending ==> rows'[i] == rows[i])
    ensures Spaced(p, rows')
  {
  }

  lemma ConsentIsTimely(t: Tenant, end: Time, now: Time)
    requires Consents(t, end, now)
    ensures t.plan != Free && now < end <= now + 172_800_000_000
  {
  }

  lemma StepSpaced(s: System, a: Action, p: Period)
    requires Spaced(p, AttemptsOf(s.db, p))
    ensures Spaced(p, AttemptsOf(Apply(s, a).db, p))
  {
    var rows := AttemptsOf(s.db, p);
    if a.ClaimNext? {
      ClaimIs(s, a);
      ClaimRecords(s.db, a.tenant, a.now, p);
      hide Apply, ClaimAttempt, AttemptsOf, Consents, MayTryAgain, Spaced, Price;
      if a.tenant == p.tenant && a.tenant in s.db.tenants && Consents(s.db.tenants[a.tenant], p.end, a.now) && MayTryAgain(rows, a.now) {
        var t := s.db.tenants[a.tenant];
        ConsentIsTimely(t, p.end, a.now);
        OneMoreIsSpaced(p, rows, Attempt(t.plan, Price(t.plan), AttemptPending, a.now));
      }
    } else {
      OthersKeepAttempts(s, a, p);
      hide Apply, AttemptsOf, Spaced;
      SettledIsSpaced(p, rows, AttemptsOf(Apply(s, a).db, p));
    }
  }

  lemma {:induction false} ExecSpaced(s: System, acts: seq<Action>, p: Period)
    requires Spaced(p, AttemptsOf(s.db, p))
    ensures Spaced(p, AttemptsOf(Exec(s, acts).db, p))
    decreases |acts|
  {
    if acts != [] {
      hide Apply, Spaced, AttemptsOf;
      StepSpaced(s, acts[0], p);
      ExecSpaced(Apply(s, acts[0]), acts[1..], p);
    }
  }

  lemma ChargesAreSpaced(now: Time, acts: seq<Action>, p: Period)
    ensures Spaced(p, AttemptsOf(Exec(Empty(now), acts).db, p))
  {
    ExecSpaced(Empty(now), acts, p);
  }

  /** A card is charged only by who has just recorded the claim and been told so;
      with the saved card unreadable the attempt is settled as failed. */
  lemma ChargesWhen(s: System, a: Action, e: nat)
    requires PcOf(s, e) == Idle
    ensures var claimed := a.ClaimNext? && a.e == e && a.how == Done && a.tenant in s.db.tenants
        && s.db.tenants[a.tenant].periodEnd.Some? && ClaimsFor(s, a, Period(a.tenant, s.db.tenants[a.tenant].periodEnd.value));
      var pc := PcOf(Apply(s, a), e);
      && (pc.Charging? <==> claimed && a.cardReadable)
      && (pc.Settling? <==> claimed && !a.cardReadable)
      && (pc.Settling? ==> pc.result.outcome == Failed && pc.rest == [])
  {
    if a.ClaimNext? { DueIs(s.db, a.tenant, a.now); }
    hide Claimable, ClaimAttempt, Consents, MayTryAgain, Listed, ApplyPayment, FinishAttempt, DoTx, Honest;
  }

  // What is applied.

  /** The result is the money that was asked for. */
  predicate IsTheMoney(c: Claim, result: Result) {
    result.outcome == Succeeded && result.amount == c.amount && IsDollars(result.currency)
  }

  /** settle goes on to apply a payment if and only if it is the money asked for,
      and to finish an attempt as failed if and only if the charge failed;
      everything else stays pending. */
  lemma SettledWhen(c: Claim, result: Result, rest: seq<Claim>)
    ensures Settled(c, result, rest) ==
      if IsTheMoney(c, result) then Applying(c, rest)
      else if result.outcome == Failed then Finishing(c, false, rest)
      else if rest == [] then Idle else Verifying(rest)
  {
    CurrencyIs(result.currency);
  }

  /** Only settle takes an actor to the payment, and only with the money. */
  lemma AppliesWhen(s: System, a: Action, e: nat)
    requires !PcOf(s, e).Applying?
    ensures PcOf(Apply(s, a), e).Applying? <==>
      a.Settle? && a.e == e && PcOf(s, e).Settling? && IsTheMoney(PcOf(s, e).c, PcOf(s, e).result)
  {
    if PcOf(s, e).Settling? { SettledWhen(PcOf(s, e).c, PcOf(s, e).result, PcOf(s, e).rest); }
    hide Settled, IsTheMoney, ApplyPayment, FinishAttempt, ClaimAttempt, Honest, DoTx, Listed, Claimable, ClaimOf;
  }

  /** After the payment the attempt is finished as succeeded, whether this call
      applied it or a webhook had done so before. */
  lemma FinishesWhen(s: System, e: nat, how: Statement)
    requires PcOf(s, e).Applying?
    ensures var c, rest := PcOf(s, e).c, PcOf(s, e).rest;
      PcOf(Apply(s, Settle(e, how)), e) ==
        if how == Done && c.plan != Free && c.tenant in s.db.tenants then Finishing(c, true, rest)
        else if rest == [] then Idle else Verifying(rest)
  {
    hide ApplyPayment;
  }

  /** And the gateway has reported that money, as a success. */
  lemma ReportedBefore(s: System, a: Action, e: nat)
    requires !PcOf(s, e).Settling? && PcOf(Apply(s, a), e).Settling?
    requires IsTheMoney(PcOf(Apply(s, a), e).c, PcOf(Apply(s, a), e).result)
    ensures (a.ChargeReply? || a.VerifyReply?) && a.reply.Reply?
    ensures a.reply.code < 400 && a.reply.ok && Spells(a.reply.status, "success")
    ensures a.reply.amount == PcOf(Apply(s, a), e).c.amount && |a.reply.currency| == 3
  {
    if a.ChargeReply? || a.VerifyReply? {
      SucceedsWhen(if a.ChargeReply? then ChargeAuthorization else VerifyTransaction, a.reply);
    }
    hide Settled, ApplyPayment, FinishAttempt, ClaimAttempt, Honest, DoTx, Spells, Listed, Claimable, ClaimOf, EqualFold;
  }

  /** A payment pays for what it applies. */
  ghost predicate PaysThePrice(s: System) {
    && (forall ref :: ref in s.db.payments ==> s.db.payments[ref].plan != Free && s.db.payments[ref].amount >= Price(s.db.payments[ref].plan))
    && (forall p, i :: 0 <= i < |AttemptsOf(s.db, p)| ==> AttemptsOf(s.db, p)[i].amount == Price(AttemptsOf(s.db, p)[i].plan))
    && (forall e :: e in s.pcs ==> PricedPc(s.pcs[e]))
  }

  predicate Priced(c: Claim) {
    c.amount == Price(c.plan)
  }

  ghost predicate PricedPc(pc: Pc) {
    (Current(pc).Some? ==> Priced(Current(pc).value)) && forall c :: c in Listing(pc) ==> Priced(c)
  }

  lemma ClaimIsPriced(db: Db, tenant: nat, now: Time)
    requires Claimable(db, tenant, now)
    ensures Priced(ClaimOf(db, tenant, now))
  {
  }

  lemma ListedArePriced(db: Db, claims: seq<Claim>, olderThan: Time)
    requires Listed(db, claims, olderThan)
    requires forall p, i :: 0 <= i < |AttemptsOf(db, p)| ==> AttemptsOf(db, p)[i].amount == Price(AttemptsOf(db, p)[i].plan)
    ensures forall c :: c in claims ==> Priced(c)
  {
    forall c | c in claims ensures Priced(c) { assert ListsAttempt(db, c, olderThan); }
  }

  lemma AttemptsPriced(s: System, a: Action)
    requires PaysThePrice(s)
    ensures forall p, i :: 0 <= i < |AttemptsOf(Apply(s, a).db, p)| ==>
      AttemptsOf(Apply(s, a).db, p)[i].amount == Price(AttemptsOf(Apply(s, a).db, p)[i].plan)
  {
    forall p, i | 0 <= i < |AttemptsOf(Apply(s, a).db, p)|
      ensures AttemptsOf(Apply(s, a).db, p)[i].amount == Price(AttemptsOf(Apply(s, a).db, p)[i].plan)
    {
      if a.ClaimNext? {
        ClaimIs(s, a);
        ClaimRecords(s.db, a.tenant, a.now, p);
      } else {
        OthersKeepAttempts(s, a, p);
      }
      hide Apply, ClaimAttempt, Consents, MayTryAgain, PricedPc;
    }
  }

  lemma PaymentPaysPrice(db: Db, ref: Ref, p: Payment)
    requires forall r :: r in db.payments ==> db.payments[r].plan != Free && db.payments[r].amount >= Price(db.payments[r].plan)
    requires p.amount >= Price(p.plan)
    ensures var db' := ApplyPayment(db, ref, p);
      forall r :: r in db'.payments ==> db'.payments[r].plan != Free && db'.payments[r].amount >= Price(db'.payments[r].plan)
  {
  }

  lemma PaymentsPriced(s: System, a: Action)
    requires PaysThePrice(s)
    ensures var db' := Apply(s, a).db;
      forall r :: r in db'.payments ==> db'.payments[r].plan != Free && db'.payments[r].amount >= Price(db'.payments[r].plan)
  {
    hide DoTx, Honest, Listed, Claimable, AttemptsOf;
    if a.Webhook? {
      if Usable(a.payment) { PaymentPaysPrice(s.db, a.ref, a.payment); }
      hide ApplyPayment;
    } else if a.Settle? && PcOf(s, a.e).Applying? {
      var pc := PcOf(s, a.e);
      assert PricedPc(pc);
      PaymentPaysPrice(s.db, pc.c.ref, PaymentFor(pc.c));
      hide ApplyPayment;
    }
  }

  lemma PcsPriced(s: System, a: Action, e: nat)
    requires PaysThePrice(s) && e in Apply(s, a).pcs
    ensures PricedPc(Apply(s, a).pcs[e])
  {
    hide DoTx, Honest, ApplyPayment, FinishAttempt, ClaimAttempt, EqualFold, AttemptsOf, Priced;
    assert PricedPc(PcOf(s, e));
    if a.ClaimNext? && Claimable(s.db, a.tenant, a.now) {
      ClaimIsPriced(s.db, a.tenant, a.now);
      hide Claimable, ClaimOf;
    } else if a.ListPending? && Listed(s.db, a.claims, a.asOf - RECONCILE_AFTER) {
      ListedArePriced(s.db, a.claims, a.asOf - RECONCILE_AFTER);
      hide Listed;
    } else {
      hide Claimable, ClaimOf, Listed;
    }
  }

  lemma {:induction false} ExecPaysThePrice(s: System, acts: seq<Action>)
    requires PaysThePrice(s)
    ensures PaysThePrice(Exec(s, acts))
    decreases |acts|
  {
    if acts != [] {
      var t := Apply(s, acts[0]);
      AttemptsPriced(s, acts[0]);
      PaymentsPriced(s, acts[0]);
      forall e | e in t.pcs ensures PricedPc(t.pcs[e]) { PcsPriced(s, acts[0], e); }
      hide Apply, PricedPc, AttemptsOf;
      ExecPaysThePrice(t, acts[1..]);
    }
  }

  /** Nothing extends a plan for less than its price. */
  lemma PaymentsCoverThePrice(now: Time, acts: seq<Action>, ref: Ref)
    ensures var db := Exec(Empty(now), acts).db;
      ref in db.payments ==>
        && (db.payments[ref].plan == Plus ==> db.payments[ref].amount >= 600)
        && (db.payments[ref].plan == Pro ==> db.payments[ref].amount >= 2400)
        && db.payments[ref].plan != Free
  {
    ExecPaysThePrice(Empty(now), acts);
    hide Exec;
  }

  /** Only what is pending for an hour is asked about again. */
  lemma VerifiesTheOldOnly(s: System, a: Action)
    requires a.ListPending? && PcOf(s, a.e) == Idle
    ensures PcOf(Apply(s, a), a.e).Verifying? ==>
      forall c :: c in PcOf(Apply(s, a), a.e).rest ==>
        && FindAttempt(s.db, c.ref).Some? && FindAttempt(s.db, c.ref).value.status == AttemptPending
        && FindAttempt(s.db, c.ref).value.createdAt + 3_600_000_000 <= a.asOf
  {
    if PcOf(Apply(s, a), a.e).Verifying? {
      forall c | c in a.claims
        ensures FindAttempt(s.db, c.ref).Some? && FindAttempt(s.db, c.ref).value.createdAt + 3_600_000_000 <= a.asOf
      {
        assert ListsAttempt(s.db, c, a.asOf - RECONCILE_AFTER);
      }
    }
  }
}
