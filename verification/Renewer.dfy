/** The renewer's own code: claim, charge, settle, and reconcile what is still
    unknown; every pass is a run of RenewalProtocol. */
module Renewer {
  import opened Options
  import opened Paystack
  import opened RenewalRows
  import opened RenewalProtocol
  import opened RenewalTheorems
  import opened RenewalStore

  class Renewer {
    const me: nat
    const store: Store
    ghost var sys: System

    constructor (me: nat, store: Store, ghost sys: System)
      requires store.State() == sys.db && PcOf(sys, me) == Idle
      ensures this.me == me && this.store == store && this.sys == sys && At(sys, Idle)
    {
      this.me, this.store, this.sys := me, store, sys;
      new;
      ReachesItself(sys);
    }

    ghost predicate At(start: System, pc: Pc)
      reads this, store
    {
      store.State() == sys.db && PcOf(sys, me) == pc && Reaches(start, sys)
    }

    /** Other renewers, webhooks, owners, the gateway and the clock. Callers know
        only the contract. */
    method Interfere(ghost start: System, ghost pc: Pc)
      requires At(start, pc)
      modifies this`sys, store
      ensures At(start, pc)
    {
    }

    ghost method Carry(start: System, a: Action, pc: Pc)
      requires Reaches(start, sys) && Apply(sys, a).db == store.State() && PcOf(Apply(sys, a), me) == pc
      modifies this`sys
      ensures At(start, pc)
    {
      ReachesNext(start, sys, a);
      sys := Apply(sys, a);
    }

    method Luck() returns (how: Statement)
    {
      how := *;
    }

    /** What comes back over the network: anything an honest gateway may send.
        Callers know only the contract. */
    method Listen(ghost op: Op, ghost ref: Ref) returns (r: Reply)
      ensures MayReply(sys, op, ref, r)
    {
      r := NoReply;
    }

    // One method per statement or call.

    method ClaimRenewalAttempt(ghost start: System, tenant: nat, now: Time, cardReadable: bool) returns (c: Option<Claim>)
      requires At(start, Idle)
      modifies this`sys, store
      ensures At(start, if c.Some? then AfterClaim(c.value, Done, cardReadable) else Idle)
    {
      hide Reaches;
      Interfere(start, Idle);
      var how := Luck();
      if how == NotDone { return None; }
      c := store.ClaimRenewalAttempt(tenant, now);
      if c == None { return; }
      Carry(start, ClaimNext(me, tenant, now, how, cardReadable), AfterClaim(c.value, how, cardReadable));
      if how == Lost { c := None; }
    }

    method ChargeAuthorization(ghost start: System, c: Claim) returns (result: Result)
      requires At(start, Charging(c))
      modifies this`sys, store
      ensures At(start, Settling(c, result, []))
    {
      hide Reaches;
      Interfere(start, Charging(c));
      Carry(start, SendCharge(me), Awaiting(c));
      Interfere(start, Awaiting(c));
      var r := Listen(Op.ChargeAuthorization, c.ref);
      result := DoTx(Op.ChargeAuthorization, r);
      Carry(start, ChargeReply(me, r), Settling(c, result, []));
    }

    method VerifyTransaction(ghost start: System, c: Claim, ghost rest: seq<Claim>) returns (result: Result)
      requires rest != [] && rest[0] == c && At(start, Verifying(rest))
      modifies this`sys, store
      ensures At(start, Settling(c, result, rest[1..]))
    {
      hide Reaches;
      Interfere(start, Verifying(rest));
      var r := Listen(Op.VerifyTransaction, c.ref);
      result := DoTx(Op.VerifyTransaction, r);
      Carry(start, VerifyReply(me, r), Settling(c, result, rest[1..]));
    }

    method ApplyPlanPayment(ghost start: System, c: Claim, ghost rest: seq<Claim>) returns (applied: bool)
      requires At(start, Applying(c, rest))
      modifies this`sys, store
      ensures At(start, if applied then Finishing(c, true, rest) else Onward(rest))
    {
      hide Reaches;
      Interfere(start, Applying(c, rest));
      var how := Luck();
      var reply := NoTenant;
      if how != NotDone { reply := store.ApplyPlanPayment(c.ref, PaymentFor(c)); }
      applied := how == Done && (reply == Applied || reply == AlreadyApplied);
      Carry(start, RenewalProtocol.Settle(me, how), if applied then Finishing(c, true, rest) else Onward(rest));
    }

    method FinishRenewalAttempt(ghost start: System, c: Claim, succeeded: bool, ghost rest: seq<Claim>)
      requires At(start, Finishing(c, succeeded, rest))
      modifies this`sys, store
      ensures At(start, Onward(rest))
    {
      hide Reaches;
      Interfere(start, Finishing(c, succeeded, rest));
      var how := Luck();
      if how != NotDone { var _ := store.FinishRenewalAttempt(c.ref, succeeded); }
      Carry(start, RenewalProtocol.Settle(me, how), Onward(rest));
    }

    /** Where settle goes first. */
    ghost method Branch(start: System, c: Claim, result: Result, rest: seq<Claim>)
      requires At(start, Settling(c, result, rest))
      modifies this`sys
      ensures At(start, Settled(c, result, rest))
    {
      hide Reaches;
      Carry(start, RenewalProtocol.Settle(me, Done), Settled(c, result, rest));
    }

    /** Unknown outcomes stay pending, and so does money of the wrong amount. */
    method Settle(ghost start: System, c: Claim, result: Result, ghost rest: seq<Claim>)
      requires At(start, Settling(c, result, rest))
      modifies this`sys, store
      ensures At(start, Onward(rest))
    {
      hide At;
      Branch(start, c, result, rest);
      match result.outcome {
        case Unknown => return;
        case Failed => FinishRenewalAttempt(start, c, false, rest);
        case Succeeded =>
          if result.amount != c.amount || !EqualFold(result.currency, CURRENCY) { return; }
          var applied := ApplyPlanPayment(start, c, rest);
          if !applied { return; }
          FinishRenewalAttempt(start, c, true, rest);
      }
    }

    method RenewOne(ghost start: System, tenant: nat, now: Time, cardReadable: bool)
      requires At(start, Idle)
      modifies this`sys, store
      ensures At(start, Idle)
    {
      hide At;
      var claim := ClaimRenewalAttempt(start, tenant, now, cardReadable);
      if claim == None { return; }
      var c := claim.value;
      var result := FAILED;
      if cardReadable { result := ChargeAuthorization(start, c); }
      Settle(start, c, result, []);
    }

    method ListPending(ghost start: System, now: Time) returns (claims: seq<Claim>)
      requires At(start, Idle)
      modifies this`sys, store
      ensures At(start, Onward(claims))
    {
      hide Reaches;
      Interfere(start, Idle);
      claims := store.PendingRenewalAttempts(now - RECONCILE_AFTER);
      Carry(start, RenewalProtocol.ListPending(me, claims, now), Onward(claims));
    }

    method ReconcilePending(ghost start: System, now: Time)
      requires At(start, Idle)
      modifies this`sys, store
      ensures At(start, Idle)
    {
      hide At;
      var pending := ListPending(start, now);
      var i := 0;
      while i < |pending|
        invariant 0 <= i <= |pending| && At(start, Onward(pending[i..]))
      {
        ghost var rest := pending[i..];
        assert rest[1..] == pending[i + 1..];
        var result := VerifyTransaction(start, pending[i], rest);
        Settle(start, pending[i], result, rest[1..]);
        i := i + 1;
      }
      assert pending[i..] == [];
    }

    /** One pass: settle what is unknown, then charge what is due. */
    method RunOnce(candidates: seq<nat>, now: Time, readable: set<nat>)
      requires store.State() == sys.db && PcOf(sys, me) == Idle && PaidOk(sys) && KnownOk(sys)
      modifies this`sys, store
      ensures store.State() == sys.db && PcOf(sys, me) == Idle && PaidOk(sys) && KnownOk(sys)
      ensures Reaches(old(sys), sys)
    {
      ghost var start := sys;
      ReachesItself(start);
      RunPass(start, candidates, now, readable);
      ghost var acts :| Exec(start, acts) == sys;
      ExecPaid(start, acts);
    }

    method RunPass(ghost start: System, candidates: seq<nat>, now: Time, readable: set<nat>)
      requires At(start, Idle)
      modifies this`sys, store
      ensures At(start, Idle)
    {
      hide At;
      ReconcilePending(start, now);
      var i := 0;
      while i < |candidates|
        invariant At(start, Idle)
      {
        RenewOne(start, candidates[i], now, candidates[i] in readable);
        i := i + 1;
      }
    }
  }

  datatype Ack = AckApplied | AckAlreadyApplied | AckIgnored | AckInternalError

  /** The signed charge.success event: the second way a payment is applied. */
  datatype Event = Event(isChargeSuccess: bool, ref: Option<Ref>, tenant: Option<nat>, plan: Plan,
                         succeeded: bool, currency: string, amount: int)

  /** What the handler takes for a payment. */
  predicate IsPayment(ev: Event) {
    && ev.isChargeSuccess && ev.ref.Some? && ev.tenant.Some? && IsPaid(ev.plan)
    && ev.succeeded && EqualFold(ev.currency, CURRENCY) && ev.amount >= PriceUSDCents(ev.plan)
  }

  /** In figures: at least six or twenty-four dollars, for the plan that costs them. */
  lemma IsPaymentWhen(ev: Event)
    ensures IsPayment(ev) <==>
      && ev.isChargeSuccess && ev.succeeded && ev.ref.Some? && ev.tenant.Some? && IsDollars(ev.currency)
      && ((ev.plan == Plus && ev.amount >= 600) || (ev.plan == Pro && ev.amount >= 2400))
  {
    CurrencyIs(ev.currency);
  }

  /** `how` is the fate of the storage call. A 5xx makes the gateway send the
      event again; whether it was applied the first time makes no difference. */
  method HandleWebhook(store: Store, ghost sys: System, ev: Event, how: Statement) returns (ack: Ack, ghost after: System)
    requires store.State() == sys.db
    requires ev.isChargeSuccess && ev.succeeded && ev.ref.Some? ==> WasCharged(sys, ev.ref.value)
    modifies store
    ensures store.State() == after.db
    ensures after == if IsPayment(ev) && how != NotDone
      then Apply(sys, Webhook(ev.ref.value, Payment(ev.tenant.value, ev.plan, ev.amount))) else sys
    ensures ack == AckInternalError <==> IsPayment(ev) && how != Done
    ensures how == Done ==> (ack == AckApplied <==> after != sys)
    ensures ack == AckAlreadyApplied <==>
      IsPayment(ev) && how == Done && ev.ref.value in sys.db.payments && ev.tenant.value in sys.db.tenants
  {
    after := sys;
    if !ev.isChargeSuccess { return AckIgnored, after; }
    if ev.ref == None || ev.tenant == None || !IsPaid(ev.plan) { return AckIgnored, after; }
    if !ev.succeeded || !EqualFold(ev.currency, CURRENCY) || ev.amount < PriceUSDCents(ev.plan) { return AckIgnored, after; }
    if how == NotDone { return AckInternalError, after; }
    var payment := Payment(ev.tenant.value, ev.plan, ev.amount);
    var reply := store.ApplyPlanPayment(ev.ref.value, payment);
    after := Apply(sys, Webhook(ev.ref.value, payment));
    if reply == Applied {
      assert |after.db.extended| > |sys.db.extended|;
    } else {
      assert after == sys;
    }
    if how == Lost { return AckInternalError, after; }
    ack := match reply
      case Applied => AckApplied
      case AlreadyApplied => AckAlreadyApplied
      case _ => AckIgnored;
  }
}
