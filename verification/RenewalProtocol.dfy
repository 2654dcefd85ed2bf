/** Renewers, the payment gateway and its webhooks, interleaved: charges travel
    over a network that may delay or lose them, replies may get lost or say
    nothing, and the same payment may be applied from three places. */
module RenewalProtocol {
  import opened Options
  import opened Paystack
  import opened RenewalRows

  datatype Pc =
    | Idle
    /** Claimed, the charge not sent yet. */
    | Charging(c: Claim)
    /** Sent, waiting for the reply. */
    | Awaiting(c: Claim)
    /** reconcilePending's list, the first claim being verified. */
    | Verifying(rest: seq<Claim>)
    | Settling(c: Claim, result: Result, rest: seq<Claim>)
    | Applying(c: Claim, rest: seq<Claim>)
    | Finishing(c: Claim, succeeded: bool, rest: seq<Claim>)

  datatype Gateway = Gateway(inflight: set<Ref>, txs: map<Ref, Tx>)

  datatype System = System(db: Db, gateway: Gateway, pcs: map<nat, Pc>)

  /** How a statement ended: committed, not committed, or reply lost. */
  datatype Statement = Done | NotDone | Lost

  datatype Action =
    | ClaimNext(e: nat, tenant: nat, now: Time, how: Statement, cardReadable: bool)
    | SendCharge(e: nat)
    | ChargeReply(e: nat, reply: Reply)
    /** reconcilePending reads what is older than an hour on its own clock. */
    | ListPending(e: nat, claims: seq<Claim>, asOf: Time)
    | VerifyReply(e: nat, reply: Reply)
    | Settle(e: nat, how: Statement)
    | Crash(e: nat)
    | LoseRequest(ref: Ref)
    | Receive(ref: Ref, tx: Option<Tx>)
    | Move(ref: Ref, moved: Tx)
    | CheckoutPaid(n: nat)
    | Webhook(ref: Ref, payment: Payment)
    | Configure(tenant: nat, row: Tenant)
    | Tick(elapsed: nat)

  function TxOf(s: System, ref: Ref): Option<Tx> {
    if ref in s.gateway.txs then Some(s.gateway.txs[ref]) else None
  }

  function PcOf(s: System, e: nat): Pc {
    if e in s.pcs then s.pcs[e] else Idle
  }

  function Goes(s: System, e: nat, pc: Pc): System {
    s.(pcs := s.pcs[e := pc])
  }

  function Onward(rest: seq<Claim>): Pc {
    if rest == [] then Idle else Verifying(rest)
  }

  function Effect(how: Statement, before: Db, after: Db): Db {
    if how == NotDone then before else after
  }

  /** settle's branches on a result. */
  function Settled(c: Claim, result: Result, rest: seq<Claim>): Pc {
    match result.outcome
    case Unknown => Onward(rest)
    case Succeeded =>
      if result.amount != c.amount || !EqualFold(result.currency, CURRENCY) then Onward(rest)
      else Applying(c, rest)
    case Failed => Finishing(c, false, rest)
  }

  function PaymentFor(c: Claim): Payment {
    Payment(c.tenant, c.plan, c.amount)
  }

  /** The database's answers as the Go code sees them. */
  function AfterApply(db: Db, c: Claim, rest: seq<Claim>, how: Statement): Pc {
    if how == Done && ApplyReplyOf(db, c.ref, PaymentFor(c)) in {Applied, AlreadyApplied}
    then Finishing(c, true, rest) else Onward(rest)
  }

  function SettleStep(s: System, e: nat, how: Statement): System {
    match PcOf(s, e)
    case Settling(c, result, rest) => Goes(s, e, Settled(c, result, rest))
    case Applying(c, rest) =>
      Goes(s.(db := Effect(how, s.db, ApplyPayment(s.db, c.ref, PaymentFor(c)))), e, AfterApply(s.db, c, rest, how))
    case Finishing(c, succeeded, rest) =>
      Goes(s.(db := Effect(how, s.db, FinishAttempt(s.db, c.ref, succeeded))), e, Onward(rest))
    case _ => s
  }

  /** The result a claim is settled with when its saved card is unreadable. */
  function AfterClaim(c: Claim, how: Statement, cardReadable: bool): Pc {
    if how != Done then Idle
    else if cardReadable then Charging(c)
    else Settling(c, FAILED, [])
  }

  function ClaimStep(s: System, e: nat, tenant: nat, now: Time, how: Statement, cardReadable: bool): System {
    if PcOf(s, e) != Idle || !Claimable(s.db, tenant, now) then s else
      Goes(s.(db := Effect(how, s.db, ClaimAttempt(s.db, tenant, now))), e,
           AfterClaim(ClaimOf(s.db, tenant, now), how, cardReadable))
  }

  predicate Listed(db: Db, claims: seq<Claim>, olderThan: Time) {
    forall c :: c in claims ==> ListsAttempt(db, c, olderThan)
  }

  /** An honest reply: for a charge the request itself is no longer under way
      when it is refused, for a verification only the record counts. */
  predicate MayReply(s: System, op: Op, ref: Ref, r: Reply) {
    && Honest(op, r, TxOf(s, ref))
    && (op == ChargeAuthorization && DoTx(op, r).outcome == Failed ==> ref !in s.gateway.inflight)
  }

  function ChargeStep(s: System, e: nat, r: Reply): System {
    match PcOf(s, e)
    case Awaiting(c) =>
      if MayReply(s, ChargeAuthorization, c.ref, r) then Goes(s, e, Settling(c, DoTx(ChargeAuthorization, r), [])) else s
    case _ => s
  }

  function VerifyStep(s: System, e: nat, r: Reply): System {
    match PcOf(s, e)
    case Verifying(rest) =>
      if rest != [] && MayReply(s, VerifyTransaction, rest[0].ref, r)
      then Goes(s, e, Settling(rest[0], DoTx(VerifyTransaction, r), rest[1..])) else s
    case _ => s
  }

  function SendStep(s: System, e: nat): System {
    match PcOf(s, e)
    case Charging(c) =>
      Goes(s.(gateway := s.gateway.(inflight := s.gateway.inflight + {c.ref})), e, Awaiting(c))
    case _ => s
  }

  /** What an honest gateway may turn a record into. */
  predicate MayMove(before: Tx, after: Tx) {
    (before == Processing && after in {Charged, Declined}) || (before == Charged && after == Reversed)
  }

  function SetTx(s: System, ref: Ref, tx: Tx): System {
    s.(gateway := s.gateway.(txs := s.gateway.txs[ref := tx]))
  }

  /** A charge request arrives: refused, or recorded. A reference it already
      knows is refused. */
  function Received(s: System, ref: Ref, tx: Option<Tx>): System {
    if ref !in s.gateway.inflight then s else
      var t := s.(gateway := s.gateway.(inflight := s.gateway.inflight - {ref}));
      if tx.None? || ref in s.gateway.txs || tx.value == Reversed then t else SetTx(t, ref, tx.value)
  }

  /** A signed charge.success event. */
  predicate WasCharged(s: System, ref: Ref) {
    TxOf(s, ref) in {Some(Charged), Some(Reversed)}
  }

  /** Only a plausible payment is applied. */
  predicate Usable(p: Payment) {
    IsPaid(p.plan) && p.amount >= PriceUSDCents(p.plan)
  }

  function Apply(s: System, a: Action): System {
    match a
    case ClaimNext(e, tenant, now, how, cardReadable) => ClaimStep(s, e, tenant, now, how, cardReadable)
    case SendCharge(e) => SendStep(s, e)
    case ChargeReply(e, r) => ChargeStep(s, e, r)
    case ListPending(e, claims, asOf) =>
      if PcOf(s, e) == Idle && Listed(s.db, claims, asOf - RECONCILE_AFTER) then Goes(s, e, Onward(claims)) else s
    case VerifyReply(e, r) => VerifyStep(s, e, r)
    case Settle(e, how) => SettleStep(s, e, how)
    case Crash(e) => Goes(s, e, Idle)
    case LoseRequest(ref) => s.(gateway := s.gateway.(inflight := s.gateway.inflight - {ref}))
    case Receive(ref, tx) => Received(s, ref, tx)
    case Move(ref, tx) => if ref in s.gateway.txs && MayMove(s.gateway.txs[ref], tx) then SetTx(s, ref, tx) else s
    case CheckoutPaid(n) => if Checkout(n) in s.gateway.txs then s else SetTx(s, Checkout(n), Charged)
    case Webhook(ref, p) => if WasCharged(s, ref) && Usable(p) then s.(db := ApplyPayment(s.db, ref, p)) else s
    case Configure(t, row) => s.(db := s.db.(tenants := s.db.tenants[t := row]))
    case Tick(elapsed) => s.(db := s.db.(clock := s.db.clock + elapsed))
  }

  function Exec(s: System, acts: seq<Action>): System
    decreases |acts|
  {
    if acts == [] then s else Exec(Apply(s, acts[0]), acts[1..])
  }

  lemma {:induction false} ExecConcat(s: System, p: seq<Action>, q: seq<Action>)
    ensures Exec(s, p + q) == Exec(Exec(s, p), q)
    decreases |p|
  {
    if p == [] {
      assert p + q == q;
    } else {
      assert (p + q)[0] == p[0] && (p + q)[1..] == p[1..] + q;
      ExecConcat(Apply(s, p[0]), p[1..], q);
    }
  }

  ghost predicate Reaches(s: System, t: System) {
    exists acts :: Exec(s, acts) == t
  }

  lemma ReachesItself(s: System)
    ensures Reaches(s, s)
  {
    assert Exec(s, []) == s;
  }

  lemma ReachesNext(s: System, t: System, a: Action)
    requires Reaches(s, t)
    ensures Reaches(s, Apply(t, a))
  {
    hide Apply;
    var acts :| Exec(s, acts) == t;
    ExecConcat(s, acts, [a]);
    assert Exec(t, [a]) == Exec(Apply(t, a), []);
  }
}
