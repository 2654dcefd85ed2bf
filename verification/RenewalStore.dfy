/** The billing transactions, carried out in place. */
module RenewalStore {
  import opened Options
  import opened RenewalRows
  import Rows = RenewalRows

  class Store {
    var clock: Time
    var tenants: map<nat, Tenant>
    var attempts: map<Period, seq<Attempt>>
    var payments: map<Ref, Payment>
    ghost var extended: seq<Ref>

    ghost function State(): Db
      reads this
    {
      Db(clock, tenants, attempts, payments, extended)
    }

    constructor (now: Time)
      ensures State() == Db(now, map[], map[], map[], [])
    {
      clock := now;
      tenants, attempts, payments, extended := map[], map[], map[], [];
    }

    /** Counts the period's attempts and looks for one that blocks. */
    method ListAttempts(p: Period, now: Time) returns (n: nat, due: bool)
      ensures n == |Rows.AttemptsOf(State(), p)| && due == Rows.AttemptDue(Rows.AttemptsOf(State(), p), now)
    {
      var rows := if p in attempts then attempts[p] else [];
      var blocked := false;
      var last: Time := 0;
      n := 0;
      while n < |rows|
        invariant 0 <= n <= |rows|
        invariant blocked <==> exists i :: 0 <= i < n && rows[i].status != AttemptFailed
        invariant n > 0 ==> last == rows[n - 1].createdAt
      {
        last := rows[n].createdAt;
        if rows[n].status != AttemptFailed { blocked := true; }
        n := n + 1;
      }
      due := !(blocked || n >= MAX_ATTEMPTS || (n > 0 && now - last < RETRY_SPACING));
    }

    method ClaimRenewalAttempt(tenant: nat, now: Time) returns (c: Option<Claim>)
      modifies this`attempts
      ensures c.Some? <==> Rows.Claimable(old(State()), tenant, now)
      ensures c.Some? ==> c.value == Rows.ClaimOf(old(State()), tenant, now)
      ensures State() == Rows.ClaimAttempt(old(State()), tenant, now)
    {
      if tenant !in tenants { return None; }
      var t := tenants[tenant];
      if !PlanDue(t, now) { return None; }
      var p := Period(tenant, t.periodEnd.value);
      var n, due := ListAttempts(p, now);
      if !due { return None; }
      var amount := PriceUSDCents(t.plan);
      var rows := if p in attempts then attempts[p] else [];
      attempts := attempts[p := rows + [Attempt(t.plan, amount, AttemptPending, now)]];
      c := Some(Rows.Claim(Renewal(p, n + 1), tenant, t.plan, amount));
    }

    method FinishRenewalAttempt(ref: Ref, succeeded: bool) returns (ok: bool)
      modifies this`attempts
      ensures ok == Rows.IsPending(old(State()), ref)
      ensures State() == Rows.FinishAttempt(old(State()), ref, succeeded)
    {
      if !ref.Renewal? || ref.period !in attempts || ref.attempt < 1 || ref.attempt > |attempts[ref.period]| {
        return false;
      }
      var rows := attempts[ref.period];
      var i := ref.attempt - 1;
      if rows[i].status != AttemptPending { return false; }
      attempts := attempts[ref.period :=
        rows[i := rows[i].(status := if succeeded then AttemptSucceeded else AttemptFailed)]];
      ok := true;
    }

    function AgeOf(ref: Ref): (at: Time)
      reads this
      ensures at == Rows.CreatedAt(State(), ref)
    {
      if ref.Renewal? && ref.period in attempts && 1 <= ref.attempt <= |attempts[ref.period]|
      then attempts[ref.period][ref.attempt - 1].createdAt else 0
    }

    /** Oldest first, and no attempt twice. */
    ghost predicate InOrder(claims: seq<Claim>)
      reads this
    {
      forall i, j :: 0 <= i < j < |claims| ==>
        && Rows.CreatedAt(State(), claims[i].ref) <= Rows.CreatedAt(State(), claims[j].ref)
        && claims[i].ref != claims[j].ref
    }

    /** `claims` lists every pending attempt that is old enough, but for the
        periods still to do. */
    ghost predicate Listing(claims: seq<Claim>, olderThan: Time, todo: set<Period>)
      reads this
    {
      && InOrder(claims)
      && (forall c :: c in claims ==> Rows.ListsAttempt(State(), c, olderThan) && c.ref.period !in todo)
      && (forall ref :: Rows.PendingSince(State(), ref, olderThan) && ref.period !in todo ==>
            exists c :: c in claims && c.ref == ref)
    }

    /** Exactly the pending attempts old enough, each once and oldest first, with
        its own plan and price. */
    method PendingRenewalAttempts(olderThan: Time) returns (claims: seq<Claim>)
      ensures InOrder(claims)
      ensures forall c :: c in claims ==> Rows.ListsAttempt(State(), c, olderThan)
      ensures forall ref :: Rows.PendingSince(State(), ref, olderThan) ==> exists c :: c in claims && c.ref == ref
    {
      claims := [];
      var todo := attempts.Keys;
      while todo != {}
        invariant todo <= attempts.Keys && Listing(claims, olderThan, todo)
        decreases |todo|
      {
        var p :| p in todo;
        claims := AddPendingOf(p, olderThan, claims, todo);
        todo := todo - {p};
      }
    }

    method AddPendingOf(p: Period, olderThan: Time, before: seq<Claim>, ghost todo: set<Period>) returns (claims: seq<Claim>)
      requires p in attempts && p in todo && Listing(before, olderThan, todo)
      ensures Listing(claims, olderThan, todo - {p})
    {
      claims := before;
      var rows := attempts[p];
      var i := 0;
      while i < |rows|
        invariant 0 <= i <= |rows| && InOrder(claims)
        invariant forall c :: c in claims ==>
          Rows.ListsAttempt(State(), c, olderThan) && (c.ref.period !in todo || (c.ref.period == p && c.ref.attempt <= i))
        invariant forall c :: c in before ==> c in claims
        invariant forall j: nat :: j < i && rows[j].status == AttemptPending && rows[j].createdAt <= olderThan ==>
          exists c :: c in claims && c.ref == Renewal(p, j + 1)
      {
        if rows[i].status == AttemptPending && rows[i].createdAt <= olderThan {
          ghost var sofar := claims;
          claims := Place(claims, Rows.Claim(Renewal(p, i + 1), p.tenant, rows[i].plan, rows[i].amount));
          assert forall c :: c in sofar ==> c in claims;
        }
        i := i + 1;
      }
      forall ref | Rows.PendingSince(State(), ref, olderThan) && ref.period !in todo - {p}
        ensures exists c :: c in claims && c.ref == ref
      {
        if ref.period == p { assert ref == Renewal(p, ref.attempt - 1 + 1); }
      }
    }

    /** Behind everything that is not younger. */
    method Place(claims: seq<Claim>, c: Claim) returns (out: seq<Claim>)
      requires InOrder(claims) && forall d :: d in claims ==> d.ref != c.ref
      ensures InOrder(out) && forall d :: d in out <==> d in claims || d == c
    {
      hide Rows.CreatedAt, State;
      var i := 0;
      while i < |claims| && AgeOf(claims[i].ref) <= AgeOf(c.ref)
        invariant 0 <= i <= |claims|
        invariant forall j :: 0 <= j < i ==> Rows.CreatedAt(State(), claims[j].ref) <= Rows.CreatedAt(State(), c.ref)
      {
        i := i + 1;
      }
      out := claims[..i] + [c] + claims[i..];
      assert claims == claims[..i] + claims[i..];
      PlacedInOrder(claims, c, i);
    }

    lemma PlacedInOrder(claims: seq<Claim>, c: Claim, i: nat)
      requires InOrder(claims) && i <= |claims| && forall d :: d in claims ==> d.ref != c.ref
      requires forall j :: 0 <= j < i ==> Rows.CreatedAt(State(), claims[j].ref) <= Rows.CreatedAt(State(), c.ref)
      requires i < |claims| ==> Rows.CreatedAt(State(), c.ref) <= Rows.CreatedAt(State(), claims[i].ref)
      ensures InOrder(claims[..i] + [c] + claims[i..])
    {
      hide Rows.CreatedAt, State;
      var out := claims[..i] + [c] + claims[i..];
      assert forall j :: 0 <= j < i ==> out[j] == claims[j];
      assert forall j :: i < j < |out| ==> out[j] == claims[j - 1];
      assert forall j :: i <= j < |claims| ==> Rows.CreatedAt(State(), c.ref) <= Rows.CreatedAt(State(), claims[j].ref);
    }

    /** The UPDATE, then the INSERT; a known reference rolls both back. */
    method ApplyPlanPayment(ref: Ref, p: Payment) returns (reply: ApplyReply)
      modifies this`tenants, this`payments, this`extended
      ensures reply == Rows.ApplyReplyOf(old(State()), ref, p)
      ensures State() == Rows.ApplyPayment(old(State()), ref, p)
    {
      if !IsPaid(p.plan) { return NotPurchasable; }
      if p.tenant !in tenants { return NoTenant; }
      var before := tenants;
      var t := tenants[p.tenant];
      var from := if t.plan == p.plan && t.active && t.periodEnd.Some? && t.periodEnd.value > clock
                  then t.periodEnd.value else clock;
      if from < clock { from := clock; }
      tenants := tenants[p.tenant := t.(plan := p.plan, active := true, periodEnd := Some(from + PLAN_PERIOD))];
      if ref in payments {
        tenants := before;
        return AlreadyApplied;
      }
      payments := payments[ref := p];
      extended := extended + [ref];
      reply := Applied;
    }
  }
}
