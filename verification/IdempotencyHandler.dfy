/** The handlers' own code for a request with an Idempotency-Key: claim, poll,
    replay, refuse and complete, while other requests do the same between any
    two statements. Every path is shown to be a run of IdempotencyProtocol. */
module IdempotencyHandler {
  import opened Options
  import opened IdempotencyRows
  import opened IdempotencyProtocol
  import opened IdempotencyTheorems
  import opened IdempotencyStore

  const POLL_INTERVAL: Time := 100_000
  const POLL_TIMEOUT: Time := 5_000_000

  datatype ClaimReply = Owned(claim: nat, at: Time) | Existing(record: Record) | DbError

  datatype Resolution = Proceed(claim: nat, at: Time) | Replay(id: nat) | Failure

  /** What the reading of an existing record leads to. */
  function AfterRead(r: Record, rq: Request): Pc {
    if r.fingerprint != rq.fingerprint then Answered
    else if r.status == InProgress then Polling(rq)
    else Load(r, rq, LateRead)
  }

  /** The request is over and this was its answer. */
  predicate Over(pc: Pc, id: Option<nat>, replayed: bool) {
    match pc
    case Answered => id == None
    case Created(rq) => id == Some(rq.id) && !replayed
    case Replayed(_, i, _) => id == Some(i) && replayed
    case _ => false
  }

  class Handler {
    const me: nat
    const store: Store
    ghost var sys: System

    constructor (me: nat, store: Store, ghost sys: System)
      requires store.State() == sys.db
      ensures this.me == me && this.store == store && this.sys == sys
    {
      this.me, this.store, this.sys := me, store, sys;
    }

    ghost predicate At(start: System, pc: Pc)
      reads this, store
    {
      store.State() == sys.db && me in sys.pcs && sys.pcs[me] == pc && Reaches(start, sys)
    }

    /** Other requests, the purge and the clock. Callers know only the contract. */
    method Interfere(ghost start: System, ghost pc: Pc)
      requires At(start, pc)
      modifies this`sys, store
      ensures At(start, pc)
    {
    }

    ghost method Carry(start: System, pc: Pc, c: Chance, pc': Pc)
      requires me in sys.pcs && sys.pcs[me] == pc && Reaches(start, sys)
      requires store.State() == Effect(c, sys.db, After(sys.db, pc)) && pc' == Goto(sys.db, pc, c)
      modifies this`sys
      ensures At(start, pc')
    {
      ReachesNext(start, sys, Step(me, c));
      sys := Apply(sys, Step(me, c));
    }

    method Luck() returns (c: Chance)
    {
      c := *;
    }

    method TryInsert(ghost start: System, rq: Request) returns (reply: ClaimReply, goesOn: bool)
      requires At(start, Claiming(rq))
      modifies this`sys, store
      ensures goesOn ==> At(start, Reclaiming(rq))
      ensures !goesOn ==> !reply.Existing? && At(start, if reply.Owned? then Own(rq, reply.claim, reply.at) else Answered)
    {
      hide Reaches;
      Interfere(start, Claiming(rq));
      var c := Luck();
      var row := None;
      if c.outcome != Outcome.Failed { row := store.InsertClaim(rq.key, rq.fingerprint, rq.now + RETENTION); }
      goesOn := c.outcome == Done && row == None;
      reply := if c.outcome == Done && row.Some? then Owned(row.value.claim, row.value.createdAt) else DbError;
      Carry(start, Claiming(rq), c, Goto(sys.db, Claiming(rq), c));
    }

    method TryReclaim(ghost start: System, rq: Request) returns (reply: ClaimReply, goesOn: bool)
      requires At(start, Reclaiming(rq))
      modifies this`sys, store
      ensures goesOn ==> At(start, Reading(rq))
      ensures !goesOn ==> !reply.Existing? && At(start, if reply.Owned? then Own(rq, reply.claim, reply.at) else Answered)
    {
      hide Reaches;
      Interfere(start, Reclaiming(rq));
      var c := Luck();
      var row := None;
      if c.outcome != Outcome.Failed {
        row := store.ReclaimStale(rq.key, rq.fingerprint, rq.now + RETENTION, rq.now - STALE_AFTER);
      }
      goesOn := c.outcome == Done && row == None;
      reply := if c.outcome == Done && row.Some? then Owned(row.value.claim, row.value.createdAt) else DbError;
      Carry(start, Reclaiming(rq), c, Goto(sys.db, Reclaiming(rq), c));
    }

    method ReadExisting(ghost start: System, rq: Request) returns (reply: ClaimReply)
      requires At(start, Reading(rq))
      modifies this`sys, store
      ensures !reply.Owned? && At(start, if reply.Existing? then AfterRead(reply.record, rq) else Answered)
    {
      hide Reaches;
      Interfere(start, Reading(rq));
      var c := Luck();
      var row := store.GetIdempotencyKey(rq.key);
      reply := if c.outcome == Done && row.Some? then Existing(row.value) else DbError;
      Carry(start, Reading(rq), c, Goto(sys.db, Reading(rq), c));
    }

    /** Three statements, each its own transaction. */
    method ClaimIdempotencyKey(ghost start: System, rq: Request) returns (reply: ClaimReply)
      requires At(start, Claiming(rq))
      modifies this`sys, store
      ensures At(start, match reply
                        case Owned(claim, at) => Own(rq, claim, at)
                        case Existing(r) => AfterRead(r, rq)
                        case DbError => Answered)
    {
      hide At;
      var goesOn;
      reply, goesOn := TryInsert(start, rq);
      if !goesOn { return; }
      reply, goesOn := TryReclaim(start, rq);
      if !goesOn { return; }
      reply := ReadExisting(start, rq);
    }

    method PollOnce(ghost start: System, rq: Request, timeIsUp: bool) returns (row: Option<Record>, again: bool)
      requires At(start, Polling(rq))
      modifies this`sys, store
      ensures again ==> row == None && !timeIsUp && At(start, Polling(rq))
      ensures !again ==> At(start, if row.Some? then Load(row.value, rq, PollRead) else Answered)
    {
      hide Reaches;
      Interfere(start, Polling(rq));
      var c := Luck();
      // The deadline or a cancelled client ends the wait, nothing else does.
      c := c.(keepsPolling := !timeIsUp && c.keepsPolling);
      var found := store.GetIdempotencyKey(rq.key);
      row := if c.outcome == Done && Finished(found) then found else None;
      again := c.outcome == Done && found.Some? && row == None && c.keepsPolling;
      Carry(start, Polling(rq), c, Goto(sys.db, Polling(rq), c));
    }

    /** Bounded by the deadline: at most one read every 100 milliseconds for five
        seconds, and one more. */
    method PollIdempotencyCompletion(ghost start: System, rq: Request) returns (row: Option<Record>, ghost polls: nat)
      requires At(start, Polling(rq))
      modifies this`sys, store
      ensures At(start, if row.Some? then Load(row.value, rq, PollRead) else Answered)
      ensures 1 <= polls <= 51
    {
      hide At;
      polls := 0;
      var elapsed: Time := 0;
      while true
        invariant polls * POLL_INTERVAL <= elapsed <= POLL_TIMEOUT && At(start, Polling(rq))
        decreases POLL_TIMEOUT - elapsed
      {
        var delay: Time :| delay >= 0;
        elapsed := elapsed + POLL_INTERVAL + delay;
        var again;
        row, again := PollOnce(start, rq, elapsed > POLL_TIMEOUT);
        polls := polls + 1;
        if !again { return; }
      }
    }

    method LoadReplay(ghost start: System, rq: Request, r: Record, ghost via: Via) returns (id: Option<nat>)
      requires At(start, Load(r, rq, via))
      modifies this`sys, store
      ensures At(start, if id.Some? then Replayed(rq, id.value, via) else NoReplay(rq, via))
    {
      hide Reaches;
      if r.resource == None { return None; }
      Interfere(start, Loading(rq, r.resource.value, via));
      var c := Luck();
      id := if c.outcome == Done && r.resource.value in store.resources then r.resource else None;
      Carry(start, Loading(rq, r.resource.value, via), c, Goto(sys.db, Loading(rq, r.resource.value, via), c));
    }

    method ResolveIdempotency(ghost start: System, rq: Request) returns (r: Resolution, ghost via: Via)
      requires At(start, Claiming(rq))
      modifies this`sys, store
      ensures r.Proceed? ==> At(start, Own(rq, r.claim, r.at))
      ensures r.Replay? ==> At(start, Replayed(rq, r.id, via))
      ensures r.Failure? ==> At(start, Answered)
    {
      hide At;
      var reply := ClaimIdempotencyKey(start, rq);
      via := LateRead;
      if reply.Owned? { return Proceed(reply.claim, reply.at), via; }
      if reply.DbError? || reply.record.fingerprint != rq.fingerprint { return Failure, via; }
      var record := reply.record;
      if record.status == InProgress {
        via := PollRead;
        var polled, _ := PollIdempotencyCompletion(start, rq);
        if polled == None { return Failure, via; }
        record := polled.value;
      }
      var id := LoadReplay(start, rq, record, via);
      r := if id.Some? then Replay(id.value) else Failure;
    }

    /** Called before any work is done, and again after a lost race. */
    method ReplayIfCompleted(ghost start: System, rq: Request, ghost from: Pc) returns (id: Option<nat>)
      requires from == Early(rq) || from == Recovering(rq)
      requires At(start, from)
      modifies this`sys, store
      ensures id.Some? ==> At(start, Replayed(rq, id.value, if from.Early? then EarlyRead else RaceRead))
      ensures id == None ==> At(start, NoReplay(rq, if from.Early? then EarlyRead else RaceRead))
    {
      hide Reaches;
      Interfere(start, from);
      var c := Luck();
      var row := store.GetIdempotencyKey(rq.key);
      Carry(start, from, c, Goto(sys.db, from, c));
      if c.outcome != Done || !Replayable(row, rq) { return None; }
      id := LoadReplay(start, rq, row.value, if from.Early? then EarlyRead else RaceRead);
    }

    method AdmitSend(ghost start: System, rq: Request, ghost claim: nat, ghost at: Time) returns (admitted: bool)
      requires At(start, Admitting(rq, claim, at))
      modifies this`sys, store
      ensures At(start, if admitted then Saving(rq, claim, at) else Releasing(rq, claim, at))
    {
      hide Reaches;
      Interfere(start, Admitting(rq, claim, at));
      var c := Luck();
      admitted := c.outcome == Done && c.admitted;
      Carry(start, Admitting(rq, claim, at), c, Goto(sys.db, Admitting(rq, claim, at), c));
    }

    method ReleaseClaim(ghost start: System, rq: Request, ghost claim: nat, at: Time)
      requires At(start, Releasing(rq, claim, at))
      modifies this`sys, store
      ensures At(start, Answered)
    {
      hide Reaches;
      Interfere(start, Releasing(rq, claim, at));
      var c := Luck();
      if c.outcome != Outcome.Failed { store.ReleaseIdempotencyClaim(rq.key, rq.fingerprint, at); }
      Carry(start, Releasing(rq, claim, at), c, Answered);
    }

    method Save(ghost start: System, rq: Request, ghost claim: nat, ghost at: Time) returns (saved: bool)
      requires At(start, Saving(rq, claim, at))
      modifies this`sys, store
      ensures At(start, if saved then Committing(rq, claim, at) else Answered)
    {
      hide Reaches;
      Interfere(start, Saving(rq, claim, at));
      var c := Luck();
      if c.outcome != Outcome.Failed { store.SaveFile(rq.id); }
      saved := c.outcome == Done;
      Carry(start, Saving(rq, claim, at), c, Goto(sys.db, Saving(rq, claim, at), c));
    }

    method Insert(ghost start: System, rq: Request, ghost claim: nat, ghost at: Time) returns (ok: bool, conflict: bool)
      requires At(start, Committing(rq, claim, at))
      modifies this`sys, store
      ensures At(start, if ok then Created(rq) else if conflict then Recovering(rq) else Answered)
    {
      hide Reaches;
      Interfere(start, Committing(rq, claim, at));
      var c := Luck();
      var lost := true;
      if c.outcome != Outcome.Failed { lost := store.InsertResource(rq.key, rq.fingerprint, rq.id); }
      ok, conflict := c.outcome == Done && !lost, c.outcome == Done && lost;
      Carry(start, Committing(rq, claim, at), c, Goto(sys.db, Committing(rq, claim, at), c));
    }

    /** The end of both handlers: insert, and recover from a lost race. */
    method Complete(ghost start: System, rq: Request, ghost claim: nat, ghost at: Time)
      returns (id: Option<nat>, replayed: bool, ghost final: Pc)
      requires At(start, Committing(rq, claim, at))
      modifies this`sys, store
      ensures At(start, final) && Over(final, id, replayed) && (id.Some? ==> final.rq == rq && !Polled(final))
    {
      hide At;
      var ok, conflict := Insert(start, rq, claim, at);
      if ok { return Some(rq.id), false, Created(rq); }
      if !conflict { return None, false, Answered; }
      id := ReplayIfCompleted(start, rq, Recovering(rq));
      replayed := id.Some?;
      final := if id.Some? then Replayed(rq, id.value, RaceRead) else Answered;
    }

    /** What the caller of a handler may rely on: a 202 names a committed
        resource of its key, of its own payload unless the poll found it. */
    ghost predicate Answers(start: System, rq: Request, id: Option<nat>, replayed: bool, final: Pc)
      reads this, store
    {
      && At(start, final) && Over(final, id, replayed)
      && (id.Some? ==>
            && final.rq == rq && id.value in store.resources && store.resources[id.value].key == rq.key
            && (rq.key.operation == EmailsCreate ==> id.value in store.files)
            && (!Polled(final) ==> store.resources[id.value].fingerprint == rq.fingerprint))
    }

    ghost method Conclude(start: System, rq: Request, id: Option<nat>, replayed: bool, final: Pc)
      requires SystemOk(start) && At(start, final) && Over(final, id, replayed) && (id.Some? ==> final.rq == rq)
      ensures Answers(start, rq, id, replayed, final)
    {
      var acts :| Exec(start, acts) == sys;
      if id.Some? { AnswersAreBacked(start, acts, me); }
    }

    /** POST /v1/emails. */
    method AcceptOne(ghost start: System, rq: Request) returns (id: Option<nat>, replayed: bool, ghost final: Pc)
      requires SystemOk(start) && rq.key.operation == EmailsCreate && At(start, Early(rq))
      modifies this`sys, store
      ensures Answers(start, rq, id, replayed, final)
    {
      hide SystemOk, At, Answers;
      id, replayed, final := None, false, Answered;
      var early := ReplayIfCompleted(start, rq, Early(rq));
      if early.Some? {
        id, replayed, final := early, true, Replayed(rq, early.value, EarlyRead);
      } else {
        ghost var via;
        var r;
        r, via := ResolveIdempotency(start, rq);
        if r.Replay? {
          id, replayed, final := Some(r.id), true, Replayed(rq, r.id, via);
        } else if r.Proceed? {
          var admitted := AdmitSend(start, rq, r.claim, r.at);
          if !admitted {
            ReleaseClaim(start, rq, r.claim, r.at);
          } else {
            var saved := Save(start, rq, r.claim, r.at);
            if saved { id, replayed, final := Complete(start, rq, r.claim, r.at); }
          }
        }
      }
      Conclude(start, rq, id, replayed, final);
    }

    /** POST /v1/broadcasts: no early check, no abuse controls, no file. */
    method HandleCreate(ghost start: System, rq: Request) returns (id: Option<nat>, replayed: bool, ghost final: Pc)
      requires SystemOk(start) && rq.key.operation == BroadcastsCreate && At(start, Claiming(rq))
      modifies this`sys, store
      ensures Answers(start, rq, id, replayed, final)
    {
      hide SystemOk, At, Answers;
      id, replayed, final := None, false, Answered;
      ghost var via;
      var r;
      r, via := ResolveIdempotency(start, rq);
      if r.Replay? {
        id, replayed, final := Some(r.id), true, Replayed(rq, r.id, via);
      } else if r.Proceed? {
        id, replayed, final := Complete(start, rq, r.claim, r.at);
      }
      Conclude(start, rq, id, replayed, final);
    }
  }
}
