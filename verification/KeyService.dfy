/** The key table's statements in place, and the service's own code over them:
    create, authenticate, rotate and revoke, each a run of ApiKeyLineage. */
module KeyService {
  import opened Options
  import opened ApiKeyRows
  import opened ApiKeyLineage
  import Rows = ApiKeyRows

  class KeyStore {
    var rows: map<nat, Row>
    var nextId: nat
    /** The application clock. */
    var clock: Time

    ghost function State(): Db
      reads this
    {
      Db(rows, nextId)
    }

    constructor (now: Time)
      ensures State() == Db(map[], 0) && clock == now
    {
      rows, nextId, clock := map[], 0, now;
    }

    method InsertAPIKey(expiresAt: Option<Time>) returns (id: nat)
      modifies this`rows, this`nextId
      ensures id == old(nextId) && State() == Rows.Insert(old(State()), expiresAt)
    {
      id := nextId;
      rows := rows[id := Row(expiresAt, None, None)];
      nextId := nextId + 1;
    }

    method GetAPIKey(id: nat) returns (row: Option<Row>)
      ensures row == if id in rows then Some(rows[id]) else None
    {
      row := if id in rows then Some(rows[id]) else None;
    }

    method RevokeAPIKey(id: nat, now: Time) returns (ok: bool)
      modifies this`rows
      ensures State() == Rows.Revoke(old(State()), id, now)
      ensures ok ==> id in old(rows) && rows == old(rows)[id := old(rows)[id].(revokedAt := Some(now))]
      ensures !ok ==> rows == old(rows)
      ensures ok <==> id in old(rows) && old(rows)[id].revokedAt.None?
    {
      if id !in rows || rows[id].revokedAt.Some? { return false; }
      rows := rows[id := rows[id].(revokedAt := Some(now))];
      ok := true;
    }

    /** Everything is checked again under the row lock. */
    method RotateAPIKey(id: nat, newExpiresAt: Option<Time>, now: Time, retireAt: Time) returns (reply: RotateReply)
      modifies this`rows, this`nextId
      ensures reply == NotFound <==> id !in old(rows)
      ensures reply == AlreadyRetired <==>
        id in old(rows) && (old(rows)[id].replacedBy.Some? || old(rows)[id].revokedAt.Some?)
      ensures reply.Rotated? <==> id in old(rows) && Rotatable(old(rows)[id], now)
      ensures reply == Rows.RotateReplyOf(old(State()), id, now)
      ensures State() == Rows.Rotate(old(State()), id, newExpiresAt, now, retireAt)
    {
      if id !in rows { return NotFound; }
      var row := rows[id];
      if row.replacedBy.Some? || row.revokedAt.Some? { return AlreadyRetired; }
      if row.expiresAt.Some? && row.expiresAt.value <= now { return AlreadyExpired; }
      var created := nextId;
      nextId := nextId + 1;
      rows := rows[id := row.(expiresAt := Some(retireAt), replacedBy := Some(created))];
      rows := rows[created := Row(newExpiresAt, None, None)];
      reply := Rotated(created);
    }
  }

  datatype AuthReply = Authenticated | UnknownKey | ErrRevoked | ErrExpired

  /** Not rotated, not revoked, not expired. */
  predicate Rotatable(row: Row, now: Time) {
    && row.replacedBy.None? && row.revokedAt.None?
    && (row.expiresAt.None? || row.expiresAt.value > now)
  }

  datatype RotateResult = NewKey(id: nat) | NoSuchKey | DeadKey

  class Service {
    const me: nat
    const store: KeyStore
    ghost var sys: System

    constructor (me: nat, store: KeyStore, ghost sys: System)
      requires store.State() == sys.db && store.clock == sys.clock && PcOf(sys, me) == Idle
      ensures this.me == me && this.store == store && this.sys == sys && At(sys, Idle)
    {
      this.me, this.store, this.sys := me, store, sys;
      new;
      ReachesItself(sys);
    }

    ghost predicate At(start: System, pc: Pc)
      reads this, store
    {
      store.State() == sys.db && store.clock == sys.clock && PcOf(sys, me) == pc && Reaches(start, sys)
    }

    /** Other calls and the clock. Callers know only the contract. */
    method Interfere(ghost start: System, ghost pc: Pc)
      requires At(start, pc)
      modifies this`sys, store
      ensures At(start, pc) && Reaches(old(sys), sys)
    {
      ReachesItself(sys);
    }

    ghost method Carry(start: System, a: Action, pc: Pc)
      requires Reaches(start, sys) && Apply(sys, a).db == store.State() && Apply(sys, a).clock == store.clock
      requires PcOf(Apply(sys, a), me) == pc
      modifies this`sys
      ensures At(start, pc) && sys == Apply(old(sys), a)
    {
      ReachesNext(start, sys, a);
      sys := Apply(sys, a);
    }

    /** The lifetime runs from the clock sampled before the insert. */
    method Create(ghost start: System, ttl: Option<Time>) returns (id: nat, ghost now: Time)
      requires At(start, Idle)
      modifies this`sys, store
      ensures At(start, Idle) && id in store.rows
      ensures store.rows[id].revokedAt == None && store.rows[id].replacedBy == None
      ensures store.rows[id].expiresAt == if ttl == None then None else Some(now + ttl.value)
    {
      hide Reaches;
      Interfere(start, Idle);
      now := store.clock;
      var expiresAt := if ttl.Some? then Some(store.clock + ttl.value) else None;
      Interfere(start, Idle);
      id := store.InsertAPIKey(expiresAt);
      Carry(start, ApiKeyLineage.Create(expiresAt), Idle);
    }

    /** Which answer, from the row that was read and the clock sampled after it. */
    method Authenticate(ghost start: System, id: nat) returns (reply: AuthReply, ghost read: System, ghost now: Time)
      requires At(start, Idle)
      modifies this`sys, store
      ensures At(start, Idle) && Reaches(start, read) && read.clock <= now == sys.clock
      ensures reply == UnknownKey <==> id !in read.db.rows
      ensures reply == ErrRevoked <==> id in read.db.rows && read.db.rows[id].revokedAt.Some?
      ensures reply == Authenticated <==>
        && id in read.db.rows && read.db.rows[id].revokedAt.None?
        && (read.db.rows[id].expiresAt.None? || read.db.rows[id].expiresAt.value > now)
      ensures reply == ErrExpired <==>
        && id in read.db.rows && read.db.rows[id].revokedAt.None?
        && read.db.rows[id].expiresAt.Some? && read.db.rows[id].expiresAt.value <= now
      ensures reply == Authenticated ==> Accepts(read.db, id, read.clock)
    {
      hide Reaches;
      Interfere(start, Idle);
      read := sys;
      now := sys.clock;
      var row := store.GetAPIKey(id);
      if row == None { return UnknownKey, read, now; }
      Carry(start, ReadForAuth(me, id), Deciding(id, row.value));
      ghost var before := sys;
      Interfere(start, Deciding(id, row.value));
      ClockMoved(before);
      now := sys.clock;
      var sampled := store.clock;
      Carry(start, Decide(me), Idle);
      if row.value.revokedAt.Some? { reply := ErrRevoked; }
      else if row.value.expiresAt.Some? && row.value.expiresAt.value <= sampled { reply := ErrExpired; }
      else { reply := Authenticated; }
    }

    ghost method ClockMoved(before: System)
      requires Reaches(before, sys)
      ensures before.clock <= sys.clock
    {
      var acts :| Exec(before, acts) == sys;
      ClockAdvances(before, acts);
    }

    method Revoke(ghost start: System, id: nat) returns (ok: bool)
      requires At(start, Idle)
      modifies this`sys, store
      ensures At(start, Idle)
      ensures ok ==> id in store.rows && store.rows[id].revokedAt == Some(store.clock)
    {
      hide Reaches;
      Interfere(start, Idle);
      var row := store.GetAPIKey(id);
      if row == None { return false; }
      Interfere(start, Idle);
      ok := store.RevokeAPIKey(id, store.clock);
      Carry(start, RevokeKey(id), Idle);
    }

    /** The clock is sampled before the lock; the row is checked on both sides.
        `locked` is the state the lock found, `now` the clock sampled before it. */
    method Rotate(ghost start: System, id: nat, grace: int)
      returns (r: RotateResult, ghost locked: System, ghost now: Time)
      requires LinksOk(start.db) && At(start, Idle)
      modifies this`sys, store
      ensures At(start, Idle)
      ensures r.NewKey? ==>
        && id in store.rows && store.rows[id].replacedBy == Some(r.id)
        && r.id in store.rows && store.rows[r.id].replacedBy == None && store.rows[r.id].revokedAt == None
      ensures Reaches(start, locked)
      ensures r.NewKey? ==> id in locked.db.rows && Rotatable(locked.db.rows[id], now)
      ensures r.NewKey? ==> store.rows[id].expiresAt == Some(now + grace)
    {
      hide Reaches;
      Interfere(start, Idle);
      locked, now := sys, sys.clock;
      var found := store.GetAPIKey(id);
      if found == None { return NoSuchKey, locked, now; }
      var row := found.value;
      Carry(start, ReadForRotate(me, id, grace), Checking(id, row, grace));
      Interfere(start, Checking(id, row, grace));
      var sampled := store.clock;
      now := sampled;
      if row.revokedAt.Some? || (row.expiresAt.Some? && row.expiresAt.value <= sampled) {
        Carry(start, Check(me), Idle);
        return DeadKey, sys, now;
      }
      Carry(start, Check(me), Locking(id, row.expiresAt, sampled, grace));
      r, locked := Retire(start, id, row.expiresAt, sampled, grace);
    }

    ghost method LinksHold(start: System)
      requires LinksOk(start.db) && Reaches(start, sys)
      ensures LinksOk(sys.db)
    {
      var acts :| Exec(start, acts) == sys;
      ExecLinks(start, acts);
    }

    method Retire(ghost start: System, id: nat, newExpiresAt: Option<Time>, now: Time, grace: int)
      returns (r: RotateResult, ghost locked: System)
      requires LinksOk(start.db) && At(start, Locking(id, newExpiresAt, now, grace))
      modifies this`sys, store
      ensures At(start, Idle)
      ensures r.NewKey? ==>
        && id in store.rows && store.rows[id].replacedBy == Some(r.id)
        && r.id in store.rows && store.rows[r.id].replacedBy == None && store.rows[r.id].revokedAt == None
      ensures Reaches(start, locked)
      ensures r.NewKey? ==> id in locked.db.rows && Rotatable(locked.db.rows[id], now)
      ensures r.NewKey? ==> store.rows[id].expiresAt == Some(now + grace)
    {
      hide Reaches;
      Interfere(start, Locking(id, newExpiresAt, now, grace));
      LinksHold(start);
      locked := sys;
      var reply := store.RotateAPIKey(id, newExpiresAt, now, now + grace);
      Carry(start, Commit(me), Idle);
      match reply {
        case Rotated(created) => return NewKey(created), locked;
        case NotFound => return NoSuchKey, locked;
        case _ => return DeadKey, locked;
      }
    }
  }
}
