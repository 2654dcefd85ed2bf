/** The api_keys table: one function per statement or transaction. */
module ApiKeyRows {
  import opened Options

  /** The application clock, shared by every process. */
  type Time = int

  datatype Row = Row(expiresAt: Option<Time>, revokedAt: Option<Time>, replacedBy: Option<nat>)

  datatype Db = Db(rows: map<nat, Row>, nextId: nat)

  /** The tests of Authenticate, once the secret has been verified. */
  predicate Alive(r: Row, now: Time) {
    r.revokedAt.None? && (r.expiresAt.None? || r.expiresAt.value > now)
  }

  predicate Accepts(db: Db, k: nat, now: Time) {
    k in db.rows && Alive(db.rows[k], now)
  }

  function Insert(db: Db, expiresAt: Option<Time>): Db {
    Db(db.rows[db.nextId := Row(expiresAt, None, None)], db.nextId + 1)
  }

  function Revoke(db: Db, k: nat, now: Time): Db {
    if k in db.rows && db.rows[k].revokedAt.None?
    then db.(rows := db.rows[k := db.rows[k].(revokedAt := Some(now))])
    else db
  }

  datatype RotateReply = Rotated(created: nat) | NotFound | AlreadyRetired | AlreadyExpired

  /** The checks RotateAPIKey makes under the row lock. */
  function RotateReplyOf(db: Db, k: nat, now: Time): RotateReply {
    if k !in db.rows then NotFound
    else if db.rows[k].replacedBy.Some? || db.rows[k].revokedAt.Some? then AlreadyRetired
    else if db.rows[k].expiresAt.Some? && db.rows[k].expiresAt.value <= now then AlreadyExpired
    else Rotated(db.nextId)
  }

  /** A new key, and the old one retired at retireAt: both or neither. */
  function Rotate(db: Db, k: nat, newExpiresAt: Option<Time>, now: Time, retireAt: Time): Db {
    if !RotateReplyOf(db, k, now).Rotated? then db else
      var row := db.rows[k];
      Db(db.rows[k := row.(expiresAt := Some(retireAt), replacedBy := Some(db.nextId))]
                [db.nextId := Row(newExpiresAt, None, None)],
         db.nextId + 1)
  }
}
