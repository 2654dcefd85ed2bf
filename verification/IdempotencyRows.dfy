/** The idempotency_keys table and the resources created under its keys: one
    function per SQL statement or transaction. */
module IdempotencyRows {
  import opened Options

  /** Microseconds. */
  type Time = int

  const RETENTION: Time := 86_400_000_000
  const STALE_AFTER: Time := 30_000_000

  datatype Operation = EmailsCreate | BroadcastsCreate

  /** (operation, idempotency_key) of one tenant. */
  datatype Key = Key(operation: Operation, name: nat)

  datatype Status = InProgress | Completed

  /** `claim` numbers the INSERTs and reclaims, to tell them apart. */
  datatype Record = Record(
    fingerprint: nat,
    status: Status,
    resource: Option<nat>,
    createdAt: Time,
    expiresAt: Time,
    claim: nat)

  /** A committed message or broadcast: the key and payload it was created for,
      and the key's era. An era ends when the expired key is purged. */
  datatype Origin = Origin(key: Key, fingerprint: nat, era: nat)

  datatype Claim = Claim(number: nat, at: Time)

  datatype Db = Db(
    clock: Time,
    records: map<Key, Record>,
    resources: map<nat, Origin>,
    files: set<nat>,
    eras: map<Key, nat>,
    latest: map<Key, Claim>,
    nextId: nat,
    nextClaim: nat)

  function Empty(now: Time): Db {
    Db(now, map[], map[], {}, map[], map[], 0, 0)
  }

  function EraOf(db: Db, k: Key): nat {
    if k in db.eras then db.eras[k] else 0
  }

  function NewClaim(db: Db, k: Key, fingerprint: nat, expiresAt: Time): Db {
    db.(records := db.records[k := Record(fingerprint, InProgress, None, db.clock, expiresAt, db.nextClaim)],
        latest := db.latest[k := Claim(db.nextClaim, db.clock)],
        nextClaim := db.nextClaim + 1)
  }

  /** `INSERT ... ON CONFLICT DO NOTHING`. */
  function InsertClaim(db: Db, k: Key, fingerprint: nat, expiresAt: Time): Db {
    if k in db.records then db else NewClaim(db, k, fingerprint, expiresAt)
  }

  predicate Stale(db: Db, k: Key, cutoff: Time) {
    k in db.records && db.records[k].status == InProgress && db.records[k].createdAt < cutoff
  }

  /** The reclaiming UPDATE resets created_at and the fingerprint. */
  function ReclaimStale(db: Db, k: Key, fingerprint: nat, expiresAt: Time, cutoff: Time): Db {
    if Stale(db, k, cutoff) then NewClaim(db, k, fingerprint, expiresAt) else db
  }

  predicate Releasable(db: Db, k: Key, fingerprint: nat, claimedAt: Time) {
    && k in db.records && db.records[k].status == InProgress
    && db.records[k].fingerprint == fingerprint && db.records[k].createdAt == claimedAt
  }

  function ReleaseClaim(db: Db, k: Key, fingerprint: nat, claimedAt: Time): Db {
    if Releasable(db, k, fingerprint, claimedAt) then db.(records := db.records - {k}) else db
  }

  /** The guard of the completing UPDATE: not the claim, only the payload. */
  predicate Completable(db: Db, k: Key, fingerprint: nat, id: nat) {
    k in db.records && db.records[k].status == InProgress && db.records[k].fingerprint == fingerprint
    && id !in db.resources
  }

  /** InsertMessage or CreateBroadcast with its key completion: one transaction,
      rolled back when the guard fails or the id is taken. */
  function Commit(db: Db, k: Key, fingerprint: nat, id: nat): Db {
    if !Completable(db, k, fingerprint, id) then db else
      db.(records := db.records[k := db.records[k].(status := Completed, resource := Some(id))],
          resources := db.resources[id := Origin(k, fingerprint, EraOf(db, k))])
  }

  function SaveFile(db: Db, id: nat): Db {
    db.(files := db.files + {id})
  }

  predicate Expired(db: Db, k: Key, now: Time) {
    k in db.records && db.records[k].expiresAt < now
  }

  /** DeleteExpiredIdempotencyKeys, for whichever expired rows it picks. */
  function Purge(db: Db, k: Key, now: Time): Db {
    if Expired(db, k, now)
    then db.(records := db.records - {k}, eras := db.eras[k := EraOf(db, k) + 1])
    else db
  }

  function Find(db: Db, k: Key): Option<Record> {
    if k in db.records then Some(db.records[k]) else None
  }
}
