/** The statements on idempotency_keys and the two inserts that complete a key,
    carried out in place. */
module IdempotencyStore {
  import opened Options
  import opened IdempotencyRows
  import Rows = IdempotencyRows

  class Store {
    var clock: Time
    var records: map<Key, Record>
    var resources: map<nat, Origin>
    var files: set<nat>
    var eras: map<Key, nat>
    ghost var latest: map<Key, Claim>
    var nextId: nat
    var nextClaim: nat

    ghost function State(): Db
      reads this
    {
      Db(clock, records, resources, files, eras, latest, nextId, nextClaim)
    }

    constructor (now: Time)
      ensures State() == Empty(now)
    {
      clock, nextId, nextClaim := now, 0, 0;
      records, resources, eras, latest, files := map[], map[], map[], map[], {};
    }

    method PutClaim(k: Key, fingerprint: nat, expiresAt: Time) returns (r: Record)
      modifies this`records, this`latest, this`nextClaim
      ensures r == Record(fingerprint, InProgress, None, clock, expiresAt, old(nextClaim))
      ensures State() == Rows.NewClaim(old(State()), k, fingerprint, expiresAt)
    {
      r := Record(fingerprint, InProgress, None, clock, expiresAt, nextClaim);
      records := records[k := r];
      latest := latest[k := Claim(nextClaim, clock)];
      nextClaim := nextClaim + 1;
    }

    method InsertClaim(k: Key, fingerprint: nat, expiresAt: Time) returns (row: Option<Record>)
      modifies this`records, this`latest, this`nextClaim
      ensures row.Some? <==> k !in old(records)
      ensures row.Some? ==> row.value.claim == old(nextClaim) && row.value.createdAt == clock
      ensures State() == Rows.InsertClaim(old(State()), k, fingerprint, expiresAt)
    {
      if k in records { return None; }
      var r := PutClaim(k, fingerprint, expiresAt);
      row := Some(r);
    }

    method ReclaimStale(k: Key, fingerprint: nat, expiresAt: Time, cutoff: Time) returns (row: Option<Record>)
      modifies this`records, this`latest, this`nextClaim
      ensures row.Some? <==> Rows.Stale(old(State()), k, cutoff)
      ensures row.Some? ==> row.value.claim == old(nextClaim) && row.value.createdAt == clock
      ensures State() == Rows.ReclaimStale(old(State()), k, fingerprint, expiresAt, cutoff)
    {
      if k !in records || records[k].status != InProgress || records[k].createdAt >= cutoff { return None; }
      var r := PutClaim(k, fingerprint, expiresAt);
      row := Some(r);
    }

    method GetIdempotencyKey(k: Key) returns (row: Option<Record>)
      ensures row == Rows.Find(State(), k)
    {
      row := if k in records then Some(records[k]) else None;
    }

    method ReleaseIdempotencyClaim(k: Key, fingerprint: nat, claimedAt: Time)
      modifies this`records
      ensures State() == Rows.ReleaseClaim(old(State()), k, fingerprint, claimedAt)
    {
      if k in records {
        var r := records[k];
        if r.fingerprint == fingerprint && r.createdAt == claimedAt && r.status == InProgress {
          records := records - {k};
        }
      }
    }

    /** InsertMessage or CreateBroadcast: the resource, then the key; an update
        that matches no row rolls everything back. */
    method InsertResource(k: Key, fingerprint: nat, id: nat) returns (conflict: bool)
      modifies this`records, this`resources
      ensures conflict == !Rows.Completable(old(State()), k, fingerprint, id)
      ensures State() == Rows.Commit(old(State()), k, fingerprint, id)
    {
      if id in resources { return true; }
      var before := resources;
      var era := if k in eras then eras[k] else 0;
      resources := resources[id := Origin(k, fingerprint, era)];
      if k in records && records[k].status == InProgress && records[k].fingerprint == fingerprint {
        records := records[k := records[k].(status := Completed, resource := Some(id))];
        return false;
      }
      resources := before;
      conflict := true;
    }

    method SaveFile(id: nat)
      modifies this`files
      ensures State() == Rows.SaveFile(old(State()), id)
    {
      files := files + {id};
    }

    /** Rows that have not expired stay as they are. */
    method DeleteExpired(k: Key, now: Time)
      modifies this`records, this`eras
      ensures forall j :: j in records <==> j in old(records) && !(j == k && old(records)[j].expiresAt < now)
      ensures forall j :: j in records ==> records[j] == old(records)[j]
      ensures State() == Rows.Purge(old(State()), k, now)
    {
      if k in records && records[k].expiresAt < now {
        records := records - {k};
        eras := eras[k := (if k in eras then eras[k] else 0) + 1];
      }
    }
  }
}
