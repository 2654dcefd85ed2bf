/** What an Idempotency-Key guarantees over whole runs. */
module IdempotencyTheorems {
  import opened Options
  import opened IdempotencyRows
  import opened IdempotencyProtocol

  lemma EmptyIsCovered(now: Time)
    ensures SystemOk(System(Empty(now), map[]))
  {
  }

  // One resource a key.

  /** However requests claim, stall, reclaim, are refused and complete, and
      whatever their clocks say: a key has at most one committed message or
      broadcast until the expired key is purged. */
  lemma AtMostOneResource(s: System, acts: seq<Action>, i: nat, j: nat)
    requires SystemOk(s)
    requires i in Exec(s, acts).db.resources && j in Exec(s, acts).db.resources
    requires Exec(s, acts).db.resources[i].key == Exec(s, acts).db.resources[j].key
    requires Exec(s, acts).db.resources[i].era == Exec(s, acts).db.resources[j].era
    ensures i == j
  {
    ExecKeeps(s, acts);
  }

  /** The id a 202 response carried. */
  function Answer(pc: Pc): Option<nat> {
    match pc
    case Created(rq) => Some(rq.id)
    case Replayed(_, id, _) => Some(id)
    case _ => None
  }

  predicate Polled(pc: Pc) {
    pc.Replayed? && pc.via == PollRead
  }

  /** A 202 names a committed resource of the request's key, which for an email
      has its stored file; and of the request's own payload, unless the answer
      was polled for. */
  lemma AnswersAreBacked(s: System, acts: seq<Action>, e: nat)
    requires SystemOk(s) && e in Exec(s, acts).pcs && Answer(Exec(s, acts).pcs[e]).Some?
    ensures var s' := Exec(s, acts);
      var rq, id := s'.pcs[e].rq, Answer(s'.pcs[e]).value;
      && id in s'.db.resources && s'.db.resources[id].key == rq.key
      && (rq.key.operation == EmailsCreate ==> id in s'.db.files)
      && (!Polled(s'.pcs[e]) ==> s'.db.resources[id].fingerprint == rq.fingerprint)
  {
    ExecKeeps(s, acts);
    var s' := Exec(s, acts);
    assert PcOk(s'.db, s'.pcs[e]);
    assert ResourceOk(s'.db, Answer(s'.pcs[e]).value);
  }

  /** No email is ever accepted without the file it will be delivered from. */
  lemma EmailsAreBacked(s: System, acts: seq<Action>, id: nat)
    requires SystemOk(s)
    ensures var db := Exec(s, acts).db;
      id in db.resources && db.resources[id].key.operation == EmailsCreate ==> id in db.files
  {
    ExecKeeps(s, acts);
    assert id in Exec(s, acts).db.resources ==> ResourceOk(Exec(s, acts).db, id);
  }

  /** A request that stalled past the staleness window and lost its key to an
      identical retry answers with the retry's resource. */
  lemma LostRaceReplays(s: System, e: nat, c: Chance)
    requires SystemOk(s) && e in s.pcs && s.pcs[e].Committing? && c.outcome == Done
    requires var rq := s.pcs[e].rq;
      rq.key in s.db.records && s.db.records[rq.key].status == Completed && s.db.records[rq.key].fingerprint == rq.fingerprint
    ensures var rq := s.pcs[e].rq;
      var r := s.db.records[rq.key].resource;
      var s' := Exec(s, [Step(e, c), Step(e, c), Step(e, c)]);
      r.Some? && s'.db == s.db && s'.pcs == s.pcs[e := Replayed(rq, r.value, RaceRead)]
  {
    RaceLost(s, e, c);
    hide Apply, SystemOk;
    ThreeSteps(s, Step(e, c));
  }

  lemma ThreeSteps(s: System, a: Action)
    ensures Exec(s, [a, a, a]) == Apply(Apply(Apply(s, a), a), a)
  {
    hide Apply;
    calc {
      Exec(s, [a, a, a]);
    == { assert [a, a, a][1..] == [a, a]; }
      Exec(Apply(s, a), [a, a]);
    == { assert [a, a][1..] == [a]; }
      Exec(Apply(Apply(s, a), a), [a]);
    == { assert [a][1..] == []; }
      Apply(Apply(Apply(s, a), a), a);
    }
  }

  /** The insert is refused, the record is read, the resource is loaded. */
  lemma RaceLost(s: System, e: nat, c: Chance)
    requires SystemOk(s) && e in s.pcs && s.pcs[e].Committing? && c.outcome == Done
    requires var rq := s.pcs[e].rq;
      rq.key in s.db.records && s.db.records[rq.key].status == Completed && s.db.records[rq.key].fingerprint == rq.fingerprint
    ensures var rq := s.pcs[e].rq;
      var r := s.db.records[rq.key].resource;
      var a := Step(e, c);
      var s' := Apply(Apply(Apply(s, a), a), a);
      r.Some? && s'.db == s.db && s'.pcs == s.pcs[e := Replayed(rq, r.value, RaceRead)]
  {
    var rq := s.pcs[e].rq;
    var a := Step(e, c);
    assert RecordOk(s.db, rq.key);
    var r := s.db.records[rq.key].resource;
    assert Next(s.db, s.pcs[e], c) == (s.db, Recovering(rq));
    assert Next(s.db, Recovering(rq), c) == (s.db, Loading(rq, r.value, RaceRead));
    assert Next(s.db, Loading(rq, r.value, RaceRead), c) == (s.db, Replayed(rq, r.value, RaceRead));
    hide Next, SystemOk;
    assert Apply(s, a) == System(s.db, s.pcs[e := Recovering(rq)]);
    assert Apply(Apply(s, a), a) == System(s.db, s.pcs[e := Loading(rq, r.value, RaceRead)]);
  }

  // Payloads.

  /** The poll replays whatever completed. It is the request's own payload if
      and only if the completed row still carries its fingerprint, which the
      poll does not look at. */
  lemma PollIsOwnPayloadWhen(s: System, e: nat, c: Chance)
    requires SystemOk(s) && e in s.pcs && s.pcs[e].Polling?
    requires Apply(s, Step(e, c)).pcs[e].Loading?
    ensures var rq := s.pcs[e].rq;
      var id := Apply(s, Step(e, c)).pcs[e].id;
      && id in s.db.resources && rq.key in s.db.records
      && (s.db.resources[id].fingerprint == rq.fingerprint <==> s.db.records[rq.key].fingerprint == rq.fingerprint)
  {
  }

  ghost predicate OnlyPayload(s: System, k: Key, fingerprint: nat) {
    && (k in s.db.records ==> s.db.records[k].fingerprint == fingerprint)
    && (forall id :: id in s.db.resources && s.db.resources[id].key == k ==> s.db.resources[id].fingerprint == fingerprint)
    && (forall e :: e in s.pcs && !s.pcs[e].Answered? && s.pcs[e].rq.key == k ==> s.pcs[e].rq.fingerprint == fingerprint)
  }

  predicate ArrivalsCarry(acts: seq<Action>, k: Key, fingerprint: nat) {
    forall a :: a in acts && a.Arrive? && a.key == k ==> a.fingerprint == fingerprint
  }

  lemma {:induction false} PayloadStays(s: System, acts: seq<Action>, k: Key, fingerprint: nat)
    requires OnlyPayload(s, k, fingerprint) && ArrivalsCarry(acts, k, fingerprint)
    ensures OnlyPayload(Exec(s, acts), k, fingerprint)
    decreases |acts|
  {
    if acts != [] {
      assert acts[0] in acts;
      assert forall a :: a in acts[1..] ==> a in acts;
      PayloadStaysStep(s, acts[0], k, fingerprint);
      PayloadStays(Apply(s, acts[0]), acts[1..], k, fingerprint);
    }
  }

  lemma NextCarries(db: Db, pc: Pc, c: Chance)
    ensures var pc' := Next(db, pc, c).1;
      !pc'.Answered? ==> !pc.Answered? && pc'.rq == pc.rq
  {
  }

  lemma PayloadStaysStep(s: System, a: Action, k: Key, fingerprint: nat)
    requires OnlyPayload(s, k, fingerprint)
    requires a.Arrive? && a.key == k ==> a.fingerprint == fingerprint
    ensures OnlyPayload(Apply(s, a), k, fingerprint)
  {
    if a.Step? && a.request in s.pcs {
      var e := a.request;
      NextCarries(s.db, s.pcs[e], a.chance);
      RowsCarry(s.db, s.pcs[e], a.chance, k, fingerprint);
      hide Next;
    }
  }

  /** A statement writes rows of the payload its request carries. */
  lemma RowsCarry(db: Db, pc: Pc, c: Chance, k: Key, fingerprint: nat)
    requires k in db.records ==> db.records[k].fingerprint == fingerprint
    requires forall id :: id in db.resources && db.resources[id].key == k ==> db.resources[id].fingerprint == fingerprint
    requires !pc.Answered? && pc.rq.key == k ==> pc.rq.fingerprint == fingerprint
    ensures var db' := Next(db, pc, c).0;
      && (k in db'.records ==> db'.records[k].fingerprint == fingerprint)
      && (forall id :: id in db'.resources && db'.resources[id].key == k ==> db'.resources[id].fingerprint == fingerprint)
  {
    hide Goto;
  }

  /** When a key is never reused for another payload, every 202 for it names a
      resource of that payload, polled or not. */
  lemma OnePayloadAnswers(now: Time, acts: seq<Action>, k: Key, fingerprint: nat, e: nat)
    requires ArrivalsCarry(acts, k, fingerprint)
    requires var s' := Exec(System(Empty(now), map[]), acts);
      e in s'.pcs && Answer(s'.pcs[e]).Some? && s'.pcs[e].rq.key == k
    ensures var s' := Exec(System(Empty(now), map[]), acts);
      Answer(s'.pcs[e]).value in s'.db.resources && s'.db.resources[Answer(s'.pcs[e]).value].fingerprint == fingerprint
  {
    var s := System(Empty(now), map[]);
    PayloadStays(s, acts, k, fingerprint);
    AnswersAreBacked(s, acts, e);
  }
}
