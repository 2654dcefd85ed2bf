/** The recipient status the API reports, and the counts taken over it. It is
    derived at read time, so cancellation and a lost 'materialized' mark need
    no row updates. */
module EffectiveStatus {
  import opened Options
  import opened BroadcastRows
  import opened BroadcastInvariant
  import opened ExpansionProtocol
  import opened BroadcastTheorems
  import opened RecipientWrites
  import opened Completion

  datatype Reported = ReportsPending | ReportsCancelled | ReportsSuppressed | ReportsMaterialized | ReportsFailed

  function Stored(s: RecipientStatus): Reported {
    match s
    case Pending => ReportsPending
    case Suppressed => ReportsSuppressed
    case Materialized => ReportsMaterialized
    case Exhausted => ReportsFailed
  }

  /** `LEFT JOIN messages m ON m.id = coalesce(r.message_id, r.id)`. */
  predicate HasMessage(db: Db, r: nat)
    requires r in db.recipients
  {
    (match db.recipients[r].messageId case Some(m) => m case None => r) in db.messages
  }

  predicate InCancelled(db: Db, r: nat)
    requires r in db.recipients
  {
    var id := db.recipients[r].broadcast;
    id in db.broadcasts && db.broadcasts[id].status == Cancelled
  }

  function Effective(db: Db, r: nat): Reported
    requires r in db.recipients
  {
    var status := db.recipients[r].status;
    if status == Pending && HasMessage(db, r) then ReportsMaterialized
    else if status == Pending && InCancelled(db, r) then ReportsCancelled
    else Stored(status)
  }

  /** Which rows report what: cancelled only what is still owed in a cancelled
      broadcast, materialized also what has its message but not its mark. */
  lemma ReportsWhen(db: Db, r: nat)
    requires Inv(db) && r in db.recipients
    ensures var row, report := db.recipients[r], Effective(db, r);
      var cancelled := row.broadcast in db.broadcasts && db.broadcasts[row.broadcast].status == Cancelled;
      && (report == ReportsPending <==> row.status == Pending && r !in db.messages && !cancelled)
      && (report == ReportsCancelled <==> row.status == Pending && r !in db.messages && cancelled)
      && (report == ReportsSuppressed <==> row.status == Suppressed)
      && (report == ReportsFailed <==> row.status == Exhausted)
      && (report == ReportsMaterialized <==> row.status == Materialized || (row.status == Pending && r in db.messages))
  {
    assert RecipientOk(db, r);
  }

  function Reporting(db: Db, id: nat, status: Reported): set<nat> {
    set r | r in db.recipients && db.recipients[r].broadcast == id && Effective(db, r) == status
  }

  function Count(db: Db, id: nat, status: Reported): nat {
    |Reporting(db, id, status)|
  }

  lemma DisjointUnion(all: set<nat>, a: set<nat>, b: set<nat>)
    requires all == a + b && a !! b
    ensures |all| == |a| + |b|
  {
  }

  /** The five counts of the broadcast report add up to its recipients. */
  lemma CountsAddUp(db: Db, id: nat)
    ensures |Intended(db, id)| == Count(db, id, ReportsPending) + Count(db, id, ReportsCancelled)
      + Count(db, id, ReportsSuppressed) + Count(db, id, ReportsMaterialized) + Count(db, id, ReportsFailed)
  {
    var p, c := Reporting(db, id, ReportsPending), Reporting(db, id, ReportsCancelled);
    var s, m := Reporting(db, id, ReportsSuppressed), Reporting(db, id, ReportsMaterialized);
    var f := Reporting(db, id, ReportsFailed);
    var all := Intended(db, id);
    hide Effective;
    forall r | r in all ensures r in p || r in c || r in s || r in m || r in f {
      match Effective(db, r) {
        case ReportsPending => assert r in p;
        case ReportsCancelled => assert r in c;
        case ReportsSuppressed => assert r in s;
        case ReportsMaterialized => assert r in m;
        case ReportsFailed => assert r in f;
      }
    }
    assert all == p + (c + (s + (m + f)));
    DisjointUnion(all, p, c + (s + (m + f)));
    DisjointUnion(c + (s + (m + f)), c, s + (m + f));
    DisjointUnion(s + (m + f), s, m + f);
    DisjointUnion(m + f, m, f);
  }

  /** The expander's last statement for a recipient changes no reported status
      and so no count: a crash between the message insert and the mark cannot
      be seen through the API. */
  lemma MarkIsUnobservable(lim: Limits, s: System, e: nat, c: Chance, id: nat, status: Reported)
    requires SystemOk(s) && PcOf(s, e).Finish?
    ensures var db' := Apply(lim, s, Expand(e, c)).db;
      && db'.recipients.Keys == s.db.recipients.Keys
      && (forall r :: r in s.db.recipients ==> Effective(db', r) == Effective(s.db, r))
      && Count(db', id, status) == Count(s.db, id, status)
  {
    var pc := PcOf(s, e);
    var db' := Apply(lim, s, Expand(e, c)).db;
    assert PcOk(s.db, pc);
    assert RecipientOk(s.db, pc.rest[0]);
    hide SystemOk, Inv, PcOk;
    MarkKeepsReports(s.db, pc.rest[0]);
    assert db' in {s.db, MarkMaterialized(s.db, pc.rest[0])};
    hide *;
    SameReports(s.db, db', id, status);
  }

  lemma MarkKeepsReports(db: Db, m: nat)
    requires m in db.messages && m in db.recipients && RecipientOk(db, m)
    ensures var db' := MarkMaterialized(db, m);
      && db'.recipients.Keys == db.recipients.Keys
      && (forall r :: r in db.recipients ==> Effective(db', r) == Effective(db, r))
      && (forall r :: r in db.recipients ==> db'.recipients[r].broadcast == db.recipients[r].broadcast)
  {
  }

  lemma SameReports(a: Db, b: Db, id: nat, status: Reported)
    requires a.recipients.Keys == b.recipients.Keys
    requires forall r :: r in a.recipients ==> Effective(b, r) == Effective(a, r)
    requires forall r :: r in a.recipients ==> b.recipients[r].broadcast == a.recipients[r].broadcast
    ensures Count(a, id, status) == Count(b, id, status)
  {
    hide Effective;
    assert Reporting(a, id, status) == Reporting(b, id, status);
  }

  /** Cancelling moves every recipient reported pending, and no other, to
      cancelled, by writing one broadcast row. */
  lemma CancelMovesPending(db: Db, id: nat)
    requires CancelReply(db, id) == Changed
    ensures var db' := CancelBroadcast(db, id);
      && Reporting(db, id, ReportsCancelled) == {} && Reporting(db', id, ReportsPending) == {}
      && Reporting(db', id, ReportsCancelled) == Reporting(db, id, ReportsPending)
      && (forall s :: s !in {ReportsPending, ReportsCancelled} ==> Reporting(db', id, s) == Reporting(db, id, s))
      && (forall other, s :: other != id ==> Reporting(db', other, s) == Reporting(db, other, s))
  {
  }

  /** How a reported status may move along a run. Cancelled is not quite final:
      a status update already under way when the owner cancelled still lands on
      a pending row, and the row is then reported suppressed or failed. */
  predicate MayBecome(a: Reported, b: Reported) {
    a == b || a == ReportsPending || (a == ReportsCancelled && b in {ReportsSuppressed, ReportsFailed})
  }

  lemma ReportedStatusIsFinal(lim: Limits, s: System, acts: seq<Action>, r: nat)
    requires SystemOk(s) && Accounted(s.db) && r in s.db.recipients
    ensures var db' := Exec(lim, s, acts).db;
      r in db'.recipients && MayBecome(Effective(s.db, r), Effective(db', r))
  {
    var db' := Exec(lim, s, acts).db;
    ExecKeeps(lim, s, acts);
    MessagesAreMaterializedRecipients(lim, s, acts);
    assert RecipientOk(s.db, r) && RecipientOk(db', r);
    hide SystemOk, Inv;
    ReportFollowsRow(s.db, db', r);
  }

  lemma ReportFollowsRow(a: Db, b: Db, r: nat)
    requires Evolves(a, b) && Accounted(a) && Accounted(b) && r in a.recipients
    requires RecipientOk(a, r) && RecipientOk(b, r)
    ensures MayBecome(Effective(a, r), Effective(b, r))
  {
    var id := a.recipients[r].broadcast;
    assert RecipientEvolves(a.recipients[r], b.recipients[r]);
    assert BroadcastEvolves(a.broadcasts[id], b.broadcasts[id]);
    assert HasMessage(a, r) ==> r in a.messages;
    assert HasMessage(b, r) ==> r in b.messages;
    if a.recipients[r].status == Pending && InCancelled(a, r) {
      assert Ended(a, id) && Closed(a, r);
    }
  }

  /** The statements that overwrite a cancelled recipient: a suppression that was
      read before the cancellation, and the last counted failure. */
  predicate Overwrites(s: System, a: Action, r: nat)
    requires r in s.db.recipients
  {
    && a.Expand? && !a.chance.outcome.Failed?
    && var pc := PcOf(s, a.expander);
       && InRecipientLoop(pc) && pc.rest != [] && pc.rest[0] == r
       && ((pc.Each? && r in pc.sup)
           || (pc.FailRecipient? && s.db.recipients[r].attempts + 1 == MAX_RECIPIENT_ATTEMPTS))
  }

  predicate HeadIs(pc: Pc, r: nat)
    requires InRecipientLoop(pc)
  {
    pc.rest != [] && pc.rest[0] == r
  }

  /** No later state gives a cancelled recipient a message. */
  lemma CancelledHasNoMessage(a: Db, b: Db, r: nat)
    requires Evolves(a, b) && r in a.recipients && Effective(a, r) == ReportsCancelled
    requires RecipientOk(a, r) && RecipientOk(b, r)
    ensures r !in a.messages && !HasMessage(b, r) && InCancelled(b, r) && a.recipients[r].status == Pending
  {
    var id := a.recipients[r].broadcast;
    assert Ended(a, id) && Closed(a, r);
    ClosedIsStable(a, b, r);
    EndedIsStable(a, b, id);
    assert RecipientEvolves(a.recipients[r], b.recipients[r]);
  }

  /** The statement of the recipient loop that handles r itself. */
  lemma CancelledHeadMoves(db: Db, pc: Pc, c: Chance, r: nat)
    requires InRecipientLoop(pc) && HeadIs(pc, r) && PcOk(db, pc)
    requires r in db.recipients && r !in db.messages && InCancelled(db, r) && db.recipients[r].status == Pending
    requires RecipientOk(db, r)
    ensures var db' := NextForRecipient(db, pc, c).0;
      && r in db'.recipients
      && db'.recipients[r].status ==
           if c.outcome.Failed? then Pending
           else if pc.Each? && r in pc.sup then Suppressed
           else if pc.FailRecipient? && db.recipients[r].attempts + 1 == MAX_RECIPIENT_ATTEMPTS then Exhausted
           else Pending
  {
    assert !pc.Finish?;
  }

  predicate Handles(s: System, a: Action, r: nat) {
    a.Expand? && InRecipientLoop(PcOf(s, a.expander)) && HeadIs(PcOf(s, a.expander), r)
  }

  lemma OthersLeaveStatus(lim: Limits, s: System, a: Action, r: nat)
    requires SystemOk(s) && r in s.db.recipients && !Handles(s, a, r)
    ensures var db' := Apply(lim, s, a).db; r in db'.recipients && db'.recipients[r].status == s.db.recipients[r].status
  {
    if a.Expand? {
      StepRows(lim, s.db, PcOf(s, a.expander), a.chance);
      assert RowStep(PcOf(s, a.expander), r, s.db.recipients[r], Apply(lim, s, a).db.recipients[r]);
      hide Next, SystemOk, Inv;
    } else {
      OthersAddNoRecipients(lim, s, a);
      hide SystemOk, Inv;
    }
  }

  lemma CancelledRowMoves(lim: Limits, s: System, a: Action, r: nat)
    requires SystemOk(s) && r in s.db.recipients && Effective(s.db, r) == ReportsCancelled && RecipientOk(s.db, r)
    requires r !in s.db.messages && s.db.recipients[r].status == Pending
    ensures var db' := Apply(lim, s, a).db;
      && r in db'.recipients
      && db'.recipients[r].status ==
           if !Overwrites(s, a, r) then Pending else if PcOf(s, a.expander).Each? then Suppressed else Exhausted
  {
    if Handles(s, a, r) {
      var pc := PcOf(s, a.expander);
      assert PcOk(s.db, pc);
      hide SystemOk, Inv, Effective, PcOk, RecipientOk;
      CancelledHeadMoves(s.db, pc, a.chance, r);
      HandlerRuns(lim, s, a);
    } else {
      hide Apply, Next, SystemOk, Inv, Effective, RecipientOk;
      OthersLeaveStatus(lim, s, a, r);
    }
  }

  lemma HandlerRuns(lim: Limits, s: System, a: Action)
    requires a.Expand? && InRecipientLoop(PcOf(s, a.expander))
    ensures Apply(lim, s, a).db == NextForRecipient(s.db, PcOf(s, a.expander), a.chance).0
  {
    hide NextForRecipient;
  }

  /** Exactly when a report of cancelled moves, and to what. */
  lemma CancelledMovesWhen(lim: Limits, s: System, a: Action, r: nat)
    requires SystemOk(s) && r in s.db.recipients && Effective(s.db, r) == ReportsCancelled
    ensures var db' := Apply(lim, s, a).db;
      && r in db'.recipients
      && (Effective(db', r) != ReportsCancelled <==> Overwrites(s, a, r))
      && (Overwrites(s, a, r) ==>
            Effective(db', r) == if PcOf(s, a.expander).Each? then ReportsSuppressed else ReportsFailed)
  {
    var t := Apply(lim, s, a);
    ApplyKeeps(lim, s, a);
    assert RecipientOk(s.db, r) && RecipientOk(t.db, r) by { assert r in t.db.recipients; }
    hide Apply, SystemOk, Inv, RecipientOk, Overwrites;
    CancelledHasNoMessage(s.db, t.db, r);
    hide Evolves;
    CancelledRowMoves(lim, s, a, r);
  }

  /** Once the scan is complete or the broadcast has ended, the set of intended
      recipients is fixed for good. */
  lemma IntendedIsFixed(lim: Limits, s: System, acts: seq<Action>, id: nat)
    requires SystemOk(s) && Accounted(s.db) && id in s.db.broadcasts
    requires s.db.broadcasts[id].snapshotComplete || Ended(s.db, id)
    ensures Intended(Exec(lim, s, acts).db, id) == Intended(s.db, id)
  {
    var db' := Exec(lim, s, acts).db;
    ExecKeeps(lim, s, acts);
    MessagesAreMaterializedRecipients(lim, s, acts);
    forall r | r in Intended(s.db, id) ensures r in Intended(db', id) {
      assert RecipientEvolves(s.db.recipients[r], db'.recipients[r]);
    }
    forall r | r in Intended(db', id) ensures r in s.db.recipients && s.db.recipients[r].broadcast == id {
      assert SnapshotLogged(db', r);
      var i :| 0 <= i < |db'.log| && db'.log[i].Snapshotted? && db'.log[i].recipient == r;
      assert EventOk(db', db'.log[i]);
      if i < |s.db.log| {
        assert db'.log[i] == s.db.log[i];
        assert EventOk(s.db, s.db.log[i]);
      } else {
        assert MayFollow(s.db, db'.log[i]);
      }
    }
  }
}
