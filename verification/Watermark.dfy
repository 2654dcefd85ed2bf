/** Who joins too late: whatever the audience does after the watermark's instant,
    nobody new is sent the broadcast. */
module Watermark {
  import opened Options
  import opened Keyset
  import opened BroadcastRows
  import opened BroadcastInvariant
  import opened ExpansionProtocol
  import opened SnapshotScan
  import opened RecipientWrites

  /** Without a row so far, and not a member since the watermark or before. */
  ghost predicate TooLate(db: Db, id: nat, contact: int) {
    && id in db.broadcasts && db.broadcasts[id].snapshotAt < db.clock
    && (forall r :: r in db.recipients && db.recipients[r].broadcast == id ==> db.recipients[r].contact != contact)
    && var m := Member(db.broadcasts[id].audience, contact);
       m in db.members ==> db.broadcasts[id].snapshotAt < db.members[m]
  }

  /** Inserting a page gives no row to a contact it does not list. */
  lemma {:induction false} PageLeavesOut(db: Db, other: nat, page: seq<Key>, id: nat, contact: int)
    requires !HasRow(db, id, contact) && (other == id ==> forall k :: k in page ==> k.id != contact)
    ensures !HasRow(InsertMembers(db, other, page), id, contact)
    decreases |page|
  {
    if page != [] {
      assert page[0] in page;
      assert forall k :: k in page[1..] ==> k in page;
      assert !HasRow(InsertMember(db, other, page[0]), id, contact);
      PageLeavesOut(InsertMember(db, other, page[0]), other, page[1..], id, contact);
    }
  }

  lemma BatchLeavesOut(db: Db, other: nat, batch: nat, id: nat, contact: int)
    requires TooLate(db, id, contact)
    ensures !HasRow(SnapshotBatch(db, other, batch), id, contact)
  {
    assert !HasRow(db, id, contact);
    if other in db.broadcasts {
      var b := db.broadcasts[other];
      var page := Page(MemberKeys(db, b), b.cursor, batch);
      forall k | k in page && other == id ensures k.id != contact { assert k in MemberKeys(db, b); }
      hide MemberKeys, Page, InsertMembers, TooLate;
      PageLeavesOut(db, other, page, id, contact);
    }
  }

  lemma SnapshotLeavesOut(lim: Limits, db: Db, pc: Pc, c: Chance, id: nat, contact: int)
    requires pc.Snapshot? && TooLate(db, id, contact)
    ensures !HasRow(Next(lim, db, pc, c).0, id, contact)
  {
    hide SnapshotBatch, SnapshotReplyOf;
    assert !HasRow(db, id, contact);
    if pc.q != [] { BatchLeavesOut(db, pc.q[0].id, lim.snapshot, id, contact); }
  }

  lemma StatementLeavesOut(lim: Limits, db: Db, pc: Pc, c: Chance, id: nat, contact: int)
    requires Inv(db) && TooLate(db, id, contact) && Evolves(db, Next(lim, db, pc, c).0)
    ensures !HasRow(Next(lim, db, pc, c).0, id, contact)
  {
    hide Next, Inv;
    if pc.Snapshot? {
      SnapshotLeavesOut(lim, db, pc, c, id, contact);
    } else {
      StepRows(lim, db, pc, c);
      var db' := Next(lim, db, pc, c).0;
      forall r | r in db'.recipients ensures r in db.recipients && RecipientEvolves(db.recipients[r], db'.recipients[r]) {
        assert r in db.recipients;
      }
    }
  }

  lemma ExpansionLeavesOut(lim: Limits, s: System, e: nat, c: Chance, id: nat, contact: int)
    requires SystemOk(s) && TooLate(s.db, id, contact)
    ensures TooLate(Apply(lim, s, Expand(e, c)).db, id, contact)
  {
    NextKeeps(lim, s.db, PcOf(s, e), c);
    NextKeepsMembers(lim, s.db, PcOf(s, e), c);
    StatementLeavesOut(lim, s.db, PcOf(s, e), c, id, contact);
    ApplyExpand(lim, s, e, c);
    var db' := Next(lim, s.db, PcOf(s, e), c).0;
    hide Next, Apply, Inv;
    assert BroadcastEvolves(s.db.broadcasts[id], db'.broadcasts[id]);
  }

  lemma StepLeavesOut(lim: Limits, s: System, a: Action, id: nat, contact: int)
    requires SystemOk(s) && TooLate(s.db, id, contact)
    ensures TooLate(Apply(lim, s, a).db, id, contact)
  {
    if a.Expand? {
      ExpansionLeavesOut(lim, s, a.expander, a.chance, id, contact);
    } else {
      InvKeepsIdsFresh(s.db);
      hide SystemOk, Inv;
    }
  }

  /** In no run does a contact get in that was not a member in time, however often
      it joins and leaves. */
  lemma {:induction false} LateJoinersStayOut(lim: Limits, s: System, acts: seq<Action>, id: nat, contact: int)
    requires SystemOk(s) && TooLate(s.db, id, contact)
    ensures TooLate(Exec(lim, s, acts).db, id, contact)
    decreases |acts|
  {
    if acts != [] {
      hide Apply, SystemOk, TooLate;
      ApplyKeeps(lim, s, acts[0]);
      StepLeavesOut(lim, s, acts[0], id, contact);
      LateJoinersStayOut(lim, Apply(lim, s, acts[0]), acts[1..], id, contact);
    }
  }
}
