/** The list endpoints: limit + 1 rows are read, `limit` shown, and the last one
    shown becomes the cursor of the next page. */
module Pagination {
  import opened Options
  import opened Keyset

  const DEFAULT_LIMIT: nat := 20
  const MAX_LIMIT: nat := 100

  datatype PageReply = PageReply(rows: seq<Key>, next: Option<Key>)

  function Reply(table: set<Key>, cursor: Option<Key>, limit: nat): PageReply
    requires limit >= 1
  {
    var rows := Page(table, cursor, limit + 1);
    if |rows| > limit then PageReply(rows[..limit], Some(rows[limit - 1])) else PageReply(rows, None)
  }

  // The handler.

  datatype ListReply = Listed(page: PageReply) | InvalidLimit

  /** `ORDER BY created_at, id` is the recipients' order; the other lists run the
      other way, on keys turned around. */
  function Flip(k: Key): Key {
    Key(-k.at, -k.id)
  }

  function FlipAll(q: seq<Key>): (r: seq<Key>)
    ensures |r| == |q| && forall i :: 0 <= i < |q| ==> r[i] == Flip(q[i])
  {
    seq(|q|, i requires 0 <= i < |q| => Flip(q[i]))
  }

  function Flipped(table: set<Key>): set<Key> {
    set k | k in table :: Flip(k)
  }

  function FlipCursor(c: Option<Key>): Option<Key> {
    match c case None => None case Some(k) => Some(Flip(k))
  }

  /** `WHERE (created_at, id) < cursor ORDER BY created_at DESC, id DESC LIMIT limit`. */
  function DescPage(table: set<Key>, cursor: Option<Key>, limit: nat): seq<Key> {
    FlipAll(Page(Flipped(table), FlipCursor(cursor), limit))
  }

  lemma FlippedHas(table: set<Key>, k: Key)
    ensures Flip(k) in Flipped(table) <==> k in table
  {
  }

  predicate Before(k: Key, cursor: Option<Key>) {
    cursor.Some? ==> Less(k, cursor.value)
  }

  /** Newest first; among rows of one instant, the greater id. */
  predicate Falls(p: Key, q: Key) {
    p.at > q.at || (p.at == q.at && p.id > q.id)
  }

  predicate Past(k: Key, cursor: Option<Key>) {
    cursor.Some? ==> Falls(cursor.value, k)
  }

  /** What a list request reads, in its own words: rows past the cursor in falling
      order, and none left out that comes before a row shown. */
  lemma DescendingRowsAre(table: set<Key>, cursor: Option<Key>, limit: nat)
    ensures var page := RowsIn(Descending, table, cursor, limit);
      && |page| <= limit
      && (forall i, j :: 0 <= i < j < |page| ==> Falls(page[i], page[j]))
      && (forall k :: k in page ==> k in table && Past(k, cursor))
      && (forall k :: k in table && Past(k, cursor) ==>
            k in page || (|page| == limit && forall p :: p in page ==> Falls(p, k)))
  {
    DescPageIs(table, cursor, limit);
    hide DescPage;
  }

  /** The recipients' list: the same, rising. */
  lemma AscendingRowsAre(table: set<Key>, cursor: Option<Key>, limit: nat)
    ensures var page := RowsIn(Ascending, table, cursor, limit);
      && |page| <= limit
      && (forall i, j :: 0 <= i < j < |page| ==> Falls(page[j], page[i]))
      && (forall k :: k in page ==> k in table && (cursor.Some? ==> Falls(k, cursor.value)))
      && (forall k :: k in table && (cursor.Some? ==> Falls(k, cursor.value)) ==>
            k in page || (|page| == limit && forall p :: p in page ==> Falls(k, p)))
  {
    var page := RowsIn(Ascending, table, cursor, limit);
    forall k | k in table && After(k, cursor)
      ensures k in page || (|page| == limit && forall p :: p in page ==> Falls(k, p))
    {
      PageIsPrefix(table, cursor, limit, k);
    }
  }

  lemma DescPageIs(table: set<Key>, cursor: Option<Key>, limit: nat)
    ensures var page := DescPage(table, cursor, limit);
      && |page| <= limit
      && (forall i, j :: 0 <= i < j < |page| ==> Less(page[j], page[i]))
      && (forall k :: k in page ==> k in table && Before(k, cursor))
      && (forall k :: k in table && Before(k, cursor) ==>
            k in page || (|page| == limit && forall p :: p in page ==> Less(k, p)))
  {
    var page := DescPage(table, cursor, limit);
    DescPageFalls(table, cursor, limit);
    forall k | k in table && Before(k, cursor)
      ensures k in page || (|page| == limit && forall p :: p in page ==> Less(k, p))
    {
      DescPageHas(table, cursor, limit, k);
    }
  }

  lemma DescPageFalls(table: set<Key>, cursor: Option<Key>, limit: nat)
    ensures var page := DescPage(table, cursor, limit);
      && |page| <= limit
      && (forall i, j :: 0 <= i < j < |page| ==> Less(page[j], page[i]))
      && (forall k :: k in page ==> k in table && Before(k, cursor))
  {
    var up := Page(Flipped(table), FlipCursor(cursor), limit);
    var page := DescPage(table, cursor, limit);
    hide Page, Flipped;
    forall i | 0 <= i < |page| ensures page[i] in table && Before(page[i], cursor) {
      assert up[i] in up;
      assert Flip(page[i]) == up[i];
      FlippedHas(table, page[i]);
    }
  }

  lemma DescPageHas(table: set<Key>, cursor: Option<Key>, limit: nat, k: Key)
    requires k in table && Before(k, cursor)
    ensures var page := DescPage(table, cursor, limit);
      k in page || (|page| == limit && forall p :: p in page ==> Less(k, p))
  {
    hide Page, Flipped;
    var up := Page(Flipped(table), FlipCursor(cursor), limit);
    var page := DescPage(table, cursor, limit);
    FlippedHas(table, k);
    PageIsPrefix(Flipped(table), FlipCursor(cursor), limit, Flip(k));
    if Flip(k) in up {
      var i :| 0 <= i < |up| && up[i] == Flip(k);
      assert page[i] == Flip(Flip(k)) == k;
    } else {
      forall p | p in page ensures Less(k, p) {
        var i :| 0 <= i < |page| && page[i] == p;
        assert up[i] in up && up[i] == Flip(p);
      }
    }
  }

  datatype Order = Ascending | Descending

  function RowsIn(order: Order, table: set<Key>, cursor: Option<Key>, limit: nat): seq<Key> {
    if order == Ascending then Page(table, cursor, limit) else DescPage(table, cursor, limit)
  }

  function ReplyIn(order: Order, table: set<Key>, cursor: Option<Key>, limit: nat): PageReply
    requires limit >= 1
  {
    match order
    case Ascending => Reply(table, cursor, limit)
    case Descending =>
      var r := Reply(Flipped(table), FlipCursor(cursor), limit);
      PageReply(FlipAll(r.rows), FlipCursor(r.next))
  }

  lemma ReplyInShape(order: Order, table: set<Key>, cursor: Option<Key>, limit: nat)
    requires limit >= 1
    ensures var rows := RowsIn(order, table, cursor, limit + 1);
      ReplyIn(order, table, cursor, limit) ==
        if |rows| > limit then PageReply(rows[..limit], Some(rows[limit - 1])) else PageReply(rows, None)
  {
  }

  /** handleList: parse the limit, read one row too many, copy the page. */
  method HandleList(order: Order, table: set<Key>, param: Option<int>, cursor: Option<Key>) returns (reply: ListReply)
    ensures reply.InvalidLimit? <==> param.Some? && (param.value < 1 || param.value > 100)
    ensures reply.Listed? ==>
      var limit := if param.Some? then param.value else 20;
      1 <= limit <= 100 && reply.page == ReplyIn(order, table, cursor, limit)
  {
    hide RowsIn, ReplyIn;
    var limit: int := DEFAULT_LIMIT;
    if param.Some? {
      if param.value < 1 || param.value > MAX_LIMIT { return InvalidLimit; }
      limit := param.value;
    }
    var rows := RowsIn(order, table, cursor, limit + 1);
    var n := if |rows| < limit then |rows| else limit;
    var data: seq<Key> := [];
    for i := 0 to n
      invariant data == rows[..i]
    {
      data := data + [rows[i]];
    }
    assert n == |rows| ==> rows[..n] == rows;
    var next: Option<Key> := None;
    if |rows| > limit { next := Some(rows[limit - 1]); }
    ReplyInShape(order, table, cursor, limit);
    reply := Listed(PageReply(data, next));
  }

  // Following next_cursor over a table that does not change.

  lemma NextIsShorter(table: set<Key>, cursor: Option<Key>, limit: nat)
    requires limit >= 1 && Reply(table, cursor, limit).next.Some?
    ensures var q := Sorted(Above(table, cursor));
      && |q| > limit && Reply(table, cursor, limit).rows == q[..limit]
      && Sorted(Above(table, Reply(table, cursor, limit).next)) == q[limit..]
      && |Above(table, Reply(table, cursor, limit).next)| < |Above(table, cursor)|
  {
    ReplyTakes(table, cursor, limit);
    SuffixIsSorted(table, cursor, limit - 1);
    var q := Sorted(Above(table, cursor));
    hide Reply, Page, Above;
    assert |q[limit..]| < |q|;
  }

  lemma ReplyTakes(table: set<Key>, cursor: Option<Key>, limit: nat)
    requires limit >= 1
    ensures var q := Sorted(Above(table, cursor));
      Reply(table, cursor, limit) == if |q| > limit then PageReply(q[..limit], Some(q[limit - 1])) else PageReply(q, None)
  {
    PageTakes(table, cursor, limit + 1);
    hide Page, Sorted, Above, After, Increasing, Lists;
    var q := Sorted(Above(table, cursor));
    if |q| > limit + 1 { assert q[..limit + 1][..limit] == q[..limit]; }
  }

  lemma PageTakes(table: set<Key>, cursor: Option<Key>, limit: nat)
    ensures var q := Sorted(Above(table, cursor)); Page(table, cursor, limit) == if |q| <= limit then q else q[..limit]
  {
  }

  function Walk(table: set<Key>, cursor: Option<Key>, limit: nat): seq<PageReply>
    requires limit >= 1
    decreases |Above(table, cursor)|
  {
    var r := Reply(table, cursor, limit);
    if r.next.None? then [r] else
      NextIsShorter(table, cursor, limit);
      [r] + Walk(table, r.next, limit)
  }

  function AllRows(pages: seq<PageReply>): seq<Key>
    decreases |pages|
  {
    if pages == [] then [] else pages[0].rows + AllRows(pages[1..])
  }

  lemma WalkUnfolds(table: set<Key>, cursor: Option<Key>, limit: nat)
    requires limit >= 1
    ensures var r := Reply(table, cursor, limit);
      Walk(table, cursor, limit) == [r] + (if r.next.None? then [] else Walk(table, r.next, limit))
  {
  }

  lemma {:induction false} WalkFrom(table: set<Key>, cursor: Option<Key>, limit: nat)
    requires limit >= 1
    ensures AllRows(Walk(table, cursor, limit)) == Sorted(Above(table, cursor))
    decreases |Above(table, cursor)|
  {
    hide Walk, AllRows, Reply, Page, Above, Sorted, Increasing, Lists, After;
    var r := Reply(table, cursor, limit);
    ReplyTakes(table, cursor, limit);
    WalkUnfolds(table, cursor, limit);
    if r.next.None? {
      RowsOfCons(r, []);
    } else {
      NextIsShorter(table, cursor, limit);
      WalkFrom(table, r.next, limit);
      RowsOfCons(r, Walk(table, r.next, limit));
      TakeAndDrop(Sorted(Above(table, cursor)), limit);
    }
  }

  lemma TakeAndDrop(q: seq<Key>, n: nat)
    requires n <= |q|
    ensures q[..n] + q[n..] == q
  {
  }

  lemma RowsOfCons(r: PageReply, rest: seq<PageReply>)
    ensures AllRows([r] + rest) == r.rows + AllRows(rest)
    ensures AllRows([]) == []
  {
  }

  lemma NoCursorIsAll(table: set<Key>)
    ensures Above(table, None) == table
  {
  }

  /** Every row of the list once, in order. */
  lemma FixedWalkIsExact(table: set<Key>, limit: nat)
    requires limit >= 1
    ensures AllRows(Walk(table, None, limit)) == Sorted(table)
  {
    hide *;
    NoCursorIsAll(table);
    WalkFrom(table, None, limit);
  }

  /** And it stops: full pages until the one without a cursor. */
  lemma {:induction false} FixedWalkStops(table: set<Key>, cursor: Option<Key>, limit: nat)
    requires limit >= 1
    ensures var pages := Walk(table, cursor, limit);
      |pages| >= 1 && pages[|pages| - 1].next.None? && forall i :: 0 <= i < |pages| - 1 ==> |pages[i].rows| == limit
    decreases |Above(table, cursor)|
  {
    hide Reply, Page, Above, Sorted, Increasing, Lists, After;
    if Reply(table, cursor, limit).next.Some? {
      NextIsShorter(table, cursor, limit);
      FixedWalkStops(table, Reply(table, cursor, limit).next, limit);
    }
  }

  // Following it while rows come and go.

  /** The pages of a client that asks again as long as there is a cursor; each
      request finds the table as it is then. */
  function Pages(tables: seq<set<Key>>, cursor: Option<Key>, limit: nat): seq<PageReply>
    requires limit >= 1
    decreases |tables|
  {
    if tables == [] then [] else
      var r := Reply(tables[0], cursor, limit);
      if r.next.None? then [r] else [r] + Pages(tables[1..], r.next, limit)
  }

  lemma PageAfter(table: set<Key>, cursor: Option<Key>, limit: nat)
    requires limit >= 1
    ensures var r := Reply(table, cursor, limit);
      && Increasing(r.rows)
      && (forall k :: k in r.rows ==> k in table && After(k, cursor))
      && (r.next.Some? ==> After(r.next.value, cursor) && forall k :: k in r.rows ==> k == r.next.value || Less(k, r.next.value))
  {
  }

  /** Rows only ever move forward. */
  lemma {:induction false} ChangingWalkIncreases(tables: seq<set<Key>>, cursor: Option<Key>, limit: nat)
    requires limit >= 1
    ensures Increasing(AllRows(Pages(tables, cursor, limit)))
    ensures forall k :: k in AllRows(Pages(tables, cursor, limit)) ==> After(k, cursor)
    decreases |tables|
  {
    if tables != [] {
      var r := Reply(tables[0], cursor, limit);
      PageAfter(tables[0], cursor, limit);
      if r.next.None? {
        assert AllRows([r]) == r.rows + AllRows([]);
      } else {
        var rest := Pages(tables[1..], r.next, limit);
        ChangingWalkIncreases(tables[1..], r.next, limit);
        assert ([r] + rest)[1..] == rest;
        ForwardConcat(r.rows, AllRows(rest), r.next.value);
      }
    }
  }

  lemma ForwardConcat(p: seq<Key>, q: seq<Key>, last: Key)
    requires Increasing(p) && Increasing(q)
    requires forall k :: k in p ==> k == last || Less(k, last)
    requires forall k :: k in q ==> Less(last, k)
    ensures Increasing(p + q)
  {
    forall i, j | 0 <= i < j < |p + q| ensures Less((p + q)[i], (p + q)[j]) {
      if i < |p| <= j {
        assert p[i] in p && q[j - |p|] in q;
      }
    }
  }

  /** The client saw the end of the list. */
  predicate Ends(pages: seq<PageReply>) {
    pages != [] && pages[|pages| - 1].next.None?
  }

  lemma {:induction false} StayingRowsAreSeen(tables: seq<set<Key>>, cursor: Option<Key>, limit: nat, k: Key)
    requires limit >= 1 && Ends(Pages(tables, cursor, limit)) && After(k, cursor)
    requires forall t :: t in tables ==> k in t
    ensures k in AllRows(Pages(tables, cursor, limit))
    decreases |tables|
  {
    var r := Reply(tables[0], cursor, limit);
    assert tables[0] in tables;
    PageIsPrefix(tables[0], cursor, limit + 1, k);
    if r.next.None? {
      assert AllRows([r]) == r.rows + AllRows([]);
    } else {
      var rest := Pages(tables[1..], r.next, limit);
      assert ([r] + rest)[1..] == rest && AllRows([r] + rest) == r.rows + AllRows(rest);
      if k !in r.rows {
        SkippedIsLater(tables[0], cursor, limit, k);
        assert forall t :: t in tables[1..] ==> t in tables;
        assert Ends(rest) by { assert rest[|rest| - 1] == ([r] + rest)[|rest|]; }
        StayingRowsAreSeen(tables[1..], r.next, limit, k);
      }
    }
  }

  lemma SkippedIsLater(table: set<Key>, cursor: Option<Key>, limit: nat, k: Key)
    requires limit >= 1 && k in table && After(k, cursor)
    requires Reply(table, cursor, limit).next.Some? && k !in Reply(table, cursor, limit).rows
    ensures Less(Reply(table, cursor, limit).next.value, k)
  {
    var rows := Page(table, cursor, limit + 1);
    PageIsPrefix(table, cursor, limit + 1, k);
    if k in rows {
      var i :| 0 <= i < |rows| && rows[i] == k;
      assert forall j :: 0 <= j < limit ==> rows[j] in rows[..limit];
      assert i == limit;
    } else {
      assert rows[limit - 1] in rows;
    }
  }

  ghost predicate Stays(k: Key, tables: seq<set<Key>>) {
    forall t :: t in tables ==> k in t
  }

  /** While others insert and delete: no row is shown twice, the order is kept,
      and a row present throughout is shown by the time the list ends. */
  lemma ChangingWalkIsExact(tables: seq<set<Key>>, limit: nat, k: Key)
    requires limit >= 1
    ensures Increasing(AllRows(Pages(tables, None, limit)))
    ensures Ends(Pages(tables, None, limit)) && Stays(k, tables) ==> k in AllRows(Pages(tables, None, limit))
  {
    ChangingWalkIncreases(tables, None, limit);
    if Ends(Pages(tables, None, limit)) && Stays(k, tables) { StayingRowsAreSeen(tables, None, limit, k); }
  }

  // The descending lists: the same walk seen from the other end.

  function PagesIn(order: Order, tables: seq<set<Key>>, cursor: Option<Key>, limit: nat): seq<PageReply>
    requires limit >= 1
    decreases |tables|
  {
    if tables == [] then [] else
      var r := ReplyIn(order, tables[0], cursor, limit);
      if r.next.None? then [r] else [r] + PagesIn(order, tables[1..], r.next, limit)
  }

  function FlipTables(tables: seq<set<Key>>): (r: seq<set<Key>>)
    ensures |r| == |tables| && forall i :: 0 <= i < |r| ==> r[i] == Flipped(tables[i])
  {
    seq(|tables|, i requires 0 <= i < |tables| => Flipped(tables[i]))
  }

  lemma FlipConcat(p: seq<Key>, q: seq<Key>)
    ensures FlipAll(p + q) == FlipAll(p) + FlipAll(q)
    ensures FlipAll([]) == []
  {
  }

  lemma PagesUnfold(tables: seq<set<Key>>, cursor: Option<Key>, limit: nat)
    requires limit >= 1 && tables != []
    ensures var r := ReplyIn(Descending, tables[0], cursor, limit);
      var rest := if r.next.None? then [] else PagesIn(Descending, tables[1..], r.next, limit);
      PagesIn(Descending, tables, cursor, limit) == [r] + rest
    ensures var flipped := FlipTables(tables);
      var u := Reply(Flipped(tables[0]), FlipCursor(cursor), limit);
      var rest := if u.next.None? then [] else Pages(FlipTables(tables[1..]), u.next, limit);
      Pages(flipped, FlipCursor(cursor), limit) == [u] + rest
  {
    assert FlipTables(tables)[0] == Flipped(tables[0]) && FlipTables(tables)[1..] == FlipTables(tables[1..]);
    hide Reply, ReplyIn, Flipped, FlipTables, FlipCursor;
  }

  lemma ReplyFlips(table: set<Key>, cursor: Option<Key>, limit: nat)
    requires limit >= 1
    ensures var u, r := Reply(Flipped(table), FlipCursor(cursor), limit), ReplyIn(Descending, table, cursor, limit);
      && r.rows == FlipAll(u.rows) && FlipCursor(r.next) == u.next && (r.next.None? <==> u.next.None?)
  {
  }

  lemma EndsOfCons(r: PageReply, rest: seq<PageReply>)
    ensures Ends([r] + rest) <==> if rest == [] then r.next.None? else Ends(rest)
  {
  }

  lemma {:induction false} DescendingIsFlipped(tables: seq<set<Key>>, cursor: Option<Key>, limit: nat)
    requires limit >= 1
    ensures var down := PagesIn(Descending, tables, cursor, limit);
      var up := Pages(FlipTables(tables), FlipCursor(cursor), limit);
      AllRows(down) == FlipAll(AllRows(up)) && (Ends(down) <==> Ends(up)) && |down| == |up|
    decreases |tables|
  {
    if tables == [] {
      assert FlipTables(tables) == [];
    } else {
      hide Reply, ReplyIn, Flipped, FlipTables, FlipCursor, PagesIn, Pages, AllRows, Ends, FlipAll;
      var r := ReplyIn(Descending, tables[0], cursor, limit);
      var u := Reply(Flipped(tables[0]), FlipCursor(cursor), limit);
      var down, up := [], [];
      PagesUnfold(tables, cursor, limit);
      ReplyFlips(tables[0], cursor, limit);
      if u.next.Some? {
        DescendingIsFlipped(tables[1..], r.next, limit);
        down, up := PagesIn(Descending, tables[1..], r.next, limit), Pages(FlipTables(tables[1..]), u.next, limit);
      }
      RowsOfCons(r, down);
      RowsOfCons(u, up);
      EndsOfCons(r, down);
      EndsOfCons(u, up);
      FlipConcat(u.rows, AllRows(up));
    }
  }

  ghost predicate Decreasing(q: seq<Key>) {
    forall i, j :: 0 <= i < j < |q| ==> Less(q[j], q[i])
  }

  lemma FlippedIncreases(up: seq<Key>, k: Key)
    requires Increasing(up)
    ensures Decreasing(FlipAll(up))
    ensures Flip(k) in up ==> k in FlipAll(up)
  {
  }

  lemma FlippedTablesHave(tables: seq<set<Key>>, k: Key)
    requires Stays(k, tables)
    ensures Stays(Flip(k), FlipTables(tables))
  {
  }

  /** The same guarantee for contacts, audiences, templates, broadcasts and
      emails, which are listed newest first. */
  lemma DescendingWalkIsExact(tables: seq<set<Key>>, limit: nat, k: Key)
    requires limit >= 1
    ensures Decreasing(AllRows(PagesIn(Descending, tables, None, limit)))
    ensures Ends(PagesIn(Descending, tables, None, limit)) && Stays(k, tables) ==>
      k in AllRows(PagesIn(Descending, tables, None, limit))
  {
    DescendingIsFlipped(tables, None, limit);
    assert FlipCursor(None) == None;
    ChangingWalkIsExact(FlipTables(tables), limit, Flip(k));
    hide PagesIn, Pages, AllRows, Ends, FlipTables, Flipped, Stays, Increasing, Decreasing;
    FlippedIncreases(AllRows(Pages(FlipTables(tables), None, limit)), k);
    if Stays(k, tables) { FlippedTablesHave(tables, k); }
  }

  // Audience members.

  /** The query orders by the membership's created_at, the cursor carries the
      contact's. */
  datatype Membership = Membership(addedAt: int, contact: int, contactCreatedAt: int)

  function PositionOf(m: Membership): Key {
    Key(m.addedAt, m.contact)
  }

  function Positions(members: set<Membership>): set<Key> {
    set m | m in members :: PositionOf(m)
  }

  /** One membership row per contact, added no earlier than the contact. */
  ghost predicate MembersOk(members: set<Membership>) {
    && (forall m, n :: m in members && n in members && m.contact == n.contact ==> m == n)
    && (forall m :: m in members ==> m.contactCreatedAt <= m.addedAt)
  }

  function MembersCursor(m: Membership): Key {
    Key(m.contactCreatedAt, m.contact)
  }

  /** The next page shows nothing again if and only if the last contact shown was
      created at the instant it was added. */
  lemma MembersPageAdvancesWhen(members: set<Membership>, cursor: Option<Key>, limit: nat, last: Membership)
    requires limit >= 1 && MembersOk(members) && last in members
    requires Reply(Positions(members), cursor, limit).next == Some(PositionOf(last))
    ensures (forall k :: k in Reply(Positions(members), cursor, limit).rows ==>
               k !in Above(Positions(members), Some(MembersCursor(last))))
      <==> last.contactCreatedAt == last.addedAt
  {
    var r := Reply(Positions(members), cursor, limit);
    PageAfter(Positions(members), cursor, limit);
    assert PositionOf(last) in r.rows by {
      var rows := Page(Positions(members), cursor, limit + 1);
      assert rows[..limit][limit - 1] == PositionOf(last);
    }
  }

  /** Members added in one go after their contacts: from the first page the
      client never gets any further. */
  lemma MembersWalkMayLoop(members: set<Membership>, limit: nat, last: Membership)
    requires limit >= 1 && MembersOk(members) && last in members
    requires Reply(Positions(members), None, limit).next == Some(PositionOf(last))
    requires forall m :: m in members ==> Less(MembersCursor(last), PositionOf(m))
    ensures Reply(Positions(members), Some(MembersCursor(last)), limit) == Reply(Positions(members), None, limit)
  {
    assert Above(Positions(members), Some(MembersCursor(last))) == Above(Positions(members), None);
  }
}
