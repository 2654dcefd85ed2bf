/** Keyset ("seek") pagination over a table ordered by (created_at, id).
    The same order and the same cursor predicate serve the audience snapshot
    scan, the recipient claim and every list endpoint. */
module Keyset {
  import opened Options

  /** A row's position in the order. `id` stands for the rank of the text
      identifier in the database's collation. */
  datatype Key = Key(at: int, id: int)

  /** The row comparison `(a.created_at, a.id) < (b.created_at, b.id)`. */
  predicate Less(a: Key, b: Key) {
    a.at < b.at || (a.at == b.at && a.id < b.id)
  }

  /** The predicate `cursor IS NULL OR (created_at, id) > cursor`. */
  predicate After(k: Key, cursor: Option<Key>) {
    cursor.None? || Less(cursor.value, k)
  }

  function Above(table: set<Key>, cursor: Option<Key>): set<Key> {
    set k | k in table && After(k, cursor)
  }

  predicate Increasing(q: seq<Key>) {
    forall i, j :: 0 <= i < j < |q| ==> Less(q[i], q[j])
  }

  /** The list q holds exactly the rows of s. */
  ghost predicate Lists(q: seq<Key>, s: set<Key>) {
    forall k :: k in q <==> k in s
  }

  ghost predicate IsLeast(m: Key, s: set<Key>) {
    m in s && forall k :: k in s ==> k == m || Less(m, k)
  }

  lemma {:induction false} LeastExists(s: set<Key>)
    requires s != {}
    ensures exists m :: IsLeast(m, s)
  {
    var x :| x in s;
    var rest := s - {x};
    assert forall k :: k in s ==> k == x || k in rest;
    if rest == {} {
      assert IsLeast(x, s);
    } else {
      LeastExists(rest);
      var n :| IsLeast(n, rest);
      if Less(x, n) {
        assert IsLeast(x, s);
      } else {
        assert IsLeast(n, s);
      }
    }
  }

  function Least(s: set<Key>): (m: Key)
    requires s != {}
    ensures IsLeast(m, s)
  {
    LeastExists(s);
    assert exists m :: m in s && forall k :: k in s ==> k == m || Less(m, k) by {
      var m :| IsLeast(m, s);
    }
    var m :| m in s && forall k :: k in s ==> k == m || Less(m, k);
    m
  }

  lemma SubsetCount(s: set<Key>, t: set<Key>)
    requires s <= t
    ensures |s| <= |t|
  {
    assert t == s + (t - s);
  }

  /** `ORDER BY created_at, id`. */
  function Sorted(s: set<Key>): (q: seq<Key>)
    ensures Increasing(q) && Lists(q, s) && |q| == |s|
    decreases |s|
  {
    if s == {} then [] else
      var m := Least(s);
      var rest := Sorted(s - {m});
      assert forall k :: k in s <==> k == m || k in s - {m};
      [m] + rest
  }

  lemma EmptyTogether(p: seq<Key>, q: seq<Key>)
    requires forall k :: k in q ==> k in p
    ensures q != [] ==> p != []
  {
    if q != [] { assert q[0] in p; }
  }

  /** Two increasing lists of the same rows are the same list: `ORDER BY` has
      exactly one answer. */
  lemma {:induction false} SortedIsUnique(p: seq<Key>, q: seq<Key>)
    requires Increasing(p) && Increasing(q)
    requires forall k :: k in p <==> k in q
    ensures p == q
    decreases |p|
  {
    EmptyTogether(p, q);
    if p != [] {
      assert p[0] in q && q[0] in p;
      assert p[0] == q[0];
      forall k ensures k in p[1..] <==> k in q[1..] {
        TailRows(p, k);
        TailRows(q, k);
      }
      SortedIsUnique(p[1..], q[1..]);
      assert p == [p[0]] + p[1..] && q == [q[0]] + q[1..];
    }
  }

  lemma TailRows(p: seq<Key>, k: Key)
    requires Increasing(p) && p != []
    ensures k in p[1..] <==> k in p && k != p[0]
  {
  }

  /** `WHERE (created_at, id) > cursor ORDER BY created_at, id LIMIT limit`. */
  function Page(table: set<Key>, cursor: Option<Key>, limit: nat): (page: seq<Key>)
    ensures |page| <= limit && |page| <= |Above(table, cursor)|
    ensures Increasing(page)
    ensures forall k :: k in page ==> k in table && After(k, cursor)
  {
    var q := Sorted(Above(table, cursor));
    assert forall k :: k in q ==> k in Above(table, cursor);
    assert |q| > limit ==> forall k :: k in q[..limit] ==> k in q;
    if |q| <= limit then q else q[..limit]
  }

  lemma RowsBeyond(q: seq<Key>, i: nat, k: Key)
    requires Increasing(q) && i < |q|
    ensures k in q[i + 1..] <==> k in q && Less(q[i], k)
  {
  }

  /** What lies beyond the i-th row of a sorted scan is the rest of the scan. */
  lemma SuffixIsSorted(table: set<Key>, cursor: Option<Key>, i: nat)
    requires i < |Sorted(Above(table, cursor))|
    ensures var q := Sorted(Above(table, cursor));
            Sorted(Above(table, Some(q[i]))) == q[i + 1..]
  {
    hide Sorted, Above, Less;
    var q := Sorted(Above(table, cursor));
    var rest := Above(table, Some(q[i]));
    assert q[i] in Above(table, cursor);
    forall k ensures k in q[i + 1..] <==> k in rest {
      RowsBeyond(q, i, k);
      AboveFrom(table, cursor, q[i], k);
    }
    SuffixIncreases(q, i);
    SortedIsUnique(q[i + 1..], Sorted(rest));
  }

  lemma AboveFrom(table: set<Key>, cursor: Option<Key>, x: Key, k: Key)
    requires x in Above(table, cursor)
    ensures k in Above(table, Some(x)) <==> k in Above(table, cursor) && Less(x, k)
  {
  }

  lemma SuffixIncreases(q: seq<Key>, i: nat)
    requires Increasing(q) && i < |q|
    ensures Increasing(q[i + 1..])
  {
  }

  /** A page takes the least rows: whatever it leaves out comes after it. */
  lemma PageIsPrefix(table: set<Key>, cursor: Option<Key>, limit: nat, k: Key)
    requires k in table && After(k, cursor)
    ensures var page := Page(table, cursor, limit);
            && (k in page || forall p :: p in page ==> Less(p, k))
            && (|page| < limit ==> k in page)
  {
    var q := Sorted(Above(table, cursor));
    var page := Page(table, cursor, limit);
    assert k in Above(table, cursor);
    var i :| 0 <= i < |q| && q[i] == k;
    if i < |page| {
      assert page[i] == k;
    } else {
      forall p | p in page ensures Less(p, k) {
        var j :| 0 <= j < |page| && page[j] == p;
        assert q[j] == p;
      }
    }
  }
}
