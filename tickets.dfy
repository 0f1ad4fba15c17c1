/** The rows a GLPI ticket search returns, and how the poller picks the
    newest one: it sorts the fetched page in place, descending on the id
    column, and takes the first row (background.js:66-72). */
module Tickets {

  /** One row of `data` in a GLPI search response. Column 2 (the
      "forcedisplay" search option 2) holds the ticket id; the other
      displayed columns are kept by search-option number. */
  datatype Row = Row(id: int, otherColumns: map<int, string>)

  /** `m` is the largest id on the page and some row carries it. */
  ghost predicate IsMaxId(rows: seq<Row>, m: int) {
    && (exists i :: 0 <= i < |rows| && rows[i].id == m)
    && (forall i :: 0 <= i < |rows| ==> rows[i].id <= m)
  }

  /** The largest id on a non-empty page, independent of the order of the
      rows: the reference definition the in-place sort is proved against. */
  function MaxId(rows: seq<Row>): (m: int)
    requires |rows| > 0
    ensures exists i :: 0 <= i < |rows| && rows[i].id == m
    ensures forall i :: 0 <= i < |rows| ==> rows[i].id <= m
  {
    if |rows| == 1 then rows[0].id
    else
      var rest := MaxId(rows[1..]);
      assert forall i :: 1 <= i < |rows| ==> rows[i] == rows[1..][i - 1];
      if rows[0].id >= rest then rows[0].id else rest
  }

  /** Any value with the two defining properties is `MaxId`. */
  lemma MaxIdUnique(rows: seq<Row>, m: int)
    requires IsMaxId(rows, m)
    ensures |rows| > 0 && MaxId(rows) == m
  {
  }

  /** The newest id does not depend on the order the backend returns the
      rows in: reordering the page leaves `MaxId` unchanged. */
  lemma MaxIdOfPermutation(rows: seq<Row>, reordered: seq<Row>)
    requires |rows| > 0
    requires multiset(rows) == multiset(reordered)
    ensures |reordered| > 0 && MaxId(reordered) == MaxId(rows)
  {
    assert |reordered| == |multiset(reordered)| == |multiset(rows)| == |rows|;
    var i :| 0 <= i < |rows| && rows[i].id == MaxId(rows);
    assert rows[i] in multiset(reordered);
    var j :| 0 <= j < |reordered| && reordered[j] == rows[i];
    forall k | 0 <= k < |reordered|
      ensures reordered[k].id <= MaxId(rows)
    {
      assert reordered[k] in multiset(rows);
      var l :| 0 <= l < |rows| && rows[l] == reordered[k];
    }
    MaxIdUnique(reordered, MaxId(rows));
  }

  /** Ordered non-increasing on the id column: what the comparator
      `(a, b) => b[2] - a[2]` asks `Array.prototype.sort` for. */
  ghost predicate SortedDescending(s: seq<Row>) {
    forall i, j :: 0 <= i < j < |s| ==> s[i].id >= s[j].id
  }

  /** After the sort, element 0 carries the largest id of the fetched page,
      whatever order the page came in. */
  lemma SortedHeadIsMax(sorted: seq<Row>, fetched: seq<Row>)
    requires |fetched| > 0
    requires multiset(sorted) == multiset(fetched)
    requires SortedDescending(sorted)
    ensures |sorted| > 0 && sorted[0].id == MaxId(fetched)
  {
    MaxIdOfPermutation(fetched, sorted);
    var j :| 0 <= j < |sorted| && sorted[j].id == MaxId(sorted);
    assert sorted[0].id >= sorted[j].id;
  }

  /** Sorts `a` in place, descending on the id column (background.js:69).
      Insertion sort: the result is ordered and is a permutation of the
      fetched rows. */
  method SortDescending(a: array<Row>)
    modifies a
    ensures SortedDescending(a[..])
    ensures multiset(a[..]) == multiset(old(a[..]))
  {
    var i := 0;
    while i < a.Length
      invariant 0 <= i <= a.Length
      invariant SortedDescending(a[..i])
      invariant multiset(a[..]) == multiset(old(a[..]))
    {
      InsertDescending(a, i);
      i := i + 1;
    }
    assert a[..] == a[..a.Length];
  }

  /** One insertion step: moves `a[i]` left past every smaller id, so
      that the ordered prefix grows by one row. */
  method InsertDescending(a: array<Row>, i: nat)
    requires i < a.Length
    requires SortedDescending(a[..i])
    modifies a
    ensures SortedDescending(a[..i + 1])
    ensures a[i + 1..] == old(a[i + 1..])
    ensures multiset(a[..]) == multiset(old(a[..]))
  {
    var j := i;
    while j > 0 && a[j - 1].id < a[j].id
      invariant 0 <= j <= i
      invariant forall k, l :: 0 <= k < l <= i && k != j && l != j ==> a[k].id >= a[l].id
      invariant forall l :: j < l <= i ==> a[j].id > a[l].id
      invariant forall m :: i < m < a.Length ==> a[m] == old(a[m])
      invariant multiset(a[..]) == multiset(old(a[..]))
    {
      SwapWithPrevious(a, j);
      j := j - 1;
    }
  }

  /** Exchanges `a[j - 1]` and `a[j]`. */
  method SwapWithPrevious(a: array<Row>, j: nat)
    requires 0 < j < a.Length
    modifies a
    ensures a[j - 1] == old(a[j]) && a[j] == old(a[j - 1])
    ensures forall m :: 0 <= m < a.Length && m != j - 1 && m != j ==> a[m] == old(a[m])
    ensures multiset(a[..]) == multiset(old(a[..]))
  {
    a[j - 1], a[j] := a[j], a[j - 1];
  }

  /** `tickets.sort(...)` followed by `tickets[0]` (background.js:69-72),
      on a fresh array holding the fetched page: the row returned is one
      of the fetched rows and its id is the largest on the page. */
  method LatestTicket(fetched: seq<Row>) returns (latest: Row)
    requires |fetched| > 0
    ensures latest in fetched
    ensures forall i :: 0 <= i < |fetched| ==> fetched[i].id <= latest.id
    ensures latest.id == MaxId(fetched)
  {
    var tickets := new Row[|fetched|](i requires 0 <= i < |fetched| => fetched[i]);
    assert tickets[..] == fetched;
    SortDescending(tickets);
    latest := tickets[0];
    SortedHeadIsMax(tickets[..], fetched);
    assert latest in multiset(tickets[..]);
  }
}
