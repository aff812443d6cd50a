/** The slot list of the server: live slots merged with persisted ones, each list cut to the limit first. */
module SlotMerge {
  import opened Basics
  import Sorting

  datatype Row<T> = Row(slot: nat, value: T)

  /** Sort key: newest first. */
  function Age<T>(r: Row<T>): int {
    0 - r.slot
  }

  ghost predicate Descending<T(!new)>(rows: seq<Row<T>>) {
    forall i, j :: 0 <= i < j < |rows| ==> rows[i].slot > rows[j].slot
  }

  ghost function Listed<T>(rows: seq<Row<T>>): set<nat> {
    set i | 0 <= i < |rows| :: rows[i].slot
  }

  /** Rows of the table, newest first, at most limit of them, and nothing newer left out. */
  ghost predicate IsTop<T(!new)>(table: map<nat, T>, limit: nat, rows: seq<Row<T>>) {
    && Descending(rows)
    && |rows| <= limit
    && (forall i :: 0 <= i < |rows| ==> rows[i].slot in table && table[rows[i].slot] == rows[i].value)
    && (forall k :: k in table ==>
          k in Listed(rows) || (|rows| == limit && forall i :: 0 <= i < |rows| ==> k < rows[i].slot))
  }

  lemma {:induction false} ListedSize<T(!new)>(rows: seq<Row<T>>)
    requires Descending(rows)
    ensures |Listed(rows)| == |rows|
    decreases |rows|
  {
    if rows != [] {
      var n := |rows| - 1;
      ListedSize(rows[..n]);
      ListedGrows(rows, n);
      assert rows[..n + 1] == rows;
      assert rows[n].slot !in Listed(rows[..n]);
    }
  }

  /** A list that contains all of a full list above k starts with rows above k. */
  lemma AboveFull<T(!new)>(all: seq<Row<T>>, part: seq<Row<T>>, k: nat, i: nat)
    requires Descending(all) && Descending(part) && Listed(part) <= Listed(all) && i < |part|
    requires forall j :: 0 <= j < |part| ==> k < part[j].slot
    ensures i < |all| && k < all[i].slot
  {
    if i >= |all| || all[i].slot <= k {
      var n := if i < |all| then i else |all|;
      var head := all[..n];
      forall s | s in Listed(part)
        ensures s in Listed(head)
      {
        var j :| 0 <= j < |all| && all[j].slot == s;
        assert j < n;
        assert head[j].slot == s;
      }
      ListedSize(part);
      ListedSize(head);
      SubsetSize(Listed(part), Listed(head));
      assert false;
    }
  }

  /** The merged list before it is cut: the live rows, and the persisted rows of other slots. */
  ghost predicate Merged<T(!new)>(live: seq<Row<T>>, persisted: seq<Row<T>>, all: seq<Row<T>>) {
    && Descending(all)
    && Listed(all) == Listed(live) + Listed(persisted)
    && (forall r :: r in all ==> r in live || (r in persisted && r.slot !in Listed(live)))
  }

  function Cut<T>(limit: nat, rows: seq<T>): seq<T> {
    if |rows| > limit then rows[..limit] else rows
  }

  /** A slot of either table that the cut merge leaves out is below a full list. */
  lemma NothingNewerLost<T(!new)>(table: map<nat, T>, part: seq<Row<T>>, all: seq<Row<T>>, limit: nat, k: nat)
    requires IsTop(table, limit, part) && Descending(all) && Listed(part) <= Listed(all) && k in table
    ensures var out := Cut(limit, all);
      k in Listed(out) || (|out| == limit && forall i :: 0 <= i < |out| ==> k < out[i].slot)
  {
    var out := Cut(limit, all);
    if k in Listed(part) {
      var j :| 0 <= j < |all| && all[j].slot == k;
      assert j < limit ==> out[j].slot == k;
    } else {
      forall i | 0 <= i < limit
        ensures i < |all| && k < all[i].slot
      {
        AboveFull(all, part, k, i);
      }
      if limit > 0 {
        AboveFull(all, part, k, limit - 1);
      }
    }
  }

  /** A persisted row that survives the cut belongs to a slot that is not live at all. */
  lemma LiveWins<T(!new)>(live: map<nat, T>, top: seq<Row<T>>, all: seq<Row<T>>, limit: nat, i: nat)
    requires IsTop(live, limit, top) && Descending(all) && Listed(top) <= Listed(all)
    requires i < |Cut(limit, all)| && all[i].slot !in Listed(top)
    ensures all[i].slot !in live
  {
    if all[i].slot in live {
      AboveFull(all, top, all[i].slot, i);
      assert false;
    }
  }

  lemma MergedRow<T(!new)>(
    live: map<nat, T>, persisted: map<nat, T>, limit: nat, top: seq<Row<T>>, stored: seq<Row<T>>, all: seq<Row<T>>,
    i: nat)
    requires IsTop(live, limit, top) && IsTop(persisted, limit, stored) && Merged(top, stored, all)
    requires i < |Cut(limit, all)|
    ensures all[i].slot in persisted + live && (persisted + live)[all[i].slot] == all[i].value
  {
    assert all[i] in all;
    if all[i] !in top {
      LiveWins(live, top, all, limit, i);
    }
  }

  /** Cutting both lists before merging loses nothing: the result is the newest rows of the union, in strictly
      descending slot order, with the live version wherever a slot is in both. */
  lemma MergeIsExact<T(!new)>(
    live: map<nat, T>, persisted: map<nat, T>, limit: nat, top: seq<Row<T>>, stored: seq<Row<T>>, all: seq<Row<T>>)
    requires IsTop(live, limit, top) && IsTop(persisted, limit, stored) && Merged(top, stored, all)
    ensures IsTop(persisted + live, limit, Cut(limit, all))
  {
    var out, table := Cut(limit, all), persisted + live;
    assert |out| <= |all| && forall i :: 0 <= i < |out| ==> out[i] == all[i];
    forall i | 0 <= i < |out|
      ensures out[i].slot in table && table[out[i].slot] == out[i].value
    {
      MergedRow(live, persisted, limit, top, stored, all, i);
    }
    forall k | k in table
      ensures k in Listed(out) || (|out| == limit && forall i :: 0 <= i < |out| ==> k < out[i].slot)
    {
      if k in live {
        NothingNewerLost(live, top, all, limit, k);
      } else {
        NothingNewerLost(persisted, stored, all, limit, k);
      }
    }
  }

  /** The newest rows of a table are determined by it. */
  lemma TopIsUnique<T(!new)>(table: map<nat, T>, limit: nat, a: seq<Row<T>>, b: seq<Row<T>>)
    requires IsTop(table, limit, a) && IsTop(table, limit, b)
    ensures a == b
  {
    TopContains(table, limit, a, b);
    TopContains(table, limit, b, a);
    Sorting.AscendingIsUnique(a, b, Age);
  }

  lemma TopContains<T(!new)>(table: map<nat, T>, limit: nat, a: seq<Row<T>>, b: seq<Row<T>>)
    requires IsTop(table, limit, a) && IsTop(table, limit, b)
    ensures forall r :: r in a ==> r in b
  {
    forall r | r in a
      ensures r in b
    {
      var i :| 0 <= i < |a| && a[i] == r;
      TopAgrees(table, limit, a, b, i);
      var j :| 0 <= j < |b| && b[j].slot == r.slot;
      assert b[j] == r;
    }
  }

  lemma TopAgrees<T(!new)>(table: map<nat, T>, limit: nat, a: seq<Row<T>>, b: seq<Row<T>>, i: nat)
    requires IsTop(table, limit, a) && IsTop(table, limit, b) && i < |a|
    ensures a[i].slot in Listed(b)
  {
    if a[i].slot !in Listed(b) {
      forall s | s in Listed(b)
        ensures s in Listed(a)
      {
        assert s > a[i].slot;
      }
      AboveFull(a, b, a[i].slot, i);
      assert false;
    }
  }

  // ---- The operations --------------------------------------------------------------------------------------

  ghost predicate Holds<T(!new)>(slots: map<nat, T>, rows: seq<Row<T>>) {
    && (forall i :: 0 <= i < |rows| ==> rows[i].slot in slots && slots[rows[i].slot] == rows[i].value)
    && (forall k :: k in slots ==> Row(k, slots[k]) in rows)
  }

  lemma SortedIsTop<T(!new)>(slots: map<nat, T>, limit: nat, rows: seq<Row<T>>)
    requires Holds(slots, rows) && Descending(rows)
    ensures IsTop(slots, limit, Cut(limit, rows))
  {
  }

  /** The map's rows in whatever order it yields them. */
  method Collect<T(!new)>(slots: map<nat, T>) returns (rows: seq<Row<T>>)
    ensures Holds(slots, rows)
    ensures forall i, j :: 0 <= i < j < |rows| ==> rows[i].slot != rows[j].slot
  {
    rows := [];
    var todo := slots.Keys;
    while todo != {}
      invariant todo <= slots.Keys
      invariant forall i :: 0 <= i < |rows| ==>
        rows[i].slot in slots && rows[i].slot !in todo && slots[rows[i].slot] == rows[i].value
      invariant forall k :: k in slots && k !in todo ==> Row(k, slots[k]) in rows
      invariant forall i, j :: 0 <= i < j < |rows| ==> rows[i].slot != rows[j].slot
      decreases |todo|
    {
      var k :| k in todo;
      todo := todo - {k};
      rows := rows + [Row(k, slots[k])];
    }
  }

  /** Collects, sorts and cuts; without a positive limit nothing is cut. */
  method ListSlots<T(!new)>(slots: map<nat, T>, limit: int) returns (rows: seq<Row<T>>)
    ensures limit > 0 ==> IsTop(slots, limit, rows)
    ensures limit <= 0 ==> IsTop(slots, |rows|, rows) && Listed(rows) == slots.Keys
  {
    var unsorted := Collect(slots);
    var sorted := Sorting.SortBy(unsorted, Age);
    assert forall i :: 0 <= i < |sorted| ==> sorted[i] in unsorted;
    assert Descending(sorted) by {
      assert forall i, j :: 0 <= i < j < |sorted| ==> Age(sorted[i]) < Age(sorted[j]);
    }
    if limit > 0 {
      SortedIsTop(slots, limit, sorted);
      rows := Cut(limit, sorted);
    } else {
      SortedIsTop(slots, |sorted|, sorted);
      AllListed(slots, sorted);
      rows := sorted;
    }
  }

  lemma AllListed<T(!new)>(slots: map<nat, T>, rows: seq<Row<T>>)
    requires Holds(slots, rows)
    ensures Listed(rows) == slots.Keys
  {
    forall k | k in slots
      ensures k in Listed(rows)
    {
      var j :| 0 <= j < |rows| && rows[j] == Row(k, slots[k]);
    }
  }

  /** The storage query: newest first, and nothing without a positive limit. */
  method ListSummaries<T(!new)>(slots: map<nat, T>, limit: int) returns (rows: seq<Row<T>>)
    ensures limit > 0 ==> IsTop(slots, limit, rows)
    ensures limit <= 0 ==> rows == []
  {
    if limit <= 0 {
      return [];
    }
    rows := ListSlots(slots, limit);
  }

  datatype Storage<T> = NoStorage | Failing | Storage(slots: map<nat, T>)

  datatype Response<T> = Ok(rows: seq<Row<T>>) | InternalError

  /** An absent or unreadable limit parameter means 256. */
  method HandleSlots<T(!new)>(live: map<nat, T>, storage: Storage<T>, requested: Option<int>) returns (r: Response<T>)
    ensures var limit := if requested.Some? && requested.value > 0 then requested.value else 256;
      match storage
      case NoStorage => r.Ok? && IsTop(live, limit, r.rows)
      case Failing => r == InternalError
      case Storage(slots) => r.Ok? && IsTop(slots + live, limit, r.rows)
  {
    var limit: nat := 256;
    if requested.Some? && requested.value > 0 {
      limit := requested.value;
    }
    var top := ListSlots(live, limit);
    match storage
    case NoStorage => return Ok(top);
    case Failing => return InternalError;
    case Storage(slots) =>
      var persisted := ListSummaries(slots, limit);
      var all := Merge(top, persisted);
      MergeIsExact(live, slots, limit, top, persisted, all);
      return Ok(Cut(limit, all));
  }

  method Merge<T(!new)>(live: seq<Row<T>>, persisted: seq<Row<T>>) returns (all: seq<Row<T>>)
    requires Descending(live) && Descending(persisted)
    ensures Merged(live, persisted, all)
  {
    var seen: set<nat> := {};
    for i := 0 to |live|
      invariant seen == Listed(live[..i])
    {
      seen := seen + {live[i].slot};
      ListedGrows(live, i);
    }
    assert live[..|live|] == live;
    all := live;
    for i := 0 to |persisted|
      invariant forall r :: r in all <==> r in live || (r in persisted[..i] && r.slot !in seen)
      invariant forall m, n :: 0 <= m < n < |all| ==> all[m].slot != all[n].slot
    {
      var r := persisted[i];
      assert persisted[..i + 1] == persisted[..i] + [r];
      if r.slot !in seen {
        assert forall m :: 0 <= m < |all| ==> all[m] in all;
        assert forall q :: q in live ==> q.slot in seen;
        all := all + [r];
      }
    }
    assert persisted[..|persisted|] == persisted;
    ghost var unsorted := all;
    all := Sorting.SortBy(all, Age);
    MergeLists(live, persisted, unsorted, all);
  }

  lemma ListedGrows<T(!new)>(rows: seq<Row<T>>, i: nat)
    requires i < |rows|
    ensures Listed(rows[..i + 1]) == Listed(rows[..i]) + {rows[i].slot}
  {
  }

  lemma MergeLists<T(!new)>(live: seq<Row<T>>, persisted: seq<Row<T>>, unsorted: seq<Row<T>>, all: seq<Row<T>>)
    requires forall r :: r in unsorted <==> r in live || (r in persisted && r.slot !in Listed(live))
    requires forall r :: r in all <==> r in unsorted
    requires Sorting.Ascending(all, Age)
    ensures Merged(live, persisted, all)
  {
  }
}
