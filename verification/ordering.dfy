/** `orderBy: { createdAt: "asc" | "desc" }` on a set of rows: the rows' ids
    arranged by their creation time. Rows with equal times may come in either
    order, as the store does not promise one. */
module Ordering {
  import opened Store

  datatype Direction = OldestFirst | NewestFirst

  /** `a` may come before `b` in the given direction. */
  predicate InOrder(dir: Direction, a: int, b: int) {
    match dir
    case OldestFirst => a <= b
    case NewestFirst => a >= b
  }

  predicate Distinct<T(==)>(xs: seq<T>) {
    forall i, j :: 0 <= i < j < |xs| ==> xs[i] != xs[j]
  }

  /** The ids of a sequence of rows, in order. */
  function IdsOf<T>(rows: seq<T>, id: T -> Id): (ids: seq<Id>)
    ensures |ids| == |rows| && forall i :: 0 <= i < |rows| ==> ids[i] == id(rows[i])
  {
    seq(|rows|, i requires 0 <= i < |rows| => id(rows[i]))
  }

  /** The creation time of every row of a table, by id. */
  function CreationTimes<T>(m: map<Id, T>, createdAt: T -> int): (t: map<Id, int>)
    ensures t.Keys == m.Keys
    ensures forall k :: k in m ==> t[k] == createdAt(m[k])
  {
    map k | k in m :: createdAt(m[k])
  }

  /** Every id has a time and the ids are arranged by time in the given direction. */
  ghost predicate SortedBy(stamps: map<Id, int>, dir: Direction, ids: seq<Id>) {
    && (forall i :: 0 <= i < |ids| ==> ids[i] in stamps)
    && (forall i, j :: 0 <= i < j < |ids| ==> InOrder(dir, stamps[ids[i]], stamps[ids[j]]))
  }

  /** Inserts one id into an arranged sequence, before the first id it may precede. */
  function Insert(stamps: map<Id, int>, dir: Direction, k: Id, ids: seq<Id>): (r: seq<Id>)
    requires k in stamps
    requires forall i :: 0 <= i < |ids| ==> ids[i] in stamps
    ensures |r| == |ids| + 1
    ensures forall x :: x in r <==> x == k || x in ids
    ensures forall i :: 0 <= i < |r| ==> r[i] in stamps
    decreases |ids|
  {
    if ids == [] then [k]
    else if InOrder(dir, stamps[k], stamps[ids[0]]) then [k] + ids
    else [ids[0]] + Insert(stamps, dir, k, ids[1..])
  }

  lemma {:induction false} InsertSorted(stamps: map<Id, int>, dir: Direction, k: Id, ids: seq<Id>)
    requires k in stamps
    requires SortedBy(stamps, dir, ids)
    ensures SortedBy(stamps, dir, Insert(stamps, dir, k, ids))
    decreases |ids|
  {
    if ids != [] && !InOrder(dir, stamps[k], stamps[ids[0]]) {
      var rest := ids[1..];
      InsertSorted(stamps, dir, k, rest);
      var r := Insert(stamps, dir, k, rest);
      forall x | x in r
        ensures InOrder(dir, stamps[ids[0]], stamps[x])
      {
        if x != k {
          var j :| 0 <= j < |rest| && rest[j] == x;
          assert ids[j + 1] == x;
        }
      }
      var full := [ids[0]] + r;
      forall i, j | 0 <= i < j < |full|
        ensures InOrder(dir, stamps[full[i]], stamps[full[j]])
      {
        if i == 0 {
          assert full[j] == r[j - 1];
          assert r[j - 1] in r;
        } else {
          assert full[i] == r[i - 1] && full[j] == r[j - 1];
        }
      }
    }
  }

  lemma {:induction false} InsertDistinct(stamps: map<Id, int>, dir: Direction, k: Id, ids: seq<Id>)
    requires k in stamps
    requires forall i :: 0 <= i < |ids| ==> ids[i] in stamps
    requires Distinct(ids) && k !in ids
    ensures Distinct(Insert(stamps, dir, k, ids))
    decreases |ids|
  {
    if ids != [] && !InOrder(dir, stamps[k], stamps[ids[0]]) {
      var rest := ids[1..];
      forall j | 0 <= j < |rest|
        ensures rest[j] != ids[0]
      {
        assert rest[j] == ids[j + 1];
      }
      assert Distinct(rest) by {
        forall i, j | 0 <= i < j < |rest|
          ensures rest[i] != rest[j]
        {
          assert rest[i] == ids[i + 1] && rest[j] == ids[j + 1];
        }
      }
      InsertDistinct(stamps, dir, k, rest);
      var r := Insert(stamps, dir, k, rest);
      var full := [ids[0]] + r;
      forall i, j | 0 <= i < j < |full|
        ensures full[i] != full[j]
      {
        if i == 0 {
          assert full[j] == r[j - 1];
          assert r[j - 1] in r;
        } else {
          assert full[i] == r[i - 1] && full[j] == r[j - 1];
        }
      }
    }
  }

  /** Arranges the given ids by time: every id exactly once, in the given direction. */
  method SortIds(stamps: map<Id, int>, keys: set<Id>, dir: Direction) returns (r: seq<Id>)
    requires keys <= stamps.Keys
    ensures forall x :: x in r <==> x in keys
    ensures Distinct(r)
    ensures SortedBy(stamps, dir, r)
  {
    r := [];
    var todo := keys;
    while todo != {}
      invariant todo <= keys
      invariant forall x :: x in r <==> x in keys && x !in todo
      invariant Distinct(r)
      invariant SortedBy(stamps, dir, r)
      decreases todo
    {
      var k :| k in todo;
      InsertSorted(stamps, dir, k, r);
      InsertDistinct(stamps, dir, k, r);
      r := Insert(stamps, dir, k, r);
      todo := todo - {k};
    }
  }

  /** A sequence without repetitions has as many elements as its set of elements. */
  lemma {:induction false} DistinctCardinality<T>(xs: seq<T>)
    requires Distinct(xs)
    ensures |set x | x in xs| == |xs|
    decreases |xs|
  {
    if xs != [] {
      var init := xs[..|xs| - 1];
      var last := xs[|xs| - 1];
      assert Distinct(init) by {
        forall i, j | 0 <= i < j < |init|
          ensures init[i] != init[j]
        {
          assert init[i] == xs[i] && init[j] == xs[j];
        }
      }
      DistinctCardinality(init);
      forall i | 0 <= i < |init|
        ensures init[i] != last
      {
        assert init[i] == xs[i];
      }
      assert (set x | x in xs) == (set x | x in init) + {last} by {
        assert xs == init + [last];
      }
    }
  }

  /** A repetition-free listing of exactly the members of a set has the set's size. */
  lemma ListingCardinality<T>(xs: seq<T>, s: set<T>)
    requires Distinct(xs)
    requires forall x :: x in xs <==> x in s
    ensures |xs| == |s|
  {
    DistinctCardinality(xs);
    assert (set x | x in xs) == s;
  }

  function Min(a: nat, b: nat): nat {
    if a <= b then a else b
  }

  /** `orderBy: { createdAt: "desc" }, take: n`: the `n` newest ids (all of them when there are
      fewer), newest first, and none left out is newer than any taken. */
  method Newest(stamps: map<Id, int>, keys: set<Id>, n: nat) returns (r: seq<Id>)
    requires keys <= stamps.Keys
    ensures |r| == Min(n, |keys|)
    ensures forall x :: x in r ==> x in keys
    ensures Distinct(r)
    ensures SortedBy(stamps, NewestFirst, r)
    ensures forall x, i :: x in keys && x !in r && 0 <= i < |r| ==> stamps[x] <= stamps[r[i]]
  {
    var all := SortIds(stamps, keys, NewestFirst);
    ListingCardinality(all, keys);
    var m := Min(n, |all|);
    r := all[..m];
    forall x, i | x in keys && x !in r && 0 <= i < |r|
      ensures stamps[x] <= stamps[r[i]]
    {
      var j :| 0 <= j < |all| && all[j] == x;
      forall k | 0 <= k < m
        ensures all[k] != x
      {
        assert r[k] == all[k];
      }
      assert r[i] == all[i];
    }
  }
}
