/**
 Sorted id lists: the binary searches and in-place list edits of
 packages/durable/src/memory-storage.ts, and the sorted enumerations of a set they are proved against.
 */
module SortedIds {
  type Id = int

  ghost predicate Ascending(ids: seq<Id>) {
    forall i, j :: 0 <= i < j < |ids| ==> ids[i] < ids[j]
  }

  ghost predicate Descending(ids: seq<Id>) {
    forall i, j :: 0 <= i < j < |ids| ==> ids[i] > ids[j]
  }

  /** `ids` lists exactly the members of `s`, in ascending order. */
  ghost predicate Enumerates(ids: seq<Id>, s: set<Id>) {
    Ascending(ids) && forall x :: x in ids <==> x in s
  }

  /** `ids` lists exactly the members of `s`, in descending order. */
  ghost predicate EnumeratesDown(ids: seq<Id>, s: set<Id>) {
    Descending(ids) && forall x :: x in ids <==> x in s
  }

  // ----- The enumerations themselves ------------------------------------------------------------

  lemma NonemptyHasMember(s: set<Id>)
    ensures s == {} || exists x :: x in s
  {
    if forall x :: x !in s {
      assert s == {};
    }
  }

  lemma {:induction false} HasMaximum(s: set<Id>) returns (m: Id)
    requires s != {}
    ensures m in s && forall x <- s :: x <= m
  {
    NonemptyHasMember(s);
    m :| m in s;
    if s != {m} {
      assert s == (s - {m}) + {m};
      var m' := HasMaximum(s - {m});
      m := if m < m' then m' else m;
    }
  }

  lemma {:induction false} HasEnumerations(s: set<Id>) returns (up: seq<Id>, down: seq<Id>)
    ensures Enumerates(up, s) && EnumeratesDown(down, s)
  {
    if s == {} {
      up, down := [], [];
    } else {
      var m := HasMaximum(s);
      up, down := HasEnumerations(s - {m});
      assert forall i :: 0 <= i < |up| ==> up[i] in up;
      assert forall i :: 0 <= i < |down| ==> down[i] in down;
      up, down := up + [m], [m] + down;
    }
  }

  lemma EnumerationsExist(s: set<Id>)
    ensures exists up :: Enumerates(up, s)
    ensures exists down :: EnumeratesDown(down, s)
  {
    var up, down := HasEnumerations(s);
  }

  /** The members of `s`, newest first. */
  ghost function Newest(s: set<Id>): (ids: seq<Id>)
    ensures EnumeratesDown(ids, s)
  {
    EnumerationsExist(s);
    var ids :| EnumeratesDown(ids, s);
    ids
  }

  /** The members of `s`, oldest first. */
  ghost function Oldest(s: set<Id>): (ids: seq<Id>)
    ensures Enumerates(ids, s)
  {
    EnumerationsExist(s);
    var ids :| Enumerates(ids, s);
    ids
  }

  /** A set has one ascending enumeration, so a list that enumerates it is fully known. */
  lemma {:induction false} AscendingUnique(a: seq<Id>, b: seq<Id>)
    requires Ascending(a) && Ascending(b)
    requires forall x :: x in a <==> x in b
    ensures a == b
  {
    assert a != [] ==> a[0] in a;
    assert b != [] ==> b[0] in b;
    if a != [] && b != [] {
      assert a[0] in b && b[0] in a;
      forall x ensures x in a[1..] <==> x in b[1..] {
        assert x in a[1..] <==> x in a && x != a[0];
        assert x in b[1..] <==> x in b && x != b[0];
      }
      AscendingUnique(a[1..], b[1..]);
      assert a == [a[0]] + a[1..] && b == [b[0]] + b[1..];
    }
  }

  lemma {:induction false} DescendingUnique(a: seq<Id>, b: seq<Id>)
    requires Descending(a) && Descending(b)
    requires forall x :: x in a <==> x in b
    ensures a == b
  {
    assert a != [] ==> a[0] in a;
    assert b != [] ==> b[0] in b;
    if a != [] && b != [] {
      assert a[0] in b && b[0] in a;
      forall x ensures x in a[1..] <==> x in b[1..] {
        assert x in a[1..] <==> x in a && x != a[0];
        assert x in b[1..] <==> x in b && x != b[0];
      }
      DescendingUnique(a[1..], b[1..]);
      assert a == [a[0]] + a[1..] && b == [b[0]] + b[1..];
    }
  }

  lemma NewestMembers(s: set<Id>)
    ensures forall i :: 0 <= i < |Newest(s)| ==> Newest(s)[i] in s
  {
    forall i | 0 <= i < |Newest(s)| ensures Newest(s)[i] in s {
      assert Newest(s)[i] in Newest(s);
    }
  }

  lemma NewestIs(ids: seq<Id>, s: set<Id>)
    requires EnumeratesDown(ids, s)
    ensures ids == Newest(s)
  {
    DescendingUnique(ids, Newest(s));
  }

  lemma OldestIs(ids: seq<Id>, s: set<Id>)
    requires Enumerates(ids, s)
    ensures ids == Oldest(s)
  {
    AscendingUnique(ids, Oldest(s));
  }

  lemma Members(ids: seq<Id>, s: set<Id>)
    requires Enumerates(ids, s) || EnumeratesDown(ids, s)
    ensures forall i :: 0 <= i < |ids| ==> ids[i] in s
  {
    forall i | 0 <= i < |ids| ensures ids[i] in s {
      assert ids[i] in ids;
    }
  }

  // ----- Binary search and list edits -----------------------------------------------------------

  /** The first position whose id is not below `target`. */
  method LowerBound(ids: seq<Id>, target: Id) returns (low: nat)
    requires Ascending(ids)
    ensures low <= |ids|
    ensures forall i :: 0 <= i < low ==> ids[i] < target
    ensures forall i :: low <= i < |ids| ==> target <= ids[i]
  {
    low := 0;
    var high := |ids|;
    while low < high
      invariant low <= high <= |ids|
      invariant forall i :: 0 <= i < low ==> ids[i] < target
      invariant forall i :: high <= i < |ids| ==> target <= ids[i]
    {
      var middle := (low + high) / 2;
      if ids[middle] < target { low := middle + 1; } else { high := middle; }
    }
  }

  /** The first position whose id is above `target`. */
  method UpperBound(ids: seq<Id>, target: Id) returns (low: nat)
    requires Ascending(ids)
    ensures low <= |ids|
    ensures forall i :: 0 <= i < low ==> ids[i] <= target
    ensures forall i :: low <= i < |ids| ==> target < ids[i]
  {
    low := 0;
    var high := |ids|;
    while low < high
      invariant low <= high <= |ids|
      invariant forall i :: 0 <= i < low ==> ids[i] <= target
      invariant forall i :: high <= i < |ids| ==> target < ids[i]
    {
      var middle := (low + high) / 2;
      if ids[middle] <= target { low := middle + 1; } else { high := middle; }
    }
  }

  /** Adds an id; the list stays strictly ascending exactly when the id was not listed before. */
  method InsertSorted(ids: seq<Id>, id: Id) returns (r: seq<Id>)
    requires Ascending(ids)
    ensures Ascending(r) <==> id !in ids
    ensures forall x :: x in r <==> x in ids || x == id
    ensures |r| == |ids| + 1
  {
    if |ids| == 0 || ids[|ids| - 1] < id {
      r := ids + [id];
    } else {
      var at := LowerBound(ids, id);
      r := ids[..at] + [id] + ids[at..];
      InsertedAt(ids, at, id);
    }
  }

  lemma InsertedMembers(ids: seq<Id>, at: nat, id: Id, x: Id)
    requires at <= |ids|
    ensures x in ids[..at] + [id] + ids[at..] <==> x in ids || x == id
  {
    assert ids == ids[..at] + ids[at..];
  }

  lemma InsertedAscending(ids: seq<Id>, at: nat, id: Id)
    requires Ascending(ids) && at <= |ids|
    requires forall i :: 0 <= i < at ==> ids[i] < id
    requires forall i :: at <= i < |ids| ==> id < ids[i]
    ensures Ascending(ids[..at] + [id] + ids[at..])
  {
    var r := ids[..at] + [id] + ids[at..];
    forall i, j | 0 <= i < j < |r| ensures r[i] < r[j] {
      assert r[i] == if i < at then ids[i] else if i == at then id else ids[i - 1];
      assert r[j] == if j < at then ids[j] else if j == at then id else ids[j - 1];
    }
  }

  lemma InsertedAt(ids: seq<Id>, at: nat, id: Id)
    requires Ascending(ids) && at <= |ids|
    requires forall i :: 0 <= i < at ==> ids[i] < id
    requires forall i :: at <= i < |ids| ==> id <= ids[i]
    ensures var r := ids[..at] + [id] + ids[at..];
            && (Ascending(r) <==> id !in ids)
            && (forall x :: x in r <==> x in ids || x == id)
  {
    var r := ids[..at] + [id] + ids[at..];
    forall x ensures x in r <==> x in ids || x == id {
      InsertedMembers(ids, at, id, x);
    }
    if id in ids {
      var k :| 0 <= k < |ids| && ids[k] == id;
      assert at < |ids| && ids[at] <= ids[k];
      assert r[at] == id && r[at + 1] == ids[at];
    } else {
      InsertedAscending(ids, at, id);
    }
  }

  method RemoveSorted(ids: seq<Id>, id: Id) returns (r: seq<Id>)
    requires Ascending(ids)
    ensures Ascending(r)
    ensures forall x :: x in r <==> x in ids && x != id
  {
    var index := LowerBound(ids, id);
    if index < |ids| && ids[index] == id {
      r := ids[..index] + ids[index + 1..];
      assert ids == ids[..index] + [id] + ids[index + 1..];
    } else {
      r := ids;
    }
  }
}
