/** The list edits the edit page performs on each of its three row lists,
    written once for any row type.  The row's id is read through `idOf`
    (always one of the named projections of MeetingTypes). */
module RowLists {
  import opened MeetingTypes

  /** The ids of the rows, in list order. */
  function Ids<T>(s: seq<T>, idOf: T -> Id): (r: seq<Id>)
    ensures |r| == |s|
    ensures forall i :: 0 <= i < |s| ==> r[i] == idOf(s[i])
  {
    if s == [] then [] else [idOf(s[0])] + Ids(s[1..], idOf)
  }

  /** No two rows share an id. */
  ghost predicate DistinctIds<T>(s: seq<T>, idOf: T -> Id)
  {
    forall i, j :: 0 <= i < j < |s| ==> idOf(s[i]) != idOf(s[j])
  }

  /** `list.map(x => x.id === id ? set(x, v) : x)`. */
  function UpdateById<T, F>(s: seq<T>, idOf: T -> Id, id: Id, setField: (T, F) -> T, v: F): (r: seq<T>)
    ensures |r| == |s|
    ensures forall i :: 0 <= i < |s| ==> r[i] == if idOf(s[i]) == id then setField(s[i], v) else s[i]
  {
    if s == [] then []
    else [if idOf(s[0]) == id then setField(s[0], v) else s[0]] + UpdateById(s[1..], idOf, id, setField, v)
  }

  /** `list.filter(x => x.id !== id)`. */
  function RemoveById<T>(s: seq<T>, idOf: T -> Id, id: Id): (r: seq<T>)
    ensures |r| <= |s|
  {
    if s == [] then []
    else (if idOf(s[0]) != id then [s[0]] else []) + RemoveById(s[1..], idOf, id)
  }

  /** `r` is `s` with some entries left out and the rest in their order. */
  ghost predicate IsSubsequence<T>(r: seq<T>, s: seq<T>)
    decreases |s|
  {
    if r == [] then true
    else if s == [] then false
    else (r[0] == s[0] && IsSubsequence(r[1..], s[1..])) || IsSubsequence(r, s[1..])
  }

  /** Updating an id no row has changes nothing. */
  lemma UpdateAbsentId<T, F>(s: seq<T>, idOf: T -> Id, id: Id, setField: (T, F) -> T, v: F)
    requires forall i :: 0 <= i < |s| ==> idOf(s[i]) != id
    ensures UpdateById(s, idOf, id, setField, v) == s
  {
  }

  /** A setter that leaves ids alone leaves the list's ids alone. */
  lemma UpdateKeepsIds<T, F>(s: seq<T>, idOf: T -> Id, id: Id, setField: (T, F) -> T, v: F)
    requires forall x :: idOf(setField(x, v)) == idOf(x)
    ensures Ids(UpdateById(s, idOf, id, setField, v), idOf) == Ids(s, idOf)
  {
  }

  /** Filtering distributes over concatenation. */
  lemma {:induction false} RemoveAppend<T>(a: seq<T>, b: seq<T>, idOf: T -> Id, id: Id)
    ensures RemoveById(a + b, idOf, id) == RemoveById(a, idOf, id) + RemoveById(b, idOf, id)
  {
    if a == [] {
      assert a + b == b;
    } else {
      assert (a + b)[1..] == a[1..] + b;
      RemoveAppend(a[1..], b, idOf, id);
    }
  }

  /** Removal keeps exactly the rows whose id differs. */
  lemma {:induction false} RemoveMembers<T>(s: seq<T>, idOf: T -> Id, id: Id)
    ensures forall x :: x in RemoveById(s, idOf, id) <==> x in s && idOf(x) != id
  {
    if s != [] {
      RemoveMembers(s[1..], idOf, id);
      assert s == [s[0]] + s[1..];
    }
  }

  /** Removing an id no row has changes nothing. */
  lemma {:induction false} RemoveAbsentId<T>(s: seq<T>, idOf: T -> Id, id: Id)
    requires forall i :: 0 <= i < |s| ==> idOf(s[i]) != id
    ensures RemoveById(s, idOf, id) == s
  {
    if s != [] {
      var t := s[1..];
      forall i | 0 <= i < |t| ensures idOf(t[i]) != id {
        assert t[i] == s[i + 1];
      }
      RemoveAbsentId(t, idOf, id);
      assert idOf(s[0]) != id;
      assert RemoveById(s, idOf, id) == [s[0]] + t;
    }
  }

  /** What removal keeps is a subsequence of the list. */
  lemma {:induction false} RemoveIsSubsequence<T>(s: seq<T>, idOf: T -> Id, id: Id)
    ensures IsSubsequence(RemoveById(s, idOf, id), s)
  {
    var r := RemoveById(s, idOf, id);
    if s != [] {
      RemoveIsSubsequence(s[1..], idOf, id);
      if idOf(s[0]) != id {
        assert r[0] == s[0] && r[1..] == RemoveById(s[1..], idOf, id);
      } else {
        assert r == RemoveById(s[1..], idOf, id);
      }
    }
  }

  /** With distinct ids, updating the id of row `k` changes exactly row `k`. */
  lemma UpdateDistinctChangesOne<T, F>(s: seq<T>, idOf: T -> Id, setField: (T, F) -> T, v: F, k: nat)
    requires DistinctIds(s, idOf) && k < |s|
    ensures UpdateById(s, idOf, idOf(s[k]), setField, v) == s[k := setField(s[k], v)]
  {
    var r := UpdateById(s, idOf, idOf(s[k]), setField, v);
    forall i | 0 <= i < |s| ensures r[i] == s[k := setField(s[k], v)][i] {
      if i < k {
        assert idOf(s[i]) != idOf(s[k]);
      } else if i > k {
        assert idOf(s[k]) != idOf(s[i]);
      }
    }
  }

  /** With distinct ids, removing the id of row `k` deletes exactly row `k`. */
  lemma RemoveDistinctDeletesOne<T>(s: seq<T>, idOf: T -> Id, k: nat)
    requires DistinctIds(s, idOf) && k < |s|
    ensures RemoveById(s, idOf, idOf(s[k])) == s[..k] + s[k + 1..]
    ensures |RemoveById(s, idOf, idOf(s[k]))| == |s| - 1
  {
    RemoveOtherRows(s, idOf, k, 0, k);
    assert s[0..k] == s[..k];
    RemoveOtherRows(s, idOf, k, k + 1, |s|);
    assert s[k + 1..|s|] == s[k + 1..];
    RemoveAround(s, idOf, k);
  }

  /** Removing row `k`'s id, when no row before or after row `k` holds it,
      deletes exactly row `k`. */
  lemma RemoveAround<T>(s: seq<T>, idOf: T -> Id, k: nat)
    requires k < |s|
    requires RemoveById(s[..k], idOf, idOf(s[k])) == s[..k]
    requires RemoveById(s[k + 1..], idOf, idOf(s[k])) == s[k + 1..]
    ensures RemoveById(s, idOf, idOf(s[k])) == s[..k] + s[k + 1..]
  {
    var front, x, back := s[..k], s[k], s[k + 1..];
    var id := idOf(x);
    RemoveOwnId(x, idOf);
    RemoveAppend(front, [x], idOf, id);
    assert RemoveById(front + [x], idOf, id) == front;
    RemoveAppend(front + [x], back, idOf, id);
    SplitAt(s, k);
  }

  /** A list is its part before `k`, entry `k` and its part after `k`. */
  lemma SplitAt<T>(s: seq<T>, k: nat)
    requires k < |s|
    ensures s == s[..k] + [s[k]] + s[k + 1..]
  {
  }

  lemma RemoveOwnId<T>(x: T, idOf: T -> Id)
    ensures RemoveById([x], idOf, idOf(x)) == []
  {
    assert [x][1..] == [];
  }

  /** In a list of distinct ids, removing row `k`'s id from a slice that
      leaves row `k` out changes nothing. */
  lemma RemoveOtherRows<T>(s: seq<T>, idOf: T -> Id, k: nat, lo: nat, hi: nat)
    requires DistinctIds(s, idOf) && k < |s| && lo <= hi <= |s| && (k < lo || hi <= k)
    ensures RemoveById(s[lo..hi], idOf, idOf(s[k])) == s[lo..hi]
  {
    var t := s[lo..hi];
    forall i | 0 <= i < |t| ensures idOf(t[i]) != idOf(s[k]) {
      assert t[i] == s[lo + i];
      if lo + i < k {
        assert idOf(s[lo + i]) != idOf(s[k]);
      } else {
        assert idOf(s[k]) != idOf(s[lo + i]);
      }
    }
    RemoveAbsentId(t, idOf, idOf(s[k]));
  }

  /** Deleting one row from a list of distinct ids keeps them distinct. */
  lemma DeleteKeepsDistinct<T>(s: seq<T>, idOf: T -> Id, k: nat)
    requires DistinctIds(s, idOf) && k < |s|
    ensures DistinctIds(s[..k] + s[k + 1..], idOf)
  {
    var r := s[..k] + s[k + 1..];
    assert forall i :: 0 <= i < |r| ==> r[i] == if i < k then s[i] else s[i + 1];
  }

  /** Removal never makes ids collide. */
  lemma RemoveKeepsDistinct<T>(s: seq<T>, idOf: T -> Id, id: Id)
    requires DistinctIds(s, idOf)
    ensures DistinctIds(RemoveById(s, idOf, id), idOf)
  {
    if k :| 0 <= k < |s| && idOf(s[k]) == id {
      RemoveDistinctDeletesOne(s, idOf, k);
      DeleteKeepsDistinct(s, idOf, k);
    } else {
      RemoveAbsentId(s, idOf, id);
    }
  }

  /** Appending a row whose id is new keeps ids distinct. */
  lemma AppendKeepsDistinct<T>(s: seq<T>, idOf: T -> Id, row: T)
    requires DistinctIds(s, idOf) && idOf(row) !in Ids(s, idOf)
    ensures DistinctIds(s + [row], idOf)
  {
    var r := s + [row];
    forall i, j | 0 <= i < j < |r| ensures idOf(r[i]) != idOf(r[j]) {
      if j == |s| {
        assert Ids(s, idOf)[i] == idOf(s[i]);
      }
    }
  }
}
