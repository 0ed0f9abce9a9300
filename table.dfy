/** The table operations the three in-memory stores share, stated once over
    any record type with a string key:
    `findIndex(r => key(r) === id)`, `find(r => key(r) === id)`, replacing the
    element at the first match, and `filter(r => key(r) !== id)`. */
module Table {
  import opened Wrappers
  import Seqs

  /** `s.findIndex(r => key(r) === id)`, with `-1` as `None`. */
  function FirstIndex<T>(s: seq<T>, key: T -> string, id: string): (r: Option<nat>)
    ensures r.Some? ==> r.value < |s| && key(s[r.value]) == id
    ensures r.Some? ==> forall j :: 0 <= j < r.value ==> key(s[j]) != id
    ensures r.None? <==> forall j :: 0 <= j < |s| ==> key(s[j]) != id
    decreases |s|
  {
    if s == [] then None
    else if key(s[0]) == id then Some(0)
    else match FirstIndex(s[1..], key, id)
      case None => None
      case Some(k) => Some(k + 1)
  }

  /** `s.find(r => key(r) === id)`. */
  function Find<T>(s: seq<T>, key: T -> string, id: string): Option<T> {
    match FirstIndex(s, key, id)
    case None => None
    case Some(i) => Some(s[i])
  }

  /** The first element with key `id` is replaced by `merge` of it; nothing
      happens when there is none. */
  function UpdateFirst<T>(s: seq<T>, key: T -> string, id: string, merge: T -> T): seq<T> {
    match FirstIndex(s, key, id)
    case None => s
    case Some(i) => s[i := merge(s[i])]
  }

  /** `s.filter(r => key(r) !== id)`. */
  function RemoveAll<T>(s: seq<T>, key: T -> string, id: string): seq<T> {
    Seqs.Filter(s, (r: T) => key(r) != id)
  }

  /** `Find` returns the earliest element with the key, or nothing if there is none. */
  lemma FindIsFirstMatch<T>(s: seq<T>, key: T -> string, id: string)
    ensures Find(s, key, id).None? <==> forall j :: 0 <= j < |s| ==> key(s[j]) != id
    ensures Find(s, key, id).Some? ==>
      exists i :: 0 <= i < |s| && s[i] == Find(s, key, id).value && key(s[i]) == id &&
        forall j :: 0 <= j < i ==> key(s[j]) != id
  {
  }

  /** Appending never checks the key: an entry whose key is already present is
      stored, but lookups keep returning the earlier entry. */
  lemma {:induction false} AppendIsShadowed<T>(s: seq<T>, key: T -> string, x: T)
    requires Find(s, key, key(x)).Some?
    ensures |s + [x]| == |s| + 1 && (s + [x])[|s|] == x
    ensures Find(s + [x], key, key(x)) == Find(s, key, key(x))
  {
    var i := FirstIndex(s, key, key(x)).value;
    FirstIndexOfExtension(s, [x], key, key(x));
  }

  /** An appended entry with a fresh key is what lookups of that key return. */
  lemma AppendIsFound<T>(s: seq<T>, key: T -> string, x: T)
    requires Find(s, key, key(x)).None?
    ensures Find(s + [x], key, key(x)) == Some(x)
  {
    var r := FirstIndex(s + [x], key, key(x));
    assert (s + [x])[|s|] == x;
    assert r.Some? && r.value == |s|;
  }

  lemma FirstIndexOfExtension<T>(s: seq<T>, t: seq<T>, key: T -> string, id: string)
    requires FirstIndex(s, key, id).Some?
    ensures FirstIndex(s + t, key, id) == FirstIndex(s, key, id)
  {
    var i := FirstIndex(s, key, id).value;
    var r := FirstIndex(s + t, key, id);
    assert (s + t)[i] == s[i];
    assert forall j :: 0 <= j < i ==> (s + t)[j] == s[j];
    assert r.Some? && r.value <= i;
  }

  /** Updating an absent key leaves the table unchanged. */
  lemma UpdateAbsentIsNoOp<T>(s: seq<T>, key: T -> string, id: string, merge: T -> T)
    requires forall j :: 0 <= j < |s| ==> key(s[j]) != id
    ensures UpdateFirst(s, key, id, merge) == s
  {
  }

  /** Updating touches the first match only: the length and every other
      position, including later entries with the same key, are unchanged. */
  lemma UpdateTouchesFirstOnly<T>(s: seq<T>, key: T -> string, id: string, merge: T -> T)
    requires FirstIndex(s, key, id).Some?
    ensures var i := FirstIndex(s, key, id).value;
      var r := UpdateFirst(s, key, id, merge);
      |r| == |s| && r[i] == merge(s[i]) &&
      key(s[i]) == id &&
      (forall j :: 0 <= j < |s| && j != i ==> r[j] == s[j])
  {
  }

  /** Deleting removes every entry with the key, keeps every other entry as
      often as before, and keeps their relative order. */
  lemma RemoveAllSpec<T>(s: seq<T>, key: T -> string, id: string, x: T)
    ensures forall k :: 0 <= k < |RemoveAll(s, key, id)| ==> key(RemoveAll(s, key, id)[k]) != id
    ensures key(x) != id ==> multiset(RemoveAll(s, key, id))[x] == multiset(s)[x]
    ensures Seqs.IsSubsequence(RemoveAll(s, key, id), s)
  {
    Seqs.FilterCounts(s, (r: T) => key(r) != id, x);
    Seqs.FilterIsSubsequence(s, (r: T) => key(r) != id);
  }

  /** After deleting a key, looking it up finds nothing. */
  lemma FindAfterRemove<T>(s: seq<T>, key: T -> string, id: string)
    ensures Find(RemoveAll(s, key, id), key, id) == None
  {
  }

  /** No two entries share a key. The stores never check this themselves. */
  predicate UniqueKeys<T>(s: seq<T>, key: T -> string) {
    forall i, j :: 0 <= i < j < |s| ==> key(s[i]) != key(s[j])
  }

  /** Appending an entry whose key is not yet present keeps keys unique. */
  lemma AddFreshKeepsUnique<T>(s: seq<T>, key: T -> string, x: T)
    requires UniqueKeys(s, key) && Find(s, key, key(x)).None?
    ensures UniqueKeys(s + [x], key)
  {
    assert forall i :: 0 <= i < |s| ==> (s + [x])[i] == s[i];
  }

  /** Deleting keeps keys unique. */
  lemma {:induction false} RemoveKeepsUnique<T>(s: seq<T>, key: T -> string, id: string)
    requires UniqueKeys(s, key)
    ensures UniqueKeys(RemoveAll(s, key, id), key)
  {
    FilterKeepsUnique(s, key, (r: T) => key(r) != id);
  }

  lemma {:induction false} FilterKeepsUnique<T>(s: seq<T>, key: T -> string, keep: T -> bool)
    requires UniqueKeys(s, key)
    ensures UniqueKeys(Seqs.Filter(s, keep), key)
    decreases |s|
  {
    if s != [] {
      FilterKeepsUnique(s[1..], key, keep);
      var rest := Seqs.Filter(s[1..], keep);
      if keep(s[0]) {
        forall k | 0 <= k < |rest|
          ensures key(rest[k]) != key(s[0])
        {
          Seqs.FilterMembership(s[1..], keep, rest[k]);
          var m :| 0 <= m < |s[1..]| && s[1..][m] == rest[k];
          assert s[m + 1] == rest[k];
        }
        var r := [s[0]] + rest;
        assert Seqs.Filter(s, keep) == r;
        assert forall i :: 1 <= i < |r| ==> r[i] == rest[i - 1];
      }
    }
  }

  /** An update that keeps the entry's key keeps keys unique, and a lookup of
      the key then returns the updated entry. */
  lemma FindAfterUpdate<T>(s: seq<T>, key: T -> string, id: string, merge: T -> T)
    requires FirstIndex(s, key, id).Some?
    requires key(merge(s[FirstIndex(s, key, id).value])) == id
    ensures Find(UpdateFirst(s, key, id, merge), key, id) == Some(merge(s[FirstIndex(s, key, id).value]))
    ensures UniqueKeys(s, key) ==> UniqueKeys(UpdateFirst(s, key, id, merge), key)
  {
    var i := FirstIndex(s, key, id).value;
    var r := UpdateFirst(s, key, id, merge);
    assert r == s[i := merge(s[i])];
  }

  /** Deleting a key that is absent leaves the table unchanged. */
  lemma RemoveAbsentIsNoOp<T>(s: seq<T>, key: T -> string, id: string)
    requires forall j :: 0 <= j < |s| ==> key(s[j]) != id
    ensures RemoveAll(s, key, id) == s
  {
    Seqs.FilterKeepsAll(s, (r: T) => key(r) != id);
  }
}
