/**
 * The three array transformations the application applies to its collections,
 * generic over the record type: `filter`, `map` that replaces the records with a
 * given id, and `find` by id.  `key` projects a record to its `id`.
 */
module Collections {
  import opened Wrappers

  // ---------------------------------------------------------------------------
  // Ids
  // ---------------------------------------------------------------------------

  /** The ids of the records, in stored order. */
  function Keys<T>(s: seq<T>, key: T -> string): (r: seq<string>)
    ensures |r| == |s|
    ensures forall i :: 0 <= i < |s| ==> r[i] == key(s[i])
  {
    seq(|s|, i requires 0 <= i < |s| => key(s[i]))
  }

  /** No two records share an id. */
  predicate UniqueKeys<T>(s: seq<T>, key: T -> string)
  {
    forall i, j :: 0 <= i < j < |s| ==> key(s[i]) != key(s[j])
  }

  // ---------------------------------------------------------------------------
  // Subsequences
  // ---------------------------------------------------------------------------

  /** `a` is obtained from `b` by deleting elements, keeping the order of the rest. */
  ghost predicate IsSubsequence<T>(a: seq<T>, b: seq<T>)
    decreases |b|
  {
    a == [] || (b != [] && ((a[0] == b[0] && IsSubsequence(a[1..], b[1..])) || IsSubsequence(a, b[1..])))
  }

  // ---------------------------------------------------------------------------
  // filter
  // ---------------------------------------------------------------------------

  /** `s.filter(keep)`. */
  function Filter<T(==)>(s: seq<T>, keep: T -> bool): (r: seq<T>)
    ensures |r| <= |s|
    ensures forall i :: 0 <= i < |r| ==> r[i] in s && keep(r[i])
    ensures forall i :: 0 <= i < |s| && keep(s[i]) ==> s[i] in r
  {
    if s == [] then []
    else if keep(s[0]) then [s[0]] + Filter(s[1..], keep)
    else Filter(s[1..], keep)
  }

  /** What `filter` returns is in the original order: it only deletes. */
  lemma {:induction false} FilterIsSubsequence<T>(s: seq<T>, keep: T -> bool)
    ensures IsSubsequence(Filter(s, keep), s)
  {
    if s != [] {
      FilterIsSubsequence(s[1..], keep);
      if keep(s[0]) {
        assert ([s[0]] + Filter(s[1..], keep))[1..] == Filter(s[1..], keep);
      }
    }
  }

  /** When every record is kept, `filter` returns the array unchanged. */
  lemma {:induction false} FilterKeepsAll<T>(s: seq<T>, keep: T -> bool)
    requires forall i :: 0 <= i < |s| ==> keep(s[i])
    ensures Filter(s, keep) == s
  {
    if s != [] {
      assert keep(s[0]);
      FilterKeepsAll(s[1..], keep);
    }
  }

  /** Filtering twice with the same test is filtering once. */
  lemma {:induction false} FilterIdempotent<T>(s: seq<T>, keep: T -> bool)
    ensures Filter(Filter(s, keep), keep) == Filter(s, keep)
  {
    if s != [] {
      FilterIdempotent(s[1..], keep);
      if keep(s[0]) {
        var r := [s[0]] + Filter(s[1..], keep);
        assert r[0] == s[0] && r[1..] == Filter(s[1..], keep);
      }
    }
  }

  /** `filter` keeps every copy of a kept record and no copy of a dropped one. */
  lemma {:induction false} FilterMultiplicity<T>(s: seq<T>, keep: T -> bool, x: T)
    ensures multiset(Filter(s, keep))[x] == if keep(x) then multiset(s)[x] else 0
  {
    if s != [] {
      FilterMultiplicity(s[1..], keep, x);
      assert s == [s[0]] + s[1..];
    }
  }

  /** Filtering a permutation yields a permutation of the filtered array. */
  lemma FilterPermutation<T>(a: seq<T>, b: seq<T>, keep: T -> bool)
    requires multiset(a) == multiset(b)
    ensures multiset(Filter(a, keep)) == multiset(Filter(b, keep))
  {
    forall x
      ensures multiset(Filter(a, keep))[x] == multiset(Filter(b, keep))[x]
    {
      FilterMultiplicity(a, keep, x);
      FilterMultiplicity(b, keep, x);
    }
  }

  /** A filtered array of records with unique ids still has unique ids. */
  lemma {:induction false} FilterKeepsUnique<T>(s: seq<T>, keep: T -> bool, key: T -> string)
    requires UniqueKeys(s, key)
    ensures UniqueKeys(Filter(s, keep), key)
  {
    if s != [] {
      FilterKeepsUnique(s[1..], keep, key);
      if keep(s[0]) {
        var t := Filter(s[1..], keep);
        forall x | x in t
          ensures key(x) != key(s[0])
        {
          var j :| 0 <= j < |s[1..]| && s[1..][j] == x;
          assert s[j + 1] == x;
        }
        UniqueCons(s[0], t, key);
      }
    }
  }

  lemma UniqueCons<T>(e: T, s: seq<T>, key: T -> string)
    requires UniqueKeys(s, key)
    requires forall x :: x in s ==> key(x) != key(e)
    ensures UniqueKeys([e] + s, key)
  {
    var r := [e] + s;
    forall i, j | 0 <= i < j < |r|
      ensures key(r[i]) != key(r[j])
    {
      if i == 0 {
        assert r[j] == s[j - 1];
      } else {
        assert r[i] == s[i - 1] && r[j] == s[j - 1];
      }
    }
  }

  // ---------------------------------------------------------------------------
  // Delete: filter out one id
  // ---------------------------------------------------------------------------

  /** `s.filter(x => x.id !== id)`. */
  function Remove<T(==)>(s: seq<T>, key: T -> string, id: string): (r: seq<T>)
    ensures forall i :: 0 <= i < |r| ==> r[i] in s && key(r[i]) != id
    ensures forall i :: 0 <= i < |s| && key(s[i]) != id ==> s[i] in r
    ensures IsSubsequence(r, s)
  {
    FilterIsSubsequence(s, x => key(x) != id);
    Filter(s, x => key(x) != id)
  }

  /** Deleting an id that no record has changes nothing. */
  lemma RemoveAbsent<T>(s: seq<T>, key: T -> string, id: string)
    requires id !in Keys(s, key)
    ensures Remove(s, key, id) == s
  {
    forall i | 0 <= i < |s|
      ensures key(s[i]) != id
    {
      assert Keys(s, key)[i] == key(s[i]);
    }
    FilterKeepsAll(s, x => key(x) != id);
  }

  /** Afterwards no record has the id. */
  lemma RemoveGone<T>(s: seq<T>, key: T -> string, id: string)
    ensures id !in Keys(Remove(s, key, id), key)
  {
  }

  /** Deleting twice is deleting once. */
  lemma RemoveIdempotent<T>(s: seq<T>, key: T -> string, id: string)
    ensures Remove(Remove(s, key, id), key, id) == Remove(s, key, id)
  {
    FilterIdempotent(s, x => key(x) != id);
  }

  /** Deleting keeps the ids unique. */
  lemma RemoveKeepsUnique<T>(s: seq<T>, key: T -> string, id: string)
    requires UniqueKeys(s, key)
    ensures UniqueKeys(Remove(s, key, id), key)
  {
    FilterKeepsUnique(s, x => key(x) != id, key);
  }

  // ---------------------------------------------------------------------------
  // Update: map, replacing the records whose id matches
  // ---------------------------------------------------------------------------

  /** `s.map(x => x.id === e.id ? e : x)`. */
  function Replace<T>(s: seq<T>, key: T -> string, e: T): (r: seq<T>)
    ensures |r| == |s|
  {
    if s == [] then []
    else [if key(s[0]) == key(e) then e else s[0]] + Replace(s[1..], key, e)
  }

  /** Position by position, a record is replaced exactly when its id is the new record's. */
  lemma {:induction false} ReplaceAt<T>(s: seq<T>, key: T -> string, e: T)
    ensures |Replace(s, key, e)| == |s|
    ensures forall i :: 0 <= i < |s| ==>
              Replace(s, key, e)[i] == if key(s[i]) == key(e) then e else s[i]
  {
    if s != [] {
      ReplaceAt(s[1..], key, e);
    }
  }

  /** Updating with an id that no record has changes nothing. */
  lemma ReplaceAbsent<T>(s: seq<T>, key: T -> string, e: T)
    requires key(e) !in Keys(s, key)
    ensures Replace(s, key, e) == s
  {
    ReplaceAt(s, key, e);
    assert forall i :: 0 <= i < |s| ==> Keys(s, key)[i] != key(e);
  }

  /** Updating keeps the sequence of ids, hence their uniqueness. */
  lemma ReplaceKeys<T>(s: seq<T>, key: T -> string, e: T)
    ensures Keys(Replace(s, key, e), key) == Keys(s, key)
    ensures UniqueKeys(s, key) ==> UniqueKeys(Replace(s, key, e), key)
  {
    ReplaceAt(s, key, e);
  }

  /** Updating with a present id puts the new record in the collection. */
  lemma ReplacePresent<T>(s: seq<T>, key: T -> string, e: T)
    requires key(e) in Keys(s, key)
    ensures exists i :: 0 <= i < |Replace(s, key, e)| && Replace(s, key, e)[i] == e
  {
    ReplaceAt(s, key, e);
    var i :| 0 <= i < |s| && Keys(s, key)[i] == key(e);
    assert Replace(s, key, e)[i] == e;
  }

  /** Writing back a stored record under its own id changes nothing when ids are unique. */
  lemma ReplaceSelf<T>(s: seq<T>, key: T -> string, k: nat)
    requires k < |s| && UniqueKeys(s, key)
    ensures Replace(s, key, s[k]) == s
  {
    ReplaceAt(s, key, s[k]);
    forall i | 0 <= i < |s|
      ensures Replace(s, key, s[k])[i] == s[i]
    {
      if key(s[i]) == key(s[k]) {
        assert i == k;
      }
    }
  }

  /** Updating twice with the same record is updating once. */
  lemma ReplaceIdempotent<T>(s: seq<T>, key: T -> string, e: T)
    ensures Replace(Replace(s, key, e), key, e) == Replace(s, key, e)
  {
    ReplaceAt(s, key, e);
    ReplaceAt(Replace(s, key, e), key, e);
  }

  // ---------------------------------------------------------------------------
  // Add: prepend
  // ---------------------------------------------------------------------------

  /** Prepending a record whose id is fresh keeps the ids unique. */
  lemma PrependFresh<T>(s: seq<T>, key: T -> string, e: T)
    requires UniqueKeys(s, key)
    requires key(e) !in Keys(s, key)
    ensures UniqueKeys([e] + s, key)
  {
    forall x | x in s
      ensures key(x) != key(e)
    {
      var i :| 0 <= i < |s| && s[i] == x;
      assert Keys(s, key)[i] == key(x);
    }
    UniqueCons(e, s, key);
  }

  /** Prepending performs no duplicate check: a reused id breaks uniqueness. */
  lemma PrependDuplicate<T>(s: seq<T>, key: T -> string, e: T)
    requires key(e) in Keys(s, key)
    ensures !UniqueKeys([e] + s, key)
  {
    var i :| 0 <= i < |s| && Keys(s, key)[i] == key(e);
    var r := [e] + s;
    assert r[0] == e && r[i + 1] == s[i] && key(s[i]) == key(e);
    assert key(r[0]) == key(r[i + 1]);
  }

  // ---------------------------------------------------------------------------
  // find by id
  // ---------------------------------------------------------------------------

  /** The position of the first record with the id, or `|s|` when there is none. */
  function FirstIndex<T>(s: seq<T>, key: T -> string, id: string): (k: nat)
    ensures k <= |s|
    ensures forall j :: 0 <= j < k ==> key(s[j]) != id
    ensures k < |s| ==> key(s[k]) == id
  {
    if s == [] then 0
    else if key(s[0]) == id then 0
    else 1 + FirstIndex(s[1..], key, id)
  }

  /** `s.find(x => x.id === id)`: the first record with the id, if any. */
  function Find<T>(s: seq<T>, key: T -> string, id: string): (r: Option<T>)
    ensures r.None? <==> id !in Keys(s, key)
    ensures r.Some? ==> exists k :: 0 <= k < |s| && s[k] == r.value && key(s[k]) == id &&
                                    forall j :: 0 <= j < k ==> key(s[j]) != id
  {
    var k := FirstIndex(s, key, id);
    assert k < |s| ==> Keys(s, key)[k] == id;
    if k < |s| then Some(s[k]) else None
  }

  // ---------------------------------------------------------------------------
  // The store's two writes, as values the record editors hand over
  // ---------------------------------------------------------------------------

  datatype Command<T> = Add(record: T) | Update(record: T)

  /** The collection after `onAdd` (prepend) or `onUpdate` (replace by id). */
  function Apply<T>(s: seq<T>, key: T -> string, c: Command<T>): (r: seq<T>)
    ensures |r| == if c.Add? then |s| + 1 else |s|
    ensures c.Add? ==> r[0] == c.record && r[1..] == s
    ensures c.Update? ==> forall i :: 0 <= i < |s| ==>
              r[i] == if key(s[i]) == key(c.record) then c.record else s[i]
  {
    match c
    case Add(e) => [e] + s
    case Update(e) => ReplaceAt(s, key, e); Replace(s, key, e)
  }
}
