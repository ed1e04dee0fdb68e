/** The list operations the CRM applies to its collections: `findIndex` on an
    id, replacing the first match (the store) or every match (the controller's
    `map`), and `filter`. Every record type has its own `id` field, so the
    operations here take the id projection as a parameter. */
module Seqs {

  /** `findIndex(x => key(x) === id)`: the first position whose key is `id`, or -1. */
  function FirstIndex<T>(s: seq<T>, key: T -> string, id: string): (r: int)
    ensures -1 <= r < |s|
    ensures r == -1 <==> forall j :: 0 <= j < |s| ==> key(s[j]) != id
    ensures r >= 0 ==> key(s[r]) == id && forall j :: 0 <= j < r ==> key(s[j]) != id
    decreases |s|
  {
    if |s| == 0 then -1
    else if key(s[0]) == id then 0
    else
      var i := FirstIndex(s[1..], key, id);
      if i == -1 then -1 else i + 1
  }

  /** Reference definition of "change the first element with key `id` by `f`":
      walk the list and stop at the first match. */
  function UpdateFirst<T>(s: seq<T>, key: T -> string, id: string, f: T -> T): seq<T>
    decreases |s|
  {
    if |s| == 0 then []
    else if key(s[0]) == id then [f(s[0])] + s[1..]
    else [s[0]] + UpdateFirst(s[1..], key, id, f)
  }

  /** The in-place form the store uses (`list[index] = ...` after `findIndex`)
      computes the reference definition. */
  lemma {:induction false} UpdateFirstByIndex<T>(s: seq<T>, key: T -> string, id: string, f: T -> T)
    ensures var i := FirstIndex(s, key, id);
            UpdateFirst(s, key, id, f) == if i == -1 then s else s[i := f(s[i])]
    decreases |s|
  {
    if |s| > 0 && key(s[0]) != id {
      UpdateFirstByIndex(s[1..], key, id, f);
      var i := FirstIndex(s[1..], key, id);
      if i != -1 {
        assert [s[0]] + s[1..][i := f(s[1..][i])] == s[i + 1 := f(s[i + 1])];
      } else {
        assert [s[0]] + s[1..] == s;
      }
    }
  }

  /** Changing the first match preserves length, changes that position only,
      and with no match changes nothing. */
  lemma {:induction false} UpdateFirstFrame<T>(s: seq<T>, key: T -> string, id: string, f: T -> T)
    ensures var r, i := UpdateFirst(s, key, id, f), FirstIndex(s, key, id);
            && |r| == |s|
            && (i == -1 ==> r == s)
            && (i >= 0 ==> r[i] == f(s[i]))
            && forall j :: 0 <= j < |s| && j != i ==> r[j] == s[j]
  {
    UpdateFirstByIndex(s, key, id, f);
  }

  /** `s.map(x => key(x) === id ? f(x) : x)`: change every element with key `id`. */
  function UpdateAll<T>(s: seq<T>, key: T -> string, id: string, f: T -> T): (r: seq<T>)
    ensures |r| == |s|
    ensures forall j :: 0 <= j < |s| ==> r[j] == if key(s[j]) == id then f(s[j]) else s[j]
    decreases |s|
  {
    if |s| == 0 then []
    else [if key(s[0]) == id then f(s[0]) else s[0]] + UpdateAll(s[1..], key, id, f)
  }

  /** No two elements share a key. */
  predicate UniqueKeys<T>(s: seq<T>, key: T -> string) {
    forall i, j :: 0 <= i < j < |s| ==> key(s[i]) != key(s[j])
  }

  /** With unique ids, the store's "first match" and the controller's "every
      match" agree. */
  lemma {:induction false} UpdateFirstIsUpdateAll<T>(s: seq<T>, key: T -> string, id: string, f: T -> T)
    requires UniqueKeys(s, key)
    ensures UpdateFirst(s, key, id, f) == UpdateAll(s, key, id, f)
    decreases |s|
  {
    if |s| > 0 {
      assert UniqueKeys(s[1..], key) by {
        forall i, j | 0 <= i < j < |s| - 1 ensures key(s[1..][i]) != key(s[1..][j]) {
          assert key(s[i + 1]) != key(s[j + 1]);
        }
      }
      if key(s[0]) == id {
        forall j | 0 <= j < |s| - 1 ensures key(s[1..][j]) != id {
          assert key(s[0]) != key(s[j + 1]);
        }
        assert UpdateAll(s[1..], key, id, f) == s[1..];
      } else {
        UpdateFirstIsUpdateAll(s[1..], key, id, f);
      }
    }
  }

  /** Whenever `f` keeps the key of the elements it changes, `UpdateAll` keeps
      every key and thus uniqueness. */
  lemma {:induction false} UpdateAllKeepsKeys<T>(s: seq<T>, key: T -> string, id: string, f: T -> T)
    requires forall t :: key(t) == id ==> key(f(t)) == id
    ensures forall j :: 0 <= j < |s| ==> key(UpdateAll(s, key, id, f)[j]) == key(s[j])
    ensures UniqueKeys(s, key) ==> UniqueKeys(UpdateAll(s, key, id, f), key)
  {
  }

  /** An `f` that is its own inverse on matching elements makes `UpdateAll`
      its own inverse. */
  lemma {:induction false} UpdateAllTwice<T>(s: seq<T>, key: T -> string, id: string, f: T -> T)
    requires forall t :: key(t) == id ==> key(f(t)) == id && f(f(t)) == t
    ensures UpdateAll(UpdateAll(s, key, id, f), key, id, f) == s
  {
    var r := UpdateAll(UpdateAll(s, key, id, f), key, id, f);
    forall j | 0 <= j < |s| ensures r[j] == s[j] {
      if key(s[j]) == id {
        assert key(f(s[j])) == id;
      }
    }
  }

  /** An idempotent `f` makes `UpdateAll` idempotent. */
  lemma {:induction false} UpdateAllIdempotent<T>(s: seq<T>, key: T -> string, id: string, f: T -> T)
    requires forall t :: key(t) == id ==> key(f(t)) == id && f(f(t)) == f(t)
    ensures UpdateAll(UpdateAll(s, key, id, f), key, id, f) == UpdateAll(s, key, id, f)
  {
    var u := UpdateAll(s, key, id, f);
    var r := UpdateAll(u, key, id, f);
    forall j | 0 <= j < |s| ensures r[j] == u[j] {
      if key(s[j]) == id {
        assert key(f(s[j])) == id;
      }
    }
  }

  /** Changing the first match keeps every key, so the second call finds the
      same position. */
  lemma {:induction false} UpdateFirstKeepsIndex<T>(s: seq<T>, key: T -> string, id: string, f: T -> T)
    requires forall t :: key(t) == id ==> key(f(t)) == id
    ensures FirstIndex(UpdateFirst(s, key, id, f), key, id) == FirstIndex(s, key, id)
  {
    var i := FirstIndex(s, key, id);
    var r := UpdateFirst(s, key, id, f);
    UpdateFirstFrame(s, key, id, f);
    var k := FirstIndex(r, key, id);
    if i >= 0 {
      assert key(r[i]) == id;
      assert k <= i;
      assert k == i;
    }
  }

  /** An `f` that is its own inverse makes `UpdateFirst` its own inverse. */
  lemma {:induction false} UpdateFirstTwice<T>(s: seq<T>, key: T -> string, id: string, f: T -> T)
    requires forall t :: key(t) == id ==> key(f(t)) == id && f(f(t)) == t
    ensures UpdateFirst(UpdateFirst(s, key, id, f), key, id, f) == s
  {
    var u := UpdateFirst(s, key, id, f);
    UpdateFirstKeepsIndex(s, key, id, f);
    UpdateFirstByIndex(s, key, id, f);
    UpdateFirstByIndex(u, key, id, f);
  }

  /** An idempotent `f` makes `UpdateFirst` idempotent. */
  lemma {:induction false} UpdateFirstIdempotent<T>(s: seq<T>, key: T -> string, id: string, f: T -> T)
    requires forall t :: key(t) == id ==> key(f(t)) == id && f(f(t)) == f(t)
    ensures UpdateFirst(UpdateFirst(s, key, id, f), key, id, f) == UpdateFirst(s, key, id, f)
  {
    var u := UpdateFirst(s, key, id, f);
    UpdateFirstKeepsIndex(s, key, id, f);
    UpdateFirstByIndex(s, key, id, f);
    UpdateFirstByIndex(u, key, id, f);
  }

  /** The update that overwrites an element with `x`. */
  function ReplaceWith<T>(x: T): T -> T {
    (_: T) => x
  }

  /** The store's `update(x)`: overwrite the first element whose key is
      `key(x)`, if there is one. */
  lemma {:induction false} ReplaceFirstSpec<T>(s: seq<T>, key: T -> string, x: T)
    ensures var r, i := UpdateFirst(s, key, key(x), ReplaceWith(x)), FirstIndex(s, key, key(x));
            && |r| == |s|
            && (i == -1 ==> r == s)
            && (i >= 0 ==> r[i] == x)
            && forall j :: 0 <= j < |s| && j != i ==> r[j] == s[j]
  {
    UpdateFirstFrame(s, key, key(x), ReplaceWith(x));
  }

  /** The controller's `map(c => c.id === x.id ? x : c)`: overwrite every
      element whose key is `key(x)`; replacing again changes nothing. */
  lemma {:induction false} ReplaceAllSpec<T>(s: seq<T>, key: T -> string, x: T)
    ensures var r := UpdateAll(s, key, key(x), ReplaceWith(x));
            && |r| == |s|
            && (forall j :: 0 <= j < |s| && key(s[j]) == key(x) ==> r[j] == x)
            && (forall j :: 0 <= j < |s| && key(s[j]) != key(x) ==> r[j] == s[j])
            && UpdateAll(r, key, key(x), ReplaceWith(x)) == r
  {
    UpdateAllIdempotent(s, key, key(x), ReplaceWith(x));
  }

  /** `s.filter(p)`. */
  function Filter<T>(s: seq<T>, p: T -> bool): (r: seq<T>)
    ensures |r| <= |s|
    ensures forall x :: x in r ==> x in s && p(x)
    ensures forall x :: x in s && p(x) ==> x in r
    decreases |s|
  {
    if |s| == 0 then []
    else if p(s[0]) then [s[0]] + Filter(s[1..], p)
    else Filter(s[1..], p)
  }

  /** `a` is `b` with some elements dropped, the rest in their original order. */
  predicate IsSubseq<T(==)>(a: seq<T>, b: seq<T>)
    decreases |b|
  {
    if |a| == 0 then true
    else if |b| == 0 then false
    else (a[0] == b[0] && IsSubseq(a[1..], b[1..])) || IsSubseq(a, b[1..])
  }

  lemma {:induction false} FilterIsSubseq<T>(s: seq<T>, p: T -> bool)
    ensures IsSubseq(Filter(s, p), s)
    decreases |s|
  {
    if |s| > 0 {
      FilterIsSubseq(s[1..], p);
      var r := Filter(s, p);
      if p(s[0]) {
        assert r[0] == s[0] && r[1..] == Filter(s[1..], p);
      }
    }
  }

  /** A filter that rejects nothing returns its input. */
  lemma {:induction false} FilterKeepsAll<T>(s: seq<T>, p: T -> bool)
    requires forall j :: 0 <= j < |s| ==> p(s[j])
    ensures Filter(s, p) == s
    decreases |s|
  {
    if |s| > 0 {
      FilterKeepsAll(s[1..], p);
      assert [s[0]] + s[1..] == s;
    }
  }

  /** A filter and its complement split the input: their lengths add up and
      together they hold exactly its elements. */
  lemma {:induction false} FilterPartition<T>(s: seq<T>, p: T -> bool, q: T -> bool)
    requires forall t :: q(t) == !p(t)
    ensures |Filter(s, p)| + |Filter(s, q)| == |s|
    ensures multiset(Filter(s, p)) + multiset(Filter(s, q)) == multiset(s)
    decreases |s|
  {
    if |s| > 0 {
      FilterPartition(s[1..], p, q);
      assert s == [s[0]] + s[1..];
    }
  }

  /** A filter keeps each passing element as often as the list holds it, and
      no other. */
  lemma {:induction false} FilterCounts<T>(s: seq<T>, p: T -> bool)
    ensures forall x :: multiset(Filter(s, p))[x] == if p(x) then multiset(s)[x] else 0
    decreases |s|
  {
    if |s| > 0 {
      FilterCounts(s[1..], p);
      assert s == [s[0]] + s[1..];
    }
  }

  /** An update that never makes a rejected element pass the filter `p` cannot
      make the filter longer; if it takes `p` away from some matching element,
      the filter gets strictly shorter. */
  lemma {:induction false} FilterUpdateAllShrinks<T>(s: seq<T>, key: T -> string, id: string, f: T -> T, p: T -> bool)
    requires forall t :: key(t) == id && p(f(t)) ==> p(t)
    ensures |Filter(UpdateAll(s, key, id, f), p)| <= |Filter(s, p)|
    ensures (exists j :: 0 <= j < |s| && key(s[j]) == id && p(s[j]) && !p(f(s[j]))) ==>
              |Filter(UpdateAll(s, key, id, f), p)| < |Filter(s, p)|
    decreases |s|
  {
    if |s| > 0 {
      FilterUpdateAllShrinks(s[1..], key, id, f, p);
      var u := UpdateAll(s, key, id, f);
      assert u[1..] == UpdateAll(s[1..], key, id, f);
      if exists j :: 0 <= j < |s| && key(s[j]) == id && p(s[j]) && !p(f(s[j])) {
        var j :| 0 <= j < |s| && key(s[j]) == id && p(s[j]) && !p(f(s[j]));
        if j > 0 {
          assert s[1..][j - 1] == s[j];
        }
      }
    }
  }
}
