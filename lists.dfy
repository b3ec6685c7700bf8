/** The list operations the modules apply to their in-memory lists:
    `Array.prototype.sort` with a "newest first" comparator, `find`, `map`
    that replaces matching ids and `filter`. */
module Lists {
  import opened Common

  /** Keys never increase along the list. */
  predicate SortedDesc<T>(s: seq<T>, key: T -> int) {
    forall i, j :: 0 <= i < j < |s| ==> key(s[i]) >= key(s[j])
  }

  /** Puts `x` in front of the first element whose key is not larger, so `x`
      goes before every element with an equal key. */
  function Insert<T(==)>(x: T, s: seq<T>, key: T -> int): (r: seq<T>)
    ensures |r| == |s| + 1
    ensures multiset(r) == multiset(s) + multiset{x}
  {
    if s == [] || key(s[0]) <= key(x) then [x] + s
    else
      assert s == [s[0]] + s[1..];
      [s[0]] + Insert(x, s[1..], key)
  }

  /** Every element of a list sorted newest first is at most as new as its head. */
  lemma HeadIsNewest<T>(s: seq<T>, key: T -> int, y: T)
    requires SortedDesc(s, key) && y in s
    ensures key(y) <= key(s[0])
  {
    var j :| 0 <= j < |s| && s[j] == y;
  }

  lemma {:induction false} InsertSorted<T>(x: T, s: seq<T>, key: T -> int)
    requires SortedDesc(s, key)
    ensures SortedDesc(Insert(x, s, key), key)
  {
    if s == [] || key(s[0]) <= key(x) {
      var r := [x] + s;
      forall i, j | 0 <= i < j < |r| ensures key(r[i]) >= key(r[j]) {
        if i > 0 {
          assert r[i] == s[i - 1] && r[j] == s[j - 1];
        } else {
          HeadIsNewest(s, key, r[j]);
        }
      }
    } else {
      assert SortedDesc(s[1..], key);
      InsertSorted(x, s[1..], key);
      var rest := Insert(x, s[1..], key);
      var r := [s[0]] + rest;
      forall i, j | 0 <= i < j < |r| ensures key(r[i]) >= key(r[j]) {
        if i > 0 {
          assert r[i] == rest[i - 1] && r[j] == rest[j - 1];
        } else {
          var y := r[j];
          assert y in multiset(rest);
          assert y in multiset(s[1..]) || y == x;
          if y != x {
            assert y in s[1..];
            var k :| 0 <= k < |s[1..]| && s[1..][k] == y;
            assert s[k + 1] == y;
          }
        }
      }
    }
  }

  /** `s.sort((a, b) => key(b) - key(a))`: the engine's sort is stable, so
      this is insertion from the back, each element going before the
      equal-key elements that followed it. */
  function SortDesc<T(==)>(s: seq<T>, key: T -> int): (r: seq<T>)
    ensures |r| == |s|
    ensures multiset(r) == multiset(s)
  {
    if s == [] then [] else
      assert s == [s[0]] + s[1..];
      Insert(s[0], SortDesc(s[1..], key), key)
  }

  /** The sort orders newest first. */
  lemma {:induction false} SortDescSorted<T>(s: seq<T>, key: T -> int)
    ensures SortedDesc(SortDesc(s, key), key)
  {
    if s != [] {
      SortDescSorted(s[1..], key);
      InsertSorted(s[0], SortDesc(s[1..], key), key);
    }
  }

  /** A list already newest first comes back unchanged, so re-sorting a
      sorted list never reorders ties. */
  lemma {:induction false} SortSortedIsIdentity<T>(s: seq<T>, key: T -> int)
    requires SortedDesc(s, key)
    ensures SortDesc(s, key) == s
  {
    if s != [] {
      assert SortedDesc(s[1..], key);
      SortSortedIsIdentity(s[1..], key);
      if |s| > 1 {
        assert key(s[1]) <= key(s[0]);
      }
    }
  }

  /** Prepending an element at least as new as every other one and sorting
      puts it first and leaves the rest in place. */
  lemma PrependNewest<T>(x: T, s: seq<T>, key: T -> int)
    requires SortedDesc(s, key)
    requires forall y :: y in s ==> key(y) <= key(x)
    ensures SortDesc([x] + s, key) == [x] + s
  {
    var r := [x] + s;
    forall i, j | 0 <= i < j < |r| ensures key(r[i]) >= key(r[j]) {
      if i > 0 {
        assert r[i] == s[i - 1] && r[j] == s[j - 1];
      } else {
        assert r[j] in s;
      }
    }
    SortSortedIsIdentity(r, key);
  }

  /** `s.find(x => idOf(x) === id)`. */
  function Find<T(==)>(s: seq<T>, idOf: T -> string, id: string): (r: Option<T>)
    ensures r.None? <==> forall i :: 0 <= i < |s| ==> idOf(s[i]) != id
    ensures r.Some? ==> exists i :: 0 <= i < |s| && s[i] == r.value && idOf(r.value) == id &&
                                    forall j :: 0 <= j < i ==> idOf(s[j]) != id
  {
    if s == [] then None
    else if idOf(s[0]) == id then Some(s[0])
    else
      var r := Find(s[1..], idOf, id);
      assert s == [s[0]] + s[1..];
      if r.Some? then
        var i :| 0 <= i < |s[1..]| && s[1..][i] == r.value && idOf(r.value) == id &&
                 forall j :: 0 <= j < i ==> idOf(s[1..][j]) != id;
        assert s[i + 1] == r.value && forall j :: 0 <= j < i + 1 ==> idOf(s[j]) != id;
        r
      else r
  }

  /** When ids are unique, the element found is the one element with that id. */
  lemma FindUnique<T>(s: seq<T>, idOf: T -> string, x: T)
    requires x in s
    requires forall i, j :: 0 <= i < j < |s| ==> idOf(s[i]) != idOf(s[j])
    ensures Find(s, idOf, idOf(x)) == Some(x)
  {
    var r := Find(s, idOf, idOf(x));
    var i :| 0 <= i < |s| && s[i] == r.value && idOf(r.value) == idOf(x) &&
             forall j :: 0 <= j < i ==> idOf(s[j]) != idOf(x);
    var k :| 0 <= k < |s| && s[k] == x;
  }

  /** `s.map(x => idOf(x) === id ? y : x)`. */
  function ReplaceById<T(==)>(s: seq<T>, idOf: T -> string, id: string, y: T): (r: seq<T>)
    ensures |r| == |s|
    ensures forall i :: 0 <= i < |s| && idOf(s[i]) == id ==> r[i] == y
    ensures forall i :: 0 <= i < |s| && idOf(s[i]) != id ==> r[i] == s[i]
  {
    seq(|s|, i requires 0 <= i < |s| => if idOf(s[i]) == id then y else s[i])
  }

  /** Replacing by an element with the same id and the same key keeps the
      order, and doing it twice is doing it once. */
  lemma ReplaceKeepsOrder<T>(s: seq<T>, idOf: T -> string, id: string, y: T, key: T -> int)
    requires idOf(y) == id
    requires forall x :: x in s && idOf(x) == id ==> key(x) == key(y)
    ensures SortedDesc(s, key) ==> SortedDesc(ReplaceById(s, idOf, id, y), key)
    ensures ReplaceById(ReplaceById(s, idOf, id, y), idOf, id, y) == ReplaceById(s, idOf, id, y)
  {
    var r := ReplaceById(s, idOf, id, y);
    assert forall i :: 0 <= i < |s| ==> key(r[i]) == key(s[i]);
  }

  /** `s.filter(keep)`. */
  function Filter<T(==)>(s: seq<T>, keep: T -> bool): (r: seq<T>)
    ensures |r| <= |s|
    ensures forall i :: 0 <= i < |r| ==> keep(r[i]) && r[i] in s
    ensures forall i :: 0 <= i < |s| && keep(s[i]) ==> s[i] in r
  {
    if s == [] then []
    else
      var rest := Filter(s[1..], keep);
      assert forall i :: 0 <= i < |rest| ==> rest[i] in s by {
        assert forall i :: 0 <= i < |rest| ==> rest[i] in s[1..];
      }
      assert forall i :: 1 <= i < |s| ==> s[i] == s[1..][i - 1];
      if keep(s[0]) then [s[0]] + rest else rest
  }

  /** Filtering a list with one more element at the end filters the list and
      then keeps or drops that element. */
  lemma {:induction false} FilterAppend<T>(s: seq<T>, x: T, keep: T -> bool)
    ensures Filter(s + [x], keep) == Filter(s, keep) + (if keep(x) then [x] else [])
  {
    if s != [] {
      assert (s + [x])[1..] == s[1..] + [x];
      FilterAppend(s[1..], x, keep);
    }
  }

  /** A filter that keeps everything returns the list itself. */
  lemma {:induction false} FilterAll<T>(s: seq<T>, keep: T -> bool)
    requires forall i :: 0 <= i < |s| ==> keep(s[i])
    ensures Filter(s, keep) == s
  {
    if s != [] {
      FilterAll(s[1..], keep);
      assert s == [s[0]] + s[1..];
    }
  }

  /** Filtering keeps the order of what remains. */
  lemma {:induction false} FilterKeepsSorted<T>(s: seq<T>, keep: T -> bool, key: T -> int)
    requires SortedDesc(s, key)
    ensures SortedDesc(Filter(s, keep), key)
  {
    if s != [] {
      assert SortedDesc(s[1..], key);
      FilterKeepsSorted(s[1..], keep, key);
      var rest := Filter(s[1..], keep);
      if keep(s[0]) {
        var r := [s[0]] + rest;
        forall i, j | 0 <= i < j < |r| ensures key(r[i]) >= key(r[j]) {
          if i > 0 {
            assert r[i] == rest[i - 1] && r[j] == rest[j - 1];
          } else {
            var y := r[j];
            assert y == rest[j - 1];
            assert y in s[1..];
            var k :| 0 <= k < |s[1..]| && s[1..][k] == y;
            assert s[k + 1] == y;
          }
        }
      }
    }
  }

  /** No two elements of the list share an id. */
  predicate DistinctBy<T>(s: seq<T>, idOf: T -> string) {
    forall i, j :: 0 <= i < j < |s| ==> idOf(s[i]) != idOf(s[j])
  }

  /** In a list with distinct ids every element occurs once. */
  lemma CountOfDistinct<T>(s: seq<T>, idOf: T -> string, a: nat)
    requires DistinctBy(s, idOf) && a < |s|
    ensures multiset(s)[s[a]] == 1
  {
    var x := s[a];
    assert s == s[..a] + [x] + s[a + 1..];
    assert x !in s[..a] by {
      forall k | 0 <= k < a ensures s[..a][k] != x { assert idOf(s[k]) != idOf(x); }
    }
    assert x !in s[a + 1..] by {
      forall k | a + 1 <= k < |s| ensures s[k] != x { assert idOf(s[k]) != idOf(x); }
    }
    assert multiset(s) == multiset(s[..a]) + multiset{x} + multiset(s[a + 1..]);
  }

  /** Reordering a list does not create duplicate ids. */
  lemma PermutationKeepsDistinct<T>(s: seq<T>, r: seq<T>, idOf: T -> string)
    requires DistinctBy(s, idOf) && multiset(r) == multiset(s)
    ensures DistinctBy(r, idOf)
  {
    forall i, j | 0 <= i < j < |r| ensures idOf(r[i]) != idOf(r[j]) {
      if idOf(r[i]) == idOf(r[j]) {
        assert r[i] in multiset(s) && r[j] in multiset(s);
        var a :| 0 <= a < |s| && s[a] == r[i];
        var b :| 0 <= b < |s| && s[b] == r[j];
        if a == b {
          var m := multiset(r);
          assert m[r[i]] >= 2 by {
            assert r == r[..i] + [r[i]] + r[i + 1..j] + [r[j]] + r[j + 1..];
          }
          CountOfDistinct(s, idOf, a);
        }
      }
    }
  }

  /** Putting an element with a new id in front keeps the ids distinct. */
  lemma PrependKeepsDistinct<T>(x: T, s: seq<T>, idOf: T -> string)
    requires DistinctBy(s, idOf) && forall i :: 0 <= i < |s| ==> idOf(s[i]) != idOf(x)
    ensures DistinctBy([x] + s, idOf)
  {
    var r := [x] + s;
    forall i, j | 0 <= i < j < |r| ensures idOf(r[i]) != idOf(r[j]) {
      assert r[j] == s[j - 1];
      if i > 0 {
        assert r[i] == s[i - 1];
      }
    }
  }

  /** A filtered list of distinct ids has distinct ids. */
  lemma {:induction false} FilterKeepsDistinct<T>(s: seq<T>, keep: T -> bool, idOf: T -> string)
    requires DistinctBy(s, idOf)
    ensures DistinctBy(Filter(s, keep), idOf)
  {
    if s != [] {
      assert DistinctBy(s[1..], idOf);
      FilterKeepsDistinct(s[1..], keep, idOf);
      var rest := Filter(s[1..], keep);
      if keep(s[0]) {
        forall i | 0 <= i < |rest| ensures idOf(rest[i]) != idOf(s[0]) {
          assert rest[i] in s[1..];
          var k :| 0 <= k < |s[1..]| && s[1..][k] == rest[i];
          assert s[k + 1] == rest[i];
        }
        PrependKeepsDistinct(s[0], rest, idOf);
      }
    }
  }
}
