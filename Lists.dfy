/** The array operations the presentation code relies on: `slice(0, n)`,
    first-occurrence lookup (`indexOf` / `find`), and `Array.from(new Set(xs))`,
    which keeps the first occurrence of every value in insertion order. */
module Lists {
  import opened Numbers

  /** `s.slice(0, n)`. */
  function Take<T>(s: seq<T>, n: nat): (r: seq<T>)
    ensures |r| == Min(n, |s|)
    ensures r == s[..|r|]
  {
    s[..Min(n, |s|)]
  }

  predicate NoDuplicates<T(==)>(s: seq<T>) {
    forall i, j :: 0 <= i < j < |s| ==> s[i] != s[j]
  }

  /** `s.indexOf(x)` for a value that occurs: the first position holding it. */
  function FirstIdx<T(==)>(s: seq<T>, x: T): (i: nat)
    requires x in s
    ensures i < |s| && s[i] == x && x !in s[..i]
  {
    if s[0] == x then 0 else 1 + FirstIdx(s[1..], x)
  }

  /** The first position is the only position with nothing equal before it. */
  lemma FirstIdxUnique<T>(s: seq<T>, x: T, i: nat)
    requires i < |s| && s[i] == x && x !in s[..i]
    ensures FirstIdx(s, x) == i
  {
    var k := FirstIdx(s, x);
    assert forall m :: 0 <= m < i ==> s[..i][m] == s[m];
    assert forall m :: 0 <= m < k ==> s[..k][m] == s[m];
  }

  /** Appending values never moves the first occurrence of a value already present. */
  lemma FirstIdxAppend<T>(s: seq<T>, t: seq<T>, x: T)
    requires x in s
    ensures FirstIdx(s + t, x) == FirstIdx(s, x)
  {
    var i := FirstIdx(s, x);
    assert (s + t)[..i] == s[..i];
    FirstIdxUnique(s + t, x, i);
  }

  lemma FirstIdxAppendAll<T>(s: seq<T>, t: seq<T>)
    ensures forall x :: x in s ==> FirstIdx(s + t, x) == FirstIdx(s, x)
  {
    forall x | x in s
      ensures FirstIdx(s + t, x) == FirstIdx(s, x)
    {
      FirstIdxAppend(s, t, x);
    }
  }

  /** `Array.from(new Set(s))`: each value once, at its first occurrence, in
      the order the values first occur. */
  function Distinct<T(==,!new)>(s: seq<T>): (r: seq<T>)
    ensures NoDuplicates(r)
    ensures forall x :: x in r <==> x in s
    ensures forall i, j :: 0 <= i < j < |r| ==> FirstIdx(s, r[i]) < FirstIdx(s, r[j])
  {
    if s == [] then []
    else
      var init, last := s[..|s| - 1], s[|s| - 1];
      assert s == init + [last];
      var d := Distinct(init);
      FirstIdxAppendAll(init, [last]);
      if last in d then d
      else
        assert last !in init;
        FirstIdxUnique(s, last, |s| - 1);
        d + [last]
  }

  /** A list without duplicates has as many entries as its set of values. */
  lemma {:induction false} NoDuplicatesCard<T>(s: seq<T>)
    requires NoDuplicates(s)
    ensures |set x | x in s| == |s|
  {
    if s != [] {
      var rest := s[1..];
      assert NoDuplicates(rest) by {
        forall i, j | 0 <= i < j < |rest| ensures rest[i] != rest[j] {
          assert rest[i] == s[i + 1] && rest[j] == s[j + 1];
        }
      }
      NoDuplicatesCard(rest);
      assert s[0] !in rest by {
        forall k | 0 <= k < |rest| ensures rest[k] != s[0] {
          assert rest[k] == s[k + 1];
        }
      }
      assert (set x | x in s) == (set x | x in rest) + {s[0]} by {
        assert s == [s[0]] + rest;
      }
    }
  }

  /** The number of distinct values is the number of entries of `Distinct`. */
  lemma DistinctCard<T(!new)>(s: seq<T>)
    ensures |Distinct(s)| == |set x | x in s|
  {
    var d := Distinct(s);
    NoDuplicatesCard(d);
    assert (set x | x in d) == (set x | x in s);
  }

  /** `s.filter(y => y !== x)`: every occurrence of `x` dropped, the rest kept in order. */
  function RemoveAll<T(==,!new)>(s: seq<T>, x: T): (r: seq<T>)
    ensures x !in r
    ensures forall y :: y != x ==> (y in r <==> y in s)
    ensures |r| <= |s|
    ensures x !in s ==> r == s
    ensures x in s ==> |r| < |s|
  {
    if s == [] then []
    else (if s[0] == x then [] else [s[0]]) + RemoveAll(s[1..], x)
  }
  /** The remaining values keep their order: the result for a concatenation is the results for its parts, concatenated. */
  lemma {:induction false} RemoveAllInOrder<T(!new)>(a: seq<T>, b: seq<T>, x: T)
    ensures RemoveAll(a + b, x) == RemoveAll(a, x) + RemoveAll(b, x)
  {
    if a == [] {
      assert a + b == b;
    } else {
      var head := if a[0] == x then [] else [a[0]];
      calc {
        RemoveAll(a + b, x);
      == { assert (a + b)[0] == a[0]; assert (a + b)[1..] == a[1..] + b; }
        head + RemoveAll(a[1..] + b, x);
      == { RemoveAllInOrder(a[1..], b, x); }
        head + (RemoveAll(a[1..], x) + RemoveAll(b, x));
      ==
        (head + RemoveAll(a[1..], x)) + RemoveAll(b, x);
      ==
        RemoveAll(a, x) + RemoveAll(b, x);
      }
    }
  }

  lemma RemoveAllSingle<T(!new)>(y: T, x: T)
    ensures RemoveAll([y], x) == if y == x then [] else [y]
  {
    assert [y][1..] == [];
  }

  /** Removing a value after appending it is removing it from the original list. */
  lemma {:induction false} RemoveAllAppended<T(!new)>(s: seq<T>, x: T)
    ensures RemoveAll(s + [x], x) == RemoveAll(s, x)
  {
    if s == [] {
      assert RemoveAll([x], x) == [] + RemoveAll([x][1..], x);
      assert [x][1..] == [];
    } else {
      assert (s + [x])[1..] == s[1..] + [x];
      RemoveAllAppended(s[1..], x);
    }
  }

  /** Dropping values never introduces a duplicate. */
  lemma {:induction false} RemoveAllKeepsNoDuplicates<T(!new)>(s: seq<T>, x: T)
    requires NoDuplicates(s)
    ensures NoDuplicates(RemoveAll(s, x))
  {
    if s != [] {
      var rest := s[1..];
      assert NoDuplicates(rest) by {
        forall i, j | 0 <= i < j < |rest| ensures rest[i] != rest[j] {
          assert rest[i] == s[i + 1] && rest[j] == s[j + 1];
        }
      }
      RemoveAllKeepsNoDuplicates(rest, x);
      assert s[0] !in rest by {
        forall k | 0 <= k < |rest| ensures rest[k] != s[0] {
          assert rest[k] == s[k + 1];
        }
      }
      var tail := RemoveAll(rest, x);
      assert s[0] !in tail;
      var r := (if s[0] == x then [] else [s[0]]) + tail;
      forall i, j | 0 <= i < j < |r| ensures r[i] != r[j] {
        if s[0] != x && i == 0 {
          assert r[j] == tail[j - 1];
        } else if s[0] != x {
          assert r[i] == tail[i - 1] && r[j] == tail[j - 1];
        } else {
          assert r[i] == tail[i] && r[j] == tail[j];
        }
      }
    }
  }

  /** A list has at most as many distinct values as entries. */
  lemma {:induction false} CardAtMostLength<T(!new)>(s: seq<T>)
    ensures |set x | x in s| <= |s|
  {
    if s != [] {
      CardAtMostLength(s[1..]);
      assert (set x | x in s) == (set x | x in s[1..]) + {s[0]} by {
        assert s == [s[0]] + s[1..];
      }
    }
  }
}
