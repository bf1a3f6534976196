/** Code-point order on strings and the stable sort the source applies to effect references. */
module Ordering {

  predicate Before(a: string, b: string) {
    a == "" || (b != "" && (a[0] < b[0] || (a[0] == b[0] && Before(a[1..], b[1..]))))
  }

  /** At k the strings differ for the first time, and a has the smaller character there. */
  predicate SmallerAt(a: string, b: string, k: nat) {
    k < |a| && k < |b| && (forall i :: 0 <= i < k ==> a[i] == b[i]) && a[k] < b[k]
  }

  /** The order is that of dictionaries: a prefix comes first, and otherwise the first difference decides. */
  lemma {:induction false} BeforeIsLexicographic(a: string, b: string)
    ensures Before(a, b) <==> a <= b || exists k: nat :: SmallerAt(a, b, k)
  {
    if a != "" && b != "" {
      var (a', b') := (a[1..], b[1..]);
      BeforeIsLexicographic(a', b');
      DifferenceMoves(a, b);
      assert a <= b <==> a[0] == b[0] && a' <= b' by {
        assert a == [a[0]] + a' && b == [b[0]] + b';
      }
      if a[0] < b[0] { assert SmallerAt(a, b, 0); }
    }
  }

  lemma DifferenceMoves(a: string, b: string)
    requires a != "" && b != ""
    ensures a[0] == b[0] ==>
      ((exists k: nat :: SmallerAt(a, b, k)) <==> exists k: nat :: SmallerAt(a[1..], b[1..], k))
    ensures b[0] < a[0] ==> forall k: nat :: !SmallerAt(a, b, k)
  {
    if a[0] == b[0] {
      if k: nat :| SmallerAt(a, b, k) {
        assert SmallerAt(a[1..], b[1..], k - 1);
      }
      if k: nat :| SmallerAt(a[1..], b[1..], k) {
        forall i | 0 <= i < k + 1 ensures a[i] == b[i] {
          if i > 0 { assert a[1..][i - 1] == b[1..][i - 1]; }
        }
        assert SmallerAt(a, b, k + 1);
      }
    }
  }

  lemma {:induction false} BeforeIsTotal(a: string, b: string)
    ensures Before(a, b) || Before(b, a)
  {
    if a != "" && b != "" {
      BeforeIsTotal(a[1..], b[1..]);
    }
  }

  lemma {:induction false} BeforeIsAntisymmetric(a: string, b: string)
    requires Before(a, b) && Before(b, a)
    ensures a == b
  {
    if a != "" && b != "" {
      BeforeIsAntisymmetric(a[1..], b[1..]);
      assert a == [a[0]] + a[1..] && b == [b[0]] + b[1..];
    }
  }

  lemma {:induction false} BeforeIsTransitive(a: string, b: string, c: string)
    requires Before(a, b) && Before(b, c)
    ensures Before(a, c)
  {
    if a != "" && a[0] == b[0] == c[0] {
      BeforeIsTransitive(a[1..], b[1..], c[1..]);
    }
  }

  predicate Sorted<T>(key: T -> string, s: seq<T>) {
    forall i, j :: 0 <= i < j < |s| ==> Before(key(s[i]), key(s[j]))
  }

  predicate DistinctKeys<T>(key: T -> string, s: seq<T>) {
    forall i, j :: 0 <= i < j < |s| ==> key(s[i]) != key(s[j])
  }

  function Insert<T>(key: T -> string, x: T, s: seq<T>): seq<T> {
    if s == [] || Before(key(x), key(s[0])) then [x] + s else [s[0]] + Insert(key, x, s[1..])
  }

  /** Stable: an element stays in front of later elements with an equal key. */
  function Sort<T>(key: T -> string, s: seq<T>): seq<T> {
    if s == [] then [] else Insert(key, s[0], Sort(key, s[1..]))
  }

  lemma {:induction false} InsertKeepsOrder<T>(key: T -> string, x: T, s: seq<T>)
    requires Sorted(key, s)
    ensures Sorted(key, Insert(key, x, s))
    ensures multiset(Insert(key, x, s)) == multiset{x} + multiset(s)
  {
    if s == [] {
    } else if Before(key(x), key(s[0])) {
      forall j | 0 <= j < |s| ensures Before(key(x), key(s[j])) {
        if j > 0 { BeforeIsTransitive(key(x), key(s[0]), key(s[j])); }
      }
    } else {
      BeforeIsTotal(key(x), key(s[0]));
      InsertKeepsOrder(key, x, s[1..]);
      var rest := Insert(key, x, s[1..]);
      assert s == [s[0]] + s[1..];
      forall j | 0 <= j < |rest| ensures Before(key(s[0]), key(rest[j])) {
        assert rest[j] in multiset(rest);
        assert rest[j] == x || rest[j] in s[1..];
      }
    }
  }

  lemma {:induction false} SortIsSorted<T>(key: T -> string, s: seq<T>)
    ensures Sorted(key, Sort(key, s))
    ensures multiset(Sort(key, s)) == multiset(s)
    ensures |Sort(key, s)| == |s|
  {
    if s != [] {
      SortIsSorted(key, s[1..]);
      InsertKeepsOrder(key, s[0], Sort(key, s[1..]));
      assert s == [s[0]] + s[1..];
    }
    assert |multiset(Sort(key, s))| == |multiset(s)|;
  }

  /** Distinct keys are a property of the multiset, so sorting keeps them. */
  lemma DistinctKeysOfPermutation<T>(key: T -> string, s: seq<T>, t: seq<T>)
    requires multiset(s) == multiset(t) && DistinctKeys(key, s)
    ensures DistinctKeys(key, t)
  {
    forall i, j | 0 <= i < j < |t| ensures key(t[i]) != key(t[j]) {
      if key(t[i]) == key(t[j]) {
        assert t[i] in multiset(s) && t[j] in multiset(s);
        var a :| 0 <= a < |s| && s[a] == t[i];
        var b :| 0 <= b < |s| && s[b] == t[j];
        assert a == b;
        TwoOccurrences(t, i, j);
        OneOccurrence(key, s, a);
      }
    }
  }

  lemma TwoOccurrences<T>(t: seq<T>, i: int, j: int)
    requires 0 <= i < j < |t| && t[i] == t[j]
    ensures multiset(t)[t[i]] >= 2
  {
    assert t == t[..j] + [t[j]] + t[j + 1..];
    assert t[i] in t[..j];
  }

  lemma OneOccurrence<T>(key: T -> string, s: seq<T>, a: int)
    requires 0 <= a < |s| && DistinctKeys(key, s)
    ensures multiset(s)[s[a]] == 1
  {
    assert s == s[..a] + [s[a]] + s[a + 1..];
    assert s[a] !in s[..a] && s[a] !in s[a + 1..];
  }

  lemma SortedHeadsAgree<T>(key: T -> string, s: seq<T>, t: seq<T>)
    requires s != [] && t != [] && multiset(s) == multiset(t)
    requires Sorted(key, s) && Sorted(key, t) && DistinctKeys(key, s)
    ensures s[0] == t[0]
  {
    assert s[0] in multiset(t) && t[0] in multiset(s);
    var k :| 0 <= k < |t| && t[k] == s[0];
    var m :| 0 <= m < |s| && s[m] == t[0];
    if k > 0 && m > 0 {
      assert Before(key(t[0]), key(t[k])) && Before(key(s[0]), key(s[m]));
      BeforeIsAntisymmetric(key(s[0]), key(t[0]));
    }
  }

  /** With distinct keys there is only one sorted arrangement. */
  lemma {:induction false} SortedArrangementIsUnique<T>(key: T -> string, s: seq<T>, t: seq<T>)
    requires multiset(s) == multiset(t)
    requires Sorted(key, s) && Sorted(key, t) && DistinctKeys(key, s)
    ensures s == t
  {
    assert |s| == |multiset(s)| == |multiset(t)| == |t|;
    if s != [] {
      SortedHeadsAgree(key, s, t);
      assert s == [s[0]] + s[1..] && t == [t[0]] + t[1..];
      assert multiset(s[1..]) == multiset(s) - multiset{s[0]} == multiset(t[1..]);
      TailIsOrdered(key, s);
      TailIsOrdered(key, t);
      SortedArrangementIsUnique(key, s[1..], t[1..]);
    }
  }

  lemma TailIsOrdered<T>(key: T -> string, s: seq<T>)
    requires s != []
    ensures Sorted(key, s) ==> Sorted(key, s[1..])
    ensures DistinctKeys(key, s) ==> DistinctKeys(key, s[1..])
  {
  }

  /** Sorting forgets the order the elements came in. */
  lemma SortForgetsOrder<T>(key: T -> string, s: seq<T>, t: seq<T>)
    requires multiset(s) == multiset(t) && DistinctKeys(key, s)
    ensures Sort(key, s) == Sort(key, t)
  {
    SortIsSorted(key, s);
    SortIsSorted(key, t);
    DistinctKeysOfPermutation(key, s, Sort(key, s));
    SortedArrangementIsUnique(key, Sort(key, s), Sort(key, t));
  }
}
