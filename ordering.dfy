/** The order in which pending migrations execute: creation timestamp
    first, then the "namespace/name" key, compared byte by byte. */
module Ordering {
  import opened Resources

  /** Lexicographic order on strings, as Go's `<` on strings (object
      names are ASCII, so characters compare as their bytes do). */
  predicate LexLess(a: string, b: string)
    decreases |a|
  {
    if |a| == 0 then |b| > 0
    else if |b| == 0 then false
    else if a[0] != b[0] then a[0] < b[0]
    else LexLess(a[1..], b[1..])
  }

  lemma {:induction false} LexLessIrreflexive(a: string)
    ensures !LexLess(a, a)
    decreases |a|
  {
    if |a| > 0 {
      LexLessIrreflexive(a[1..]);
    }
  }

  lemma {:induction false} LexLessTransitive(a: string, b: string, c: string)
    requires LexLess(a, b) && LexLess(b, c)
    ensures LexLess(a, c)
    decreases |a|
  {
    if |a| > 0 && a[0] == b[0] && b[0] == c[0] {
      LexLessTransitive(a[1..], b[1..], c[1..]);
    }
  }

  /** Two different strings are always ordered one way or the other. */
  lemma {:induction false} LexLessTotal(a: string, b: string)
    requires a != b
    ensures LexLess(a, b) || LexLess(b, a)
    decreases |a|
  {
    if |a| > 0 && |b| > 0 && a[0] == b[0] {
      assert a == [a[0]] + a[1..] && b == [b[0]] + b[1..];
      LexLessTotal(a[1..], b[1..]);
    }
  }

  /** The tie-breaking key: path.Join of a simple namespace and name. */
  function Key(m: Migration): (r: string)
    ensures |r| == |m.namespace| + 1 + |m.name|
    ensures r[..|m.namespace|] == m.namespace && r[|m.namespace|] == '/' && r[|m.namespace| + 1..] == m.name
  {
    m.namespace + "/" + m.name
  }

  /** A Kubernetes namespace holds no '/', so the key names one object. */
  lemma KeyIdentifiesObject(a: Migration, b: Migration)
    requires '/' !in a.namespace && '/' !in b.namespace
    requires Key(a) == Key(b)
    ensures a.namespace == b.namespace && a.name == b.name
  {
  }

  /** The comparator handed to the sort: the earlier creation timestamp
      first, the key breaking ties. */
  predicate Before(a: Migration, b: Migration)
    ensures Before(a, b) ==> a.created <= b.created
    ensures a.created < b.created ==> Before(a, b)
  {
    if a.created != b.created then a.created < b.created else LexLess(Key(a), Key(b))
  }

  /** `a` may come first: `b` is not strictly before it. */
  predicate Le(a: Migration, b: Migration)
  {
    !Before(b, a)
  }

  predicate SameKey(a: Migration, b: Migration)
  {
    a.created == b.created && Key(a) == Key(b)
  }

  lemma LeReflexive(a: Migration)
    ensures Le(a, a)
  {
    LexLessIrreflexive(Key(a));
  }

  lemma BeforeTransitive(a: Migration, b: Migration, c: Migration)
    requires Before(a, b) && Before(b, c)
    ensures Before(a, c)
  {
    if a.created == b.created == c.created {
      LexLessTransitive(Key(a), Key(b), Key(c));
    }
  }

  lemma BeforeAsymmetric(a: Migration, b: Migration)
    requires Before(a, b)
    ensures !Before(b, a)
  {
    if Before(b, a) {
      BeforeTransitive(a, b, a);
      LexLessIrreflexive(Key(a));
    }
  }

  /** Two migrations neither of which sorts before the other share a key. */
  lemma LeAntisymmetric(a: Migration, b: Migration)
    requires Le(a, b) && Le(b, a)
    ensures SameKey(a, b)
  {
    if Key(a) != Key(b) {
      LexLessTotal(Key(a), Key(b));
    }
  }

  lemma LeTransitive(a: Migration, b: Migration, c: Migration)
    requires Le(a, b) && Le(b, c)
    ensures Le(a, c)
  {
    if Before(c, a) {
      if Key(a) != Key(b) {
        LexLessTotal(Key(a), Key(b));
      }
      if Before(a, b) {
        BeforeTransitive(c, a, b);
      }
    }
  }

  /** What sort.Slice guarantees of its output with this comparator. */
  ghost predicate Sorted(s: seq<Migration>)
  {
    forall i, j :: 0 <= i < j < |s| ==> Le(s[i], s[j])
  }

  /** No two different migrations share a timestamp and a key; the cluster
      guarantees this, since "namespace/name" names one object. */
  ghost predicate KeysDistinct(s: seq<Migration>)
  {
    forall x, y :: x in s && y in s && SameKey(x, y) ==> x == y
  }

  /** The first element of a sorted sequence is no later than any member. */
  lemma SortedHeadIsLeast(s: seq<Migration>, x: Migration)
    requires Sorted(s) && x in s
    ensures Le(s[0], x)
  {
    var j :| 0 <= j < |s| && s[j] == x;
    if j == 0 {
      LeReflexive(x);
    }
  }

  lemma SortedTail(s: seq<Migration>)
    requires Sorted(s) && |s| > 0
    ensures Sorted(s[1..])
  {
    forall i, j | 0 <= i < j < |s[1..]|
      ensures Le(s[1..][i], s[1..][j])
    {
      assert s[1..][i] == s[i + 1] && s[1..][j] == s[j + 1];
    }
  }

  /** Two sorted permutations with distinct keys start with the same element. */
  lemma SortedHeadsAgree(p: seq<Migration>, q: seq<Migration>)
    requires Sorted(p) && Sorted(q) && multiset(p) == multiset(q) && KeysDistinct(p)
    requires |p| > 0 && |q| > 0
    ensures p[0] == q[0]
  {
    assert p[0] in multiset(q) && q[0] in multiset(p);
    SortedHeadIsLeast(q, p[0]);
    SortedHeadIsLeast(p, q[0]);
    LeAntisymmetric(p[0], q[0]);
    assert p[0] in p && q[0] in p;
  }

  lemma KeysDistinctTail(s: seq<Migration>)
    requires KeysDistinct(s) && |s| > 0
    ensures KeysDistinct(s[1..])
  {
    forall x, y | x in s[1..] && y in s[1..] && SameKey(x, y)
      ensures x == y
    {
      assert x in s && y in s;
    }
  }

  lemma TailsArePermutations(p: seq<Migration>, q: seq<Migration>)
    requires multiset(p) == multiset(q) && |p| > 0 && |q| > 0 && p[0] == q[0]
    ensures multiset(p[1..]) == multiset(q[1..])
  {
    assert p == [p[0]] + p[1..] && q == [q[0]] + q[1..];
    assert multiset(p[1..]) == multiset(p) - multiset{p[0]};
    assert multiset(q[1..]) == multiset(q) - multiset{q[0]};
  }

  /** With distinct keys, the sorted order of a collection is unique: the
      order does not depend on the order in which the input was listed. */
  lemma {:induction false} SortedPermutationUnique(p: seq<Migration>, q: seq<Migration>)
    requires Sorted(p) && Sorted(q) && multiset(p) == multiset(q) && KeysDistinct(p)
    ensures p == q
    decreases |p|
  {
    assert |p| == |multiset(p)| == |multiset(q)| == |q|;
    if |p| > 0 {
      SortedHeadsAgree(p, q);
      TailsArePermutations(p, q);
      KeysDistinctTail(p);
      SortedTail(p);
      SortedTail(q);
      SortedPermutationUnique(p[1..], q[1..]);
      assert p == [p[0]] + p[1..] && q == [q[0]] + q[1..];
    }
  }
}
