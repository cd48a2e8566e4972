/** Pending migration selector: every migration that references the plan
    and has not completed, in execution order. */
module Selector {
  import opened Resources
  import opened Ordering

  /** The migration references the plan (same namespace and name). */
  predicate Matches(m: Migration, plan: Ref)
  {
    m.plan == plan
  }

  predicate Selected(m: Migration, plan: Ref)
  {
    Matches(m, plan) && !m.markedCompleted
  }

  /** The selected migrations in listing order. */
  function Filter(all: seq<Migration>, plan: Ref): (r: seq<Migration>)
    ensures |r| <= |all|
    ensures forall m :: m in r ==> m in all && Selected(m, plan)
  {
    if all == [] then []
    else Filter(all[..|all| - 1], plan) + (if Selected(all[|all| - 1], plan) then [all[|all| - 1]] else [])
  }

  /** Each selected migration is kept as often as it was listed, any other
      is dropped: nothing is added, nothing selected goes missing. */
  lemma {:induction false} FilterCount(all: seq<Migration>, plan: Ref, m: Migration)
    ensures multiset(Filter(all, plan))[m] == if Selected(m, plan) then multiset(all)[m] else 0
  {
    if all != [] {
      var init, last := all[..|all| - 1], all[|all| - 1];
      assert all == init + [last];
      FilterCount(init, plan, m);
    }
  }

  /** `pending` is an execution order for the migrations listed in `all`. */
  ghost predicate PendingOrder(all: seq<Migration>, plan: Ref, pending: seq<Migration>)
  {
    Sorted(pending) && multiset(pending) == multiset(Filter(all, plan))
  }

  /** A pending order holds exactly the selected migrations, each as often
      as it was listed. */
  lemma PendingOrderContents(all: seq<Migration>, plan: Ref, pending: seq<Migration>, m: Migration)
    requires PendingOrder(all, plan, pending)
    ensures multiset(pending)[m] == if Selected(m, plan) then multiset(all)[m] else 0
    ensures m in pending <==> m in all && Selected(m, plan)
  {
    FilterCount(all, plan, m);
    assert m in pending <==> m in multiset(pending);
    assert m in all <==> m in multiset(all);
  }

  /** Repeated selection over the same migrations yields the same order. */
  lemma PendingOrderDeterministic(all: seq<Migration>, plan: Ref, p: seq<Migration>, q: seq<Migration>)
    requires PendingOrder(all, plan, p) && PendingOrder(all, plan, q)
    requires KeysDistinct(Filter(all, plan))
    ensures p == q
  {
    forall x, y | x in p && y in p && SameKey(x, y)
      ensures x == y
    {
      assert x in multiset(p) && y in multiset(p);
      assert x in Filter(all, plan) && y in Filter(all, plan);
    }
    SortedPermutationUnique(p, q);
  }

  /** A sorted arrangement of two migrations, one strictly before the
      other, puts that one first. */
  lemma SortedPair(x: Migration, y: Migration, p: seq<Migration>)
    requires Before(x, y)
    requires Sorted(p) && multiset(p) == multiset{x, y}
    ensures p == [x, y]
  {
    BeforeAsymmetric(x, y);
    assert |p| == |multiset(p)| == 2;
    assert p[0] in multiset(p) && p[1] in multiset(p);
    assert Le(p[0], p[1]);
    assert multiset(p) == multiset{p[0], p[1]};
  }

  lemma NsAPrecedesNsB()
    ensures LexLess("ns/a", "ns/b")
  {
    assert "ns/a"[1..] == "s/a" && "ns/b"[1..] == "s/b";
    assert "s/a"[1..] == "/a" && "s/b"[1..] == "/b";
    assert "/a"[1..] == "a" && "/b"[1..] == "b";
  }

  lemma FilterKeepsPair(plan: Ref, x: Migration, y: Migration)
    requires Selected(x, plan) && Selected(y, plan)
    ensures Filter([x, y], plan) == [x, y]
  {
    assert [x, y][..1] == [x] && [x][..0] == [];
    assert Filter([x], plan) == [x];
  }

  /** Two migrations created in the same tick, "ns/b" listed before
      "ns/a", come out as [ns/a, ns/b]. */
  lemma SameTimestampOrdersByName(plan: Ref, b: Migration, a: Migration, pending: seq<Migration>)
    requires Selected(a, plan) && Selected(b, plan)
    requires a.created == b.created
    requires a.namespace == "ns" && a.name == "a" && b.namespace == "ns" && b.name == "b"
    requires PendingOrder([b, a], plan, pending)
    ensures pending == [a, b]
  {
    FilterKeepsPair(plan, b, a);
    assert Before(a, b) by {
      assert Key(a) == "ns/a" && Key(b) == "ns/b";
      NsAPrecedesNsB();
    }
    assert multiset([b, a]) == multiset{a, b};
    SortedPair(a, b, pending);
  }

  /** Once a dispatched migration is marked completed, the next pass
      selects only the one after it. */
  lemma CompletedMigrationIsSkipped(plan: Ref, done: Migration, next: Migration, pending: seq<Migration>)
    requires Matches(done, plan) && done.markedCompleted && Selected(next, plan)
    requires PendingOrder([done, next], plan, pending)
    ensures pending == [next]
  {
    assert [done, next][..1] == [done] && [done][..0] == [];
    assert Filter([done], plan) == [];
    assert Filter([done, next], plan) == [next];
    assert |pending| == |multiset(pending)| == 1;
    assert pending[0] in multiset(pending);
  }

  /** For any listing: a completed migration is never pending, and the
      head of a pending order is no later than any selected migration. */
  lemma PendingHeadIsEarliestSelected(all: seq<Migration>, plan: Ref, pending: seq<Migration>, m: Migration)
    requires PendingOrder(all, plan, pending)
    ensures m.markedCompleted ==> m !in pending
    ensures m in all && Selected(m, plan) ==> pending != [] && Le(pending[0], m)
  {
    PendingOrderContents(all, plan, pending, m);
    if m in all && Selected(m, plan) {
      SortedHeadIsLeast(pending, m);
    }
  }

  /** The index of a least element of `a[from..]`. */
  method MinIndex(a: array<Migration>, from: nat) returns (m: nat)
    requires from < a.Length
    ensures from <= m < a.Length
    ensures forall k :: from <= k < a.Length ==> Le(a[m], a[k])
  {
    m := from;
    LeReflexive(a[from]);
    var j := from + 1;
    while j < a.Length
      invariant from <= m < j <= a.Length
      invariant forall k :: from <= k < j ==> Le(a[m], a[k])
    {
      if Before(a[j], a[m]) {
        BeforeAsymmetric(a[j], a[m]);
        LeReflexive(a[j]);
        forall k | from <= k < j
          ensures Le(a[j], a[k])
        {
          LeTransitive(a[j], a[m], a[k]);
        }
        m := j;
      }
      j := j + 1;
    }
  }

  /** The first `i` places hold the `i` least elements, in order. */
  ghost predicate SelectionDone(s: seq<Migration>, i: nat)
    requires i <= |s|
  {
    && (forall k, l :: 0 <= k < l < i ==> Le(s[k], s[l]))
    && (forall k, l :: 0 <= k < i <= l < |s| ==> Le(s[k], s[l]))
  }

  /** Swapping a least element of the rest into place `i` extends the
      sorted prefix by one and permutes the sequence. */
  lemma SwapMinExtendsPrefix(s: seq<Migration>, i: nat, m: nat)
    requires i <= m < |s|
    requires SelectionDone(s, i)
    requires forall k :: i <= k < |s| ==> Le(s[m], s[k])
    ensures SelectionDone(s[i := s[m]][m := s[i]], i + 1)
    ensures multiset(s[i := s[m]][m := s[i]]) == multiset(s)
  {
    var t := s[i := s[m]][m := s[i]];
    forall k, l | 0 <= k < i + 1 <= l < |t|
      ensures Le(t[k], t[l])
    {
      assert t[l] == s[l] || t[l] == s[i];
    }
    forall k, l | 0 <= k < l < i + 1
      ensures Le(t[k], t[l])
    {
      if l == i {
        assert t[l] == s[m];
      }
    }
  }

  /** The in-place sort of the selected migrations (sort.Slice with the
      comparator `Before`). */
  method SortSlice(a: array<Migration>)
    modifies a
    ensures Sorted(a[..])
    ensures multiset(a[..]) == multiset(old(a[..]))
  {
    var i := 0;
    while i < a.Length
      invariant 0 <= i <= a.Length
      invariant SelectionDone(a[..], i)
      invariant multiset(a[..]) == multiset(old(a[..]))
    {
      var m := MinIndex(a, i);
      ghost var s := a[..];
      a[i], a[m] := a[m], a[i];
      assert a[..] == s[i := s[m]][m := s[i]];
      SwapMinExtendsPrefix(s, i, m);
      i := i + 1;
    }
  }

  /** pendingMigrations: filter the listed migrations with an append loop,
      then sort the result. A listing failure is returned as an error. */
  method PendingMigrations(migrations: Listing<Migration>, plan: Ref) returns (r: Result<seq<Migration>>)
    ensures r.Err? <==> migrations.ListFailed?
    ensures r.Ok? ==> PendingOrder(migrations.items, plan, r.value)
  {
    if migrations.ListFailed? {
      return Err;
    }
    var all := migrations.items;
    var list: seq<Migration> := [];
    for i := 0 to |all|
      invariant list == Filter(all[..i], plan)
    {
      assert all[..i + 1][..i] == all[..i];
      var migration := all[i];
      if !Matches(migration, plan) {
        continue;
      }
      if migration.markedCompleted {
        continue;
      }
      list := list + [migration];
    }
    assert all[..|all|] == all;
    var a := new Migration[|list|](k requires 0 <= k < |list| => list[k]);
    assert a[..] == list;
    SortSlice(a);
    r := Ok(a[..]);
  }
}
