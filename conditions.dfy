/** The contract of the condition library the plan status uses: a set of
    typed conditions with a staging protocol and a blocker predicate. */
module Conditions {

  /** A `durable` condition stays current through staging even when the
      pass does not re-assert it (the outcome of an earlier run, say). */
  datatype Condition = Condition(status: bool, category: string, message: string, blocker: bool, durable: bool)

  /** `items` maps a condition type to its condition. While `staging`,
      only the types in `staged` are current: durable ones and those
      re-asserted during this pass. */
  datatype ConditionSet = ConditionSet(items: map<string, Condition>, staging: bool, staged: set<string>)

  const ReadyType: string := "Ready"
  const SucceededType: string := "Succeeded"
  const FailedType: string := "Failed"

  /** The condition asserted when a plan has no blocker. */
  const ReadyCondition: Condition := Condition(true, "Required", "The migration plan is ready.", false, false)

  /** Every existing condition that is not durable becomes stale. */
  function BeginStaging(c: ConditionSet): (r: ConditionSet)
    ensures r.items == c.items && r.staging
    ensures forall t :: t in r.staged <==> t in c.items && c.items[t].durable
  {
    ConditionSet(c.items, true, DurableOnly(c.items).Keys)
  }

  function SetCondition(c: ConditionSet, t: string, cnd: Condition): ConditionSet
  {
    c.(items := c.items[t := cnd], staged := c.staged + {t})
  }

  /** Asserts every condition of `asserted`, keyed by type. */
  function SetConditions(c: ConditionSet, asserted: map<string, Condition>): ConditionSet
  {
    c.(items := c.items + asserted, staged := c.staged + asserted.Keys)
  }

  function DeleteConditions(c: ConditionSet, types: set<string>): ConditionSet
  {
    c.(items := c.items - types, staged := c.staged - types)
  }

  /** Drops every condition that stayed stale during the pass. */
  function EndStaging(c: ConditionSet): (r: ConditionSet)
    ensures !r.staging && r.staged == {}
    ensures forall t :: t in r.items <==> t in c.items && t in c.staged
    ensures forall t :: t in r.items ==> r.items[t] == c.items[t]
  {
    ConditionSet(map t | t in c.items && t in c.staged :: c.items[t], false, {})
  }

  /** A blocker that is current: while staging, stale conditions do not count. */
  predicate HasBlocker(c: ConditionSet)
  {
    exists t :: t in c.items && c.items[t].blocker && (!c.staging || t in c.staged)
  }

  predicate AnyBlocker(m: map<string, Condition>)
  {
    exists t :: t in m && m[t].blocker
  }

  /** The durable part of a set of conditions. */
  function DurableOnly(m: map<string, Condition>): (r: map<string, Condition>)
    ensures r.Keys <= m.Keys
    ensures forall t :: t in r ==> r[t] == m[t] && m[t].durable
    ensures forall t :: t in m && m[t].durable ==> t in r
  {
    map t | t in m && m[t].durable :: m[t]
  }

  /** The current conditions once the Ready rule is applied: Ready is
      asserted when none of them blocks. */
  function WithReady(m: map<string, Condition>): (r: map<string, Condition>)
    ensures AnyBlocker(m) ==> r == m
    ensures !AnyBlocker(m) ==> ReadyType in r && r[ReadyType] == ReadyCondition
    ensures forall t :: t in m && t != ReadyType ==> t in r && r[t] == m[t]
    ensures m.Keys <= r.Keys <= m.Keys + {ReadyType}
    ensures AnyBlocker(r) <==> AnyBlocker(m)
  {
    if AnyBlocker(m) then m
    else
      var r := m[ReadyType := ReadyCondition];
      assert !AnyBlocker(r) by {
        forall t | t in r
          ensures !r[t].blocker
        {
          if t != ReadyType {
            assert t in m;
          }
        }
      }
      r
  }

  /** The conditions a reconciliation pass leaves behind: validation
      re-asserts `asserted`, Ready is added unless a current condition
      blocks, and everything neither re-asserted nor durable is dropped. */
  function Revalidated(before: ConditionSet, asserted: map<string, Condition>): ConditionSet
  {
    var validated := SetConditions(BeginStaging(before), asserted);
    EndStaging(if HasBlocker(validated) then validated else SetCondition(validated, ReadyType, ReadyCondition))
  }

  /** Ending staging after asserting `s` over `b` keeps `s` and the
      durable part of `b`. */
  lemma EndStagingKeeps(b: map<string, Condition>, s: map<string, Condition>)
    ensures EndStaging(ConditionSet(b + s, true, DurableOnly(b).Keys + s.Keys)).items == DurableOnly(b) + s
  {
    var r := EndStaging(ConditionSet(b + s, true, DurableOnly(b).Keys + s.Keys)).items;
    var kept := DurableOnly(b) + s;
    forall t | t in kept
      ensures t in r && r[t] == kept[t]
    {
      assert (b + s)[t] == kept[t];
    }
    assert r.Keys == kept.Keys;
  }

  /** While staging, a blocker is current iff it is asserted in the pass
      or durable. */
  lemma StagedBlocker(b: map<string, Condition>, s: map<string, Condition>)
    ensures HasBlocker(ConditionSet(b + s, true, DurableOnly(b).Keys + s.Keys)) <==> AnyBlocker(DurableOnly(b) + s)
  {
    var c := ConditionSet(b + s, true, DurableOnly(b).Keys + s.Keys);
    var kept := DurableOnly(b) + s;
    if HasBlocker(c) {
      var t :| t in c.items && c.items[t].blocker && t in c.staged;
      assert t in kept && kept[t] == c.items[t];
    }
    if AnyBlocker(kept) {
      var t :| t in kept && kept[t].blocker;
      assert t in c.items && c.items[t] == kept[t] && t in c.staged;
    }
  }

  lemma StagedValidation(before: ConditionSet, asserted: map<string, Condition>)
    ensures SetConditions(BeginStaging(before), asserted)
         == ConditionSet(before.items + asserted, true, DurableOnly(before.items).Keys + asserted.Keys)
  {
  }

  lemma RevalidatedItems(before: ConditionSet, asserted: map<string, Condition>)
    ensures Revalidated(before, asserted).items == WithReady(DurableOnly(before.items) + asserted)
    ensures !Revalidated(before, asserted).staging && Revalidated(before, asserted).staged == {}
  {
    var d := DurableOnly(before.items);
    var validated := SetConditions(BeginStaging(before), asserted);
    StagedValidation(before, asserted);
    StagedBlocker(before.items, asserted);
    if AnyBlocker(d + asserted) {
      EndStagingKeeps(before.items, asserted);
    } else {
      var s := asserted[ReadyType := ReadyCondition];
      assert SetCondition(validated, ReadyType, ReadyCondition) == ConditionSet(before.items + s, true, d.Keys + s.Keys);
      EndStagingKeeps(before.items, s);
      assert d + s == (d + asserted)[ReadyType := ReadyCondition];
    }
  }

  lemma BlockerOfUnion(d: map<string, Condition>, want: map<string, Condition>)
    ensures AnyBlocker(d + want) <==> AnyBlocker(want) || AnyBlocker(d - want.Keys)
  {
    var kept, rest := d + want, d - want.Keys;
    if AnyBlocker(kept) {
      var t :| t in kept && kept[t].blocker;
      if t !in want {
        assert t in rest;
      }
    }
    if AnyBlocker(rest) {
      var t :| t in rest && rest[t].blocker;
      assert t in kept;
    }
    if AnyBlocker(want) {
      var t :| t in want && want[t].blocker;
      assert t in kept;
    }
  }

  /** A pass keeps what validation asserted, and of the previous conditions
      exactly the durable ones validation did not re-assert; Ready is added
      iff none of those blocks. The plan then has a blocker iff an asserted
      or a surviving durable condition blocks. */
  lemma RevalidatedKeepsAssertedAndDurable(before: ConditionSet, asserted: map<string, Condition>)
    ensures Revalidated(before, asserted).items == WithReady(DurableOnly(before.items) + asserted)
    ensures !Revalidated(before, asserted).staging && Revalidated(before, asserted).staged == {}
    ensures HasBlocker(Revalidated(before, asserted))
        <==> AnyBlocker(asserted) || AnyBlocker(DurableOnly(before.items) - asserted.Keys)
    ensures HasBlocker(Revalidated(before, asserted)) <==> AnyBlocker(Revalidated(before, asserted).items)
    ensures (forall t :: t in before.items ==> !before.items[t].durable) ==>
              Revalidated(before, asserted).items == WithReady(asserted)
  {
    RevalidatedItems(before, asserted);
    BlockerOfUnion(DurableOnly(before.items), asserted);
    if forall t :: t in before.items ==> !before.items[t].durable {
      assert DurableOnly(before.items) == map[];
      assert DurableOnly(before.items) + asserted == asserted;
    }
  }

  /** A durable blocker left from before keeps the plan blocked and keeps
      Ready from being added: the pass leaves exactly the durable previous
      conditions overlaid with the asserted ones. */
  lemma DurableBlockerSuppressesReady(before: ConditionSet, asserted: map<string, Condition>, x: string)
    requires x in before.items && before.items[x].durable && before.items[x].blocker && x !in asserted
    ensures HasBlocker(Revalidated(before, asserted))
    ensures Revalidated(before, asserted).items == DurableOnly(before.items) + asserted
  {
    RevalidatedItems(before, asserted);
    assert x in DurableOnly(before.items) + asserted;
  }

  /** Once staging has ended, every remaining condition is current. */
  lemma RevalidatedBlockerIsAnyBlocker(before: ConditionSet, asserted: map<string, Condition>)
    ensures HasBlocker(Revalidated(before, asserted)) <==> AnyBlocker(Revalidated(before, asserted).items)
  {
    assert !Revalidated(before, asserted).staging;
  }

  /** The previous conditions influence a pass only through their durable
      part: the transient ones are forgotten. */
  lemma RevalidatedForgetsTransient(b1: ConditionSet, b2: ConditionSet, asserted: map<string, Condition>)
    requires DurableOnly(b1.items) == DurableOnly(b2.items)
    ensures Revalidated(b1, asserted) == Revalidated(b2, asserted)
  {
    RevalidatedItems(b1, asserted);
    RevalidatedItems(b2, asserted);
  }

  /** Re-applying a pass to its own result: the durable part of the
      result, overlaid with the same assertions, gives the same result. */
  lemma OverlayIdempotent(d: map<string, Condition>, a: map<string, Condition>)
    requires forall t :: t in d ==> d[t].durable
    ensures WithReady(DurableOnly(WithReady(d + a)) + a) == WithReady(d + a)
  {
    var x := d + a;
    var x2 := DurableOnly(WithReady(x)) + a;
    forall t | t in x && t != ReadyType
      ensures t in x2 && x2[t] == x[t]
    {
      if t !in a {
        assert WithReady(x)[t] == d[t];
      }
    }
    assert x2.Keys <= x.Keys + {ReadyType};
    if AnyBlocker(x) {
      assert x2 == x;
    } else {
      assert !AnyBlocker(x2);
      assert x2[ReadyType := ReadyCondition] == x[ReadyType := ReadyCondition];
    }
  }

  /** The same after the types in `gone` are deleted from the result,
      provided nothing blocks. */
  lemma OverlayAfterDelete(d: map<string, Condition>, a: map<string, Condition>, gone: set<string>)
    requires forall t :: t in d ==> d[t].durable
    requires !AnyBlocker(d + a)
    ensures WithReady(DurableOnly(WithReady(d + a) - gone) + a) - gone == WithReady(d + a) - gone
  {
    var x := d + a;
    var x2 := DurableOnly(WithReady(x) - gone) + a;
    forall t | t in x && t != ReadyType && t !in gone
      ensures t in x2 && x2[t] == x[t]
    {
      if t !in a {
        assert (WithReady(x) - gone)[t] == d[t];
      }
    }
    assert x2.Keys <= x.Keys + {ReadyType};
    assert !AnyBlocker(x2);
    assert x2[ReadyType := ReadyCondition] - gone == x[ReadyType := ReadyCondition] - gone;
  }

  /** A second pass with the same validation outcome leaves the same
      conditions as the first. */
  lemma RevalidatedIdempotent(before: ConditionSet, asserted: map<string, Condition>)
    ensures Revalidated(ConditionSet(Revalidated(before, asserted).items, false, {}), asserted)
         == Revalidated(before, asserted)
  {
    var once := Revalidated(before, asserted).items;
    RevalidatedItems(before, asserted);
    RevalidatedItems(ConditionSet(once, false, {}), asserted);
    OverlayIdempotent(DurableOnly(before.items), asserted);
  }

  /** After a dispatch that deletes the types in `gone`, which happens only
      without a blocker, a second pass with the same validation outcome
      leaves the same conditions once `gone` is deleted again. */
  lemma RevalidatedAfterDelete(before: ConditionSet, asserted: map<string, Condition>, gone: set<string>)
    requires !AnyBlocker(Revalidated(before, asserted).items)
    ensures var once := Revalidated(before, asserted).items - gone;
            Revalidated(ConditionSet(once, false, {}), asserted).items - gone == once
  {
    var once := Revalidated(before, asserted).items - gone;
    RevalidatedItems(before, asserted);
    RevalidatedItems(ConditionSet(once, false, {}), asserted);
    OverlayAfterDelete(DurableOnly(before.items), asserted, gone);
  }
}
