/** How the boot stages cut the sorted service list: core0/bootstrap/bootstrap.go. */
module Stages {
  import opened Settings
  import opened Dependencies
  import opened Tree

  /** The stage, counted from 0, that takes services of weight `w`. */
  function StageOf(w: int): (n: nat)
    requires w >= INIT
    ensures n < 3
  {
    if w < NET then 0 else if w < BOOT then 1 else 2
  }

  /** The slices that `Bootstrap` asks for: [init, net[, [net, boot[ and [boot, end]. */
  function Stage(p: seq<Weighted>, n: nat): seq<Startup>
    requires n < 3
  {
    if n == 0 then SliceOf(p, INIT, NET)
    else if n == 1 then SliceOf(p, NET, BOOT)
    else SliceOf(p, BOOT, TO_THE_END)
  }

  /** `After.Weight`. */
  function AfterWeight(a: string): (w: int)
    ensures IsMilestone(a) <==> w != 0
  {
    if IsMilestone(a) then Priority(a).value else 0
  }

  lemma MilestoneWeights()
    ensures AfterWeight("init") == INIT && AfterWeight("net") == NET
    ensures AfterWeight("boot") == BOOT && AfterWeight("----") == TO_THE_END
  {
    assert "net"[0] != "init"[0] && "boot"[0] != "init"[0] && "boot"[0] != "net"[0];
    assert "----"[0] != "init"[0] && "----"[0] != "net"[0] && "----"[0] != "boot"[0];
  }

  /** The slices that `Bootstrap` takes from the tree, in the order in which it runs them. */
  method BootSlices(i: Startups)
    returns (slices: seq<seq<Startup>>, errors: seq<(Startup, Error)>, ghost p: seq<Weighted>)
    ensures IsPlan(i, p)
    ensures slices == [Stage(p, 0), Stage(p, 1), Stage(p, 2)]
    ensures exists order :: IsOrder(i, order) && errors == Failures(i, order)
  {
    var tree;
    tree, errors := GetStartupTree(i);
    p := tree.Pairs();
    MilestoneWeights();
    var init := tree.Slice(AfterWeight("init"), AfterWeight("net"));
    var net := tree.Slice(AfterWeight("net"), AfterWeight("boot"));
    var boot := tree.Slice(AfterWeight("boot"), AfterWeight("----"));
    slices := [init, net, boot];
  }

  // ---------------------------------------------------------------------------------------------
  // Slices of a sorted list
  // ---------------------------------------------------------------------------------------------

  lemma {:induction false} SliceMembers(p: seq<Weighted>, s: int, e: int, up: Startup)
    ensures up in SliceOf(p, s, e) <==> exists j :: 0 <= j < |p| && p[j].0 == up && InRange(p[j].1, s, e)
  {
    if p != [] {
      var n := |p| - 1;
      SliceMembers(p[..n], s, e, up);
      assert forall j :: 0 <= j < n ==> p[..n][j] == p[j];
    }
  }

  /** A slice has exactly the services with a weight from `s` to below `e`, where -1 is no upper end. */
  lemma {:induction false} SliceContains(p: seq<Weighted>, s: int, e: int, up: Startup)
    ensures up in SliceOf(p, s, e) <==>
            exists j :: 0 <= j < |p| && p[j].0 == up && s <= p[j].1 && (p[j].1 < e || e == -1)
  {
    SliceMembers(p, s, e, up);
  }

  lemma {:induction false} AboveTheEnd(p: seq<Weighted>, s: int, e: int)
    requires forall j :: 0 <= j < |p| ==> p[j].1 < s
    ensures SliceOf(p, s, e) == []
  {
    if p != [] {
      AboveTheEnd(p[..|p| - 1], s, e);
    }
  }

  /** What a last element adds to a slice. */
  function Last(x: Weighted, s: int, e: int): seq<Startup> { if InRange(x.1, s, e) then [x.0] else [] }

  /** On a sorted list two adjoining slices, put one after the other, are the slice of the joint range. */
  lemma {:induction false} SlicesJoin(p: seq<Weighted>, s: int, m: int, e: int)
    requires Sorted(p) && s <= m && m != -1 && (m <= e || e == -1)
    ensures SliceOf(p, s, m) + SliceOf(p, m, e) == SliceOf(p, s, e)
  {
    if p != [] {
      var q, x := p[..|p| - 1], p[|p| - 1];
      SlicesJoin(q, s, m, e);
      if x.1 < m {
        AboveTheEnd(q, m, e);
      }
      Rearrange(SliceOf(q, s, m), Last(x, s, m), SliceOf(q, m, e), Last(x, m, e));
    }
  }

  lemma Rearrange<T>(a: seq<T>, x: seq<T>, b: seq<T>, y: seq<T>)
    requires b == [] || x == []
    ensures (a + x) + (b + y) == (a + b) + (x + y)
  {
  }

  /** The three stages, run in turn, are every service of weight at least 1, in weight order. */
  lemma {:induction false} StagesCoverInOrder(p: seq<Weighted>)
    requires Sorted(p)
    ensures Stage(p, 0) + Stage(p, 1) + Stage(p, 2) == SliceOf(p, INIT, TO_THE_END)
  {
    SlicesJoin(p, INIT, NET, BOOT);
    SlicesJoin(p, INIT, BOOT, TO_THE_END);
  }

  // ---------------------------------------------------------------------------------------------
  // What a plan holds
  // ---------------------------------------------------------------------------------------------

  lemma {:induction false} PlannedMembers(i: Startups, order: seq<string>, x: Weighted)
    requires forall k :: k in order ==> k in i
    ensures x in Planned(i, order) <==>
            exists k :: k in order && x.0 == i[k] && Wrapped(Weight(i, i[k], [])) == Ok(x.1)
  {
    if order != [] {
      var n := |order| - 1;
      PlannedMembers(i, order[..n], x);
      assert forall k :: k in order <==> k in order[..n] || k == order[n];
    }
  }

  /** The errors reported are those of exactly the services that cannot be weighed. */
  lemma {:induction false} FailureMembers(i: Startups, order: seq<string>, up: Startup, error: Error)
    requires forall k :: k in order ==> k in i
    ensures (up, error) in Failures(i, order) <==>
            exists k :: k in order && up == i[k] && Weight(i, i[k], []) == Err(error)
  {
    if order != [] {
      var n := |order| - 1;
      FailureMembers(i, order[..n], up, error);
      assert forall k :: k in order <==> k in order[..n] || k == order[n];
    }
  }

  lemma {:induction false} PlannedOnce(i: Startups, order: seq<string>, x: Weighted)
    requires KeysMatch(i) && (forall k :: k in order ==> k in i) && Distinct(order)
    ensures multiset(Planned(i, order))[x] <= 1
  {
    if order != [] {
      var n := |order| - 1;
      PlannedOnce(i, order[..n], x);
      PlannedMembers(i, order[..n], x);
      assert order[n] !in order[..n];
    }
  }

  /** A plan holds exactly the services that can be weighed, with their weights. */
  lemma {:induction false} PlanMembers(i: Startups, p: seq<Weighted>, x: Weighted)
    requires KeysMatch(i) && IsPlan(i, p)
    ensures x in p <==> x.0.key in i && x.0 == i[x.0.key] && Wrapped(Weight(i, x.0, [])) == Ok(x.1)
  {
    var order :| IsOrder(i, order) && SamePairs(p, Planned(i, order));
    PlannedMembers(i, order, x);
    assert x in p <==> x in multiset(p);
    assert x in Planned(i, order) <==> x in multiset(Planned(i, order));
  }

  /** A plan holds each of them once. */
  lemma {:induction false} PlanKeysDistinct(i: Startups, p: seq<Weighted>, a: nat, b: nat)
    requires KeysMatch(i) && IsPlan(i, p) && a < b < |p|
    ensures p[a].0.key != p[b].0.key
  {
    if p[a].0.key == p[b].0.key {
      PlanMembers(i, p, p[a]);
      PlanMembers(i, p, p[b]);
      var order :| IsOrder(i, order) && SamePairs(p, Planned(i, order));
      PlannedOnce(i, order, p[a]);
      CountedTwice(p, a, b);
      assert false;
    }
  }

  lemma CountedTwice<T>(p: seq<T>, a: nat, b: nat)
    requires a < b < |p| && p[a] == p[b]
    ensures multiset(p)[p[a]] >= 2
  {
    assert p == p[..b] + p[b..];
    assert p[..b][a] in multiset(p[..b]);
    assert p[b..][0] in multiset(p[b..]);
  }

  ghost predicate KeysDistinct(slice: seq<Startup>) {
    forall a, b :: 0 <= a < b < |slice| ==> slice[a].key != slice[b].key
  }

  lemma {:induction false} SliceKeysDistinct(p: seq<Weighted>, s: int, e: int)
    requires forall a, b :: 0 <= a < b < |p| ==> p[a].0.key != p[b].0.key
    ensures KeysDistinct(SliceOf(p, s, e))
  {
    if p != [] {
      var n := |p| - 1;
      SliceKeysDistinct(p[..n], s, e);
      forall x | x in SliceOf(p[..n], s, e) ensures x.key != p[n].0.key {
        SliceMembers(p[..n], s, e, x);
      }
    }
  }

  // ---------------------------------------------------------------------------------------------
  // Which stage a service is in
  // ---------------------------------------------------------------------------------------------

  /** What a configuration has to satisfy for the stages to follow the dependencies. */
  ghost predicate Sound(i: Startups) {
    KeysMatch(i) && NoToTheEnd(i) && FitsInt64(i)
  }

  ghost predicate Weighable(i: Startups, k: string) {
    k in i && Weight(i, i[k], []).Ok?
  }

  lemma {:induction false} StageMembers(i: Startups, p: seq<Weighted>, up: Startup, n: nat)
    requires KeysMatch(i) && FitsInt64(i) && IsPlan(i, p) && n < 3
    ensures up in Stage(p, n) <==>
            Weighable(i, up.key) && up == i[up.key] && W(i, up.key) >= INIT && StageOf(W(i, up.key)) == n
  {
    var s, e := if n == 0 then INIT else if n == 1 then NET else BOOT,
                if n == 0 then NET else if n == 1 then BOOT else TO_THE_END;
    SliceMembers(p, s, e, up);
    if up in Stage(p, n) {
      var j :| 0 <= j < |p| && p[j].0 == up && InRange(p[j].1, s, e);
      PlanMembers(i, p, p[j]);
      NoOverflow(i, up.key);
    }
    if Weighable(i, up.key) && up == i[up.key] && W(i, up.key) >= INIT && StageOf(W(i, up.key)) == n {
      NoOverflow(i, up.key);
      PlanMembers(i, p, (up, W(i, up.key)));
      var j :| 0 <= j < |p| && p[j] == (up, W(i, up.key));
      assert InRange(p[j].1, s, e);
    }
  }

  lemma StageKeysDistinct(i: Startups, p: seq<Weighted>, n: nat)
    requires KeysMatch(i) && IsPlan(i, p) && n < 3
    ensures KeysDistinct(Stage(p, n))
  {
    forall a, b | 0 <= a < b < |p| ensures p[a].0.key != p[b].0.key {
      PlanKeysDistinct(i, p, a, b);
    }
    SliceKeysDistinct(p, if n == 0 then INIT else if n == 1 then NET else BOOT,
                      if n == 0 then NET else if n == 1 then BOOT else TO_THE_END);
  }

  /** A weighed service is in exactly one stage if it weighs at least 1, and in none otherwise. */
  lemma {:induction false} BootedExactlyIfPositive(i: Startups, p: seq<Weighted>, k: string)
    requires KeysMatch(i) && FitsInt64(i) && IsPlan(i, p) && Weighable(i, k)
    ensures W(i, k) >= 1 <==> exists n :: 0 <= n < 3 && i[k] in Stage(p, n)
    ensures forall n, m :: 0 <= n < 3 && 0 <= m < 3 && i[k] in Stage(p, n) && i[k] in Stage(p, m) ==> n == m
  {
    StageMembers(i, p, i[k], 0);
    StageMembers(i, p, i[k], 1);
    StageMembers(i, p, i[k], 2);
    assert i[k].key == k;
    if W(i, k) >= 1 {
      assert i[k] in Stage(p, StageOf(W(i, k)));
    }
  }

  /** A service without `After` is booted last. */
  lemma {:induction false} NoAfterBootsLast(i: Startups, p: seq<Weighted>, k: string)
    requires KeysMatch(i) && IsPlan(i, p) && k in i && i[k].after == []
    ensures Weight(i, i[k], []) == Ok(1000000) && i[k] in Stage(p, 2)
  {
    WeightIsTotal(i, k, []);
    PlanMembers(i, p, (i[k], 1000000));
    SliceMembers(p, BOOT, TO_THE_END, i[k]);
    var j :| 0 <= j < |p| && p[j] == (i[k], 1000000);
    assert InRange(p[j].1, BOOT, TO_THE_END);
  }

  /** The stages in numbers: from 1, from 1000 and from a million. */
  lemma {:induction false} StageByWeight(i: Startups, p: seq<Weighted>, k: string)
    requires KeysMatch(i) && FitsInt64(i) && IsPlan(i, p) && Weighable(i, k)
    ensures i[k] in Stage(p, 0) <==> 1 <= W(i, k) < 1000
    ensures i[k] in Stage(p, 1) <==> 1000 <= W(i, k) < 1000000
    ensures i[k] in Stage(p, 2) <==> 1000000 <= W(i, k)
  {
    StageMembers(i, p, i[k], 0);
    StageMembers(i, p, i[k], 1);
    StageMembers(i, p, i[k], 2);
  }

  lemma {:induction false} EndsAddUp(i: Startups, after: seq<string>, chain: seq<string>)
    requires forall j :: 0 <= j < |after| ==> after[j] == "----"
    ensures Sum(i, after, chain) == Ok(-|after|)
  {
    if after != [] {
      assert Entry(i, after[0], chain) == Ok(TO_THE_END);
      EndsAddUp(i, after[1..], chain);
    }
  }

  /** What is in a stage is a weighed service, with a computed weight of at least 1. */
  lemma {:induction false} StagedIsWeighed(i: Startups, p: seq<Weighted>, up: Startup, n: nat)
    requires KeysMatch(i) && IsPlan(i, p) && n < 3 && up in Stage(p, n)
    ensures Weighable(i, up.key) && up == i[up.key] && Wrap64(W(i, up.key)) >= INIT
  {
    var s, e := if n == 0 then INIT else if n == 1 then NET else BOOT,
                if n == 0 then NET else if n == 1 then BOOT else TO_THE_END;
    SliceMembers(p, s, e, up);
    var j :| 0 <= j < |p| && p[j].0 == up && InRange(p[j].1, s, e);
    PlanMembers(i, p, p[j]);
  }

  /**
    A service that only asks for `"----"` is weighed without an error and started by no stage. No list is
    longer than the largest number.
   */
  lemma {:induction false} ToTheEndNeverBoots(i: Startups, p: seq<Weighted>, k: string)
    requires KeysMatch(i) && IsPlan(i, p)
    requires k in i && 0 < |i[k].after| < TWO_63 && forall j :: 0 <= j < |i[k].after| ==> i[k].after[j] == "----"
    ensures Weighable(i, k)
    ensures forall n :: 0 <= n < 3 ==> i[k] !in Stage(p, n)
  {
    EndsAddUp(i, i[k].after, [] + [k]);
    if n: nat :| n < 3 && i[k] in Stage(p, n) {
      StagedIsWeighed(i, p, i[k], n);
    }
  }

  /** A dependency is in the same stage as the service that asks for it, or in an earlier one. */
  lemma {:induction false} DependencyNotLater(i: Startups, p: seq<Weighted>, n: nat, k: string, d: string)
    requires Sound(i) && IsPlan(i, p) && n < 3 && DependsOn(i, k, d) && i[k] in Stage(p, n)
    ensures Weighable(i, d) && W(i, d) >= 1 && StageOf(W(i, d)) <= n
    ensures i[d] in Stage(p, StageOf(W(i, d)))
  {
    StageMembers(i, p, i[k], n);
    assert i[k].key == k && i[d].key == d;
    WeightMonotone(i, k, d);
    StageMembers(i, p, i[d], StageOf(W(i, d)));
  }
}
