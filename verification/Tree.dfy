/** The sorted list of startup services: base/settings/tree.go. */
module Tree {
  import opened Settings

  type Weighted = (Startup, int)

  // ---------------------------------------------------------------------------------------------
  // What the tree has to hold
  // ---------------------------------------------------------------------------------------------

  /** Some order in which the map can be ranged over. */
  ghost predicate IsOrder(i: Startups, order: seq<string>) {
    && (forall k :: k in order <==> k in i)
    && forall a, b :: 0 <= a < b < |order| ==> order[a] != order[b]
  }

  /** The services that can be weighed, each with its computed weight. */
  ghost function Planned(i: Startups, order: seq<string>): seq<Weighted>
    requires forall k :: k in order ==> k in i
  {
    if order == [] then []
    else
      var s := i[order[|order| - 1]];
      var r := Wrapped(Weight(i, s, []));
      Planned(i, order[..|order| - 1]) + (if r.Ok? then [(s, r.w)] else [])
  }

  /** The services that cannot, each with its error. */
  ghost function Failures(i: Startups, order: seq<string>): seq<(Startup, Error)>
    requires forall k :: k in order ==> k in i
  {
    if order == [] then []
    else
      var s := i[order[|order| - 1]];
      var r := Wrapped(Weight(i, s, []));
      Failures(i, order[..|order| - 1]) + (if r.Err? then [(s, r.error)] else [])
  }

  ghost predicate Sorted(p: seq<Weighted>) {
    forall a, b :: 0 <= a < b < |p| ==> p[a].1 <= p[b].1
  }

  ghost predicate SamePairs(p: seq<Weighted>, q: seq<Weighted>) {
    multiset(p) == multiset(q)
  }

  /** `p` is a sorted list of exactly the services of `i` that can be weighed, with their weights. */
  ghost predicate IsPlan(i: Startups, p: seq<Weighted>) {
    Sorted(p) && exists order :: IsOrder(i, order) && SamePairs(p, Planned(i, order))
  }

  /** The services with a weight in [s, e[, where -1 stands for no upper end. */
  function SliceOf(p: seq<Weighted>, s: int, e: int): seq<Startup> {
    if p == [] then []
    else SliceOf(p[..|p| - 1], s, e) + (if InRange(p[|p| - 1].1, s, e) then [p[|p| - 1].0] else [])
  }

  predicate InRange(w: int, s: int, e: int) { s <= w && (w < e || e == -1) }

  // ---------------------------------------------------------------------------------------------
  // The tree
  // ---------------------------------------------------------------------------------------------

  class StartupTree {
    var startups: seq<Startup>
    var weights: map<int, int>

    ghost predicate Valid()
      reads this
    {
      forall j :: j in weights <==> 0 <= j < |startups|
    }

    /** The services with the weights stored beside them. */
    ghost function Pairs(): (p: seq<Weighted>)
      requires Valid()
      reads this
      ensures |p| == |startups|
    {
      seq(|startups|, j requires 0 <= j < |startups| && Valid() reads this => (startups[j], weights[j]))
    }

    constructor ()
      ensures Valid() && Pairs() == []
    {
      startups, weights := [], map[];
    }

    method Append(s: Startup, w: int)
      requires Valid()
      modifies this
      ensures Valid() && Pairs() == old(Pairs()) + [(s, w)]
    {
      startups := startups + [s];
      weights := weights[|startups| - 1 := w];
    }

    method Less(a: nat, b: nat) returns (r: bool)
      requires Valid() && a < |startups| && b < |startups|
      ensures r <==> Pairs()[a].1 < Pairs()[b].1
    {
      r := weights[a] < weights[b];
    }

    method Swap(a: nat, b: nat)
      requires Valid() && a < |startups| && b < |startups|
      modifies this
      ensures Valid()
      ensures Pairs() == Exchanged(old(Pairs()), a, b)
    {
      startups := startups[a := startups[b]][b := startups[a]];
      weights := weights[a := weights[b]][b := weights[a]];
    }

    /**
      `sort.Sort`: some sequence of swaps after which the tree is in order. What is promised of its result
      holds for every such sequence (`SwapsKeepPairs`); this one finds it by insertion.
     */
    method Sort() returns (ghost swaps: seq<(nat, nat)>)
      requires Valid()
      modifies this
      ensures Valid() && Sorted(Pairs())
      ensures InBounds(swaps, |old(Pairs())|) && Pairs() == Swapped(old(Pairs()), swaps)
    {
      var n := |startups|;
      swaps := [];
      for i := 0 to n
        invariant Valid() && |startups| == n
        invariant Sorted(Pairs()[..i])
        invariant InBounds(swaps, n) && Pairs() == Swapped(old(Pairs()), swaps)
      {
        swaps := SiftDown(i, old(Pairs()), swaps);
      }
      assert Pairs()[..n] == Pairs();
    }

    method SiftDown(i: nat, ghost was: seq<Weighted>, ghost before: seq<(nat, nat)>)
      returns (ghost swaps: seq<(nat, nat)>)
      requires Valid() && i < |startups| && Sorted(Pairs()[..i])
      requires |was| == |startups| && InBounds(before, |was|) && Pairs() == Swapped(was, before)
      modifies this
      ensures Valid() && |startups| == old(|startups|) && Sorted(Pairs()[..i + 1])
      ensures InBounds(swaps, |was|) && Pairs() == Swapped(was, swaps)
    {
      var j := i;
      swaps := before;
      BeforeSift(Pairs(), i);
      while j > 0
        invariant 0 <= j <= i && Valid() && |startups| == old(|startups|)
        invariant InBounds(swaps, |was|) && Pairs() == Swapped(was, swaps)
        invariant SortedExcept(Pairs(), i, j)
      {
        var less := Less(j, j - 1);
        if !less {
          break;
        }
        SwapStep(Pairs(), i, j);
        OneMoreSwap(was, swaps, j, j - 1);
        Swap(j, j - 1);
        swaps := swaps + [(j, j - 1)];
        j := j - 1;
      }
      SettledIsSorted(Pairs(), i, j);
    }

    /** `Slice`: the loop over the services. */
    method Slice(s: int, e: int) returns (slice: seq<Startup>)
      requires Valid()
      ensures slice == SliceOf(Pairs(), s, e)
    {
      slice := [];
      for j := 0 to |startups|
        invariant slice == SliceOf(Pairs()[..j], s, e)
      {
        var w := weights[j];
        assert Pairs()[..j + 1][..j] == Pairs()[..j];
        if w < s {
          continue;
        }
        if w >= e && e != -1 {
          continue;
        }
        slice := slice + [startups[j]];
      }
      assert Pairs()[..|startups|] == Pairs();
    }
  }

  // ---------------------------------------------------------------------------------------------
  // Any sequence of swaps
  // ---------------------------------------------------------------------------------------------

  ghost predicate InBounds(swaps: seq<(nat, nat)>, n: nat) {
    forall k :: 0 <= k < |swaps| ==> swaps[k].0 < n && swaps[k].1 < n
  }

  function Exchanged(p: seq<Weighted>, a: nat, b: nat): seq<Weighted>
    requires a < |p| && b < |p|
  {
    p[a := p[b]][b := p[a]]
  }

  ghost function Swapped(p: seq<Weighted>, swaps: seq<(nat, nat)>): (r: seq<Weighted>)
    requires InBounds(swaps, |p|)
    ensures |r| == |p|
  {
    if swaps == [] then p
    else
      var n := |swaps| - 1;
      Exchanged(Swapped(p, swaps[..n]), swaps[n].0, swaps[n].1)
  }

  lemma OneMoreSwap(p: seq<Weighted>, swaps: seq<(nat, nat)>, a: nat, b: nat)
    requires InBounds(swaps, |p|) && a < |p| && b < |p|
    ensures InBounds(swaps + [(a, b)], |p|) && Swapped(p, swaps + [(a, b)]) == Exchanged(Swapped(p, swaps), a, b)
  {
    assert (swaps + [(a, b)])[..|swaps|] == swaps;
  }

  /** Whatever is swapped, the tree holds the same services, each with its own weight. */
  lemma {:induction false} SwapsKeepPairs(p: seq<Weighted>, swaps: seq<(nat, nat)>)
    requires InBounds(swaps, |p|)
    ensures SamePairs(Swapped(p, swaps), p)
  {
    if swaps != [] {
      SwapsKeepPairs(p, swaps[..|swaps| - 1]);
    }
  }

  /** So any sequence of swaps that ends in order makes a plan of the weighed services. */
  lemma {:induction false} AnySortMakesAPlan(i: Startups, order: seq<string>, swaps: seq<(nat, nat)>)
    requires IsOrder(i, order) && InBounds(swaps, |Planned(i, order)|) && Sorted(Swapped(Planned(i, order), swaps))
    ensures IsPlan(i, Swapped(Planned(i, order), swaps))
  {
    SwapsKeepPairs(Planned(i, order), swaps);
  }

  /** All of `p[..i + 1]` is in order, except that `p[j]` may still have to move down. */
  ghost predicate SortedExcept(p: seq<Weighted>, i: nat, j: nat) {
    && j <= i < |p|
    && (forall a, b :: 0 <= a < b <= i && a != j && b != j ==> p[a].1 <= p[b].1)
    && (forall b :: j < b <= i ==> p[j].1 <= p[b].1)
  }

  lemma BeforeSift(p: seq<Weighted>, i: nat)
    requires i < |p| && Sorted(p[..i])
    ensures SortedExcept(p, i, i)
  {
    assert forall a :: 0 <= a < i ==> p[..i][a] == p[a];
  }

  lemma SwapStep(p: seq<Weighted>, i: nat, j: nat)
    requires SortedExcept(p, i, j) && j > 0 && p[j].1 < p[j - 1].1
    ensures SortedExcept(Exchanged(p, j, j - 1), i, j - 1)
  {
  }

  lemma SettledIsSorted(p: seq<Weighted>, i: nat, j: nat)
    requires SortedExcept(p, i, j)
    requires j > 0 ==> p[j - 1].1 <= p[j].1
    ensures Sorted(p[..i + 1])
  {
  }

  /** `GetStartupTree`: weigh every service, report those that fail, sort the rest. */
  method GetStartupTree(i: Startups) returns (tree: StartupTree, errors: seq<(Startup, Error)>)
    ensures fresh(tree) && tree.Valid() && IsPlan(i, tree.Pairs())
    ensures exists order :: IsOrder(i, order) && errors == Failures(i, order)
                         && SamePairs(tree.Pairs(), Planned(i, order))
  {
    tree := new StartupTree();
    errors := [];
    var left := i.Keys;
    ghost var order: seq<string> := [];
    while left != {}
      invariant fresh(tree) && tree.Valid()
      invariant left <= i.Keys
      invariant forall k :: k in order <==> k in i.Keys - left
      invariant forall a, b :: 0 <= a < b < |order| ==> order[a] != order[b]
      invariant tree.Pairs() == Planned(i, order)
      invariant errors == Failures(i, order)
      decreases |left|
    {
      var k :| k in left;
      assert k !in order;
      left := left - {k};
      var w := ComputeWeight(i, i[k], []);
      assert (order + [k])[..|order|] == order;
      if w.Err? {
        errors := errors + [(i[k], w.error)];
      } else {
        tree.Append(i[k], w.w);
      }
      order := order + [k];
    }
    assert IsOrder(i, order);
    var swaps := tree.Sort();
    AnySortMakesAPlan(i, order, swaps);
    SwapsKeepPairs(Planned(i, order), swaps);
  }
}
