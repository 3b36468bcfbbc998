/** What a computed weight says about the dependency graph. */
module Dependencies {
  import opened Settings

  // ---------------------------------------------------------------------------------------------
  // The graph, defined without the weight
  // ---------------------------------------------------------------------------------------------

  /** Included services carry their map key (base/settings/include.go:106-109). */
  ghost predicate KeysMatch(i: Startups) {
    forall k :: k in i ==> i[k].key == k
  }

  /** `d` is a service that `k` names in its `After` list, and not a milestone. */
  ghost predicate DependsOn(i: Startups, k: string, d: string) {
    k in i && d in i && d in i[k].after && !IsMilestone(d)
  }

  /** A walk along dependencies, dependents first. */
  ghost predicate Walk(i: Startups, p: seq<string>) {
    && p != []
    && p[0] in i
    && forall j :: 0 < j < |p| ==> DependsOn(i, p[j - 1], p[j])
  }

  ghost predicate Distinct<T>(p: seq<T>) {
    forall a, b :: 0 <= a < b < |p| ==> p[a] != p[b]
  }

  ghost predicate NamesKnown(i: Startups, k: string) {
    k in i && forall a :: a in i[k].after ==> IsMilestone(a) || a in i
  }

  /** Walking from `k` never meets `avoid`, never returns to a service and never meets an unknown name. */
  ghost predicate WellFoundedFrom(i: Startups, k: string, avoid: seq<string>) {
    forall p :: Walk(i, p) && p[0] == k ==>
      Distinct(p) && NamesKnown(i, p[|p| - 1]) && forall x :: x in p ==> x !in avoid
  }

  // ---------------------------------------------------------------------------------------------
  // Weight succeeds exactly on the well-founded part of the graph
  // ---------------------------------------------------------------------------------------------

  lemma SumSucceedsIff(i: Startups, after: seq<string>, chain: seq<string>)
    ensures Sum(i, after, chain).Ok? <==> forall a :: a in after ==> Entry(i, a, chain).Ok?
    decreases |after|
  {
    if after != [] {
      SumSucceedsIff(i, after[1..], chain);
      assert forall a :: a in after <==> a == after[0] || a in after[1..];
    }
  }

  lemma {:induction false} WeighedIsWellFounded(i: Startups, k: string, chain: seq<string>, p: seq<string>)
    requires KeysMatch(i) && k in i && Weight(i, i[k], chain).Ok?
    requires Walk(i, p) && p[0] == k
    ensures Distinct(p) && NamesKnown(i, p[|p| - 1]) && forall x :: x in p ==> x !in chain
    decreases |p|
  {
    var next := chain + [k];
    if i[k].after != [] {
      SumSucceedsIff(i, i[k].after, next);
    }
    if |p| > 1 {
      var d, rest := p[1], p[1..];
      assert DependsOn(i, p[0], d) && Entry(i, d, next) == Weight(i, i[d], next);
      assert Walk(i, rest) by {
        forall j | 0 < j < |rest| ensures DependsOn(i, rest[j - 1], rest[j]) {
          assert DependsOn(i, p[j], p[j + 1]);
        }
      }
      WeighedIsWellFounded(i, d, next, rest);
      assert k !in rest;
      assert p == [k] + rest;
    }
  }

  lemma {:induction false} WellFoundedBelow(i: Startups, k: string, chain: seq<string>, a: string)
    requires WellFoundedFrom(i, k, chain) && DependsOn(i, k, a)
    ensures WellFoundedFrom(i, a, chain + [k])
  {
    forall p | Walk(i, p) && p[0] == a
      ensures Distinct(p) && NamesKnown(i, p[|p| - 1]) && forall x :: x in p ==> x !in chain + [k]
    {
      LongerWalk(i, k, p);
      var q := [k] + p;
      assert q[|q| - 1] == p[|p| - 1];
      forall m | 0 <= m < |p| ensures p[m] !in chain + [k] {
        assert q[m + 1] == p[m] && q[0] == k && q[m + 1] in q;
      }
    }
  }

  lemma LongerWalk(i: Startups, k: string, p: seq<string>)
    requires Walk(i, p) && DependsOn(i, k, p[0])
    ensures Walk(i, [k] + p)
    ensures Distinct([k] + p) ==> Distinct(p)
  {
    var q := [k] + p;
    assert forall m :: 0 <= m < |p| ==> q[m + 1] == p[m];
    forall j | 0 < j < |q| ensures DependsOn(i, q[j - 1], q[j]) {
      if j > 1 {
        assert DependsOn(i, p[j - 2], p[j - 1]);
      }
    }
    if Distinct(q) {
      forall a, b | 0 <= a < b < |p| ensures p[a] != p[b] {
        assert q[a + 1] != q[b + 1];
      }
    }
  }

  lemma {:induction false} WellFoundedIsWeighed(i: Startups, k: string, chain: seq<string>)
    requires KeysMatch(i) && k in i && WellFoundedFrom(i, k, chain)
    ensures Weight(i, i[k], chain).Ok?
    decreases UsedKeys(i) - Elements(chain)
  {
    assert Walk(i, [k]) && k in [k] && k !in chain;
    assert NamesKnown(i, [k][0]);
    if i[k].after != [] {
      var next := chain + [k];
      assert k in UsedKeys(i) - Elements(chain) && UsedKeys(i) - Elements(next) < UsedKeys(i) - Elements(chain);
      forall a | a in i[k].after ensures Entry(i, a, next).Ok? {
        if !IsMilestone(a) {
          WellFoundedBelow(i, k, chain, a);
          WellFoundedIsWeighed(i, a, next);
        }
      }
      SumSucceedsIff(i, i[k].after, next);
    }
  }

  /** `Weight` succeeds exactly when no walk from the service meets a cycle or an unknown name. */
  lemma {:induction false} WeightSucceedsIff(i: Startups, k: string)
    requires KeysMatch(i) && k in i
    ensures Weight(i, i[k], []).Ok? <==>
            forall p :: Walk(i, p) && p[0] == k ==> Distinct(p) && NamesKnown(i, p[|p| - 1])
  {
    if Weight(i, i[k], []).Ok? {
      forall p | Walk(i, p) && p[0] == k ensures Distinct(p) && NamesKnown(i, p[|p| - 1]) {
        WeighedIsWellFounded(i, k, [], p);
      }
    }
    if forall p :: Walk(i, p) && p[0] == k ==> Distinct(p) && NamesKnown(i, p[|p| - 1]) {
      assert WellFoundedFrom(i, k, []);
      WellFoundedIsWeighed(i, k, []);
    }
  }

  // ---------------------------------------------------------------------------------------------
  // The value does not depend on the chain
  // ---------------------------------------------------------------------------------------------

  /** Two chains on which a service can be weighed give it the same weight. */
  lemma {:induction false} WeightIgnoresChain(i: Startups, s: Startup, c: seq<string>, c': seq<string>)
    requires Weight(i, s, c).Ok? && Weight(i, s, c').Ok?
    ensures Weight(i, s, c) == Weight(i, s, c')
    decreases UsedKeys(i) + {s.key} - Elements(c), 0
  {
    if s.after != [] {
      KeyLeaves(i, s, c);
      SumIgnoresChain(i, s.after, c + [s.key], c' + [s.key]);
    }
  }

  lemma {:induction false} SumIgnoresChain(i: Startups, after: seq<string>, c: seq<string>, c': seq<string>)
    requires Sum(i, after, c).Ok? && Sum(i, after, c').Ok?
    ensures Sum(i, after, c) == Sum(i, after, c')
    decreases UsedKeys(i) - Elements(c), 1 + |after|
  {
    if after != [] {
      var a := after[0];
      if !IsMilestone(a) {
        assert UsedKeys(i) + {i[a].key} == UsedKeys(i);
        WeightIgnoresChain(i, i[a], c, c');
      }
      SumIgnoresChain(i, after[1..], c, c');
    }
  }

  /** The weight of a service, whatever the chain. */
  ghost function W(i: Startups, k: string): int
    requires k in i && Weight(i, i[k], []).Ok?
  {
    Weight(i, i[k], []).w
  }

  /** Dependencies of a weighed service are weighed too, and they add up to its weight. */
  lemma {:induction false} DependencyWeighed(i: Startups, k: string, d: string)
    requires KeysMatch(i) && DependsOn(i, k, d) && Weight(i, i[k], []).Ok?
    ensures Weight(i, i[d], []).Ok?
    ensures Entry(i, d, [k]) == Ok(W(i, d))
  {
    SumSucceedsIff(i, i[k].after, [k]);
    assert [] + [k] == [k];
    assert Entry(i, d, [k]) == Weight(i, i[d], [k]);
    WeighedAlone(i, d, [k]);
  }

  /** What can be weighed on some chain can be weighed on its own. */
  lemma {:induction false} WeighedAlone(i: Startups, d: string, chain: seq<string>)
    requires KeysMatch(i) && d in i && Weight(i, i[d], chain).Ok?
    ensures Weight(i, i[d], []).Ok? && Weight(i, i[d], chain) == Ok(W(i, d))
  {
    forall p | Walk(i, p) && p[0] == d ensures Distinct(p) && NamesKnown(i, p[|p| - 1]) {
      WeighedIsWellFounded(i, d, chain, p);
    }
    WeightSucceedsIff(i, d);
    WeightIgnoresChain(i, i[d], chain, []);
  }

  // ---------------------------------------------------------------------------------------------
  // The value in numbers
  // ---------------------------------------------------------------------------------------------

  function TotalOf(shares: seq<int>): int { if shares == [] then 0 else shares[0] + TotalOf(shares[1..]) }

  /** What one entry of an `After` list adds. */
  ghost function Share(i: Startups, a: string): int {
    if a == "init" then 1
    else if a == "net" then 1000
    else if a == "boot" then 1000000
    else if a == "----" then -1
    else if a in i && Weight(i, i[a], []).Ok? then W(i, a)
    else 0
  }

  ghost function Shares(i: Startups, after: seq<string>): seq<int> {
    seq(|after|, j requires 0 <= j < |after| => Share(i, after[j]))
  }

  lemma {:induction false} EntryIsShare(i: Startups, a: string, chain: seq<string>)
    requires KeysMatch(i) && Entry(i, a, chain).Ok?
    ensures Entry(i, a, chain) == Ok(Share(i, a))
  {
    if !IsMilestone(a) {
      WeighedAlone(i, a, chain);
    }
  }

  lemma {:induction false} SumIsTotal(i: Startups, after: seq<string>, chain: seq<string>)
    requires KeysMatch(i) && Sum(i, after, chain).Ok?
    ensures Sum(i, after, chain) == Ok(TotalOf(Shares(i, after)))
    decreases |after|
  {
    if after != [] {
      EntryIsShare(i, after[0], chain);
      SumIsTotal(i, after[1..], chain);
      assert Shares(i, after)[1..] == Shares(i, after[1..]);
    }
  }

  /**
    A service without `After` weighs a million. Any other weighs the total of its entries: 1 for "init", 1000 for
    "net", a million for "boot", -1 for "----", and for a service what that weighs.
   */
  lemma {:induction false} WeightIsTotal(i: Startups, k: string, chain: seq<string>)
    requires KeysMatch(i) && k in i && k !in chain
    ensures i[k].after == [] ==> Weight(i, i[k], chain) == Ok(1000000)
    ensures i[k].after != [] && Weight(i, i[k], chain).Ok? ==>
              Weight(i, i[k], chain) == Ok(TotalOf(Shares(i, i[k].after)))
  {
    if i[k].after != [] && Weight(i, i[k], chain).Ok? {
      SumIsTotal(i, i[k].after, chain + [k]);
    }
  }

  // ---------------------------------------------------------------------------------------------
  // Which error
  // ---------------------------------------------------------------------------------------------

  /** The service at the end of the walk names something that is neither a service nor a milestone. */
  ghost predicate EndsUnknown(i: Startups, p: seq<string>, name: string) {
    && Walk(i, p) && p[|p| - 1] in i && name in i[p[|p| - 1]].after && name !in i
    && name != "init" && name != "net" && name != "boot" && name != "----"
  }

  /** The walk ends where it has been before, or on the chain. */
  ghost predicate EndsInCircle(i: Startups, p: seq<string>, chain: seq<string>) {
    Walk(i, p) && (p[|p| - 1] in chain || !Distinct(p))
  }

  /** The first entry of the list that fails decides. */
  lemma {:induction false} FirstFailure(i: Startups, after: seq<string>, chain: seq<string>) returns (a: string)
    requires Sum(i, after, chain).Err?
    ensures a in after && Entry(i, a, chain) == Sum(i, after, chain)
    decreases |after|
  {
    if Entry(i, after[0], chain).Err? {
      a := after[0];
    } else {
      a := FirstFailure(i, after[1..], chain);
    }
  }

  lemma {:induction false} FindDefect(i: Startups, k: string, chain: seq<string>) returns (p: seq<string>)
    requires KeysMatch(i) && k in i && Weight(i, i[k], chain).Err?
    ensures Walk(i, p) && p[0] == k
    ensures match Weight(i, i[k], chain).error
            case UnknownDependency(name) => EndsUnknown(i, p, name)
            case CyclicDependency => EndsInCircle(i, p, chain)
    decreases UsedKeys(i) - Elements(chain)
  {
    p := [k];
    if k !in chain {
      var next := chain + [k];
      assert k in UsedKeys(i) - Elements(chain) && UsedKeys(i) - Elements(next) < UsedKeys(i) - Elements(chain);
      var a := FirstFailure(i, i[k].after, next);
      if a in i && !IsMilestone(a) {
        var rest := FindDefect(i, a, next);
        p := [k] + rest;
        LongerWalk(i, k, rest);
        assert p[|p| - 1] == rest[|rest| - 1];
        assert Distinct(p) ==> Distinct(rest);
        if rest[|rest| - 1] == k {
          assert p[0] == p[|p| - 1];
        }
      }
    }
  }

  /**
    The error says what is wrong: an unknown name is named by a service that a walk along the dependencies
    meets, and a cyclic dependency is a walk that meets a service twice.
   */
  lemma {:induction false} ErrorIsReal(i: Startups, k: string)
    requires KeysMatch(i) && k in i && Weight(i, i[k], []).Err?
    ensures match Weight(i, i[k], []).error
            case UnknownDependency(name) => exists p :: Walk(i, p) && p[0] == k && EndsUnknown(i, p, name)
            case CyclicDependency => exists p :: Walk(i, p) && p[0] == k && !Distinct(p)
  {
    var p := FindDefect(i, k, []);
  }

  // ---------------------------------------------------------------------------------------------
  // Order
  // ---------------------------------------------------------------------------------------------

  /** No service asks for `"----"`, the one entry with a negative weight. */
  ghost predicate NoToTheEnd(i: Startups) {
    forall k :: k in i ==> "----" !in i[k].after
  }

  lemma {:induction false} SumBounds(i: Startups, after: seq<string>, chain: seq<string>)
    requires NoToTheEnd(i) && "----" !in after
    requires Sum(i, after, chain).Ok?
    ensures Sum(i, after, chain).w >= |after|
    ensures forall a :: a in after ==> Entry(i, a, chain).Ok? && 1 <= Entry(i, a, chain).w <= Sum(i, after, chain).w
    decreases UsedKeys(i) - Elements(chain), 1 + |after|
  {
    if after != [] {
      var a := after[0];
      if !IsMilestone(a) {
        assert UsedKeys(i) + {i[a].key} == UsedKeys(i);
        WeightPositive(i, i[a], chain);
      }
      assert "----" !in after[1..];
      SumBounds(i, after[1..], chain);
      assert forall x :: x in after <==> x == a || x in after[1..];
    }
  }

  lemma {:induction false} WeightPositive(i: Startups, s: Startup, chain: seq<string>)
    requires NoToTheEnd(i) && "----" !in s.after
    requires Weight(i, s, chain).Ok?
    ensures Weight(i, s, chain).w >= 1
    decreases UsedKeys(i) + {s.key} - Elements(chain), 0
  {
    if s.after != [] {
      KeyLeaves(i, s, chain);
      SumBounds(i, s.after, chain + [s.key]);
    }
  }

  /** A service weighs at least 1 and at least as much as each of its dependencies. */
  lemma {:induction false} WeightMonotone(i: Startups, k: string, d: string)
    requires KeysMatch(i) && NoToTheEnd(i) && DependsOn(i, k, d) && Weight(i, i[k], []).Ok?
    ensures Weight(i, i[d], []).Ok? && 1 <= W(i, d) <= W(i, k)
  {
    assert [] + [k] == [k];
    SumBounds(i, i[k].after, [k]);
    DependencyWeighed(i, k, d);
  }

  // ---------------------------------------------------------------------------------------------
  // Magnitude
  // ---------------------------------------------------------------------------------------------

  /** The weight of the boot milestone times `n` to the power `m`. */
  ghost function Cap(n: nat, m: nat): nat { if m == 0 then BOOT else Times(n, Cap(n, m - 1)) }

  /** `n * cap`, kept away from nonlinear reasoning. */
  ghost function Times(n: nat, cap: nat): nat {
    if n == 0 then 0 else cap + Times(n - 1, cap)
  }

  lemma {:induction false} TimesIsProduct(n: nat, cap: nat)
    ensures Times(n, cap) == n * cap
  {
    if n > 0 {
      TimesIsProduct(n - 1, cap);
    }
  }

  ghost function Power(n: nat, m: nat): nat { if m == 0 then 1 else n * Power(n, m - 1) }

  lemma {:induction false} CapIsPower(n: nat, m: nat)
    ensures Cap(n, m) == BOOT * Power(n, m)
  {
    if m > 0 {
      CapIsPower(n, m - 1);
      TimesIsProduct(n, Cap(n, m - 1));
      assert n * (BOOT * Power(n, m - 1)) == BOOT * (n * Power(n, m - 1));
    }
  }

  lemma {:induction false} TimesGrows(n: nat, n': nat, cap: nat)
    requires n <= n'
    ensures Times(n, cap) <= Times(n', cap)
  {
    if n < n' {
      TimesGrows(n, n' - 1, cap);
    }
  }

  lemma {:induction false} CapGrows(n: nat, m: nat)
    requires n >= 1
    ensures BOOT <= Cap(n, m)
  {
    if m > 0 {
      CapGrows(n, m - 1);
      TimesGrows(1, n, Cap(n, m - 1));
    }
  }

  ghost predicate EntriesAtMost(i: Startups, n: nat) {
    forall k :: k in i ==> |i[k].after| <= n
  }

  ghost function Abs(x: int): nat { if x < 0 then -x else x }

  lemma {:induction false} SumMagnitude(i: Startups, after: seq<string>, chain: seq<string>, n: nat, m: nat)
    requires n >= 1 && EntriesAtMost(i, n) && Sum(i, after, chain).Ok?
    requires |UsedKeys(i) - Elements(chain)| <= m
    ensures Abs(Sum(i, after, chain).w) <= Times(|after|, Cap(n, m))
    decreases m, 1 + |after|
  {
    if after != [] {
      var a := after[0];
      if IsMilestone(a) {
        CapGrows(n, m);
      } else {
        assert UsedKeys(i) + {i[a].key} == UsedKeys(i);
        WeightMagnitude(i, i[a], chain, n, m);
      }
      SumMagnitude(i, after[1..], chain, n, m);
    }
  }

  lemma {:induction false} WeightMagnitude(i: Startups, s: Startup, chain: seq<string>, n: nat, m: nat)
    requires n >= 1 && EntriesAtMost(i, n) && |s.after| <= n && Weight(i, s, chain).Ok?
    requires |UsedKeys(i) + {s.key} - Elements(chain)| <= m
    ensures Abs(Weight(i, s, chain).w) <= Cap(n, m)
    decreases m, 0
  {
    if s.after == [] {
      CapGrows(n, m);
    } else {
      OneKeyFewer(i, s, chain);
      SumMagnitude(i, s.after, chain + [s.key], n, m - 1);
      TimesGrows(|s.after|, n, Cap(n, m - 1));
    }
  }

  lemma OneKeyFewer(i: Startups, s: Startup, chain: seq<string>)
    requires s.key !in chain
    ensures |UsedKeys(i) - Elements(chain + [s.key])| + 1 == |UsedKeys(i) + {s.key} - Elements(chain)|
  {
    assert UsedKeys(i) + {s.key} - Elements(chain) == UsedKeys(i) - Elements(chain + [s.key]) + {s.key};
  }

  /** The number of entries a list may have before weights can leave 64 bits. */
  ghost predicate FitsInt64(i: Startups) {
    exists n: nat :: n >= 1 && EntriesAtMost(i, n) && Cap(n, |i|) < TWO_63
  }

  /** Under a bound that can be read off the configuration the computed weight is the true one. */
  lemma {:induction false} NoOverflow(i: Startups, k: string)
    requires KeysMatch(i) && FitsInt64(i) && k in i
    ensures Wrapped(Weight(i, i[k], [])) == Weight(i, i[k], [])
  {
    if Weight(i, i[k], []).Ok? {
      var n: nat :| n >= 1 && EntriesAtMost(i, n) && Cap(n, |i|) < TWO_63;
      assert UsedKeys(i) == i.Keys;
      assert UsedKeys(i) + {k} - Elements([]) == i.Keys;
      WeightMagnitude(i, i[k], [], n, |i|);
    }
  }
}
