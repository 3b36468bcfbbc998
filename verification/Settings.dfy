/** Startup services and their weights: base/settings/startup.go and base/settings/include.go. */
module Settings {
  import opened Wrappers

  /** A startup service. `Args` is left out: it is only passed on to the command. */
  datatype Startup = Startup(
    after: seq<string>,
    runningDelay: int,
    runningMatch: string,
    name: string,
    key: string)

  /** `IncludedSettings.Startup`. */
  type Startups = map<string, Startup>

  datatype Error = CyclicDependency | UnknownDependency(name: string)

  datatype Weighed = Ok(w: int) | Err(error: Error)

  // ---------------------------------------------------------------------------------------------
  // Milestones
  // ---------------------------------------------------------------------------------------------

  const INIT := 1
  const NET := 1000
  const BOOT := 1000000
  const TO_THE_END := -1

  /** The `Priority` table. */
  function Priority(a: string): (r: Option<int>)
    ensures r.Some? ==> TO_THE_END <= r.value <= BOOT && r.value != 0
    ensures r.Some? && a != "----" ==> INIT <= r.value
  {
    if a == "init" then Some(INIT)
    else if a == "net" then Some(NET)
    else if a == "boot" then Some(BOOT)
    else if a == "----" then Some(TO_THE_END)
    else None
  }

  predicate IsMilestone(a: string) { Priority(a).Some? }

  // ---------------------------------------------------------------------------------------------
  // The weight over unbounded integers
  // ---------------------------------------------------------------------------------------------

  ghost function Elements(s: seq<string>): set<string> { set x | x in s }

  /** The `key` fields in use. They are what the chain collects. */
  ghost function UsedKeys(i: Startups): set<string> { set k | k in i :: i[k].key }

  /** `Startup.Weight` without the 64-bit width. */
  ghost function Weight(i: Startups, s: Startup, chain: seq<string>): (r: Weighed)
    decreases UsedKeys(i) + {s.key} - Elements(chain), 0
  {
    if s.key in chain then Err(CyclicDependency)
    else if s.after == [] then Ok(BOOT)
    else
      KeyLeaves(i, s, chain);
      Sum(i, s.after, chain + [s.key])
  }

  /** The loop over `After`: the first entry that fails decides the error. */
  ghost function Sum(i: Startups, after: seq<string>, chain: seq<string>): (r: Weighed)
    decreases UsedKeys(i) - Elements(chain), 1 + |after|
  {
    if after == [] then Ok(0)
    else Plus(Entry(i, after[0], chain), Sum(i, after[1..], chain))
  }

  /** One entry of `After`. */
  ghost function Entry(i: Startups, a: string, chain: seq<string>): (r: Weighed)
    decreases UsedKeys(i) - Elements(chain), 1
  {
    if IsMilestone(a) then Ok(Priority(a).value)
    else if a in i then
      assert UsedKeys(i) + {i[a].key} == UsedKeys(i);
      Weight(i, i[a], chain)
    else Err(UnknownDependency(a))
  }

  ghost function Plus(x: Weighed, y: Weighed): Weighed {
    if x.Err? then x else if y.Err? then y else Ok(x.w + y.w)
  }

  /** The measure that makes `Weight` stop: every level of the recursion uses up one key. */
  lemma KeyLeaves(i: Startups, s: Startup, chain: seq<string>)
    requires s.key !in chain
    ensures UsedKeys(i) - Elements(chain + [s.key]) < UsedKeys(i) + {s.key} - Elements(chain)
  {
    var smaller, larger := UsedKeys(i) - Elements(chain + [s.key]), UsedKeys(i) + {s.key} - Elements(chain);
    assert s.key in larger && s.key !in smaller;
    assert forall x :: x in smaller ==> x in larger;
  }

  // ---------------------------------------------------------------------------------------------
  // The weight as it is computed: signed 64-bit sums
  // ---------------------------------------------------------------------------------------------

  const TWO_63 := 0x8000_0000_0000_0000
  const TWO_64 := 0x1_0000_0000_0000_0000

  function Wrap64(x: int): (r: int)
    ensures -TWO_63 <= r < TWO_63
    ensures -TWO_63 <= x < TWO_63 ==> r == x
  {
    (x + TWO_63) % TWO_64 - TWO_63
  }

  /** It is what a signed 64-bit number keeps of a sum. */
  lemma WrapsAround(x: int)
    ensures -0x8000_0000_0000_0000 <= Wrap64(x) <= 0x7FFF_FFFF_FFFF_FFFF
    ensures (Wrap64(x) - x) % 0x1_0000_0000_0000_0000 == 0
  {
  }

  lemma WrapAdd(x: int, y: int)
    ensures Wrap64(Wrap64(x) + Wrap64(y)) == Wrap64(x + y)
  {
  }

  ghost function Wrapped(r: Weighed): Weighed {
    if r.Ok? then Ok(Wrap64(r.w)) else r
  }

  lemma SumNext(i: Startups, after: seq<string>, j: nat, chain: seq<string>, total: int)
    requires j < |after| && Sum(i, after, chain) == Plus(Ok(total), Sum(i, after[j..], chain))
    ensures var e := Entry(i, after[j], chain);
            Sum(i, after, chain) == if e.Err? then e else Plus(Ok(total + e.w), Sum(i, after[j + 1..], chain))
  {
    assert after[j..][1..] == after[j + 1..];
  }

  /** One entry of the list, in 64-bit arithmetic. */
  method ComputeEntry(i: Startups, a: string, chain: seq<string>) returns (r: Weighed)
    ensures r == Wrapped(Entry(i, a, chain))
    decreases UsedKeys(i) - Elements(chain), 1
  {
    if IsMilestone(a) {
      return Ok(Priority(a).value);
    } else if a in i {
      assert UsedKeys(i) + {i[a].key} == UsedKeys(i);
      r := ComputeWeight(i, i[a], chain);
    } else {
      return Err(UnknownDependency(a));
    }
  }

  /** `Startup.Weight`: the recursion with its loop, in 64-bit arithmetic. */
  method ComputeWeight(i: Startups, s: Startup, chain: seq<string>) returns (r: Weighed)
    ensures r == Wrapped(Weight(i, s, chain))
    decreases UsedKeys(i) + {s.key} - Elements(chain), 0
  {
    if s.key in chain {
      return Err(CyclicDependency);
    }
    var nextChain := chain + [s.key];
    KeyLeaves(i, s, chain);
    if |s.after| == 0 {
      return Ok(BOOT);
    }
    var w := 0;
    ghost var total := 0;
    for j := 0 to |s.after|
      invariant w == Wrap64(total)
      invariant Sum(i, s.after, nextChain) == Plus(Ok(total), Sum(i, s.after[j..], nextChain))
    {
      SumNext(i, s.after, j, nextChain, total);
      var entry := ComputeEntry(i, s.after[j], nextChain);
      if entry.Err? {
        return entry;
      }
      WrapAdd(total, Entry(i, s.after[j], nextChain).w);
      w, total := Wrap64(w + entry.w), total + Entry(i, s.after[j], nextChain).w;
    }
    return Ok(w);
  }
}
