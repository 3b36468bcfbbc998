/** A slice of weighed services cannot deadlock, and completes unless `RunCmd` rejects a service. */
module Progress {
  import opened Wrappers
  import opened Settings
  import opened Dependencies
  import opened Stages
  import opened Slice

  /** `WaitAll` can return. */
  ghost predicate AllClosed(slice: Services, st: State) {
    forall g :: 0 <= g < |slice| ==> slice[g].key in st.closed
  }

  ghost predicate NoneRejected(st: State) {
    forall g :: 0 <= g < |st.pcs| ==> !st.pcs[g].Rejected?
  }

  // ---------------------------------------------------------------------------------------------
  // Who waits for whom
  // ---------------------------------------------------------------------------------------------

  /** No service of the slice waits for itself, directly or through others. */
  ghost predicate Acyclic(slice: Services) {
    forall p: seq<nat> :: Chain(slice, p) ==> Distinct(p)
  }

  /**
    The slice consists of weighed services of `i`, and none of them is named like a milestone.
    `Weight` looks milestones up first, `Wait` only looks at the keys of the slice.
   */
  ghost predicate FromSettings(i: Startups, slice: Services) {
    && KeysMatch(i) && KeysDistinct(slice)
    && forall g :: 0 <= g < |slice| ==>
         Weighable(i, slice[g].key) && slice[g] == i[slice[g].key] && !IsMilestone(slice[g].key)
  }

  /** Services that can be weighed do not wait in a circle. */
  lemma {:induction false} WeighedIsAcyclic(i: Startups, slice: Services)
    requires FromSettings(i, slice)
    ensures Acyclic(slice)
  {
    forall p: seq<nat> | Chain(slice, p) ensures Distinct(p) {
      var names := seq(|p|, j requires 0 <= j < |p| => slice[p[j]].key);
      forall j | 0 < j < |names| ensures DependsOn(i, names[j - 1], names[j]) {
        assert slice[p[j]].key in slice[p[j - 1]].after;
      }
      assert Walk(i, names);
      WeightSucceedsIff(i, names[0]);
      forall a, b | 0 <= a < b < |p| ensures p[a] != p[b] {
        assert names[a] != names[b];
      }
    }
  }

  lemma {:induction false} HeldBack(slice: Services, st: State, g: nat, h: nat)
    requires Inv(slice, st) && g < |slice| && h < |slice|
    requires slice[h].key in slice[g].after && slice[h].key !in st.closed
    ensures slice[g].key !in st.written
  {
    assert PcInv(slice, st, g);
    assert slice[h] in slice;
    var m :| 0 <= m < |slice[g].after| && slice[g].after[m] == slice[h].key;
  }

  /** The members of a circle are never released, so a slice with a circle never completes. */
  lemma {:induction false} CircleNeverReleased(slice: Services, acts: seq<Action>, p: seq<nat>, j: nat)
    requires KeysDistinct(slice) && Exec(slice, Start(slice), acts).Some?
    requires Chain(slice, p) && |p| > 1 && p[0] == p[|p| - 1] && j < |p|
    ensures slice[p[j]].key !in Exec(slice, Start(slice), acts).value.closed
    decreases |acts|
  {
    if acts != [] {
      var n := |acts| - 1;
      var st := Exec(slice, Start(slice), acts[..n]).value;
      var next := if j == |p| - 1 then 1 else j + 1;
      CircleNeverReleased(slice, acts[..n], p, j);
      CircleNeverReleased(slice, acts[..n], p, next);
      StartInv(slice);
      RunInv(slice, Start(slice), acts[..n]);
      assert slice[p[next]].key in slice[p[next - 1]].after;
      HeldBack(slice, st, p[j], p[next]);
      ClosesWritten(slice, st, acts[n], slice[p[j]].key);
    }
  }

  /** A channel is closed only after its state was written. */
  lemma {:induction false} ClosesWritten(slice: Services, st: State, a: Action, key: string)
    requires Enabled(slice, st, a) && key !in st.closed && key !in st.written
    ensures key !in Do(slice, st, a).closed
  {
  }

  // ---------------------------------------------------------------------------------------------
  // Some step is possible
  // ---------------------------------------------------------------------------------------------

  /**
    The steps that do not rely on luck: no early signal and no rejection. A command that has been
    accepted ends, successfully unless it is the one chosen to fail.
   */
  ghost predicate Plain(slice: Services, a: Action, failing: string) {
    match a
    case Signal(_) => false
    case Launch(_, accepted) => accepted
    case Exit(g, success) => g < |slice| && (success <==> slice[g].key != failing)
    case _ => true
  }

  lemma {:induction false} DistinctIsShort(p: seq<nat>, bound: set<nat>)
    requires Distinct(p) && forall j :: 0 <= j < |p| ==> p[j] in bound
    ensures |p| <= |bound|
    decreases |p|
  {
    if p != [] {
      var n := |p| - 1;
      DistinctIsShort(p[..n], bound - {p[n]});
    }
  }

  lemma ChainIsShort(slice: Services, p: seq<nat>)
    requires Acyclic(slice) && Chain(slice, p)
    ensures |p| <= |slice|
  {
    DistinctIsShort(p, Below(|slice|));
  }

  ghost function Below(n: nat): (r: set<nat>)
    ensures |r| == n && forall g: nat :: g in r <==> g < n
  {
    if n == 0 then {} else Below(n - 1) + {n - 1}
  }

  /** Follow the service at the end of the chain: it can move, or it waits for one that is not released either. */
  lemma {:induction false} CanMove(slice: Services, st: State, failing: string, p: seq<nat>) returns (a: Action)
    requires Acyclic(slice) && Inv(slice, st) && NoneRejected(st)
    requires Chain(slice, p) && slice[p[|p| - 1]].key !in st.closed
    ensures Enabled(slice, st, a) && Plain(slice, a, failing)
    decreases |slice| - |p|
  {
    var g := p[|p| - 1];
    var up := slice[g];
    assert PcInv(slice, st, g);
    match st.pcs[g]
    case Waiting(n, _) =>
      if n == |up.after| {
        a := Decide(g);
      } else if up.after[n] !in Keys(slice) {
        a := Skip(g);
      } else if up.after[n] in st.closed {
        a := Receive(g);
      } else {
        var h: nat :| h < |slice| && slice[h].key == up.after[n];
        assert Chain(slice, p + [h]);
        ChainIsShort(slice, p + [h]);
        a := CanMove(slice, st, failing, p + [h]);
      }
    case Reading(_, _) => a := Read(g);
    case Starting => a := Launch(g, true);
    case Refusing => a := Refuse(g);
    case Refused => a := Close(g);
    case Running(signalled, exited) =>
      if signalled || exited {
        a := Close(g);
      } else {
        a := Exit(g, up.key != failing);
      }
  }

  /** No deadlock: while a key of the slice is not released, a step is possible, whichever service is going to fail. */
  lemma {:induction false} NoDeadlock(slice: Services, st: State, failing: string)
    requires KeysDistinct(slice) && Acyclic(slice)
    requires Reachable(slice, st) && NoneRejected(st) && !AllClosed(slice, st)
    ensures exists a :: Enabled(slice, st, a) && Plain(slice, a, failing)
  {
    var acts :| Exec(slice, Start(slice), acts) == Some(st);
    StartInv(slice);
    RunInv(slice, Start(slice), acts);
    var g: nat :| g < |slice| && slice[g].key !in st.closed;
    assert Chain(slice, [g]);
    var a := CanMove(slice, st, failing, [g]);
  }

  /**
    A run that is over, in the sense that nothing but an early signal could still happen, has released
    every key, so that `WaitAll` returns, if and only if no command was rejected.
   */
  lemma {:induction false} CompletesUnlessRejected(slice: Services, st: State)
    requires KeysDistinct(slice) && Acyclic(slice) && Reachable(slice, st)
    requires forall a :: Enabled(slice, st, a) ==> a.Signal?
    ensures AllClosed(slice, st) <==> NoneRejected(st)
  {
    var acts :| Exec(slice, Start(slice), acts) == Some(st);
    StartInv(slice);
    RunInv(slice, Start(slice), acts);
    if AllClosed(slice, st) {
      forall g | 0 <= g < |st.pcs| ensures !st.pcs[g].Rejected? {
        assert PcInv(slice, st, g);
      }
    }
    if NoneRejected(st) && !AllClosed(slice, st) {
      NoDeadlock(slice, st, "");
      assert false;
    }
  }

  // ---------------------------------------------------------------------------------------------
  // A complete run
  // ---------------------------------------------------------------------------------------------

  /** What plain steps keep: nothing is rejected, and the failing service is never released as running. */
  ghost predicate PlainInv(slice: Services, st: State, failing: string) {
    && Inv(slice, st) && NoneRejected(st)
    && failing !in st.released
    && (failing !in Keys(slice) ==> AllWell(slice, st))
  }

  /** Nothing has failed so far. */
  ghost predicate AllWell(slice: Services, st: State) {
    && |st.pcs| == |slice|
    && st.up == st.released == st.written
    && forall g :: 0 <= g < |slice| ==>
         !st.pcs[g].Refusing? && !st.pcs[g].Refused? && (st.pcs[g].Waiting? || st.pcs[g].Reading? ==> st.pcs[g].ok)
  }

  lemma {:induction false} PlainStep(slice: Services, st: State, a: Action, failing: string)
    requires KeysDistinct(slice) && PlainInv(slice, st, failing)
    requires Enabled(slice, st, a) && Plain(slice, a, failing)
    ensures PlainInv(slice, Do(slice, st, a), failing)
  {
    StepInv(slice, st, a);
    assert PcInv(slice, st, a.g);
    assert slice[a.g] in slice;
  }

  lemma {:induction false} ExecMore(slice: Services, st: State, acts: seq<Action>, a: Action)
    requires Exec(slice, st, acts).Some? && Enabled(slice, Exec(slice, st, acts).value, a)
    ensures Exec(slice, st, acts + [a]) == Some(Do(slice, Exec(slice, st, acts).value, a))
  {
    assert (acts + [a])[..|acts|] == acts;
  }

  /** Any run without an accident can be carried on until the slice has completed. */
  lemma {:induction false} RunToTheEnd(slice: Services, acts: seq<Action>, failing: string) returns (all: seq<Action>)
    requires KeysDistinct(slice) && Acyclic(slice) && Exec(slice, Start(slice), acts).Some?
    requires PlainInv(slice, Exec(slice, Start(slice), acts).value, failing)
    ensures Exec(slice, Start(slice), all).Some?
    ensures AllClosed(slice, Exec(slice, Start(slice), all).value)
    ensures PlainInv(slice, Exec(slice, Start(slice), all).value, failing)
    decreases Left(slice, Exec(slice, Start(slice), acts).value)
  {
    var st := Exec(slice, Start(slice), acts).value;
    if AllClosed(slice, st) {
      return acts;
    }
    assert Reachable(slice, st);
    NoDeadlock(slice, st, failing);
    var a :| Enabled(slice, st, a) && Plain(slice, a, failing);
    ExecMore(slice, Start(slice), acts, a);
    PlainStep(slice, st, a, failing);
    StepDrops(slice, st, a);
    all := RunToTheEnd(slice, acts + [a], failing);
  }

  /** A slice can complete exactly when its services do not wait in a circle. */
  lemma {:induction false} CompletesIffAcyclic(slice: Services)
    requires KeysDistinct(slice)
    ensures Acyclic(slice) <==> exists st :: Reachable(slice, st) && AllClosed(slice, st)
  {
    if Acyclic(slice) {
      StartInv(slice);
      var nobody := Stranger(slice);
      var all := RunToTheEnd(slice, [], nobody);
      assert Reachable(slice, Exec(slice, Start(slice), all).value);
    } else {
      var p: seq<nat> :| Chain(slice, p) && !Distinct(p);
      var a, b :| 0 <= a < b < |p| && p[a] == p[b];
      var circle := p[a..b + 1];
      SubChain(slice, p, a, b + 1);
      forall st | Reachable(slice, st) ensures !AllClosed(slice, st) {
        var acts :| Exec(slice, Start(slice), acts) == Some(st);
        CircleNeverReleased(slice, acts, circle, 0);
      }
    }
  }

  lemma SubChain(slice: Services, p: seq<nat>, a: nat, b: nat)
    requires Chain(slice, p) && a < b <= |p|
    ensures Chain(slice, p[a..b])
  {
    var q := p[a..b];
    assert forall j :: 0 <= j < |q| ==> q[j] == p[a + j];
    forall j | 0 < j < |q| ensures slice[q[j]].key in slice[q[j - 1]].after {
      assert slice[p[a + j]].key in slice[p[a + j - 1]].after;
    }
  }

  /** A name that is no key of the slice: longer than all of them. */
  ghost function Stranger(slice: Services): (name: string)
    ensures name !in Keys(slice)
  {
    LongerThanAll(slice);
    Longest(slice) + "x"
  }

  ghost function Longest(slice: Services): string {
    if slice == [] then ""
    else
      var rest := Longest(slice[1..]);
      if |slice[0].key| > |rest| then slice[0].key else rest
  }

  lemma {:induction false} LongerThanAll(slice: Services)
    ensures forall s :: s in slice ==> |s.key| <= |Longest(slice)|
  {
    if slice != [] {
      LongerThanAll(slice[1..]);
      assert forall s :: s in slice <==> s == slice[0] || s in slice[1..];
    }
  }

  // ---------------------------------------------------------------------------------------------
  // A service named like a milestone can stop the boot
  // ---------------------------------------------------------------------------------------------

  const NET_LOOP: Startups :=
    map["net" := Startup(["x"], 0, "", "a", "net"), "x" := Startup(["net"], 0, "", "b", "x")]

  const NET_LOOP_SLICE: Services := [Startup(["x"], 0, "", "a", "net"), Startup(["net"], 0, "", "b", "x")]

  /** Two services that wait for each other are weighed, because one is taken for the milestone "net". */
  lemma NetLoopIsWeighed()
    ensures KeysMatch(NET_LOOP) && Weight(NET_LOOP, NET_LOOP["net"], []) == Ok(NET)
    ensures Weight(NET_LOOP, NET_LOOP["x"], []) == Ok(NET)
  {
    var i := NET_LOOP;
    SingleEntry(i, "net", ["x"]);
    SingleEntry(i, "net", ["net", "x"]);
    assert [] + ["x"] == ["x"] && [] + ["net"] == ["net"] && ["net"] + ["x"] == ["net", "x"];
    assert Weight(i, i["x"], []) == Ok(NET);
    assert Weight(i, i["x"], ["net"]) == Ok(NET);
    assert !IsMilestone("x");
    SingleEntry(i, "x", ["net"]);
  }

  lemma SingleEntry(i: Startups, a: string, chain: seq<string>)
    ensures Sum(i, [a], chain) == Entry(i, a, chain)
  {
    assert [a][1..] == [];
    assert Sum(i, [], chain) == Ok(0);
  }

  /** Their slice deadlocks in its first state: nothing is released and no step is possible. */
  lemma MilestoneNameDeadlocks()
    ensures KeysDistinct(NET_LOOP_SLICE)
    ensures !AllClosed(NET_LOOP_SLICE, Start(NET_LOOP_SLICE))
    ensures forall a :: !Enabled(NET_LOOP_SLICE, Start(NET_LOOP_SLICE), a)
  {
    var slice := NET_LOOP_SLICE;
    assert slice[0].key == "net" && slice[1].key == "x" && |"net"| != |"x"|;
    assert slice[0] in slice && slice[1] in slice;
    assert "net" in Keys(slice) && "x" in Keys(slice);
    assert slice[0].key !in Start(slice).closed;
  }
}
