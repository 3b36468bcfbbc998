/**
  `RunSlice` with its wait machine, as interleaved atomic steps: base/pm/pm.go, base/pm/waitmachine.go
  and base/pm/runnerhook.go.

  There is one goroutine per service. `Wait` takes two steps per key, the receive and the read of the
  state, because a later `Release` may overwrite the state in between. `Release` also takes two steps:
  it writes the state and then closes the channel.
 */
module Slice {
  import opened Wrappers
  import opened Settings
  import opened Stages

  // ---------------------------------------------------------------------------------------------
  // States
  // ---------------------------------------------------------------------------------------------

  datatype Pc =
    | Waiting(next: nat, ok: bool)  // about to look at After[next]; `ok` is the answer so far
    | Reading(next: nat, ok: bool)  // the channel of After[next] was closed; its state comes next
    | Starting                      // `Wait` returned true
    | Refusing                      // `Wait` returned false
    | Refused                       // released as failed without having run
    | Rejected                      // `RunCmd` returned an error, so there is no hook to release the key
    | Running(signalled: bool, exited: bool)  // accepted by `RunCmd`; which of its two hooks have fired

  datatype State = State(
    pcs: seq<Pc>,
    written: set<string>,   // keys that `Release` has written a state for
    closed: set<string>,    // keys whose channel is closed
    up: set<string>,        // keys whose state is true now
    released: set<string>)  // history: keys that a hook has ever released as true

  datatype Action =
    | Skip(g: nat)
    | Receive(g: nat)
    | Read(g: nat)
    | Decide(g: nat)
    | Refuse(g: nat)
    | Launch(g: nat, accepted: bool)
    | Signal(g: nat)
    | Exit(g: nat, success: bool)
    | Close(g: nat)

  type Services = seq<Startup>

  ghost function Keys(slice: Services): set<string> { set s | s in slice :: s.key }

  function Start(slice: Services): State {
    State(seq(|slice|, g => Waiting(0, true)), {}, {}, {}, {})
  }

  /** A match hook takes precedence over a delay hook; a negative delay asks for neither. */
  predicate HasSignalHook(s: Startup) { s.runningMatch != "" || s.runningDelay >= 0 }

  // ---------------------------------------------------------------------------------------------
  // Steps
  // ---------------------------------------------------------------------------------------------

  ghost predicate Enabled(slice: Services, st: State, a: Action) {
    && |st.pcs| == |slice| && a.g < |slice|
    && var pc, up := st.pcs[a.g], slice[a.g];
       match a
       case Skip(_) => pc.Waiting? && pc.next < |up.after| && up.after[pc.next] !in Keys(slice)
       case Receive(_) => pc.Waiting? && pc.next < |up.after| && up.after[pc.next] in st.closed
       case Read(_) => pc.Reading? && pc.next < |up.after|
       case Decide(_) => pc.Waiting? && pc.next == |up.after|
       case Refuse(_) => pc.Refusing?
       case Launch(_, _) => pc.Starting?
       case Signal(_) => pc.Running? && !pc.signalled && HasSignalHook(up)
       case Exit(_, _) => pc.Running? && !pc.exited
       case Close(_) => up.key in st.written && up.key !in st.closed
  }

  ghost function Do(slice: Services, st: State, a: Action): State
    requires Enabled(slice, st, a)
  {
    var pc, up := st.pcs[a.g], slice[a.g];
    match a
    case Skip(g) => st.(pcs := st.pcs[g := Waiting(pc.next + 1, pc.ok)])
    case Receive(g) => st.(pcs := st.pcs[g := Reading(pc.next, pc.ok)])
    case Read(g) => st.(pcs := st.pcs[g := Waiting(pc.next + 1, pc.ok && up.after[pc.next] in st.up)])
    case Decide(g) => st.(pcs := st.pcs[g := if pc.ok then Starting else Refusing])
    case Refuse(g) => Release(st.(pcs := st.pcs[g := Refused]), up.key, false)
    case Launch(g, accepted) => st.(pcs := st.pcs[g := if accepted then Running(false, false) else Rejected])
    case Signal(g) => Release(st.(pcs := st.pcs[g := pc.(signalled := true)]), up.key, true)
    case Exit(g, success) => Release(st.(pcs := st.pcs[g := pc.(exited := true)]), up.key, success)
    case Close(g) => st.(closed := st.closed + {up.key})
  }

  /** The first half of `Release`; `Close` is the second. */
  function Release(st: State, key: string, state: bool): State {
    st.(written := st.written + {key},
        up := if state then st.up + {key} else st.up - {key},
        released := if state then st.released + {key} else st.released)
  }

  /** The state after a run from `st`, if every step of it was possible. */
  ghost function Exec(slice: Services, st: State, acts: seq<Action>): Option<State> {
    if acts == [] then Some(st)
    else
      var n := |acts| - 1;
      var before := Exec(slice, st, acts[..n]);
      if before.Some? && Enabled(slice, before.value, acts[n]) then Some(Do(slice, before.value, acts[n])) else None
  }

  ghost predicate Reachable(slice: Services, st: State) {
    exists acts :: Exec(slice, Start(slice), acts) == Some(st)
  }

  // ---------------------------------------------------------------------------------------------
  // The invariant
  // ---------------------------------------------------------------------------------------------

  /** `RunCmd` was called for service `g`. */
  ghost predicate Started(st: State, g: nat) {
    g < |st.pcs| && (st.pcs[g].Running? || st.pcs[g].Rejected?)
  }

  ghost predicate WaitedFor(slice: Services, st: State, up: Startup, n: nat) {
    forall m :: 0 <= m < n && m < |up.after| && up.after[m] in Keys(slice) ==> up.after[m] in st.closed
  }

  ghost predicate RanFirst(slice: Services, st: State, up: Startup, n: nat) {
    forall m :: 0 <= m < n && m < |up.after| && up.after[m] in Keys(slice) ==> up.after[m] in st.released
  }

  ghost predicate PcInv(slice: Services, st: State, g: nat)
    requires g < |slice| == |st.pcs|
  {
    var up := slice[g];
    var all := |up.after|;
    match st.pcs[g]
    case Waiting(n, ok) =>
      n <= all && WaitedFor(slice, st, up, n) && (ok ==> RanFirst(slice, st, up, n)) && up.key !in st.written
    case Reading(n, ok) =>
      && n < all && WaitedFor(slice, st, up, n) && up.after[n] in st.closed
      && (ok ==> RanFirst(slice, st, up, n)) && up.key !in st.written
    case Starting => WaitedFor(slice, st, up, all) && RanFirst(slice, st, up, all) && up.key !in st.written
    case Refusing => WaitedFor(slice, st, up, all) && up.key !in st.written
    case Refused => WaitedFor(slice, st, up, all) && up.key in st.written && up.key !in st.released
    case Rejected => WaitedFor(slice, st, up, all) && RanFirst(slice, st, up, all) && up.key !in st.written
    case Running(signalled, exited) =>
      && WaitedFor(slice, st, up, all) && RanFirst(slice, st, up, all)
      && (up.key in st.written <==> signalled || exited)
  }

  ghost predicate Inv(slice: Services, st: State) {
    && |st.pcs| == |slice|
    && st.up <= st.released <= st.written <= Keys(slice)
    && st.closed <= st.written
    && forall g :: 0 <= g < |slice| ==> PcInv(slice, st, g)
  }

  lemma StartInv(slice: Services)
    ensures Inv(slice, Start(slice))
  {
  }

  lemma {:induction false} MovedPcInv(slice: Services, st: State, a: Action)
    requires Inv(slice, st) && Enabled(slice, st, a)
    ensures |Do(slice, st, a).pcs| == |slice| && PcInv(slice, Do(slice, st, a), a.g)
  {
    assert slice[a.g] in slice;
    assert PcInv(slice, st, a.g);
  }

  lemma {:induction false} OtherPcInv(slice: Services, st: State, a: Action, g: nat)
    requires KeysDistinct(slice) && Inv(slice, st) && Enabled(slice, st, a) && g < |slice| && g != a.g
    ensures |Do(slice, st, a).pcs| == |slice| && PcInv(slice, Do(slice, st, a), g)
  {
    assert PcInv(slice, st, g);
    assert slice[g].key != slice[a.g].key;
  }

  lemma {:induction false} StepInv(slice: Services, st: State, a: Action)
    requires KeysDistinct(slice) && Inv(slice, st) && Enabled(slice, st, a)
    ensures Inv(slice, Do(slice, st, a))
    ensures st.released <= Do(slice, st, a).released && st.closed <= Do(slice, st, a).closed
  {
    assert slice[a.g] in slice;
    MovedPcInv(slice, st, a);
    forall g | 0 <= g < |slice| ensures PcInv(slice, Do(slice, st, a), g) {
      if g != a.g {
        OtherPcInv(slice, st, a, g);
      }
    }
  }

  lemma {:induction false} RunInv(slice: Services, st: State, acts: seq<Action>)
    requires KeysDistinct(slice) && Inv(slice, st) && Exec(slice, st, acts).Some?
    ensures Inv(slice, Exec(slice, st, acts).value)
    ensures st.released <= Exec(slice, st, acts).value.released
    ensures st.closed <= Exec(slice, st, acts).value.closed
  {
    if acts != [] {
      var n := |acts| - 1;
      RunInv(slice, st, acts[..n]);
      StepInv(slice, Exec(slice, st, acts[..n]).value, acts[n]);
    }
  }

  // ---------------------------------------------------------------------------------------------
  // Order and failure propagation inside a slice
  // ---------------------------------------------------------------------------------------------

  /** In every run, at every moment, a started service's dependencies in the slice have been released as running. */
  lemma {:induction false} StartedAfterDependencies(slice: Services, acts: seq<Action>, g: nat, d: string)
    requires KeysDistinct(slice) && Exec(slice, Start(slice), acts).Some?
    requires g < |slice| && d in slice[g].after && d in Keys(slice)
    ensures Started(Exec(slice, Start(slice), acts).value, g) ==> d in Exec(slice, Start(slice), acts).value.released
  {
    StartInv(slice);
    RunInv(slice, Start(slice), acts);
    assert PcInv(slice, Exec(slice, Start(slice), acts).value, g);
    var m :| 0 <= m < |slice[g].after| && slice[g].after[m] == d;
  }

  /** A chain of services of the slice, each naming the next in its `After` list. */
  ghost predicate Chain(slice: Services, p: seq<nat>) {
    && p != []
    && (forall j :: 0 <= j < |p| ==> p[j] < |slice|)
    && forall j :: 0 < j < |p| ==> slice[p[j]].key in slice[p[j - 1]].after
  }

  /**
    Failure propagates: when a service was never released as running, whether it failed, was refused or
    was rejected, no service of the slice that depends on it, directly or not, has been started.
   */
  lemma {:induction false} FailurePropagates(slice: Services, st: State, p: seq<nat>)
    requires KeysDistinct(slice) && Reachable(slice, st) && Chain(slice, p) && |p| > 1
    requires slice[p[|p| - 1]].key !in st.released
    ensures !Started(st, p[0])
  {
    var acts :| Exec(slice, Start(slice), acts) == Some(st);
    StartInv(slice);
    RunInv(slice, Start(slice), acts);
    var d := slice[p[1]];
    assert d in slice && d.key in slice[p[0]].after;
    assert PcInv(slice, st, p[0]) && PcInv(slice, st, p[1]);
    var m :| 0 <= m < |slice[p[0]].after| && slice[p[0]].after[m] == d.key;
    if |p| > 2 {
      var rest := p[1..];
      assert Chain(slice, rest) by {
        forall j | 0 < j < |rest| ensures slice[rest[j]].key in slice[rest[j - 1]].after {
          assert slice[p[j + 1]].key in slice[p[j]].after;
        }
      }
      FailurePropagates(slice, st, rest);
    }
  }

  /** The step with which a hook says that service `g` is running: a match, a delay or a successful exit. */
  predicate SaysRunning(a: Action, g: nat) { a == Signal(g) || a == Exit(g, true) }

  /** Over every run, a key has been released as running exactly if one of its own hooks has said so. */
  lemma {:induction false} ReleasedIffSaid(slice: Services, acts: seq<Action>, g: nat)
    requires KeysDistinct(slice) && Exec(slice, Start(slice), acts).Some? && g < |slice|
    ensures slice[g].key in Exec(slice, Start(slice), acts).value.released <==>
            exists j :: 0 <= j < |acts| && SaysRunning(acts[j], g)
  {
    if acts != [] {
      var n := |acts| - 1;
      ReleasedIffSaid(slice, acts[..n], g);
      assert forall j :: 0 <= j < n ==> acts[..n][j] == acts[j];
      if acts[n].g != g {
        assert slice[acts[n].g].key != slice[g].key;
      }
    }
  }

  /**
    A service of which no hook ever says that it is running stops everything that depends on it in the slice,
    directly or not: none of that is started, in any run.
   */
  lemma {:induction false} SilenceStopsDependents(slice: Services, acts: seq<Action>, p: seq<nat>)
    requires KeysDistinct(slice) && Exec(slice, Start(slice), acts).Some? && Chain(slice, p) && |p| > 1
    requires forall j :: 0 <= j < |acts| ==> !SaysRunning(acts[j], p[|p| - 1])
    ensures !Started(Exec(slice, Start(slice), acts).value, p[0])
  {
    ReleasedIffSaid(slice, acts, p[|p| - 1]);
    FailurePropagates(slice, Exec(slice, Start(slice), acts).value, p);
  }

  // ---------------------------------------------------------------------------------------------
  // Every run is finite
  // ---------------------------------------------------------------------------------------------

  /** The number of steps that service `g` can still take. */
  ghost function StepsLeft(slice: Services, st: State, g: nat): nat
    requires g < |slice| == |st.pcs|
  {
    var all := |slice[g].after|;
    (match st.pcs[g]
     case Waiting(n, _) => 5 + 2 * (if n <= all then all - n else 0)
     case Reading(n, _) => 4 + 2 * (if n <= all then all - n else 0)
     case Starting => 4
     case Refusing => 4
     case Refused => 0
     case Rejected => 0
     case Running(signalled, exited) => 1 + (if signalled then 0 else 1) + (if exited then 0 else 1))
    + if slice[g].key in st.closed then 0 else 1
  }

  ghost function TotalLeft(slice: Services, st: State, n: nat): nat
    requires n <= |slice| == |st.pcs|
  {
    if n == 0 then 0 else TotalLeft(slice, st, n - 1) + StepsLeft(slice, st, n - 1)
  }

  ghost function Left(slice: Services, st: State): nat
    requires |slice| == |st.pcs|
  {
    TotalLeft(slice, st, |slice|)
  }

  lemma {:induction false} TotalDrops(slice: Services, st: State, st': State, g: nat, n: nat)
    requires n <= |slice| == |st.pcs| == |st'.pcs| && g < |slice|
    requires StepsLeft(slice, st', g) < StepsLeft(slice, st, g)
    requires forall h :: 0 <= h < |slice| && h != g ==> StepsLeft(slice, st', h) <= StepsLeft(slice, st, h)
    ensures TotalLeft(slice, st', n) + (if g < n then 1 else 0) <= TotalLeft(slice, st, n)
  {
    if n > 0 {
      TotalDrops(slice, st, st', g, n - 1);
    }
  }

  lemma {:induction false} StepDrops(slice: Services, st: State, a: Action)
    requires Inv(slice, st) && Enabled(slice, st, a)
    ensures |Do(slice, st, a).pcs| == |slice|
    ensures Left(slice, Do(slice, st, a)) < Left(slice, st)
  {
    var st' := Do(slice, st, a);
    assert PcInv(slice, st, a.g);
    assert StepsLeft(slice, st', a.g) < StepsLeft(slice, st, a.g);
    TotalDrops(slice, st, st', a.g, |slice|);
  }

  /** No run is longer than a number that only depends on the slice. */
  lemma {:induction false} RunsAreFinite(slice: Services, acts: seq<Action>)
    requires KeysDistinct(slice) && Exec(slice, Start(slice), acts).Some?
    ensures |Exec(slice, Start(slice), acts).value.pcs| == |slice|
    ensures |acts| + Left(slice, Exec(slice, Start(slice), acts).value) <= Left(slice, Start(slice))
  {
    if acts != [] {
      var n := |acts| - 1;
      RunsAreFinite(slice, acts[..n]);
      StartInv(slice);
      RunInv(slice, Start(slice), acts[..n]);
      StepDrops(slice, Exec(slice, Start(slice), acts[..n]).value, acts[n]);
    }
  }
}
