/** What the hooks of a service do in a slice: base/pm/pm.go (`RunSlice`) and base/pm/runnerhook.go. */
module Hooks {
  import opened Wrappers
  import opened Settings
  import opened Stages
  import opened Slice
  import opened Progress

  // ---------------------------------------------------------------------------------------------
  // Which services can be running before they end
  // ---------------------------------------------------------------------------------------------

  /** Some run has a match or a delay of service `g` report it as running while its command has not ended. */
  ghost predicate CanRunOn(slice: Services, g: nat) {
    exists st :: Reachable(slice, st) && g < |st.pcs| && st.pcs[g] == Running(true, false)
  }

  /** Only a service that asks for a match or a delay is ever signalled. */
  lemma {:induction false} SignalledAsked(slice: Services, acts: seq<Action>, g: nat)
    requires Exec(slice, Start(slice), acts).Some? && g < |slice|
    ensures var st := Exec(slice, Start(slice), acts).value;
            && |st.pcs| == |slice|
            && (st.pcs[g].Running? && st.pcs[g].signalled ==> slice[g].runningMatch != "" || slice[g].runningDelay >= 0)
    ensures forall j :: 0 <= j < |acts| && acts[j] == Signal(g) ==>
          slice[g].runningMatch != "" || slice[g].runningDelay >= 0
  {
    if acts != [] {
      var n := |acts| - 1;
      SignalledAsked(slice, acts[..n], g);
      SignalStep(slice, Exec(slice, Start(slice), acts[..n]).value, acts[n], g);
      assert forall j :: 0 <= j < n ==> acts[j] == acts[..n][j];
    }
  }

  lemma SignalStep(slice: Services, st: State, a: Action, g: nat)
    requires Enabled(slice, st, a) && g < |slice|
    ensures |Do(slice, st, a).pcs| == |slice|
    ensures var pc, pc' := st.pcs[g], Do(slice, st, a).pcs[g];
            pc'.Running? && pc'.signalled ==> a == Signal(g) || (pc.Running? && pc.signalled)
    ensures a == Signal(g) ==> slice[g].runningMatch != "" || slice[g].runningDelay >= 0
  {
  }

  lemma {:induction false} ExitStep(slice: Services, st: State, a: Action, g: nat)
    requires Enabled(slice, st, a) && g < |slice|
    ensures |Do(slice, st, a).pcs| == |slice| == |st.pcs|
    ensures var pc := Do(slice, st, a).pcs[g];
            pc.Running? && pc.exited ==> st.pcs[g].Running?
  {
  }

  /** A command that has ended was running, and had not ended, at some moment before. */
  lemma {:induction false} BeforeExit(slice: Services, acts: seq<Action>, st: State, g: nat)
    returns (before: seq<Action>, was: State)
    requires Exec(slice, Start(slice), acts) == Some(st) && g < |slice| == |st.pcs|
    requires st.pcs[g].Running? && st.pcs[g].exited
    ensures Exec(slice, Start(slice), before) == Some(was)
    ensures |was.pcs| == |slice| && was.pcs[g].Running? && !was.pcs[g].exited
  {
    var n := |acts| - 1;
    before, was := acts[..n], Exec(slice, Start(slice), acts[..n]).value;
    ExitStep(slice, was, acts[n], g);
    if was.pcs[g].exited {
      before, was := BeforeExit(slice, before, was, g);
    }
  }

  lemma {:induction false} RunsToExit(slice: Services, g: nat) returns (acts: seq<Action>)
    requires KeysDistinct(slice) && Acyclic(slice) && g < |slice|
    ensures Exec(slice, Start(slice), acts).Some?
    ensures var st := Exec(slice, Start(slice), acts).value;
            |st.pcs| == |slice| && st.pcs[g].Running? && (st.pcs[g].signalled || st.pcs[g].exited)
  {
    StartInv(slice);
    acts := RunToTheEnd(slice, [], Stranger(slice));
    assert PcInv(slice, Exec(slice, Start(slice), acts).value, g);
  }

  /** Exactly the services with a match text, or with a delay that is not negative, can be running before they end. */
  lemma {:induction false} RunsOnIffAsked(slice: Services, g: nat)
    requires KeysDistinct(slice) && Acyclic(slice) && g < |slice|
    ensures CanRunOn(slice, g) <==> slice[g].runningMatch != "" || slice[g].runningDelay >= 0
  {
    if CanRunOn(slice, g) {
      var st :| Reachable(slice, st) && g < |st.pcs| && st.pcs[g] == Running(true, false);
      var acts :| Exec(slice, Start(slice), acts) == Some(st);
      SignalledAsked(slice, acts, g);
    }
    if slice[g].runningMatch != "" || slice[g].runningDelay >= 0 {
      AskedRunsOn(slice, g);
    }
  }

  lemma {:induction false} AskedRunsOn(slice: Services, g: nat)
    requires KeysDistinct(slice) && Acyclic(slice) && g < |slice|
    requires slice[g].runningMatch != "" || slice[g].runningDelay >= 0
    ensures CanRunOn(slice, g)
  {
    var acts := RunsToExit(slice, g);
    var st := Exec(slice, Start(slice), acts).value;
    if st.pcs[g].exited {
      acts, st := BeforeExit(slice, acts, st, g);
    }
    if !st.pcs[g].signalled {
      ExecMore(slice, Start(slice), acts, Signal(g));
      acts, st := acts + [Signal(g)], Do(slice, st, Signal(g));
    }
    assert Exec(slice, Start(slice), acts) == Some(st) && Reachable(slice, st);
  }

  /** What depends on a service with neither is started only after that has exited successfully. */
  lemma {:induction false} WaitsForExit(slice: Services, acts: seq<Action>, g: nat, h: nat)
    requires KeysDistinct(slice) && Exec(slice, Start(slice), acts).Some? && g < |slice| && h < |slice|
    requires slice[g].runningMatch == "" && slice[g].runningDelay < 0 && slice[g].key in slice[h].after
    requires Started(Exec(slice, Start(slice), acts).value, h)
    ensures exists j :: 0 <= j < |acts| && acts[j] == Exit(g, true)
  {
    assert slice[g] in slice;
    StartedAfterDependencies(slice, acts, h, slice[g].key);
    ReleasedIffSaid(slice, acts, g);
    SignalledAsked(slice, acts, g);
  }

  // ---------------------------------------------------------------------------------------------
  // The last word counts
  // ---------------------------------------------------------------------------------------------

  /** The step says that service `g` is not running: a failed exit, or it was not started at all. */
  predicate SaysFailed(a: Action, g: nat) { a == Exit(g, false) || a == Refuse(g) }

  /** After some step that says that `g` is running, none has said that it is not. */
  ghost predicate LastSaidRunning(acts: seq<Action>, g: nat) {
    exists j :: 0 <= j < |acts| && SaysRunning(acts[j], g) && forall k :: j < k < |acts| ==> !SaysFailed(acts[k], g)
  }

  lemma {:induction false} LastWordStep(acts: seq<Action>, a: Action, g: nat)
    ensures LastSaidRunning(acts + [a], g) <==> SaysRunning(a, g) || (LastSaidRunning(acts, g) && !SaysFailed(a, g))
  {
    var all := acts + [a];
    if j :| 0 <= j < |acts| && SaysRunning(acts[j], g) && forall k :: j < k < |acts| ==> !SaysFailed(acts[k], g) {
      assert SaysRunning(all[j], g);
    }
    if j :| 0 <= j < |all| && SaysRunning(all[j], g) && forall k :: j < k < |all| ==> !SaysFailed(all[k], g) {
      assert j < |acts| ==> SaysRunning(acts[j], g) && !SaysFailed(all[|acts|], g);
      assert forall k :: j < k < |acts| ==> acts[k] == all[k];
    }
    if SaysRunning(a, g) {
      assert SaysRunning(all[|acts|], g);
    }
  }

  /** The state of a key, which the waiting services read, is what was said about it last. */
  lemma {:induction false} StateIsLastWord(slice: Services, acts: seq<Action>, g: nat)
    requires KeysDistinct(slice) && Exec(slice, Start(slice), acts).Some? && g < |slice|
    ensures slice[g].key in Exec(slice, Start(slice), acts).value.up <==> LastSaidRunning(acts, g)
  {
    if acts != [] {
      var n := |acts| - 1;
      StateIsLastWord(slice, acts[..n], g);
      LastWordStep(acts[..n], acts[n], g);
      assert acts == acts[..n] + [acts[n]];
      if acts[n].g != g {
        assert slice[acts[n].g].key != slice[g].key;
      }
    }
  }

  /** A service that reads that a dependency is not running is not going to start. */
  lemma {:induction false} ReadDecides(slice: Services, acts: seq<Action>, g: nat, h: nat)
    requires KeysDistinct(slice) && Exec(slice, Start(slice), acts).Some? && g < |slice|
    requires Enabled(slice, Exec(slice, Start(slice), acts).value, Read(h)) && h < |slice|
    requires slice[h].after[Exec(slice, Start(slice), acts).value.pcs[h].next] == slice[g].key
    ensures var st := Exec(slice, Start(slice), acts).value;
            Do(slice, st, Read(h)).pcs[h] == Waiting(st.pcs[h].next + 1, st.pcs[h].ok && LastSaidRunning(acts, g))
  {
    StateIsLastWord(slice, acts, g);
  }

  /** A dependency was found not running. */
  predicate Stopped(pc: Pc) { ((pc.Waiting? || pc.Reading?) && !pc.ok) || pc.Refusing? || pc.Refused? }

  lemma {:induction false} StaysStopped(slice: Services, st: State, a: Action, h: nat)
    requires Enabled(slice, st, a) && h < |slice| && Stopped(st.pcs[h])
    ensures |Do(slice, st, a).pcs| == |slice| && Stopped(Do(slice, st, a).pcs[h])
  {
  }

  /** The state after the steps `more` from `st`, if all of them were possible. */
  ghost function After(slice: Services, st: State, more: seq<Action>): Option<State>
    decreases |more|
  {
    if more == [] then Some(st)
    else if Enabled(slice, st, more[0]) then After(slice, Do(slice, st, more[0]), more[1..])
    else None
  }

  lemma {:induction false} StoppedForGood(slice: Services, st: State, more: seq<Action>, h: nat)
    requires h < |slice| == |st.pcs| && Stopped(st.pcs[h]) && After(slice, st, more).Some?
    ensures !Started(After(slice, st, more).value, h)
    decreases |more|
  {
    if more != [] {
      StaysStopped(slice, st, more[0], h);
      StoppedForGood(slice, Do(slice, st, more[0]), more[1..], h);
    }
  }

  /**
    A service that reads the state of a dependency when the last word about that is not that it is running is
    never started, whatever was said before and whatever is said later.
   */
  lemma {:induction false} LastWordStops(slice: Services, acts: seq<Action>, st: State, more: seq<Action>, g: nat,
                                         h: nat)
    requires KeysDistinct(slice) && Exec(slice, Start(slice), acts) == Some(st) && g < |slice| && h < |slice|
    requires Enabled(slice, st, Read(h)) && slice[h].after[st.pcs[h].next] == slice[g].key && !LastSaidRunning(acts, g)
    requires After(slice, Do(slice, st, Read(h)), more).Some?
    ensures !Started(After(slice, Do(slice, st, Read(h)), more).value, h)
  {
    ReadDecides(slice, acts, g, h);
    StoppedForGood(slice, Do(slice, st, Read(h)), more, h);
  }

  // ---------------------------------------------------------------------------------------------
  // Two services
  // ---------------------------------------------------------------------------------------------

  lemma Next(slice: Services, acts: seq<Action>, st: State, a: Action) returns (acts': seq<Action>, st': State)
    requires Exec(slice, Start(slice), acts) == Some(st) && Enabled(slice, st, a)
    ensures acts' == acts + [a] && st' == Do(slice, st, a) && Exec(slice, Start(slice), acts') == Some(st')
  {
    acts', st' := acts + [a], Do(slice, st, a);
    ExecMore(slice, Start(slice), acts, a);
  }

  /** `b` asks for `a`, which asks for nothing and has a match or a delay. */
  ghost predicate Pair(slice: Services, a: Startup, b: Startup) {
    && slice == [a, b] && a.key != b.key && a.after == [] && b.after == [a.key]
    && (a.runningMatch != "" || a.runningDelay >= 0)
  }

  lemma {:induction false} FirstSignalled(slice: Services, a: Startup, b: Startup)
    returns (acts: seq<Action>, st: State)
    requires Pair(slice, a, b)
    ensures acts == [Decide(0), Launch(0, true), Signal(0)] && Exec(slice, Start(slice), acts) == Some(st)
    ensures |st.pcs| == 2 && st.pcs[0] == Running(true, false) && st.pcs[1] == Waiting(0, true)
    ensures st.written == st.up == st.released == {a.key} && st.closed == {}
  {
    acts, st := [], Start(slice);
    acts, st := Next(slice, acts, st, Decide(0));
    acts, st := Next(slice, acts, st, Launch(0, true));
    acts, st := Next(slice, acts, st, Signal(0));
  }

  /** `b` waits until the channel of `a` is closed, reads its state and decides. */
  lemma {:induction false} SecondDecides(slice: Services, a: Startup, b: Startup, acts: seq<Action>, st: State)
    returns (acts': seq<Action>, st': State)
    requires Pair(slice, a, b) && Exec(slice, Start(slice), acts) == Some(st)
    requires |st.pcs| == 2 && st.pcs[1] == Waiting(0, true) && a.key in st.written && a.key !in st.closed
    ensures acts' == acts + [Close(0), Receive(1), Read(1), Decide(1)] && Exec(slice, Start(slice), acts') == Some(st')
    ensures |st'.pcs| == 2 && st'.pcs[1] == if a.key in st.up then Starting else Refusing
    ensures st'.released == st.released
  {
    acts', st' := Next(slice, acts, st, Close(0));
    acts', st' := Next(slice, acts', st', Receive(1));
    acts', st' := Next(slice, acts', st', Read(1));
    acts', st' := Next(slice, acts', st', Decide(1));
  }

  /** With its hook `a` lets `b` start, although the command of `a` never ends. */
  lemma {:induction false} HookLetsStart(slice: Services, a: Startup, b: Startup) returns (acts: seq<Action>, st: State)
    requires Pair(slice, a, b)
    ensures Exec(slice, Start(slice), acts) == Some(st) && Started(st, 1)
    ensures forall j, success :: 0 <= j < |acts| ==> acts[j] != Exit(0, success)
  {
    acts, st := FirstSignalled(slice, a, b);
    acts, st := SecondDecides(slice, a, b, acts, st);
    acts, st := Next(slice, acts, st, Launch(1, true));
  }

  /** But if `a` fails before `b` looks, then `b` is refused, although `a` has been released as running. */
  lemma {:induction false} LateFailureRefuses(slice: Services, a: Startup, b: Startup)
    returns (acts: seq<Action>, st: State)
    requires Pair(slice, a, b)
    ensures Exec(slice, Start(slice), acts) == Some(st) && a.key in st.released
    ensures |st.pcs| == 2 && st.pcs[1] == Refused
  {
    acts, st := FirstSignalled(slice, a, b);
    acts, st := Next(slice, acts, st, Exit(0, false));
    acts, st := SecondDecides(slice, a, b, acts, st);
    acts, st := Next(slice, acts, st, Refuse(1));
  }

  // ---------------------------------------------------------------------------------------------
  // A rejected service
  // ---------------------------------------------------------------------------------------------

  /** `RunCmd` may reject any service that is about to start. */
  lemma {:induction false} MayBeRejected(slice: Services, st: State, g: nat)
    requires g < |slice| == |st.pcs| && st.pcs[g] == Starting
    ensures Enabled(slice, st, Launch(g, false)) && Do(slice, st, Launch(g, false)).pcs[g] == Rejected
  {
  }

  lemma {:induction false} StaysRejected(slice: Services, st: State, a: Action, g: nat)
    requires Enabled(slice, st, a) && g < |slice| && st.pcs[g] == Rejected
    ensures |Do(slice, st, a).pcs| == |slice| && Do(slice, st, a).pcs[g] == Rejected
  {
  }

  lemma {:induction false} RejectedBlocks(slice: Services, st: State, more: seq<Action>, g: nat)
    requires KeysDistinct(slice) && Inv(slice, st) && g < |slice| && st.pcs[g] == Rejected
    requires After(slice, st, more).Some?
    ensures !AllClosed(slice, After(slice, st, more).value)
    decreases |more|
  {
    if more == [] {
      assert PcInv(slice, st, g);
    } else {
      StepInv(slice, st, more[0]);
      StaysRejected(slice, st, more[0], g);
      RejectedBlocks(slice, Do(slice, st, more[0]), more[1..], g);
    }
  }

  /** Then no hook is ever there to release its key, and `WaitAll` does not return in any continuation. */
  lemma {:induction false} RejectionBlocks(slice: Services, st: State, more: seq<Action>, g: nat)
    requires KeysDistinct(slice) && Reachable(slice, st) && g < |slice| == |st.pcs| && st.pcs[g] == Rejected
    requires After(slice, st, more).Some?
    ensures !AllClosed(slice, After(slice, st, more).value)
  {
    var acts :| Exec(slice, Start(slice), acts) == Some(st);
    StartInv(slice);
    RunInv(slice, Start(slice), acts);
    RejectedBlocks(slice, st, more, g);
  }
}
