/** The three-stage boot: core0/bootstrap/bootstrap.go over `RunSlice`. */
module Bootstrap {
  import opened Wrappers
  import opened Settings
  import opened Dependencies
  import opened Tree
  import opened Stages
  import opened Slice
  import opened Progress

  /**
    `stage` is the stage whose `RunSlice` is under way, or 3 when boot is over. The goroutines and hooks
    of earlier stages may still move: each `RunSlice` has its own wait machine.
   */
  datatype BootState = BootState(stage: nat, slices: seq<State>)

  datatype BootAction = Inside(n: nat, a: Action) | Advance

  ghost function BootStart(p: seq<Weighted>): BootState {
    BootState(0, [Start(Stage(p, 0)), Start(Stage(p, 1)), Start(Stage(p, 2))])
  }

  ghost predicate BootEnabled(p: seq<Weighted>, b: BootState, x: BootAction) {
    && |b.slices| == 3
    && match x
       case Inside(n, a) => n < 3 && n <= b.stage && Enabled(Stage(p, n), b.slices[n], a)
       case Advance => b.stage < 3 && AllClosed(Stage(p, b.stage), b.slices[b.stage])
  }

  ghost function BootDo(p: seq<Weighted>, b: BootState, x: BootAction): BootState
    requires BootEnabled(p, b, x)
  {
    match x
    case Inside(n, a) => b.(slices := b.slices[n := Do(Stage(p, n), b.slices[n], a)])
    case Advance => b.(stage := b.stage + 1)
  }

  ghost function BootExec(p: seq<Weighted>, xs: seq<BootAction>): Option<BootState> {
    if xs == [] then Some(BootStart(p))
    else
      var n := |xs| - 1;
      var before := BootExec(p, xs[..n]);
      if before.Some? && BootEnabled(p, before.value, xs[n]) then Some(BootDo(p, before.value, xs[n])) else None
  }

  // ---------------------------------------------------------------------------------------------
  // The invariant
  // ---------------------------------------------------------------------------------------------

  ghost predicate BootInv(p: seq<Weighted>, b: BootState) {
    && |b.slices| == 3 && b.stage <= 3
    && forall n :: 0 <= n < 3 ==>
         && Inv(Stage(p, n), b.slices[n])
         && (n < b.stage ==> AllClosed(Stage(p, n), b.slices[n]))
         && (n > b.stage ==> b.slices[n] == Start(Stage(p, n)))
  }

  lemma {:induction false} BootRunInv(i: Startups, p: seq<Weighted>, xs: seq<BootAction>)
    requires KeysMatch(i) && IsPlan(i, p) && BootExec(p, xs).Some?
    ensures BootInv(p, BootExec(p, xs).value)
  {
    if xs == [] {
      StartInv(Stage(p, 0));
      StartInv(Stage(p, 1));
      StartInv(Stage(p, 2));
    } else {
      var m := |xs| - 1;
      BootRunInv(i, p, xs[..m]);
      var b := BootExec(p, xs[..m]).value;
      if xs[m].Inside? {
        StageKeysDistinct(i, p, xs[m].n);
        StepInv(Stage(p, xs[m].n), b.slices[xs[m].n], xs[m].a);
      }
    }
  }

  /** Service `k` of stage `n` has been handed to `RunCmd`. */
  ghost predicate HasStarted(p: seq<Weighted>, b: BootState, n: nat, k: string) {
    n < 3 && |b.slices| == 3 && exists g: nat :: g < |Stage(p, n)| && Stage(p, n)[g].key == k && Started(b.slices[n], g)
  }

  /** Goroutines and hooks of a stage go on when later stages are under way, and when the boot is over. */
  lemma {:induction false} EarlierStagesGoOn(i: Startups, p: seq<Weighted>, xs: seq<BootAction>, n: nat, a: Action)
    requires KeysMatch(i) && IsPlan(i, p) && BootExec(p, xs).Some? && n < 3 && n <= BootExec(p, xs).value.stage
    requires |BootExec(p, xs).value.slices| == 3 && Enabled(Stage(p, n), BootExec(p, xs).value.slices[n], a)
    ensures var b := BootExec(p, xs).value;
            exists b' :: BootExec(p, xs + [Inside(n, a)]) == Some(b') && b'.stage == b.stage && |b'.slices| == 3
                      && b'.slices[n] == Do(Stage(p, n), b.slices[n], a)
                      && forall m :: 0 <= m < 3 && m != n ==> b'.slices[m] == b.slices[m]
  {
    BootMore(p, xs, Inside(n, a));
  }

  // ---------------------------------------------------------------------------------------------
  // Boot order
  // ---------------------------------------------------------------------------------------------

  /** Stage `n` has a service with key `d`. */
  ghost predicate InStage(p: seq<Weighted>, n: nat, d: string) { n < 3 && d in Keys(Stage(p, n)) }

  /**
    In every run of the boot, at every moment, for a started service: each of its dependencies that is in the
    same stage has been released as running, and each that is in an earlier one has been released.
   */
  lemma {:induction false} DependenciesWaitedFor(i: Startups, p: seq<Weighted>, xs: seq<BootAction>, n: nat,
                                                 k: string, d: string)
    requires KeysMatch(i) && IsPlan(i, p) && BootExec(p, xs).Some?
    requires HasStarted(p, BootExec(p, xs).value, n, k) && k in i && d in i[k].after
    ensures var b := BootExec(p, xs).value;
            && |b.slices| == 3
            && (InStage(p, n, d) ==> d in b.slices[n].released && d in b.slices[n].closed)
            && forall m: nat :: m < n && InStage(p, m, d) ==> d in b.slices[m].closed
  {
    BootRunInv(i, p, xs);
    WaitedInState(i, p, BootExec(p, xs).value, n, k, d);
  }

  lemma {:induction false} WaitedInState(i: Startups, p: seq<Weighted>, b: BootState, n: nat, k: string, d: string)
    requires KeysMatch(i) && IsPlan(i, p) && BootInv(p, b) && HasStarted(p, b, n, k) && k in i && d in i[k].after
    ensures InStage(p, n, d) ==> d in b.slices[n].released && d in b.slices[n].closed
    ensures forall m: nat :: m < n && InStage(p, m, d) ==> d in b.slices[m].closed
  {
    var g: nat :| g < |Stage(p, n)| && Stage(p, n)[g].key == k && Started(b.slices[n], g);
    StagedIsWeighed(i, p, Stage(p, n)[g], n);
    if InStage(p, n, d) {
      RanBefore(Stage(p, n), b.slices[n], g, d);
    }
    NotLaterThanStage(p, b, n, g);
    forall m: nat | m < n && InStage(p, m, d) ensures d in b.slices[m].closed {
      var h: nat :| h < |Stage(p, m)| && Stage(p, m)[h].key == d;
    }
  }

  /**
    For settings without `"----"` the stages follow the dependencies: each dependency of a started service is
    in a stage that is not later, and has been released, in the same stage as running.
   */
  lemma {:induction false} BootOrder(i: Startups, p: seq<Weighted>, xs: seq<BootAction>, n: nat, k: string, d: string)
    requires Sound(i) && IsPlan(i, p) && BootExec(p, xs).Some?
    requires HasStarted(p, BootExec(p, xs).value, n, k) && DependsOn(i, k, d)
    ensures Weighable(i, d) && W(i, d) >= 1 && StageOf(W(i, d)) <= n
    ensures var b, m := BootExec(p, xs).value, StageOf(W(i, d));
            if m == n then d in b.slices[n].released else d in b.slices[m].closed
  {
    StartedStage(i, p, BootExec(p, xs).value, n, k);
    DependencyNotLater(i, p, n, k, d);
    DependenciesWaitedFor(i, p, xs, n, k, d);
    assert InStage(p, StageOf(W(i, d)), d) by {
      assert i[d].key == d;
    }
  }

  lemma {:induction false} StartedStage(i: Startups, p: seq<Weighted>, b: BootState, n: nat, k: string)
    requires KeysMatch(i) && IsPlan(i, p) && HasStarted(p, b, n, k)
    ensures n < 3 && k in i && i[k] in Stage(p, n)
  {
    var g: nat :| g < |Stage(p, n)| && Stage(p, n)[g].key == k && Started(b.slices[n], g);
    StagedIsWeighed(i, p, Stage(p, n)[g], n);
  }

  lemma RanBefore(slice: Services, st: State, g: nat, d: string)
    requires Inv(slice, st) && g < |slice| && Started(st, g) && d in slice[g].after && d in Keys(slice)
    ensures d in st.released && d in st.closed
  {
    assert PcInv(slice, st, g);
    var j :| 0 <= j < |slice[g].after| && slice[g].after[j] == d;
  }

  lemma NotLaterThanStage(p: seq<Weighted>, b: BootState, n: nat, g: nat)
    requires BootInv(p, b) && n < 3 && Started(b.slices[n], g)
    ensures n <= b.stage
  {
  }

  // ---------------------------------------------------------------------------------------------
  // Boot completes
  // ---------------------------------------------------------------------------------------------

  ghost predicate NoMilestoneNames(i: Startups) {
    forall k :: k in i ==> !IsMilestone(k)
  }

  lemma {:induction false} StageFromSettings(i: Startups, p: seq<Weighted>, n: nat)
    requires KeysMatch(i) && NoMilestoneNames(i) && IsPlan(i, p) && n < 3
    ensures FromSettings(i, Stage(p, n)) && Acyclic(Stage(p, n))
  {
    StageKeysDistinct(i, p, n);
    forall g | 0 <= g < |Stage(p, n)|
      ensures var s := Stage(p, n)[g]; Weighable(i, s.key) && s == i[s.key] && !IsMilestone(s.key)
    {
      StagedIsWeighed(i, p, Stage(p, n)[g], n);
    }
    WeighedIsAcyclic(i, Stage(p, n));
  }

  ghost predicate AllAcyclic(p: seq<Weighted>) { forall n: nat :: n < 3 ==> Acyclic(Stage(p, n)) }

  lemma {:induction false} NamesAreEnough(i: Startups, p: seq<Weighted>)
    requires KeysMatch(i) && NoMilestoneNames(i) && IsPlan(i, p)
    ensures AllAcyclic(p)
  {
    forall n: nat | n < 3 ensures Acyclic(Stage(p, n)) {
      StageFromSettings(i, p, n);
    }
  }

  ghost predicate NothingRejected(b: BootState) { forall n :: 0 <= n < |b.slices| ==> NoneRejected(b.slices[n]) }

  /**
    The boot is stuck only after a rejection: until stage 3 a step of the current stage is possible, or the next
    stage begins.
   */
  lemma {:induction false} BootNeverStuck(i: Startups, p: seq<Weighted>, xs: seq<BootAction>)
    requires KeysMatch(i) && IsPlan(i, p) && AllAcyclic(p) && BootExec(p, xs).Some?
    requires BootExec(p, xs).value.stage < 3 && NothingRejected(BootExec(p, xs).value)
    ensures var b := BootExec(p, xs).value;
            exists x :: BootEnabled(p, b, x) && (x.Advance? || x.n == b.stage)
  {
    BootRunInv(i, p, xs);
    StageMoves(i, p, BootExec(p, xs).value);
  }

  lemma {:induction false} StageMoves(i: Startups, p: seq<Weighted>, b: BootState)
    requires KeysMatch(i) && IsPlan(i, p) && AllAcyclic(p) && BootInv(p, b) && b.stage < 3 && NothingRejected(b)
    ensures exists x :: BootEnabled(p, b, x) && (x.Advance? || x.n == b.stage)
  {
    var n := b.stage;
    var slice := Stage(p, n);
    StageKeysDistinct(i, p, n);
    if AllClosed(slice, b.slices[n]) {
      assert BootEnabled(p, b, Advance);
    } else {
      var g: nat :| g < |slice| && slice[g].key !in b.slices[n].closed;
      assert Chain(slice, [g]);
      var a := CanMove(slice, b.slices[n], "", [g]);
      assert BootEnabled(p, b, Inside(n, a));
    }
  }

  // Every run of the boot is finite.

  ghost function SliceLeft(slice: Services, st: State): nat { if |slice| == |st.pcs| then Left(slice, st) else 0 }

  /** The steps that the boot can still take. */
  ghost function BootLeft(p: seq<Weighted>, b: BootState): nat
    requires |b.slices| == 3
  {
    SliceLeft(Stage(p, 0), b.slices[0]) + SliceLeft(Stage(p, 1), b.slices[1]) + SliceLeft(Stage(p, 2), b.slices[2])
    + (if b.stage <= 3 then 3 - b.stage else 0)
  }

  lemma {:induction false} BootStepDrops(p: seq<Weighted>, b: BootState, x: BootAction)
    requires BootInv(p, b) && BootEnabled(p, b, x)
    ensures |BootDo(p, b, x).slices| == 3 && BootLeft(p, BootDo(p, b, x)) < BootLeft(p, b)
  {
    if x.Inside? {
      StepDrops(Stage(p, x.n), b.slices[x.n], x.a);
    }
  }

  /** No run of the boot is longer than a number that only depends on the settings. */
  lemma {:induction false} BootIsFinite(i: Startups, p: seq<Weighted>, xs: seq<BootAction>)
    requires KeysMatch(i) && IsPlan(i, p) && BootExec(p, xs).Some?
    ensures |BootExec(p, xs).value.slices| == 3
    ensures |xs| + BootLeft(p, BootExec(p, xs).value) <= BootLeft(p, BootStart(p))
  {
    if xs != [] {
      var m := |xs| - 1;
      BootIsFinite(i, p, xs[..m]);
      BootRunInv(i, p, xs[..m]);
      BootStepDrops(p, BootExec(p, xs[..m]).value, xs[m]);
    }
  }

  /** So every run that has come to its end without a rejection has completed all stages. */
  lemma {:induction false} BootCompletes(i: Startups, p: seq<Weighted>, xs: seq<BootAction>)
    requires KeysMatch(i) && NoMilestoneNames(i) && IsPlan(i, p) && BootExec(p, xs).Some?
    requires forall x :: !BootEnabled(p, BootExec(p, xs).value, x)
    requires NothingRejected(BootExec(p, xs).value)
    ensures BootExec(p, xs).value.stage == 3
  {
    NamesAreEnough(i, p);
    BootRunInv(i, p, xs);
    if BootExec(p, xs).value.stage < 3 {
      BootNeverStuck(i, p, xs);
    }
  }

  // ---------------------------------------------------------------------------------------------
  // Failure does not cross stages
  // ---------------------------------------------------------------------------------------------

  lemma BootMore(p: seq<Weighted>, xs: seq<BootAction>, x: BootAction)
    requires BootExec(p, xs).Some? && BootEnabled(p, BootExec(p, xs).value, x)
    ensures BootExec(p, xs + [x]) == Some(BootDo(p, BootExec(p, xs).value, x))
  {
    assert (xs + [x])[..|xs|] == xs;
  }

  /** A run of the current slice is a run of the boot. */
  lemma {:induction false} Embed(p: seq<Weighted>, xs: seq<BootAction>, acts: seq<Action>) returns (ys: seq<BootAction>)
    requires BootExec(p, xs).Some?
    requires var b := BootExec(p, xs).value;
             b.stage < 3 && |b.slices| == 3 && b.slices[b.stage] == Start(Stage(p, b.stage))
             && Exec(Stage(p, b.stage), Start(Stage(p, b.stage)), acts).Some?
    ensures var b := BootExec(p, xs).value; var n := b.stage;
            BootExec(p, ys) == Some(b.(slices := b.slices[n := Exec(Stage(p, n), Start(Stage(p, n)), acts).value]))
  {
    var b := BootExec(p, xs).value;
    var n := b.stage;
    if acts == [] {
      ys := xs;
      assert b.slices[n := b.slices[n]] == b.slices;
    } else {
      var m := |acts| - 1;
      var before := Embed(p, xs, acts[..m]);
      BootMore(p, before, Inside(n, acts[m]));
      ys := before + [Inside(n, acts[m])];
      var st := Exec(Stage(p, n), Start(Stage(p, n)), acts[..m]).value;
      var st' := Exec(Stage(p, n), Start(Stage(p, n)), acts).value;
      assert b.slices[n := st][n := st'] == b.slices[n := st'];
    }
  }

  /** Stages below `n` have run, with one failing service, and none of the later ones has begun. */
  ghost predicate StagesDone(p: seq<Weighted>, b: BootState, n: nat, failing: string) {
    && |b.slices| == 3 && b.stage == n <= 3
    && (forall m :: 0 <= m < 3 && m >= n ==> b.slices[m] == Start(Stage(p, m)))
    && (forall m :: 0 <= m < 3 ==> failing !in b.slices[m].released)
    && (forall m :: 0 <= m < 3 && m < n ==>
          AllClosed(Stage(p, m), b.slices[m]) && PlainInv(Stage(p, m), b.slices[m], failing))
  }

  lemma {:induction false} RunStages(i: Startups, p: seq<Weighted>, n: nat, failing: string)
    returns (xs: seq<BootAction>)
    requires KeysMatch(i) && IsPlan(i, p) && AllAcyclic(p) && n <= 3
    ensures BootExec(p, xs).Some? && StagesDone(p, BootExec(p, xs).value, n, failing)
  {
    if n == 0 {
      xs := [];
    } else {
      var m := n - 1;
      var slice := Stage(p, m);
      var before := RunStages(i, p, m, failing);
      StageKeysDistinct(i, p, m);
      StartInv(slice);
      var acts := RunToTheEnd(slice, [], failing);
      var inside := Embed(p, before, acts);
      var st := Exec(slice, Start(slice), acts).value;
      OneMoreStage(p, BootExec(p, before).value, m, st, failing);
      BootMore(p, inside, Advance);
      xs := inside + [Advance];
    }
  }

  lemma OneMoreStage(p: seq<Weighted>, b: BootState, m: nat, st: State, failing: string)
    requires m < 3 && StagesDone(p, b, m, failing)
    requires AllClosed(Stage(p, m), st) && PlainInv(Stage(p, m), st, failing)
    ensures var b' := b.(slices := b.slices[m := st]);
            BootEnabled(p, b', Advance) && StagesDone(p, BootDo(p, b', Advance), m + 1, failing)
  {
  }

  /** What a boot does to one stage is a run of that stage. */
  lemma {:induction false} StageRun(p: seq<Weighted>, xs: seq<BootAction>, n: nat)
    requires n < 3 && BootExec(p, xs).Some?
    ensures |BootExec(p, xs).value.slices| == 3 && Reachable(Stage(p, n), BootExec(p, xs).value.slices[n])
  {
    var slice := Stage(p, n);
    if xs == [] {
      assert Exec(slice, Start(slice), []) == Some(Start(slice));
    } else {
      var m := |xs| - 1;
      StageRun(p, xs[..m], n);
      var b := BootExec(p, xs[..m]).value;
      if xs[m].Inside? && xs[m].n == n {
        var acts :| Exec(slice, Start(slice), acts) == Some(b.slices[n]);
        ExecMore(slice, Start(slice), acts, xs[m].a);
      }
    }
  }

  /** Whatever the services are called: the boot can complete exactly if in no stage services wait in a circle. */
  lemma {:induction false} BootCompletesIff(i: Startups, p: seq<Weighted>)
    requires KeysMatch(i) && IsPlan(i, p)
    ensures (exists xs :: BootExec(p, xs).Some? && BootExec(p, xs).value.stage == 3) <==> AllAcyclic(p)
  {
    if AllAcyclic(p) {
      var xs := RunStages(i, p, 3, "");
    }
    if xs :| BootExec(p, xs).Some? && BootExec(p, xs).value.stage == 3 {
      BootRunInv(i, p, xs);
      forall n: nat | n < 3 ensures Acyclic(Stage(p, n)) {
        StageRun(p, xs, n);
        StageKeysDistinct(i, p, n);
        CompletesIffAcyclic(Stage(p, n));
      }
    }
  }

  lemma {:induction false} WellMeansStarted(slice: Services, st: State, failing: string, g: nat)
    requires PlainInv(slice, st, failing) && failing !in Keys(slice) && AllClosed(slice, st) && g < |slice|
    ensures Started(st, g)
  {
    assert PcInv(slice, st, g);
  }

  ghost predicate NeverRunning(b: BootState, d: string) {
    forall m :: 0 <= m < |b.slices| ==> d !in b.slices[m].released
  }

  ghost predicate NeverReleased(b: BootState, d: string) {
    forall m :: 0 <= m < |b.slices| ==> d !in b.slices[m].closed
  }

  /** In some run `k` is started although `d` has not been released as running. */
  ghost predicate CanStartWithout(p: seq<Weighted>, n: nat, k: string, d: string) {
    exists xs :: && BootExec(p, xs).Some? && HasStarted(p, BootExec(p, xs).value, n, k)
                 && NeverRunning(BootExec(p, xs).value, d)
  }

  /** In some run `k` is started although `d` has not been released at all: it has neither run nor failed. */
  ghost predicate CanStartBefore(p: seq<Weighted>, n: nat, k: string, d: string) {
    exists xs :: && BootExec(p, xs).Some? && HasStarted(p, BootExec(p, xs).value, n, k)
                 && NeverReleased(BootExec(p, xs).value, d)
  }

  /** There is a run that starts `k` of stage `n` and in which `d`, which is not in that stage, never gets running. */
  lemma {:induction false} StartsAnyway(i: Startups, p: seq<Weighted>, n: nat, k: string, d: string)
    returns (xs: seq<BootAction>)
    requires KeysMatch(i) && IsPlan(i, p) && AllAcyclic(p) && n < 3 && k in i && i[k] in Stage(p, n)
    requires !InStage(p, n, d)
    ensures BootExec(p, xs).Some? && HasStarted(p, BootExec(p, xs).value, n, k)
    ensures NeverRunning(BootExec(p, xs).value, d)
    ensures (forall m: nat :: m <= n ==> !InStage(p, m, d)) ==> NeverReleased(BootExec(p, xs).value, d)
  {
    xs := RunStages(i, p, n + 1, d);
    StartedWithout(p, BootExec(p, xs).value, n, i[k], d);
  }

  lemma {:induction false} StartedWithout(p: seq<Weighted>, b: BootState, n: nat, up: Startup, d: string)
    requires n < 3 && StagesDone(p, b, n + 1, d) && up in Stage(p, n) && !InStage(p, n, d)
    ensures HasStarted(p, b, n, up.key) && NeverRunning(b, d)
    ensures (forall m: nat :: m <= n ==> !InStage(p, m, d)) ==> NeverReleased(b, d)
  {
    StartedIn(Stage(p, n), b.slices[n], up, d);
    if forall m: nat :: m <= n ==> !InStage(p, m, d) {
      forall m: nat | m < 3 ensures d !in b.slices[m].closed {
        NotReleasedIn(p, b, n, m, d);
      }
    }
  }

  lemma {:induction false} StartedIn(slice: Services, st: State, up: Startup, d: string)
    requires PlainInv(slice, st, d) && d !in Keys(slice) && AllClosed(slice, st) && up in slice
    ensures exists g: nat :: g < |slice| && slice[g].key == up.key && Started(st, g)
  {
    var g: nat :| g < |slice| && slice[g] == up;
    WellMeansStarted(slice, st, d, g);
  }

  lemma {:induction false} NotReleasedIn(p: seq<Weighted>, b: BootState, n: nat, m: nat, d: string)
    requires n < 3 && StagesDone(p, b, n + 1, d) && m < 3 && (m <= n ==> !InStage(p, m, d))
    ensures d !in b.slices[m].closed
  {
    if m <= n {
      OnlyOwnKeys(Stage(p, m), b.slices[m], d);
    }
  }

  lemma OnlyOwnKeys(slice: Services, st: State, d: string)
    requires Inv(slice, st) && d !in Keys(slice)
    ensures d !in st.closed
  {
  }

  /**
    The documented promise, that a service does not start until its dependencies are running, is broken for an
    entry of its list exactly when that is no service of the same stage.
   */
  lemma {:induction false} RunningFirstIffSameStage(i: Startups, p: seq<Weighted>, n: nat, k: string, d: string)
    requires KeysMatch(i) && IsPlan(i, p) && n < 3 && k in i && d in i[k].after && i[k] in Stage(p, n)
    ensures InStage(p, n, d) ==> !CanStartWithout(p, n, k, d)
    ensures AllAcyclic(p) ==> (CanStartWithout(p, n, k, d) <==> !InStage(p, n, d))
  {
    if CanStartWithout(p, n, k, d) {
      var xs :| BootExec(p, xs).Some? && HasStarted(p, BootExec(p, xs).value, n, k)
            && NeverRunning(BootExec(p, xs).value, d);
      DependenciesWaitedFor(i, p, xs, n, k, d);
    } else if AllAcyclic(p) && !InStage(p, n, d) {
      var xs := StartsAnyway(i, p, n, k, d);
    }
  }

  lemma {:induction false} LaterOrNowhere(i: Startups, p: seq<Weighted>, xs: seq<BootAction>, n: nat, k: string,
                                          d: string)
    requires KeysMatch(i) && IsPlan(i, p) && BootExec(p, xs).Some? && n < 3 && k in i && d in i[k].after
    requires HasStarted(p, BootExec(p, xs).value, n, k) && NeverReleased(BootExec(p, xs).value, d)
    ensures forall m: nat :: m <= n ==> !InStage(p, m, d)
  {
    DependenciesWaitedFor(i, p, xs, n, k, d);
  }

  /**
    A service does not even start after an entry of its list exactly when that is no service of the same or of
    an earlier stage.
   */
  lemma {:induction false} AfterIffNotLater(i: Startups, p: seq<Weighted>, n: nat, k: string, d: string)
    requires KeysMatch(i) && IsPlan(i, p) && n < 3 && k in i && d in i[k].after && i[k] in Stage(p, n)
    ensures (exists m: nat :: m <= n && InStage(p, m, d)) ==> !CanStartBefore(p, n, k, d)
    ensures AllAcyclic(p) ==> (CanStartBefore(p, n, k, d) <==> forall m: nat :: m <= n ==> !InStage(p, m, d))
  {
    if CanStartBefore(p, n, k, d) {
      var xs :| BootExec(p, xs).Some? && HasStarted(p, BootExec(p, xs).value, n, k)
            && NeverReleased(BootExec(p, xs).value, d);
      LaterOrNowhere(i, p, xs, n, k, d);
    } else if AllAcyclic(p) && forall m: nat :: m <= n ==> !InStage(p, m, d) {
      var xs := StartsAnyway(i, p, n, k, d);
    }
  }

  // ---------------------------------------------------------------------------------------------
  // A configuration in which a failure does not cross stages
  // ---------------------------------------------------------------------------------------------

  const UDEV := Startup(["init"], 0, "", "execute", "udev")
  const TTY := Startup(["udev", "boot"], 0, "", "core.system", "tty")
  const LATE_TTY: Startups := map["udev" := UDEV, "tty" := TTY]

  lemma LateTtyIsSound()
    ensures Sound(LATE_TTY) && NoMilestoneNames(LATE_TTY)
  {
    var i := LATE_TTY;
    assert |"udev"| != |"tty"| && "udev"[0] != "init"[0] && "udev"[0] != "----"[0] && "udev"[0] != "boot"[0];
    assert "tty"[0] != "net"[0];
    assert "----" !in UDEV.after && "----" !in TTY.after;
    assert EntriesAtMost(i, 2) && |i| == 2 && Cap(2, 2) == 4 * BOOT;
  }

  lemma UdevWeighs(chain: seq<string>)
    requires "udev" !in chain
    ensures Weight(LATE_TTY, UDEV, chain) == Ok(INIT)
  {
    SingleEntry(LATE_TTY, "init", chain + ["udev"]);
  }

  lemma TtyWeighs()
    ensures Weight(LATE_TTY, TTY, []) == Ok(INIT + BOOT)
  {
    var i, chain := LATE_TTY, [] + ["tty"];
    assert "udev"[0] != "tty"[0] && "udev" !in chain && !IsMilestone("udev") && i["udev"] == UDEV by {
      LateTtyIsSound();
    }
    UdevWeighs(chain);
    SingleEntry(i, "boot", chain);
    assert Entry(i, "udev", chain) == Ok(INIT);
    assert TTY.after[1..] == ["boot"];
    assert Sum(i, ["boot"], chain) == Ok(BOOT);
  }

  lemma PlanOfTwo(i: Startups, a: string, b: string)
    requires a != b && i.Keys == {a, b} && KeysMatch(i) && FitsInt64(i)
    requires Weighable(i, a) && Weighable(i, b) && W(i, a) <= W(i, b)
    ensures IsPlan(i, [(i[a], W(i, a)), (i[b], W(i, b))])
  {
    NoOverflow(i, a);
    NoOverflow(i, b);
    var order := [a, b];
    assert order[0] == a && order[1] == b && order[..1] == [a];
    assert Planned(i, [a]) == [(i[a], W(i, a))];
    assert Planned(i, order) == [(i[a], W(i, a)), (i[b], W(i, b))];
    assert IsOrder(i, order) && SamePairs(Planned(i, order), Planned(i, order));
  }

  lemma SliceOfTwo(x: Weighted, y: Weighted, s: int, e: int)
    ensures SliceOf([x, y], s, e) ==
            (if InRange(x.1, s, e) then [x.0] else []) + (if InRange(y.1, s, e) then [y.0] else [])
  {
    assert [x, y][..1] == [x] && [x][..0] == [];
    assert SliceOf([x], s, e) == if InRange(x.1, s, e) then [x.0] else [];
  }

  /** Two services whose weights belong to different stages are in these stages. */
  lemma {:induction false} TwoApart(i: Startups, a: string, b: string) returns (p: seq<Weighted>)
    requires a != b && i.Keys == {a, b} && KeysMatch(i) && FitsInt64(i) && NoMilestoneNames(i)
    requires Weighable(i, a) && Weighable(i, b) && INIT <= W(i, a) <= W(i, b) && StageOf(W(i, a)) < StageOf(W(i, b))
    ensures IsPlan(i, p) && AllAcyclic(p)
    ensures Stage(p, StageOf(W(i, a))) == [i[a]] && Stage(p, StageOf(W(i, b))) == [i[b]]
  {
    PlanOfTwo(i, a, b);
    p := [(i[a], W(i, a)), (i[b], W(i, b))];
    TwoStages(p[0], p[1]);
    NamesAreEnough(i, p);
  }

  lemma TwoStages(x: Weighted, y: Weighted)
    requires INIT <= x.1 <= y.1 && StageOf(x.1) < StageOf(y.1)
    ensures Stage([x, y], StageOf(x.1)) == [x.0] && Stage([x, y], StageOf(y.1)) == [y.0]
  {
    SliceOfTwo(x, y, INIT, NET);
    SliceOfTwo(x, y, NET, BOOT);
    SliceOfTwo(x, y, BOOT, TO_THE_END);
  }

  /** Here `tty` asks for `udev`, is booted in a later stage, and can be started although `udev` failed. */
  lemma FailureDoesNotCrossStages()
    ensures exists p :: IsPlan(LATE_TTY, p) && TTY in Stage(p, 2) && CanStartWithout(p, 2, "tty", "udev")
  {
    LateTtyIsSound();
    UdevWeighs([]);
    TtyWeighs();
    var p := TwoApart(LATE_TTY, "udev", "tty");
    assert TTY.after[0] == "udev" && Stage(p, 2)[0] == TTY;
    assert "udev"[0] != "tty"[0] && !InStage(p, 2, "udev");
    RunningFirstIffSameStage(LATE_TTY, p, 2, "tty", "udev");
  }

  // ---------------------------------------------------------------------------------------------
  // A configuration in which a dependency is booted later
  // ---------------------------------------------------------------------------------------------

  const DNS := Startup(["net"], 0, "", "core.system", "dns")
  const NTP := Startup(["dns", "----"], 0, "", "core.system", "ntp")
  const EARLY_NTP: Startups := map["dns" := DNS, "ntp" := NTP]

  lemma EarlyNtpFits()
    ensures KeysMatch(EARLY_NTP) && FitsInt64(EARLY_NTP) && NoMilestoneNames(EARLY_NTP) && "dns" != "ntp"
  {
    var i := EARLY_NTP;
    assert "dns"[0] != "ntp"[0] && "dns"[0] != "init"[0] && "dns"[0] != "net"[0] && "dns"[0] != "----"[0];
    assert "dns"[0] != "boot"[0] && "ntp"[0] != "init"[0] && "ntp"[1] != "net"[1] && "ntp"[0] != "----"[0];
    assert EntriesAtMost(i, 2) && |i| == 2 && Cap(2, 2) == 4 * BOOT;
  }

  lemma DnsWeighs(chain: seq<string>)
    requires "dns" !in chain
    ensures Weight(EARLY_NTP, DNS, chain) == Ok(NET)
  {
    MilestoneWeights();
    SingleEntry(EARLY_NTP, "net", chain + ["dns"]);
  }

  lemma NtpWeighs()
    ensures Weight(EARLY_NTP, NTP, []) == Ok(NET - 1)
  {
    var i, chain := EARLY_NTP, [] + ["ntp"];
    EarlyNtpFits();
    MilestoneWeights();
    DnsWeighs(chain);
    SingleEntry(i, "----", chain);
    assert Entry(i, "dns", chain) == Ok(NET);
    assert NTP.after[1..] == ["----"];
  }

  /** Here `ntp` asks for `dns` and for `"----"`, which takes 1 off its weight: it starts a stage before `dns`. */
  lemma DependencyCanBeLater()
    ensures exists p :: && IsPlan(EARLY_NTP, p) && NTP in Stage(p, 0) && DNS in Stage(p, 1)
                        && CanStartBefore(p, 0, "ntp", "dns")
  {
    EarlyNtpFits();
    DnsWeighs([]);
    NtpWeighs();
    var p := TwoApart(EARLY_NTP, "ntp", "dns");
    assert NTP.after[0] == "dns" && Stage(p, 0)[0] == NTP && Stage(p, 1)[0] == DNS;
    assert !InStage(p, 0, "dns");
    AfterIffNotLater(EARLY_NTP, p, 0, "ntp", "dns");
  }

  // ---------------------------------------------------------------------------------------------
  // A configuration that does not boot
  // ---------------------------------------------------------------------------------------------

  lemma NetLoopIsSound()
    ensures Sound(NET_LOOP)
  {
    var i := NET_LOOP;
    assert |"net"| != |"x"| && |"x"| != |"----"| && |"net"| != |"----"|;
    assert "----" !in i["net"].after && "----" !in i["x"].after;
    assert EntriesAtMost(i, 1) && |i| == 2 && Cap(1, 2) == BOOT;
  }

  /** The two services that wait for each other are a whole stage of the boot, which therefore never completes. */
  lemma {:induction false} NetLoopNeverBoots() returns (p: seq<Weighted>)
    ensures IsPlan(NET_LOOP, p) && Stage(p, 1) == NET_LOOP_SLICE
    ensures forall xs :: BootExec(p, xs).Some? ==> BootExec(p, xs).value.stage != 3
  {
    var i := NET_LOOP;
    NetLoopIsSound();
    NetLoopIsWeighed();
    assert |"net"| != |"x"|;
    PlanOfTwo(i, "net", "x");
    p := [(i["net"], NET), (i["x"], NET)];
    TwoInNet(i["net"], i["x"]);
    NetLoopIsCyclic();
    BootCompletesIff(i, p);
  }

  lemma TwoInNet(a: Startup, b: Startup)
    ensures Stage([(a, NET), (b, NET)], 1) == [a, b]
  {
    var p := [(a, NET), (b, NET)];
    assert p[..1] == [(a, NET)] && [(a, NET)][..0] == [];
    assert SliceOf([(a, NET)], NET, BOOT) == [a];
    assert SliceOf(p, NET, BOOT) == [a] + [b];
  }

  lemma NetLoopIsCyclic()
    ensures !Acyclic(NET_LOOP_SLICE)
  {
    var slice, p := NET_LOOP_SLICE, [0, 1, 0];
    assert slice[0].after[0] == slice[1].key && slice[1].after[0] == slice[0].key;
    assert Chain(slice, p) && p[0] == p[2];
  }
}
