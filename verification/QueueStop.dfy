/**
  When a queue stops for good. Besides refusals (QueueStuck) there is a second cause: the command loop
  sleeps on its condition variable and nobody is left to wake it, because `cleanUp` signals the queue
  before it broadcasts (base/pm/pm.go:356-357), or because the broadcast came before the sleep.
 */
module QueueStop {
  import opened Wrappers
  import opened Manager
  import opened Tokens
  import opened Fifo
  import opened Submissions
  import opened QueueStuck
  import opened QueueLoss

  // ---------------------------------------------------------------------------------------------
  // Continuations
  // ---------------------------------------------------------------------------------------------

  /** Nobody but the command loop calls `RunCmd`. */
  predicate Quiet(acts: seq<Action>) { forall j :: 0 <= j < |acts| ==> !acts[j].Call? }

  /** The command loop is about to run a command of queue `q`. */
  ghost predicate Offered(s: State, q: string) {
    s.loop.Ready? && s.prod.Sending? && Belongs(s.received, s.prod.t, q)
  }

  ghost predicate Leads(maxJobs: int, s: State, acts: seq<Action>, q: string) {
    Quiet(acts) && After(maxJobs, s, acts).Some? && Offered(After(maxJobs, s, acts).value, q)
  }

  /** Whatever else happens, no command of `q` is ever run again. */
  ghost predicate Stopped(maxJobs: int, s: State, q: string) {
    forall acts :: !Leads(maxJobs, s, acts, q)
  }

  lemma {:induction false} GoesOn(maxJobs: int, s: State, a: Action, q: string)
    requires Enabled(maxJobs, s, a) && !a.Call? && !Stopped(maxJobs, Do(maxJobs, s, a), q)
    ensures !Stopped(maxJobs, s, q)
  {
    var acts :| Leads(maxJobs, Do(maxJobs, s, a), acts, q);
    var all := [a] + acts;
    assert all[0] == a && all[1..] == acts;
    assert Leads(maxJobs, s, all, q);
  }

  // ---------------------------------------------------------------------------------------------
  // The causes
  // ---------------------------------------------------------------------------------------------

  /** A command of `q` was refused, or `RunCmd` has been called with one that it does not know. */
  ghost predicate RejectedAt(jobs: seq<Job>, n: nat, q: string) {
    RefusedAt(jobs, n, q) || (n < |jobs| && jobs[n].cmd.queue == q && jobs[n].phase.Called? && !jobs[n].cmd.known)
  }

  ghost predicate HasRejected(s: State, q: string) { exists n: nat :: RejectedAt(s.jobs, n, q) }

  /** The producer takes a signal before it offers anything to the command loop. */
  ghost predicate ProducerFree(s: State) {
    s.prod.PIdle? || (s.prod.Got? && Waiting(s, s.prod.q) == [])
  }

  /** A job that has a broadcast before it. */
  predicate WillWake(job: Job) {
    || job.phase.Waking? || job.phase.Leaving? || job.phase.Running? || job.phase.Reported?
    || (job.phase.Called? && job.cmd.known)
  }

  /** Job `n` can reach its broadcast while the command loop sleeps. */
  ghost predicate Wakes(s: State, n: nat) {
    n < |s.jobs| && WillWake(s.jobs[n]) && (s.jobs[n].phase.Waking? || s.jobs[n].cmd.queue == "" || ProducerFree(s))
  }

  predicate Down(loop: Loop) { loop.Parking? || loop.Asleep? }

  /** The command loop sleeps, or is about to, and nobody can wake it. */
  ghost predicate Jammed(s: State) { Down(s.loop) && forall n: nat :: !Wakes(s, n) }

  /** What holds in every reachable state. */
  ghost predicate Sane(maxJobs: int, s: State, q: string) {
    QueueInv(s) && ReportInv(s) && AdmissionInv(maxJobs, s) && StuckInv(s, q)
  }

  lemma {:induction false} SaneStep(maxJobs: int, s: State, a: Action, q: string)
    requires Sane(maxJobs, s, q) && Enabled(maxJobs, s, a) && q != ""
    ensures Sane(maxJobs, Do(maxJobs, s, a), q)
  {
    QueueInvStep(maxJobs, s, a);
    ReportStep(maxJobs, s, a);
    AdmissionStep(maxJobs, s, a);
    StuckInvStep(maxJobs, s, a, q);
  }

  lemma {:induction false} RunSane(maxJobs: int, acts: seq<Action>, q: string)
    requires Exec(maxJobs, acts).Some? && q != ""
    ensures Sane(maxJobs, Exec(maxJobs, acts).value, q)
  {
    RunQueueInv(maxJobs, acts);
    RunReportInv(maxJobs, acts);
    AdmissionBound(maxJobs, acts);
    StuckIffRefused(maxJobs, acts, q);
  }

  // ---------------------------------------------------------------------------------------------
  // Each cause stays, and stops the queue
  // ---------------------------------------------------------------------------------------------

  lemma {:induction false} RejectedStep(maxJobs: int, s: State, a: Action, q: string)
    requires Enabled(maxJobs, s, a) && HasRejected(s, q)
    ensures HasRejected(Do(maxJobs, s, a), q)
  {
    var n: nat :| RejectedAt(s.jobs, n, q);
    JobsFrame(maxJobs, s, a);
    assert RejectedAt(Do(maxJobs, s, a).jobs, n, q);
  }

  lemma {:induction false} RejectedNotOffered(maxJobs: int, s: State, q: string)
    requires Sane(maxJobs, s, q) && HasRejected(s, q) && q != ""
    ensures !Offered(s, q)
  {
    var n: nat :| RejectedAt(s.jobs, n, q);
    if RefusedAt(s.jobs, n, q) {
      assert !Holds(s, TheProducer, q);
    } else {
      assert Holds(s, TheJob(n), q);
      assert !Holds(s, TheProducer, q);
    }
  }

  lemma {:induction false} BusyProducer(maxJobs: int, s: State, a: Action)
    requires QueueInv(s) && Enabled(maxJobs, s, a) && Down(s.loop) && !ProducerFree(s)
    ensures !ProducerFree(Do(maxJobs, s, a))
  {
    if !MovesLists(a) {
      ListsFrame(maxJobs, s, a);
    }
  }

  lemma {:induction false} JammedStep(maxJobs: int, s: State, a: Action)
    requires QueueInv(s) && Enabled(maxJobs, s, a) && !a.Call? && Jammed(s)
    ensures Jammed(Do(maxJobs, s, a))
  {
    var s' := Do(maxJobs, s, a);
    JobsFrame(maxJobs, s, a);
    if !ProducerFree(s) {
      BusyProducer(maxJobs, s, a);
    }
    forall n: nat ensures !Wakes(s', n) {
      assert !Wakes(s, n);
    }
    if a.Go? {
      assert !Wakes(s, a.n);
    }
  }

  lemma {:induction false} CauseStops(maxJobs: int, s: State, acts: seq<Action>, q: string)
    requires Sane(maxJobs, s, q) && q != "" && (maxJobs <= 0 || HasRejected(s, q) || Jammed(s))
    ensures !Leads(maxJobs, s, acts, q)
    decreases |acts|
  {
    if acts == [] {
      if HasRejected(s, q) {
        RejectedNotOffered(maxJobs, s, q);
      }
    } else if Quiet(acts) && Enabled(maxJobs, s, acts[0]) {
      SaneStep(maxJobs, s, acts[0], q);
      if HasRejected(s, q) {
        RejectedStep(maxJobs, s, acts[0], q);
      } else if Jammed(s) {
        JammedStep(maxJobs, s, acts[0]);
      }
      CauseStops(maxJobs, Do(maxJobs, s, acts[0]), acts[1..], q);
    }
  }

  // ---------------------------------------------------------------------------------------------
  // Without a cause the queue can go on: what is left to do gets less
  // ---------------------------------------------------------------------------------------------

  /** The commands in lists. */
  ghost function Total(heap: seq<seq<nat>>): nat {
    if heap == [] then 0 else Total(heap[..|heap| - 1]) + |heap[|heap| - 1]|
  }

  function PhaseWork(ph: Phase): nat {
    match ph
    case Called => 6
    case Running => 5
    case Reported => 4
    case Leaving => 3
    case Waking => 2
    case Refusing(_) => 1
    case Refused => 0
    case Gone => 0
  }

  ghost function JobWork(jobs: seq<Job>): nat {
    if jobs == [] then 0 else JobWork(jobs[..|jobs| - 1]) + PhaseWork(jobs[|jobs| - 1].phase)
  }

  ghost function Outstanding(s: State): nat {
    Total(s.heap) + (if s.disp.Looked? then 1 else 0) + (if s.prod.Sending? then 1 else 0)
  }

  function DispatcherWork(disp: Dispatcher): nat {
    match disp
    case DIdle => 0
    case Looked(_, _, _) => 10
    case Signalling(_) => 5
  }

  function ProducerWork(prod: Producer): nat {
    match prod
    case PIdle => 0
    case Got(_) => 3
    case Taking(_, _) => 2
    case Sending(_) => 1
  }

  function LoopWork(loop: Loop): nat {
    match loop
    case Testing => 2
    case Parking => 1
    case Asleep => 0
    case Ready => 0
    case Busy(_) => 3
  }

  ghost function OtherWork(s: State): nat { DispatcherWork(s.disp) + ProducerWork(s.prod) + LoopWork(s.loop) }

  ghost predicate LessWork(s': State, s: State) {
    || Outstanding(s') < Outstanding(s)
    || (Outstanding(s') == Outstanding(s) && JobWork(s'.jobs) < JobWork(s.jobs))
    || (Outstanding(s') == Outstanding(s) && JobWork(s'.jobs) == JobWork(s.jobs) && OtherWork(s') < OtherWork(s))
  }

  lemma {:induction false} TotalAfter(heap: seq<seq<nat>>, n: nat, list: seq<nat>)
    requires n < |heap|
    ensures Total(heap[n := list]) == Total(heap) - |heap[n]| + |list|
  {
    var m := |heap| - 1;
    if n < m {
      assert heap[n := list][..m] == heap[..m][n := list];
      TotalAfter(heap[..m], n, list);
    } else {
      assert heap[n := list][..m] == heap[..m];
    }
  }

  lemma {:induction false} JobWorkAfter(jobs: seq<Job>, n: nat, job: Job)
    requires n < |jobs| && PhaseWork(job.phase) < PhaseWork(jobs[n].phase)
    ensures JobWork(jobs[n := job]) < JobWork(jobs)
  {
    var m := |jobs| - 1;
    if n < m {
      assert jobs[n := job][..m] == jobs[..m][n := job];
      JobWorkAfter(jobs[..m], n, job);
    } else {
      assert jobs[n := job][..m] == jobs[..m];
    }
  }

  /** Nothing of queue `q` is lost, and the command loop can be woken if it sleeps. */
  ghost predicate Hopeful(s: State, q: string) { !HasRejected(s, q) && !Jammed(s) }

  /** A step in the right direction. */
  ghost predicate Helps(maxJobs: int, s: State, a: Action, q: string) {
    !a.Call? && Enabled(maxJobs, s, a) && Hopeful(Do(maxJobs, s, a), q) && LessWork(Do(maxJobs, s, a), s)
  }

  /** A job moves on. */
  lemma {:induction false} JobHelps(maxJobs: int, s: State, n: nat, step: JobStep, q: string)
    requires Hopeful(s, q) && n < |s.jobs| && JobEnabled(s.jobs[n], s.prod, step)
    requires step.Register? && s.jobs[n].cmd.known ==> s.jobs[n].cmd.id !in s.runners
    requires step.Broadcast? ==> !s.loop.Parking?
    ensures Helps(maxJobs, s, Go(n, step), q)
  {
    var s' := DoJob(s, n, step);
    JobWorkAfter(s.jobs, n, s'.jobs[n]);
    forall m: nat ensures !RejectedAt(s'.jobs, m, q) {
      assert !RejectedAt(s.jobs, m, q);
    }
    if Down(s'.loop) {
      var w: nat :| Wakes(s, w);
      if step.Notify? {
        assert Wakes(s', n);
      } else {
        assert Wakes(s', w);
      }
    }
  }

  /** The command loop moves on by itself. */
  lemma {:induction false} LoopHelps(maxJobs: int, s: State, a: Action, q: string)
    requires Hopeful(s, q) && Enabled(maxJobs, s, a)
    requires a.Sleep? || a.Return? || (a.Check? && |s.runners| < maxJobs)
    ensures Helps(maxJobs, s, a, q)
  {
    var s' := Do(maxJobs, s, a);
    if a.Sleep? {
      var w: nat :| Wakes(s, w);
      assert Wakes(s', w);
    }
  }

  /** The producer and the dispatcher move on. */
  lemma {:induction false} QueueHelps(maxJobs: int, s: State, a: Action, q: string)
    requires Hopeful(s, q) && Enabled(maxJobs, s, a)
    requires (a.Produce? && (s.loop.Ready? || Waiting(s, s.prod.q) == []))
          || (s.loop.Ready? && (a.Push? || a.SignalNew? || a.Take?))
    ensures Helps(maxJobs, s, a, q)
  {
    var s' := Do(maxJobs, s, a);
    if a.Push? {
      TotalAfter(s.heap, s.disp.list, s.heap[s.disp.list] + [s.disp.t]);
    } else if a.Take? {
      TotalAfter(s.heap, s.prod.list, s.heap[s.prod.list][1..]);
    }
    if Down(s'.loop) {
      var w: nat :| Wakes(s, w);
      assert Wakes(s', w);
    }
  }

  /** The command loop takes a command of another queue. */
  lemma {:induction false} PickHelps(maxJobs: int, s: State, q: string)
    requires Hopeful(s, q) && Enabled(maxJobs, s, PickQueued) && !Offered(s, q)
    ensures Helps(maxJobs, s, PickQueued, q)
  {
    var s' := Do(maxJobs, s, PickQueued);
    forall m: nat ensures !RejectedAt(s'.jobs, m, q) {
      assert !RejectedAt(s.jobs, m, q);
    }
  }

  // ---------------------------------------------------------------------------------------------
  // There is always such a step, until nothing is left
  // ---------------------------------------------------------------------------------------------

  /** The job has no step left, or only one that waits for the producer. */
  predicate AtRest(job: Job) {
    job.phase.Gone? || job.phase.Refused? || (job.phase.Leaving? && job.cmd.queue != "")
  }

  ghost predicate AllAtRest(s: State) { forall n :: 0 <= n < |s.jobs| ==> AtRest(s.jobs[n]) }

  lemma {:induction false} NoRunners(s: State)
    requires ReportInv(s) && forall n :: 0 <= n < |s.jobs| ==> !InTable(s.jobs[n].phase)
    ensures s.runners == map[] && |s.runners| == 0
  {
    assert forall id :: id !in s.runners;
  }

  /** Some job can move, or the loop can put itself to sleep first. */
  lemma {:induction false} JobsToRest(maxJobs: int, s: State, q: string) returns (a: Action)
    requires ReportInv(s) && Hopeful(s, q) && !AllAtRest(s)
    ensures Helps(maxJobs, s, a, q)
  {
    if n: nat :| n < |s.jobs| && InTable(s.jobs[n].phase) {
      a := Go(n, if s.jobs[n].phase.Running? then Report("SUCCESS") else Unregister);
      JobHelps(maxJobs, s, n, a.step, q);
    } else if s.loop.Parking? {
      a := Sleep;
      LoopHelps(maxJobs, s, Sleep, q);
    } else {
      NoRunners(s);
      var n: nat :| n < |s.jobs| && !AtRest(s.jobs[n]);
      var ph := s.jobs[n].phase;
      a := Go(n, if ph.Called? then Register
                 else if ph.Refusing? then Refuse
                 else if ph.Leaving? then Notify
                 else Broadcast);
      JobHelps(maxJobs, s, n, a.step, q);
    }
  }

  /** With all jobs at rest the loop becomes ready, unless it sleeps. */
  lemma {:induction false} LoopToReady(maxJobs: int, s: State, q: string) returns (a: Action)
    requires ReportInv(s) && AdmissionInv(maxJobs, s) && Hopeful(s, q) && AllAtRest(s) && maxJobs > 0
    requires !s.loop.Ready? && !s.loop.Asleep?
    ensures Helps(maxJobs, s, a, q)
  {
    NoRunners(s);
    a := if s.loop.Testing? then Check else if s.loop.Busy? then Return else Sleep;
    LoopHelps(maxJobs, s, a, q);
  }

  /** A sleeping loop that can be woken has a job that waits for a producer which is free. */
  lemma {:induction false} WakeUp(maxJobs: int, s: State, q: string) returns (a: Action)
    requires QueueInv(s) && Hopeful(s, q) && AllAtRest(s) && s.loop.Asleep?
    ensures Helps(maxJobs, s, a, q)
  {
    var w: nat :| Wakes(s, w);
    assert AtRest(s.jobs[w]);
    if s.prod.PIdle? {
      a := Go(w, Notify);
      JobHelps(maxJobs, s, w, Notify, q);
    } else {
      a := Produce;
      QueueHelps(maxJobs, s, Produce, q);
    }
  }

  ghost predicate Idle(s: State) {
    s.loop.Ready? && s.prod.PIdle? && s.disp.DIdle? && forall n :: 0 <= n < |s.jobs| ==> !Live(s.jobs[n].phase)
  }

  lemma {:induction false} QueuesToRest(maxJobs: int, s: State, q: string) returns (a: Action)
    requires QueueInv(s) && Hopeful(s, q) && AllAtRest(s) && s.loop.Ready? && !Offered(s, q) && !Idle(s)
    ensures Helps(maxJobs, s, a, q)
  {
    match s.prod
    case Got(_) =>
      a := Produce;
      QueueHelps(maxJobs, s, a, q);
    case Taking(_, _) =>
      a := Take;
      QueueHelps(maxJobs, s, a, q);
    case Sending(_) =>
      a := PickQueued;
      PickHelps(maxJobs, s, q);
    case PIdle =>
      if n: nat :| n < |s.jobs| && s.jobs[n].phase.Leaving? {
        a := Go(n, Notify);
        JobHelps(maxJobs, s, n, Notify, q);
      } else {
        assert forall n :: 0 <= n < |s.jobs| ==> AtRest(s.jobs[n]) && !Live(s.jobs[n].phase);
        a := if s.disp.Looked? then Push else SignalNew;
        QueueHelps(maxJobs, s, a, q);
      }
  }

  /** When nothing is left, the queue does not exist, and a new command for it gets through. */
  lemma {:induction false} NewCommandRuns(maxJobs: int, s: State, q: string)
    requires Sane(maxJobs, s, q) && !HasRejected(s, q) && Idle(s) && q != ""
    ensures !Stopped(maxJobs, s, q)
  {
    forall h ensures !Holds(s, h, q) {
    }
    assert q !in s.queues by {
      if n: nat :| RefusedAt(s.jobs, n, q) {
        assert RejectedAt(s.jobs, n, q);
      }
    }
    var list, t := |s.heap|, |s.received|;
    var s1 := DoDispatch(s, Command("", q, true, ""));
    assert s1.heap[list] == [] && s1.received[t].queue == q;
    var s2 := DoPush(s1);
    assert s2.heap[list] == [t];
    var s3 := DoSignal(s2);
    var s4 := DoProduce(s3);
    var s5 := DoTake(s4);
    assert After(maxJobs, s5, []) == Some(s5) && Leads(maxJobs, s5, [], q);
    GoesOn(maxJobs, s4, Take, q);
    GoesOn(maxJobs, s3, Produce, q);
    GoesOn(maxJobs, s2, SignalNew, q);
    GoesOn(maxJobs, s1, Push, q);
    GoesOn(maxJobs, s, Dispatch(Command("", q, true, "")), q);
  }

  lemma {:induction false} NextStep(maxJobs: int, s: State, q: string) returns (a: Action)
    requires Sane(maxJobs, s, q) && maxJobs > 0 && Hopeful(s, q) && !Offered(s, q) && !(AllAtRest(s) && Idle(s))
    ensures Helps(maxJobs, s, a, q)
  {
    if !AllAtRest(s) {
      a := JobsToRest(maxJobs, s, q);
    } else if s.loop.Ready? {
      a := QueuesToRest(maxJobs, s, q);
    } else if s.loop.Asleep? {
      a := WakeUp(maxJobs, s, q);
    } else {
      a := LoopToReady(maxJobs, s, q);
    }
  }

  lemma {:induction false} HopefulGoesOn(maxJobs: int, s: State, q: string)
    requires Sane(maxJobs, s, q) && maxJobs > 0 && Hopeful(s, q) && q != ""
    ensures !Stopped(maxJobs, s, q)
    decreases Outstanding(s), JobWork(s.jobs), OtherWork(s)
  {
    if Offered(s, q) {
      assert After(maxJobs, s, []) == Some(s) && Leads(maxJobs, s, [], q);
    } else if AllAtRest(s) && Idle(s) {
      NewCommandRuns(maxJobs, s, q);
    } else {
      var a := NextStep(maxJobs, s, q);
      SaneStep(maxJobs, s, a, q);
      HopefulGoesOn(maxJobs, Do(maxJobs, s, a), q);
      GoesOn(maxJobs, s, a, q);
    }
  }

  /**
    Over every run: unless somebody outside calls `RunCmd`, no command of a queue is ever run again exactly
    when there is no room for jobs at all, a command of the queue was or will be refused, or the command
    loop sleeps and nobody can wake it.
   */
  lemma {:induction false} StopsIff(maxJobs: int, acts: seq<Action>, q: string)
    requires Exec(maxJobs, acts).Some? && q != ""
    ensures var s := Exec(maxJobs, acts).value;
            Stopped(maxJobs, s, q) <==> maxJobs <= 0 || HasRejected(s, q) || Jammed(s)
  {
    var s := Exec(maxJobs, acts).value;
    RunSane(maxJobs, acts, q);
    if maxJobs <= 0 || HasRejected(s, q) || Jammed(s) {
      forall more ensures !Leads(maxJobs, s, more, q) {
        CauseStops(maxJobs, s, more, q);
      }
    } else {
      HopefulGoesOn(maxJobs, s, q);
    }
  }

  // ---------------------------------------------------------------------------------------------
  // Runs that stop a queue
  // ---------------------------------------------------------------------------------------------

  /** A single unknown command stops its queue. */
  lemma {:induction false} UnknownStops(cmd: Command) returns (acts: seq<Action>, s: State)
    requires cmd.queue != "" && !cmd.known
    ensures Exec(1, acts) == Some(s) && RefusedAt(s.jobs, 0, cmd.queue) && !Jammed(s)
    ensures Stopped(1, s, cmd.queue)
  {
    acts, s := QueueOne(cmd);
    acts, s := Then(1, acts, s, PickQueued);
    assert s.jobs[0] == Job(cmd, Some(0), true, Called, []);
    acts, s := Then(1, acts, s, Go(0, Register));
    assert RejectedAt(s.jobs, 0, cmd.queue);
    StopsIff(1, acts, cmd.queue);
  }

  /** A running job ends and leaves the table. */
  lemma {:induction false} JobEnds(maxJobs: int, acts: seq<Action>, s: State, n: nat)
    returns (acts': seq<Action>, s': State)
    requires Exec(maxJobs, acts) == Some(s) && InPhase(s, n, Running)
    ensures Exec(maxJobs, acts') == Some(s')
    ensures var job := s.jobs[n];
            s' == s.(jobs := s.jobs[n := job.(phase := Leaving, reports := job.reports + [Ended("SUCCESS")])],
                     runners := s.runners - {job.cmd.id})
  {
    acts', s' := Then(maxJobs, acts, s, Go(n, Report("SUCCESS")));
    acts', s' := Then(maxJobs, acts', s', Go(n, Unregister));
  }

  /** Command `a` of one queue is running, and the loop has gone back to its test. */
  lemma {:induction false} FirstRuns(a: Command) returns (acts: seq<Action>, s: State)
    requires a.queue != "" && a.known
    ensures Exec(1, acts) == Some(s) && s.received == [a] && s.disp.DIdle? && s.prod.PIdle? && s.loop.Testing?
    ensures |s.jobs| == 1 && s.jobs[0] == Job(a, Some(0), true, Running, []) && s.runners == map[a.id := 0]
    ensures s.heap == [[]] && s.queues == map[a.queue := 0]
  {
    acts, s := QueueOne(a);
    acts, s := Then(1, acts, s, PickQueued);
    assert s.jobs == [Job(a, Some(0), true, Called, [])];
    acts, s := Then(1, acts, s, Go(0, Register));
    acts, s := Then(1, acts, s, Return);
  }

  /** Now the producer holds command `b` of another queue. */
  lemma {:induction false} SecondWaits(a: Command, b: Command) returns (acts: seq<Action>, s: State)
    requires a.queue != "" && a.known && b.queue != "" && b.queue != a.queue
    ensures Exec(1, acts) == Some(s) && s.received == [a, b] && s.prod == Sending(1) && s.loop.Testing?
    ensures |s.jobs| == 1 && s.jobs[0] == Job(a, Some(0), true, Running, []) && s.runners == map[a.id := 0]
  {
    acts, s := FirstRuns(a);
    acts, s := Then(1, acts, s, Dispatch(b));
    assert |s.heap| == 2 && s.heap[1] == [] && s.queues[b.queue] == 1 && s.disp == Looked(1, 1, true);
    acts, s := Then(1, acts, s, Push);
    assert s.heap[1] == [1];
    acts, s := Then(1, acts, s, SignalNew);
    acts, s := Then(1, acts, s, Produce);
    acts, s := Then(1, acts, s, Take);
  }

  /** The loop, which has no room, falls asleep. */
  lemma {:induction false} LoopSleeps(a: Command, b: Command) returns (acts: seq<Action>, s: State)
    requires a.queue != "" && a.known && b.queue != "" && b.queue != a.queue
    ensures Exec(1, acts) == Some(s) && s.received == [a, b] && s.prod == Sending(1) && s.loop.Asleep?
    ensures |s.jobs| == 1 && s.jobs[0] == Job(a, Some(0), true, Running, []) && s.runners == map[a.id := 0]
  {
    acts, s := SecondWaits(a, b);
    OneEntry(s.runners, a.id);
    acts, s := Then(1, acts, s, Check);
    acts, s := Then(1, acts, s, Sleep);
  }

  /**
    Two commands of two queues, both fine, stop the process manager when it may run one job: the first
    ends, leaves the table and waits for the producer, which waits for the command loop, which waits
    for the broadcast that the first has still before it.
   */
  lemma {:induction false} TwoQueuesJam(a: Command, b: Command) returns (acts: seq<Action>, s: State)
    requires a.queue != "" && a.known && b.queue != "" && b.known && b.queue != a.queue
    ensures Exec(1, acts) == Some(s) && s.received == [a, b] && s.runners == map[] && Jammed(s)
    ensures forall q :: !HasRefused(s, q)
    ensures forall q :: q != "" ==> Stopped(1, s, q)
  {
    acts, s := LoopSleeps(a, b);
    acts, s := JobEnds(1, acts, s, 0);
    assert |s.jobs| == 1 && s.jobs[0].phase.Leaving? && s.jobs[0].cmd == a;
    assert s.runners == map[];
    forall q | q != "" ensures Stopped(1, s, q) {
      StopsIff(1, acts, q);
    }
  }

  /** The command loop takes a command without a queue. */
  lemma {:induction false} DirectPicked(cmd: Command) returns (acts: seq<Action>, s: State)
    requires cmd.queue == ""
    ensures Exec(1, acts) == Some(s) && s.loop == Busy(0)
    ensures |s.jobs| == 1 && s.jobs[0] == Job(cmd, None, true, Called, []) && s.runners == map[]
  {
    acts, s := Then(1, [], Start(), Check);
    acts, s := Then(1, acts, s, PickDirect(cmd));
  }

  /** It is known, and starts. */
  lemma {:induction false} DirectStarts(cmd: Command) returns (acts: seq<Action>, s: State)
    requires cmd.queue == "" && cmd.known
    ensures Exec(1, acts) == Some(s) && s.loop == Busy(0)
    ensures |s.jobs| == 1 && s.jobs[0] == Job(cmd, None, true, Running, []) && s.runners == map[cmd.id := 0]
  {
    acts, s := DirectPicked(cmd);
    acts, s := Then(1, acts, s, Go(0, Register));
  }

  /** It is running, and the loop has found no room for another. */
  lemma {:induction false} DirectRuns(cmd: Command) returns (acts: seq<Action>, s: State)
    requires cmd.queue == "" && cmd.known
    ensures Exec(1, acts) == Some(s) && s.loop.Parking?
    ensures |s.jobs| == 1 && s.jobs[0] == Job(cmd, None, true, Running, []) && s.runners == map[cmd.id := 0]
  {
    acts, s := DirectStarts(cmd);
    acts, s := Then(1, acts, s, Return);
    OneEntry(s.runners, cmd.id);
    acts, s := Then(1, acts, s, Check);
  }

  lemma OneEntry(runners: map<string, nat>, id: string)
    requires runners.Keys == {id}
    ensures |runners| == 1
  {
    assert |runners.Keys| == 1;
  }

  /** A single command without a queue can do it too: its broadcast comes before the loop is on the list. */
  lemma {:induction false} WakeUpLost(cmd: Command) returns (acts: seq<Action>, s: State)
    requires cmd.queue == "" && cmd.known
    ensures Exec(1, acts) == Some(s) && InPhase(s, 0, Gone) && s.runners == map[] && Jammed(s)
    ensures forall q :: q != "" ==> Stopped(1, s, q)
  {
    acts, s := DirectRuns(cmd);
    acts, s := JobEnds(1, acts, s, 0);
    acts, s := Then(1, acts, s, Go(0, Notify));
    acts, s := Then(1, acts, s, Go(0, Broadcast));
    assert |s.jobs| == 1 && s.runners == map[];
    forall q | q != "" ensures Stopped(1, s, q) {
      StopsIff(1, acts, q);
    }
  }

  /** A call of `RunCmd` from outside ends a jam: its own broadcast waits for nobody. */
  lemma {:induction false} OutsideCallHelps(maxJobs: int, acts: seq<Action>, s: State, cmd: Command, q: string)
    requires Exec(maxJobs, acts) == Some(s) && maxJobs > 0 && q != "" && !HasRejected(s, q)
    requires cmd.queue == "" && cmd.known
    ensures Enabled(maxJobs, s, Call(cmd)) && !Stopped(maxJobs, Do(maxJobs, s, Call(cmd)), q)
  {
    var acts', s' := Then(maxJobs, acts, s, Call(cmd));
    assert Wakes(s', |s.jobs|);
    forall n: nat ensures !RejectedAt(s'.jobs, n, q) {
      assert !RejectedAt(s.jobs, n, q);
    }
    StopsIff(maxJobs, acts', q);
  }
}
