/** What a caller of `RunCmd` can count on: base/pm/pm.go (`NewRunner`, `RunCmd`, `processCmds`, `cleanUp`). */
module Submissions {
  import opened Wrappers
  import opened Manager

  // ---------------------------------------------------------------------------------------------
  // One result per submission
  // ---------------------------------------------------------------------------------------------

  predicate InTable(ph: Phase) { ph.Running? || ph.Reported? }

  /** A job's phase says what it has reported and whether its id is taken. */
  ghost predicate JobInv(jobs: seq<Job>, runners: map<string, nat>, n: nat)
    requires n < |jobs|
  {
    var job := jobs[n];
    && (InTable(job.phase) ==> job.cmd.id in runners && runners[job.cmd.id] == n)
    && match job.phase
       case Called => job.reports == []
       case Running => job.reports == []
       case Refusing(why) => job.reports == [] && !why.Ended?
       case Refused => |job.reports| == 1 && !job.reports[0].Ended?
       case _ => |job.reports| == 1 && job.reports[0].Ended?
  }

  ghost predicate TableInv(jobs: seq<Job>, runners: map<string, nat>) {
    forall id :: id in runners ==>
      runners[id] < |jobs| && jobs[runners[id]].cmd.id == id && InTable(jobs[runners[id]].phase)
  }

  ghost predicate ReportInv(s: State) {
    && TableInv(s.jobs, s.runners)
    && forall n :: 0 <= n < |s.jobs| ==> JobInv(s.jobs, s.runners, n)
  }

  lemma {:induction false} CallReport(s: State, cmd: Command, ticket: Option<nat>, byLoop: bool)
    requires ReportInv(s)
    ensures ReportInv(DoCall(s, cmd, ticket, byLoop))
  {
    var s' := DoCall(s, cmd, ticket, byLoop);
    forall n | 0 <= n < |s'.jobs| ensures JobInv(s'.jobs, s'.runners, n) {
      assert n < |s.jobs| ==> JobInv(s.jobs, s.runners, n) && s'.jobs[n] == s.jobs[n];
    }
  }

  lemma {:induction false} JobTable(s: State, n: nat, step: JobStep)
    requires ReportInv(s) && n < |s.jobs| && JobEnabled(s.jobs[n], s.prod, step)
    ensures TableInv(DoJob(s, n, step).jobs, DoJob(s, n, step).runners)
  {
    assert JobInv(s.jobs, s.runners, n);
  }

  lemma {:induction false} JobReport(s: State, n: nat, step: JobStep)
    requires ReportInv(s) && n < |s.jobs| && JobEnabled(s.jobs[n], s.prod, step)
    ensures ReportInv(DoJob(s, n, step))
  {
    var s' := DoJob(s, n, step);
    JobTable(s, n, step);
    assert JobInv(s.jobs, s.runners, n);
    forall m | 0 <= m < |s'.jobs| ensures JobInv(s'.jobs, s'.runners, m) {
      assert JobInv(s.jobs, s.runners, m);
    }
  }

  lemma {:induction false} ReportStep(maxJobs: int, s: State, a: Action)
    requires ReportInv(s) && Enabled(maxJobs, s, a)
    ensures ReportInv(Do(maxJobs, s, a))
  {
    match a
    case PickDirect(cmd) => CallReport(s, cmd, None, true);
    case PickQueued => CallReport(s, s.received[s.prod.t], Some(s.prod.t), true);
    case Call(cmd) => CallReport(s, cmd, None, false);
    case Go(n, step) => JobReport(s, n, step);
    case _ =>
  }

  lemma {:induction false} RunReportInv(maxJobs: int, acts: seq<Action>)
    requires Exec(maxJobs, acts).Some?
    ensures ReportInv(Exec(maxJobs, acts).value)
  {
    if acts != [] {
      var n := |acts| - 1;
      RunReportInv(maxJobs, acts[..n]);
      ReportStep(maxJobs, Exec(maxJobs, acts[..n]).value, acts[n]);
    }
  }

  ghost predicate SameIdInTable(s: State, n: nat, m: nat)
    requires n < |s.jobs| && m < |s.jobs|
  {
    InTable(s.jobs[n].phase) && InTable(s.jobs[m].phase) && s.jobs[m].cmd.id == s.jobs[n].cmd.id
  }

  /**
    Each `RunCmd` call has at most one result, and exactly one once it was refused or its runner has
    ended. Until an accepted command has reported, its id stays taken, and by it alone.
   */
  lemma {:induction false} OneResultPerSubmission(maxJobs: int, s: State, n: nat)
    requires Reachable(maxJobs, s) && n < |s.jobs|
    ensures var job := s.jobs[n];
            && |job.reports| <= 1
            && (|job.reports| == 0 <==> job.phase.Called? || job.phase.Refusing? || job.phase.Running?)
            && (job.phase.Refused? ==> !job.reports[0].Ended?)
            && (InTable(job.phase) ==> job.cmd.id in s.runners && s.runners[job.cmd.id] == n)
            && forall m :: 0 <= m < |s.jobs| && SameIdInTable(s, n, m) ==> m == n
  {
    var acts :| Exec(maxJobs, acts) == Some(s);
    RunReportInv(maxJobs, acts);
    assert JobInv(s.jobs, s.runners, n);
    forall m | 0 <= m < |s.jobs| && SameIdInTable(s, n, m) ensures m == n {
      assert JobInv(s.jobs, s.runners, m);
    }
  }

  lemma {:induction false} AnswersStep(maxJobs: int, s: State, a: Action, n: nat, acts: seq<Action>)
    requires Enabled(maxJobs, s, a) && (n < |s.jobs| ==> AnswerIsRight(s.jobs[n], n, acts))
    ensures n < |Do(maxJobs, s, a).jobs| ==> AnswerIsRight(Do(maxJobs, s, a).jobs[n], n, acts + [a])
  {
    JobsFrame(maxJobs, s, a);
    if n < |s.jobs| {
      if j :| 0 <= j < |acts| && ReportsIn(acts[j], n, s.jobs[n].reports) {
        assert (acts + [a])[j] == acts[j];
      }
    }
    if a.Go? && a.n == n && a.step.Report? {
      assert ReportsIn((acts + [a])[|acts|], n, [Ended(a.step.state)]);
      assert [] + [Ended(a.step.state)] == [Ended(a.step.state)];
    }
  }

  /** The step is the report of job `n`, with this state. */
  predicate ReportsIn(a: Action, n: nat, reports: seq<Outcome>) {
    a.Go? && a.n == n && a.step.Report? && reports == [Ended(a.step.state)]
  }

  /** What the job has been answered, or is going to be. */
  ghost predicate AnswerIsRight(job: Job, n: nat, acts: seq<Action>) {
    match job.phase
    case Called => job.reports == []
    case Running => job.reports == [] && job.cmd.known
    case Refusing(why) => job.reports == [] && why == if job.cmd.known then DuplicateId else UnknownCmd
    case Refused => job.reports == [if job.cmd.known then DuplicateId else UnknownCmd]
    case _ => job.cmd.known && exists j :: 0 <= j < |acts| && ReportsIn(acts[j], n, job.reports)
  }

  /**
    Over every run: a command that nobody knows is answered as unknown, one that is refused although it is
    known as a duplicate, and one that has ended with the state of its own end.
   */
  lemma {:induction false} AnsweredRight(maxJobs: int, acts: seq<Action>, n: nat)
    requires Exec(maxJobs, acts).Some? && n < |Exec(maxJobs, acts).value.jobs|
    ensures AnswerIsRight(Exec(maxJobs, acts).value.jobs[n], n, acts)
  {
    if acts != [] {
      var m := |acts| - 1;
      var s := Exec(maxJobs, acts[..m]).value;
      if n < |s.jobs| {
        AnsweredRight(maxJobs, acts[..m], n);
      }
      AnswersStep(maxJobs, s, acts[m], n, acts[..m]);
      assert acts == acts[..m] + [acts[m]];
    }
  }

  /** A running command may end in any state, and that is then its only result. */
  lemma {:induction false} EndsInAnyState(maxJobs: int, acts: seq<Action>, n: nat, state: string)
    requires Exec(maxJobs, acts).Some? && InPhase(Exec(maxJobs, acts).value, n, Running)
    ensures Enabled(maxJobs, Exec(maxJobs, acts).value, Go(n, Report(state)))
    ensures Do(maxJobs, Exec(maxJobs, acts).value, Go(n, Report(state))).jobs[n].reports == [Ended(state)]
  {
    var s := Exec(maxJobs, acts).value;
    RunReportInv(maxJobs, acts);
    assert JobInv(s.jobs, s.runners, n);
  }

  /** While job `n` has not left the table, another known command with its id is answered as a duplicate. */
  lemma {:induction false} DuplicateAnswered(maxJobs: int, s: State, n: nat, m: nat)
    requires Reachable(maxJobs, s) && n < |s.jobs| && InTable(s.jobs[n].phase)
    requires InPhase(s, m, Called) && s.jobs[m].cmd.known && s.jobs[m].cmd.id == s.jobs[n].cmd.id
    ensures Enabled(maxJobs, s, Go(m, Register)) && Enabled(maxJobs, Do(maxJobs, s, Go(m, Register)), Go(m, Refuse))
    ensures Do(maxJobs, Do(maxJobs, s, Go(m, Register)), Go(m, Refuse)).jobs[m].reports == [DuplicateId]
    ensures Do(maxJobs, Do(maxJobs, s, Go(m, Register)), Go(m, Refuse)).runners == s.runners
  {
    OneResultPerSubmission(maxJobs, s, n);
    OneResultPerSubmission(maxJobs, s, m);
    assert s.jobs[m].reports == [];
    var s' := DoJob(s, m, Register);
    assert s'.jobs[m] == s.jobs[m].(phase := Refusing(DuplicateId));
  }

  // ---------------------------------------------------------------------------------------------
  // The command loop keeps to maxJobs
  // ---------------------------------------------------------------------------------------------

  /** Ids of the runners that the command loop has admitted. */
  ghost function Admitted(jobs: seq<Job>, runners: map<string, nat>): set<string> {
    set id | id in runners && runners[id] < |jobs| && jobs[runners[id]].byLoop
  }

  /** The loop has seen room for one more and has not used it yet. */
  ghost predicate MayAdmit(s: State) {
    s.loop.Ready? || (s.loop.Busy? && InPhase(s, s.loop.n, Called))
  }

  ghost predicate LoopInv(s: State) {
    && (s.loop.Busy? ==> s.loop.n < |s.jobs|)
    && (forall n :: 0 <= n < |s.jobs| && s.jobs[n].byLoop && s.jobs[n].phase.Called? ==> s.loop == Busy(n))
  }

  ghost function Limit(maxJobs: int): nat { if maxJobs > 0 then maxJobs else 0 }

  ghost predicate AdmissionInv(maxJobs: int, s: State) {
    && LoopInv(s)
    && |Admitted(s.jobs, s.runners)| + (if MayAdmit(s) then 1 else 0) <= Limit(maxJobs)
  }

  lemma Fewer<T>(a: set<T>, b: set<T>)
    requires a <= b
    ensures |a| <= |b|
  {
    assert b == a + (b - a);
  }

  lemma {:induction false} CheckAdmits(maxJobs: int, s: State)
    requires AdmissionInv(maxJobs, s) && Enabled(maxJobs, s, Check)
    ensures AdmissionInv(maxJobs, Do(maxJobs, s, Check))
  {
    Fewer(Admitted(s.jobs, s.runners), s.runners.Keys);
  }

  lemma {:induction false} CallAdmits(maxJobs: int, s: State, cmd: Command, ticket: Option<nat>, byLoop: bool)
    requires AdmissionInv(maxJobs, s) && ReportInv(s) && (byLoop ==> s.loop.Ready?)
    ensures AdmissionInv(maxJobs, DoCall(s, cmd, ticket, byLoop))
  {
    var s' := DoCall(s, cmd, ticket, byLoop);
    assert Admitted(s'.jobs, s'.runners) == Admitted(s.jobs, s.runners);
  }

  lemma {:induction false} RegisterAdmits(maxJobs: int, s: State, n: nat)
    requires AdmissionInv(maxJobs, s) && ReportInv(s) && InPhase(s, n, Called)
    ensures AdmissionInv(maxJobs, DoJob(s, n, Register))
  {
    var job, s' := s.jobs[n], DoJob(s, n, Register);
    assert Admitted(s'.jobs, s.runners) == Admitted(s.jobs, s.runners);
    if Accepted(job, s.runners) {
      AcceptAdmits(s'.jobs, s.runners, job.cmd.id, n);
    }
    assert s.jobs[n].byLoop ==> MayAdmit(s) && !MayAdmit(s');
  }

  lemma {:induction false} AcceptAdmits(jobs: seq<Job>, runners: map<string, nat>, id: string, n: nat)
    requires n < |jobs| && id !in runners
    ensures Admitted(jobs, runners[id := n]) ==
            if jobs[n].byLoop then Admitted(jobs, runners) + {id} else Admitted(jobs, runners)
    ensures id !in Admitted(jobs, runners)
  {
  }

  lemma {:induction false} MoveAdmits(maxJobs: int, s: State, n: nat, step: JobStep)
    requires AdmissionInv(maxJobs, s) && n < |s.jobs| && JobEnabled(s.jobs[n], s.prod, step) && !step.Register?
    ensures AdmissionInv(maxJobs, DoJob(s, n, step))
  {
    var s' := DoJob(s, n, step);
    assert Admitted(s'.jobs, s.runners) == Admitted(s.jobs, s.runners);
    Fewer(Admitted(s'.jobs, s'.runners), Admitted(s'.jobs, s.runners));
  }

  lemma {:induction false} AdmissionStep(maxJobs: int, s: State, a: Action)
    requires AdmissionInv(maxJobs, s) && ReportInv(s) && Enabled(maxJobs, s, a)
    ensures AdmissionInv(maxJobs, Do(maxJobs, s, a))
  {
    match a
    case Check => CheckAdmits(maxJobs, s);
    case PickDirect(cmd) => CallAdmits(maxJobs, s, cmd, None, true);
    case PickQueued => CallAdmits(maxJobs, s, s.received[s.prod.t], Some(s.prod.t), true);
    case Call(cmd) => CallAdmits(maxJobs, s, cmd, None, false);
    case Go(n, step) =>
      if step.Register? {
        RegisterAdmits(maxJobs, s, n);
      } else {
        MoveAdmits(maxJobs, s, n, step);
      }
    case _ =>
  }

  /** The runners admitted by the command loop never outnumber maxJobs, whatever other callers start. */
  lemma {:induction false} AdmissionBound(maxJobs: int, acts: seq<Action>)
    requires Exec(maxJobs, acts).Some?
    ensures var s := Exec(maxJobs, acts).value;
            AdmissionInv(maxJobs, s) && |Admitted(s.jobs, s.runners)| <= if maxJobs > 0 then maxJobs else 0
  {
    if acts != [] {
      var n := |acts| - 1;
      AdmissionBound(maxJobs, acts[..n]);
      RunReportInv(maxJobs, acts[..n]);
      AdmissionStep(maxJobs, Exec(maxJobs, acts[..n]).value, acts[n]);
    } else {
      assert Admitted([], map[]) == {};
    }
  }
}
