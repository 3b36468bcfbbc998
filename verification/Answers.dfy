/**
  Which commands of a sink the process manager has answered: base/sink.go over base/pm/pm.go. Results go
  back to the sink only for commands that came through it, that is, through the command loop.
 */
module Answers {
  import opened Wrappers
  import opened Manager
  import opened Tokens
  import opened Fifo
  import opened Serial
  import opened Submissions

  /** A command that a sink has pushed: the ticket of a queued one, the job of one without a queue. */
  datatype Trace = Queued(t: nat) | Direct(n: nat)

  ghost predicate IsTrace(s: State, tr: Trace) {
    match tr
    case Queued(t) => t < |s.received|
    case Direct(n) => n < |s.jobs| && s.jobs[n].byLoop && s.jobs[n].ticket.None?
  }

  ghost function CommandOf(s: State, tr: Trace): Command
    requires IsTrace(s, tr)
  {
    match tr
    case Queued(t) => s.received[t]
    case Direct(n) => s.jobs[n].cmd
  }

  /** Job `n` runs the command. */
  ghost predicate RunsFor(jobs: seq<Job>, n: nat, tr: Trace) {
    && n < |jobs|
    && match tr
       case Queued(t) => jobs[n].ticket == Some(t)
       case Direct(m) => n == m
  }

  /** The trace of a job that came through the command loop. */
  function TraceOf(jobs: seq<Job>, n: nat): Trace
    requires n < |jobs|
  {
    if jobs[n].ticket.Some? then Queued(jobs[n].ticket.value) else Direct(n)
  }

  ghost predicate AnsweredBy(jobs: seq<Job>, n: nat, tr: Trace) { RunsFor(jobs, n, tr) && jobs[n].reports != [] }

  ghost predicate Answered(s: State, tr: Trace) { exists n: nat :: AnsweredBy(s.jobs, n, tr) }

  /** The queue manager has pushed the command to a list that is no queue any more. */
  predicate Mislaid(s: State, tr: Trace) { tr.Queued? && tr.t in s.lost }

  /** The steps that hand a result to the sink. */
  predicate Answers(s: State, a: Action) {
    a.Go? && (a.step.Refuse? || a.step.Report?) && a.n < |s.jobs| && s.jobs[a.n].byLoop
  }

  /** The steps by which the sink pushes a command. */
  predicate Submits(a: Action) { a.PickDirect? || (a.Dispatch? && a.cmd.queue != "") }

  function NewTrace(s: State, a: Action): Trace { if a.PickDirect? then Direct(|s.jobs|) else Queued(|s.received|) }

  // ---------------------------------------------------------------------------------------------
  // Every command of the sink is run by at most one job
  // ---------------------------------------------------------------------------------------------

  /** Only the command loop runs commands with a ticket. */
  ghost predicate TicketsByLoop(jobs: seq<Job>) {
    forall n :: 0 <= n < |jobs| && jobs[n].ticket.Some? ==> jobs[n].byLoop
  }

  lemma {:induction false} RunTicketsByLoop(maxJobs: int, acts: seq<Action>)
    requires Exec(maxJobs, acts).Some?
    ensures TicketsByLoop(Exec(maxJobs, acts).value.jobs)
  {
    if acts != [] {
      var n := |acts| - 1;
      RunTicketsByLoop(maxJobs, acts[..n]);
      JobsFrame(maxJobs, Exec(maxJobs, acts[..n]).value, acts[n]);
    }
  }

  lemma {:induction false} OneJobPerTrace(maxJobs: int, acts: seq<Action>, n: nat, n': nat, tr: Trace)
    requires Exec(maxJobs, acts).Some?
    requires RunsFor(Exec(maxJobs, acts).value.jobs, n, tr) && RunsFor(Exec(maxJobs, acts).value.jobs, n', tr)
    ensures n == n'
  {
    if n != n' {
      RunQueueInv(maxJobs, acts);
      SerialInOrder(maxJobs, acts, if n < n' then n else n', if n < n' then n' else n);
    }
  }

  lemma {:induction false} KeptIsNotLost(received: seq<Command>, lost: set<nat>, n: nat, q: string, t: nat)
    requires n <= |received| && t in Kept(received, lost, n, q)
    ensures t !in lost
  {
    if n > 0 && !(t == n - 1 && received[n - 1].queue == q && n - 1 !in lost) {
      KeptIsNotLost(received, lost, n - 1, q, t);
    }
  }

  /** A command that was run was not mislaid. */
  lemma {:induction false} RunIsNotMislaid(maxJobs: int, acts: seq<Action>, n: nat, tr: Trace)
    requires Exec(maxJobs, acts).Some? && RunsFor(Exec(maxJobs, acts).value.jobs, n, tr)
    ensures !Mislaid(Exec(maxJobs, acts).value, tr)
  {
    var s := Exec(maxJobs, acts).value;
    if tr.Queued? {
      var q := s.jobs[n].cmd.queue;
      RunQueueInv(maxJobs, acts);
      RunAsHanded(maxJobs, acts);
      FirstInFirstOut(maxJobs, acts, q);
      TicketAt(s.jobs, n);
      var j := |Tickets(s.jobs[..n])|;
      assert s.handed[j] == tr.t;
      OfHolds(s.received, s.handed, q, j);
      assert tr.t in Kept(s.received, s.lost, Pushed(s), q);
      KeptIsNotLost(s.received, s.lost, Pushed(s), q, tr.t);
    }
  }

  // ---------------------------------------------------------------------------------------------
  // What a step does to the commands of the sink
  // ---------------------------------------------------------------------------------------------

  lemma {:induction false} ReceivedFrame(maxJobs: int, s: State, a: Action)
    requires Enabled(maxJobs, s, a)
    ensures Do(maxJobs, s, a).received == if a.Dispatch? && a.cmd.queue != "" then s.received + [a.cmd] else s.received
  {
    if !MovesLists(a) {
      ListsFrame(maxJobs, s, a);
    }
  }

  /** Only a push of the sink adds one. */
  lemma {:induction false} TraceStep(maxJobs: int, s: State, a: Action, tr: Trace)
    requires Enabled(maxJobs, s, a)
    ensures var s' := Do(maxJobs, s, a);
            && (IsTrace(s', tr) <==> IsTrace(s, tr) || (Submits(a) && tr == NewTrace(s, a)))
            && (IsTrace(s, tr) ==> CommandOf(s', tr) == CommandOf(s, tr))
            && (Submits(a) ==> !IsTrace(s, NewTrace(s, a)) && CommandOf(s', NewTrace(s, a)) == a.cmd)
  {
    ReceivedFrame(maxJobs, s, a);
    JobsFrame(maxJobs, s, a);
  }

  /** A job that runs the command reports with this step. */
  lemma {:induction false} ReportsFor(maxJobs: int, s: State, a: Action, n: nat, tr: Trace)
    requires Enabled(maxJobs, s, a) && TicketsByLoop(s.jobs) && IsTrace(s, tr)
    ensures AnsweredBy(Do(maxJobs, s, a).jobs, n, tr) <==>
            AnsweredBy(s.jobs, n, tr) || (Answers(s, a) && a.n == n && tr == TraceOf(s.jobs, n))
  {
    JobsFrame(maxJobs, s, a);
  }

  /** Only the report of its own job answers one. */
  lemma {:induction false} AnswerStep(maxJobs: int, s: State, a: Action, tr: Trace)
    requires Enabled(maxJobs, s, a) && TicketsByLoop(s.jobs) && IsTrace(s, tr)
    ensures Answered(Do(maxJobs, s, a), tr) <==> Answered(s, tr) || (Answers(s, a) && tr == TraceOf(s.jobs, a.n))
  {
    forall n: nat
      ensures AnsweredBy(Do(maxJobs, s, a).jobs, n, tr) <==>
              AnsweredBy(s.jobs, n, tr) || (Answers(s, a) && a.n == n && tr == TraceOf(s.jobs, n))
    {
      ReportsFor(maxJobs, s, a, n, tr);
    }
    if Answers(s, a) && tr == TraceOf(s.jobs, a.n) {
      assert AnsweredBy(Do(maxJobs, s, a).jobs, a.n, tr);
    }
  }

  /** Nothing new is answered before it is run. */
  lemma {:induction false} NewIsUnanswered(maxJobs: int, s: State, a: Action)
    requires Enabled(maxJobs, s, a) && JobsOk(s.received, s.jobs) && Submits(a)
    ensures !Answered(Do(maxJobs, s, a), NewTrace(s, a))
  {
    JobsFrame(maxJobs, s, a);
  }

  /**
    The single answer: when a job that came through the command loop reports, its command has not been
    answered before, and afterwards it has.
   */
  lemma {:induction false} AnsweredOnce(maxJobs: int, acts: seq<Action>, s: State, a: Action)
    requires Exec(maxJobs, acts) == Some(s) && Enabled(maxJobs, s, a) && Answers(s, a)
    ensures var tr := TraceOf(s.jobs, a.n);
            && IsTrace(s, tr) && CommandOf(s, tr) == s.jobs[a.n].cmd
            && !Answered(s, tr) && !Mislaid(s, tr)
            && Answered(Do(maxJobs, s, a), tr)
  {
    var tr := TraceOf(s.jobs, a.n);
    RunQueueInv(maxJobs, acts);
    RunTicketsByLoop(maxJobs, acts);
    assert Reachable(maxJobs, s);
    OneResultPerSubmission(maxJobs, s, a.n);
    RunIsNotMislaid(maxJobs, acts, a.n, tr);
    if n: nat :| AnsweredBy(s.jobs, n, tr) {
      OneJobPerTrace(maxJobs, acts, n, a.n, tr);
    }
    AnswerStep(maxJobs, s, a, tr);
  }
}
