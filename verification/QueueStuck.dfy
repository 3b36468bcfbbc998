/**
  How a queue loses its token. A command that `RunCmd` refuses, because it is unknown or its id is taken,
  has no runner and therefore nobody who notifies its queue (base/pm/pm.go:167-195, base/pm/pm.go:356).
 */
module QueueStuck {
  import opened Wrappers
  import opened Manager
  import opened Tokens
  import opened Fifo

  /** The queue exists and nobody is going to make it move. */
  ghost predicate Stuck(s: State, q: string) {
    q in s.queues && forall h :: !Holds(s, h, q)
  }

  /** A command of the queue was refused. */
  ghost predicate RefusedAt(jobs: seq<Job>, n: nat, q: string) {
    n < |jobs| && jobs[n].cmd.queue == q && (jobs[n].phase.Refusing? || jobs[n].phase.Refused?)
  }

  ghost predicate HasRefused(s: State, q: string) { exists n: nat :: RefusedAt(s.jobs, n, q) }

  ghost predicate HasHolder(s: State, q: string) { exists h :: Holds(s, h, q) }

  // ---------------------------------------------------------------------------------------------
  // A stuck queue stays stuck
  // ---------------------------------------------------------------------------------------------

  lemma {:induction false} QueueStays(maxJobs: int, s: State, a: Action, q: string)
    requires QueueInv(s) && Stuck(s, q) && Enabled(maxJobs, s, a)
    ensures q in Do(maxJobs, s, a).queues
  {
    if !MovesLists(a) {
      ListsFrame(maxJobs, s, a);
    }
    assert !Holds(s, TheProducer, q);
  }

  lemma {:induction false} StuckStep(maxJobs: int, s: State, a: Action, q: string)
    requires QueueInv(s) && Stuck(s, q) && Enabled(maxJobs, s, a) && q != ""
    ensures Stuck(Do(maxJobs, s, a), q)
  {
    var s' := Do(maxJobs, s, a);
    QueueStays(maxJobs, s, a, q);
    TokenStep(maxJobs, s, a);
    var q0, from, to :| Passes(s, s', q0, from, to);
    forall h ensures !Holds(s', h, q) {
      assert !Holds(s, h, q) && !Holds(s, from, q);
    }
  }

  /** The commands of the queue that have been handed out. */
  ghost function HandedOf(s: State, q: string): seq<nat> { Of(s.received, s.handed, q) }

  lemma {:induction false} HandedStays(maxJobs: int, s: State, a: Action, q: string)
    requires QueueInv(s) && HandedOk(s) && Stuck(s, q) && Enabled(maxJobs, s, a)
    ensures HandedOf(Do(maxJobs, s, a), q) == HandedOf(s, q)
  {
    match a
    case Dispatch(cmd) =>
      if cmd.queue != "" {
        OfLonger(s.received, cmd, s.handed, q);
      }
    case Take =>
      assert Belongs(s.received, s.heap[s.queues[s.prod.q]][0], s.prod.q);
      assert !Holds(s, TheProducer, q);
      assert DoTake(s).handed[..|s.handed|] == s.handed;
    case Push =>
    case Produce =>
    case _ => ListsFrame(maxJobs, s, a);
  }

  lemma {:induction false} StuckAfter(maxJobs: int, s: State, more: seq<Action>, q: string)
    requires QueueInv(s) && HandedOk(s) && Conserved(s, q) && q != "" && Stuck(s, q) && After(maxJobs, s, more).Some?
    ensures var s' := After(maxJobs, s, more).value;
            Stuck(s', q) && HandedOf(s', q) == HandedOf(s, q)
    decreases |more|
  {
    if more != [] {
      QueueInvStep(maxJobs, s, more[0]);
      ConservedStep(maxJobs, s, more[0], q);
      StuckStep(maxJobs, s, more[0], q);
      HandedStays(maxJobs, s, more[0], q);
      StuckAfter(maxJobs, Do(maxJobs, s, more[0]), more[1..], q);
    }
  }

  /** Whatever happens after a run that has left a queue stuck: no command of it is handed out any more. */
  lemma {:induction false} StuckForGood(maxJobs: int, acts: seq<Action>, s: State, more: seq<Action>, q: string)
    requires Exec(maxJobs, acts) == Some(s) && q != "" && Stuck(s, q) && After(maxJobs, s, more).Some?
    ensures var s' := After(maxJobs, s, more).value;
            Stuck(s', q) && HandedOf(s', q) == HandedOf(s, q)
  {
    RunQueueInv(maxJobs, acts);
    FirstInFirstOut(maxJobs, acts, q);
    StuckAfter(maxJobs, s, more, q);
  }

  // ---------------------------------------------------------------------------------------------
  // Exactly the refused commands make a queue stuck
  // ---------------------------------------------------------------------------------------------

  ghost predicate StuckInv(s: State, q: string) {
    && (HasRefused(s, q) ==> Stuck(s, q))
    && (q in s.queues ==> HasHolder(s, q) || HasRefused(s, q))
  }

  /** A refused command stays refused, and only `Register` refuses. */
  lemma {:induction false} RefusalStays(maxJobs: int, s: State, a: Action, n: nat, q: string)
    requires Enabled(maxJobs, s, a)
    ensures RefusedAt(s.jobs, n, q) ==> RefusedAt(Do(maxJobs, s, a).jobs, n, q)
    ensures RefusedAt(Do(maxJobs, s, a).jobs, n, q) ==>
              || RefusedAt(s.jobs, n, q)
              || (a == Go(n, Register) && s.jobs[n].cmd.queue == q && !Accepted(s.jobs[n], s.runners))
  {
    JobsFrame(maxJobs, s, a);
  }

  lemma {:induction false} RefusalSticks(s: State, n: nat, q: string)
    requires QueueInv(s) && q != "" && InPhase(s, n, Called) && s.jobs[n].cmd.queue == q
          && !Accepted(s.jobs[n], s.runners)
    ensures Stuck(DoJob(s, n, Register), q)
  {
    var s' := DoJob(s, n, Register);
    assert Holds(s, TheJob(n), q);
    forall h ensures !Holds(s', h, q) {
      assert Holds(s', h, q) ==> Holds(s, h, q) && h != TheJob(n);
    }
  }

  /** Where a token is after a step: it moves with the channels and stays otherwise. */
  function HolderAfter(s: State, a: Action, h: Holder): Holder {
    if a.SignalNew? && h == TheDispatcher then TheProducer
    else if a.PickQueued? && h == TheProducer then TheJob(|s.jobs|)
    else if a.Go? && a.step.Notify? && h == TheJob(a.n) then TheProducer
    else h
  }

  lemma {:induction false} JobHolder(s: State, n: nat, step: JobStep, h: Holder, q: string)
    requires n < |s.jobs| && JobEnabled(s.jobs[n], s.prod, step) && Holds(s, h, q) && q != ""
    ensures var s' := DoJob(s, n, step);
            Holds(s', HolderAfter(s, Go(n, step), h), q) || RefusedAt(s'.jobs, n, q)
  {
  }

  lemma {:induction false} TakeHolder(s: State, h: Holder, q: string)
    requires QueueInv(s) && s.prod.Taking? && q != "" && Holds(s, h, q)
    ensures Holds(DoTake(s), h, q)
  {
    assert Belongs(s.received, s.heap[s.queues[s.prod.q]][0], s.prod.q);
  }

  lemma {:induction false} ListHolder(maxJobs: int, s: State, a: Action, h: Holder, q: string)
    requires Enabled(maxJobs, s, a) && MovesLists(a) && !a.Take? && q != "" && Holds(s, h, q)
    requires q in Do(maxJobs, s, a).queues
    ensures Holds(Do(maxJobs, s, a), h, q)
  {
  }

  /** A token is only given up to another holder, by a refusal, or with its queue. */
  lemma {:induction false} HolderStays(maxJobs: int, s: State, a: Action, h: Holder, q: string)
    requires QueueInv(s) && Enabled(maxJobs, s, a) && q != "" && Holds(s, h, q) && q in Do(maxJobs, s, a).queues
    ensures HasHolder(Do(maxJobs, s, a), q) || HasRefused(Do(maxJobs, s, a), q)
  {
    if a.Take? {
      TakeHolder(s, h, q);
    } else if MovesLists(a) {
      ListHolder(maxJobs, s, a, h, q);
    } else if a.Go? {
      JobHolder(s, a.n, a.step, h, q);
    } else {
      assert Holds(Do(maxJobs, s, a), HolderAfter(s, a, h), q);
    }
  }

  lemma {:induction false} NewQueueHeld(maxJobs: int, s: State, a: Action, q: string)
    requires Enabled(maxJobs, s, a) && q !in s.queues && q in Do(maxJobs, s, a).queues
    ensures Holds(Do(maxJobs, s, a), TheDispatcher, q)
  {
    if !MovesLists(a) {
      ListsFrame(maxJobs, s, a);
    }
  }

  lemma {:induction false} StuckInvStep(maxJobs: int, s: State, a: Action, q: string)
    requires QueueInv(s) && StuckInv(s, q) && Enabled(maxJobs, s, a) && q != ""
    ensures StuckInv(Do(maxJobs, s, a), q)
  {
    var s' := Do(maxJobs, s, a);
    if HasRefused(s, q) {
      StuckStep(maxJobs, s, a, q);
      var n: nat :| RefusedAt(s.jobs, n, q);
      RefusalStays(maxJobs, s, a, n, q);
    } else {
      if HasRefused(s', q) {
        var n: nat :| RefusedAt(s'.jobs, n, q);
        RefusalStays(maxJobs, s, a, n, q);
        RefusalSticks(s, n, q);
      }
      if q in s'.queues {
        if q in s.queues {
          var h :| Holds(s, h, q);
          HolderStays(maxJobs, s, a, h, q);
        } else {
          NewQueueHeld(maxJobs, s, a, q);
        }
      }
    }
  }

  /** Over every run, a queue has lost its token exactly when one of its commands was refused. */
  lemma {:induction false} StuckIffRefused(maxJobs: int, acts: seq<Action>, q: string)
    requires Exec(maxJobs, acts).Some? && q != ""
    ensures var s := Exec(maxJobs, acts).value;
            StuckInv(s, q) && (Stuck(s, q) <==> HasRefused(s, q))
  {
    if acts == [] {
      assert forall n: nat :: !RefusedAt(Start().jobs, n, q);
    } else {
      var n := |acts| - 1;
      StuckIffRefused(maxJobs, acts[..n], q);
      RunQueueInv(maxJobs, acts[..n]);
      StuckInvStep(maxJobs, Exec(maxJobs, acts[..n]).value, acts[n], q);
    }
  }
}
