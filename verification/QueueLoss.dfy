/**
  When the queue manager loses a command. `dispatcherLoop` pushes to a list after it has given up the
  lock (base/pm/queue.go:59-61), so that the list may have stopped being a queue in the meantime.
 */
module QueueLoss {
  import opened Wrappers
  import opened Manager
  import opened Tokens
  import opened Fifo

  /** The dispatcher is about to push ticket `t` to a list that is no queue any more. */
  ghost predicate Orphaned(s: State, t: nat) {
    s.disp.Looked? && s.disp.t == t && s.disp.list !in s.queues.Values
  }

  /** The producer deletes the queue of ticket `t` between the dispatcher's lookup and its push. */
  ghost predicate Dooms(s: State, a: Action, t: nat) {
    && a.Produce? && s.prod.Got? && s.disp.Looked? && s.disp.t == t
    && Belongs(s.received, t, s.prod.q)
    && s.prod.q in s.queues && s.queues[s.prod.q] < |s.heap| && s.heap[s.queues[s.prod.q]] == []
  }

  lemma {:induction false} ProduceDooms(s: State, t: nat)
    requires QueueInv(s) && s.prod.Got?
    ensures Orphaned(DoProduce(s), t) <==> Orphaned(s, t) || Dooms(s, Produce, t)
  {
    var s' := DoProduce(s);
    if s.disp.Looked? && s.disp.t == t {
      var list := s.disp.list;
      if list in s.queues.Values {
        var q :| q in s.queues && s.queues[q] == list;
        if q in s'.queues {
          assert s'.queues[q] == list;
        }
      }
      if list in s'.queues.Values {
        var q :| q in s'.queues && s'.queues[q] == list;
        assert s.queues[q] == list;
      }
    }
  }

  lemma {:induction false} DispatchOrphansNone(s: State, cmd: Command, t: nat)
    requires QueueInv(s) && s.disp.DIdle?
    ensures !Orphaned(DoDispatch(s, cmd), t)
  {
    var s' := DoDispatch(s, cmd);
    if cmd.queue != "" {
      assert cmd.queue in s'.queues && s'.queues[cmd.queue] == s'.disp.list;
    }
  }

  lemma {:induction false} LossStep(maxJobs: int, s: State, a: Action, t: nat)
    requires QueueInv(s) && Enabled(maxJobs, s, a)
    ensures t in Do(maxJobs, s, a).lost || Orphaned(Do(maxJobs, s, a), t) <==>
            t in s.lost || Orphaned(s, t) || Dooms(s, a, t)
  {
    match a
    case Dispatch(cmd) => DispatchOrphansNone(s, cmd, t);
    case Produce => ProduceDooms(s, t);
    case Push =>
    case Take =>
    case _ => ListsFrame(maxJobs, s, a);
  }

  /** Some step of the run deletes the queue of ticket `t` at the wrong moment. */
  ghost predicate Doomed(maxJobs: int, acts: seq<Action>, t: nat) {
    acts != [] &&
    var n := |acts| - 1;
    var before := Exec(maxJobs, acts[..n]);
    Doomed(maxJobs, acts[..n], t) || (before.Some? && Dooms(before.value, acts[n], t))
  }

  /** A command is lost exactly when its queue is deleted between the lookup and the push. */
  lemma {:induction false} LostExactlyWhenDoomed(maxJobs: int, acts: seq<Action>, t: nat)
    requires Exec(maxJobs, acts).Some?
    ensures var s := Exec(maxJobs, acts).value;
            t in s.lost || Orphaned(s, t) <==> Doomed(maxJobs, acts, t)
  {
    if acts != [] {
      var n := |acts| - 1;
      LostExactlyWhenDoomed(maxJobs, acts[..n], t);
      RunQueueInv(maxJobs, acts[..n]);
      LossStep(maxJobs, Exec(maxJobs, acts[..n]).value, acts[n], t);
    }
  }

  /** Lookup and push are one step: nobody else moves while the dispatcher holds a list. */
  ghost predicate Coarse(maxJobs: int, acts: seq<Action>) {
    acts == [] ||
    var n := |acts| - 1;
    var before := Exec(maxJobs, acts[..n]);
    Coarse(maxJobs, acts[..n]) && before.Some? && (before.value.disp.Looked? ==> acts[n].Push?)
  }

  lemma {:induction false} CoarseDoomsNothing(maxJobs: int, acts: seq<Action>, t: nat)
    requires Coarse(maxJobs, acts)
    ensures !Doomed(maxJobs, acts, t)
  {
    if acts != [] {
      CoarseDoomsNothing(maxJobs, acts[..|acts| - 1], t);
    }
  }

  /** With that, nothing is lost: what was handed out, followed by what waits, is everything pushed, in order. */
  lemma {:induction false} CoarseLosesNothing(maxJobs: int, acts: seq<Action>, q: string)
    requires Exec(maxJobs, acts).Some? && Coarse(maxJobs, acts)
    ensures var s := Exec(maxJobs, acts).value;
            Of(s.received, s.handed, q) + Waiting(s, q) == Kept(s.received, {}, Pushed(s), q)
  {
    var s := Exec(maxJobs, acts).value;
    forall t ensures t !in s.lost {
      CoarseDoomsNothing(maxJobs, acts, t);
      LostExactlyWhenDoomed(maxJobs, acts, t);
    }
    assert s.lost == {};
    FirstInFirstOut(maxJobs, acts, q);
  }

  // ---------------------------------------------------------------------------------------------
  // Runs that lose a command
  // ---------------------------------------------------------------------------------------------

  /** Job `n` is the last command of its queue, and is about to notify it. */
  ghost predicate LastIsLeaving(s: State, n: nat) {
    && InPhase(s, n, Leaving) && s.jobs[n].cmd.queue != ""
    && s.disp.DIdle? && s.prod.PIdle? && Waiting(s, s.jobs[n].cmd.queue) == []
  }

  /**
    Whenever the last command of a queue ends, the next command for that queue can be lost: it arrives
    after the notification and before the queue is deleted. It is never run and nobody is told.
   */
  lemma {:induction false} NextCommandCanBeLost(maxJobs: int, acts: seq<Action>, s: State, n: nat, cmd: Command)
    returns (acts': seq<Action>, s': State)
    requires Exec(maxJobs, acts) == Some(s) && LastIsLeaving(s, n) && cmd.queue == s.jobs[n].cmd.queue
    ensures acts' == acts + [Go(n, Notify)] + [Dispatch(cmd)] + [Produce] + [Push] && Exec(maxJobs, acts') == Some(s')
    ensures s'.received == s.received + [cmd] && |s.received| in s'.lost && s'.handed == s.handed
    ensures cmd.queue !in s'.queues
  {
    var q := cmd.queue;
    RunQueueInv(maxJobs, acts);
    assert Holds(s, TheJob(n), q) && q in s.queues;
    var a1, s1 := Then(maxJobs, acts, s, Go(n, Notify));
    assert s1.heap[s1.queues[q]] == [];
    var a2, s2 := Then(maxJobs, a1, s1, Dispatch(cmd));
    assert s2 == DoDispatch(s1, cmd) && s2.heap[s2.queues[q]] == [];
    var a3, s3 := Then(maxJobs, a2, s2, Produce);
    assert s3 == DoProduce(s2) && q !in s3.queues;
    RunQueueInv(maxJobs, a2);
    assert Dooms(s2, Produce, |s.received|);
    ProduceDooms(s2, |s.received|);
    acts', s' := Then(maxJobs, a3, s3, Push);
    assert s' == DoPush(s3);
  }

  /** Such a moment comes in the simplest of runs, that of one command. */
  lemma {:induction false} QueueOne(cmd: Command) returns (acts: seq<Action>, s: State)
    requires cmd.queue != ""
    ensures Exec(1, acts) == Some(s) && acts == [Dispatch(cmd), Push, SignalNew, Produce, Take, Check]
    ensures s.received == [cmd] && s.disp.DIdle? && s.prod.Sending? && s.prod.t == 0 && s.loop.Ready?
    ensures s.heap == [[]] && s.queues == map[cmd.queue := 0] && s.jobs == [] && s.runners == map[]
  {
    var q := cmd.queue;
    acts, s := Then(1, [], Start(), Dispatch(cmd));
    assert s == DoDispatch(Start(), cmd) && s.heap[0] == [];
    acts, s := Then(1, acts, s, Push);
    assert s.heap[0] == [0];
    acts, s := Then(1, acts, s, SignalNew);
    acts, s := Then(1, acts, s, Produce);
    acts, s := Then(1, acts, s, Take);
    assert s.heap[0] == [];
    acts, s := Then(1, acts, s, Check);
  }

  /** The command is taken by the loop, starts, ends and leaves the table. */
  function Ends(): seq<Action> { [PickQueued, Go(0, Register), Go(0, Report("SUCCESS")), Go(0, Unregister)] }

  lemma {:induction false} RunOne(cmd: Command) returns (acts: seq<Action>, s: State)
    requires cmd.queue != "" && cmd.known
    ensures Exec(1, acts) == Some(s) && LastIsLeaving(s, 0) && s.received == [cmd]
    ensures |s.jobs| == 1 && s.jobs[0] == Job(cmd, Some(0), true, Leaving, [Ended("SUCCESS")])
    ensures acts == [Dispatch(cmd), Push, SignalNew, Produce, Take, Check] + Ends()
  {
    acts, s := QueueOne(cmd);
    acts, s := Then(1, acts, s, PickQueued);
    assert s.jobs[0] == Job(cmd, Some(0), true, Called, []);
    acts, s := Then(1, acts, s, Go(0, Register));
    acts, s := Then(1, acts, s, Go(0, Report("SUCCESS")));
    acts, s := Then(1, acts, s, Go(0, Unregister));
  }
}
