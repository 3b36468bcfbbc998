/** First in, first out, over every run: base/pm/queue.go. */
module Fifo {
  import opened Wrappers
  import opened Manager
  import opened Tokens

  // ---------------------------------------------------------------------------------------------
  // First in, first out
  // ---------------------------------------------------------------------------------------------

  /** The tickets of `ts` that belong to queue `q`. */
  ghost function Of(received: seq<Command>, ts: seq<nat>, q: string): seq<nat> {
    if ts == [] then []
    else
      var t := ts[|ts| - 1];
      Of(received, ts[..|ts| - 1], q) + (if t < |received| && received[t].queue == q then [t] else [])
  }

  /** The tickets below `n` that belong to queue `q` and are not lost. */
  ghost function Kept(received: seq<Command>, lost: set<nat>, n: nat, q: string): seq<nat>
    requires n <= |received|
  {
    if n == 0 then []
    else
      Kept(received, lost, n - 1, q) + (if received[n - 1].queue == q && n - 1 !in lost then [n - 1] else [])
  }

  ghost function Waiting(s: State, q: string): seq<nat> {
    if q in s.queues && s.queues[q] < |s.heap| then s.heap[s.queues[q]] else []
  }

  /** How many of the received commands have been pushed to a list. */
  ghost function Pushed(s: State): nat {
    if s.disp.Looked? && |s.received| > 0 then |s.received| - 1 else |s.received|
  }

  /** What was handed out, followed by what waits, is what was pushed and not lost, in order. */
  ghost predicate Conserved(s: State, q: string) {
    Of(s.received, s.handed, q) + Waiting(s, q) == Kept(s.received, s.lost, Pushed(s), q)
  }

  ghost predicate HandedOk(s: State) {
    && (forall j :: 0 <= j < |s.handed| ==> s.handed[j] < |s.received|)
    && (forall t :: t in s.lost ==> t < Pushed(s))
  }

  lemma {:induction false} OfLonger(received: seq<Command>, cmd: Command, ts: seq<nat>, q: string)
    requires forall j :: 0 <= j < |ts| ==> ts[j] < |received|
    ensures Of(received + [cmd], ts, q) == Of(received, ts, q)
  {
    if ts != [] {
      OfLonger(received, cmd, ts[..|ts| - 1], q);
    }
  }

  lemma {:induction false} KeptLonger(received: seq<Command>, cmd: Command, lost: set<nat>, n: nat, q: string)
    requires n <= |received|
    ensures Kept(received + [cmd], lost, n, q) == Kept(received, lost, n, q)
  {
    if n > 0 {
      KeptLonger(received, cmd, lost, n - 1, q);
    }
  }

  lemma {:induction false} KeptIgnores(received: seq<Command>, lost: set<nat>, t: nat, n: nat, q: string)
    requires n <= |received| && n <= t
    ensures Kept(received, lost + {t}, n, q) == Kept(received, lost, n, q)
  {
    if n > 0 {
      KeptIgnores(received, lost, t, n - 1, q);
    }
  }

  lemma {:induction false} DispatchConserves(s: State, cmd: Command, q: string)
    requires HandedOk(s) && Conserved(s, q) && s.disp.DIdle?
    ensures Conserved(DoDispatch(s, cmd), q) && HandedOk(DoDispatch(s, cmd))
  {
    if cmd.queue != "" {
      OfLonger(s.received, cmd, s.handed, q);
      KeptLonger(s.received, cmd, s.lost, |s.received|, q);
      assert Waiting(DoDispatch(s, cmd), q) == Waiting(s, q);
    }
  }

  lemma {:induction false} PushConserves(s: State, q: string)
    requires QueueInv(s) && HandedOk(s) && Conserved(s, q) && s.disp.Looked?
    ensures Conserved(DoPush(s), q) && HandedOk(DoPush(s))
  {
    var s', t, list := DoPush(s), s.disp.t, s.disp.list;
    if list in s.queues.Values {
      var q' :| q' in s.queues && s.queues[q'] == list;
      assert q' == s.received[t].queue;
    } else {
      KeptIgnores(s.received, s.lost, t, t, q);
    }
    assert Kept(s'.received, s'.lost, t, q) == Kept(s.received, s.lost, t, q);
    if q == s.received[t].queue && list in s.queues.Values {
      assert Waiting(s', q) == Waiting(s, q) + [t];
      assert Of(s.received, s.handed, q) + (Waiting(s, q) + [t]) == (Of(s.received, s.handed, q) + Waiting(s, q)) + [t];
    }
  }

  lemma OfSnoc(received: seq<Command>, ts: seq<nat>, t: nat, q: string)
    ensures Of(received, ts + [t], q) ==
            Of(received, ts, q) + (if t < |received| && received[t].queue == q then [t] else [])
  {
    assert (ts + [t])[..|ts|] == ts;
  }

  /** The producer takes the front of its own list, and no other list changes. */
  lemma {:induction false} TakeWaiting(s: State, q: string)
    requires ListsOk(s.received, s.heap, s.queues) && s.prod.Taking? && s.prod.q in s.queues
    requires s.queues[s.prod.q] == s.prod.list && s.heap[s.prod.list] != []
    ensures var list := s.heap[s.prod.list];
            && Belongs(s.received, list[0], s.prod.q)
            && (q == s.prod.q ==> Waiting(s, q) == list && Waiting(DoTake(s), q) == list[1..])
            && (q != s.prod.q ==> Waiting(DoTake(s), q) == Waiting(s, q))
  {
  }

  lemma FrontMoves(taken: seq<nat>, list: seq<nat>)
    requires list != []
    ensures (taken + [list[0]]) + list[1..] == taken + list
  {
  }

  lemma {:induction false} TakeConserves(s: State, q: string)
    requires Shape(s) && HandedOk(s) && Conserved(s, q) && s.prod.Taking?
    ensures Conserved(DoTake(s), q) && HandedOk(DoTake(s))
  {
    var s', list, taken := DoTake(s), s.heap[s.prod.list], Of(s.received, s.handed, q);
    TakeWaiting(s, q);
    OfSnoc(s.received, s.handed, list[0], q);
    if q == s.prod.q {
      FrontMoves(taken, list);
    } else {
      assert taken + [] == taken;
    }
    TakenKeeps(s, s', q);
  }

  lemma {:induction false} TakenKeeps(s: State, s': State, q: string)
    requires HandedOk(s) && Conserved(s, q) && s'.received == s.received && s'.lost == s.lost && s'.disp == s.disp
    requires exists t :: t < |s.received| && s'.handed == s.handed + [t]
    requires Of(s'.received, s'.handed, q) + Waiting(s', q) == Of(s.received, s.handed, q) + Waiting(s, q)
    ensures Conserved(s', q) && HandedOk(s')
  {
  }

  lemma {:induction false} ProduceConserves(s: State, q: string)
    requires HandedOk(s) && Conserved(s, q) && s.prod.Got? && (s.prod.q in s.queues ==> s.queues[s.prod.q] < |s.heap|)
    ensures Conserved(DoProduce(s), q) && HandedOk(DoProduce(s))
  {
    assert Waiting(DoProduce(s), q) == Waiting(s, q);
  }

  lemma {:induction false} FrameConserves(s: State, s': State, q: string)
    requires HandedOk(s) && Conserved(s, q) && SameLists(s, s')
    requires s'.disp == s.disp || (s.disp.Signalling? && s'.disp.DIdle?)
    ensures Conserved(s', q) && HandedOk(s')
  {
    assert Waiting(s', q) == Waiting(s, q) && Pushed(s') == Pushed(s);
  }

  lemma {:induction false} ConservedStep(maxJobs: int, s: State, a: Action, q: string)
    requires QueueInv(s) && HandedOk(s) && Conserved(s, q) && Enabled(maxJobs, s, a)
    ensures Conserved(Do(maxJobs, s, a), q) && HandedOk(Do(maxJobs, s, a))
  {
    match a
    case Dispatch(cmd) => DispatchConserves(s, cmd, q);
    case Push => PushConserves(s, q);
    case Produce => ProduceConserves(s, q);
    case Take => TakeConserves(s, q);
    case _ =>
      ListsFrame(maxJobs, s, a);
      FrameConserves(s, Do(maxJobs, s, a), q);
  }

  /** Over every run, the commands of a queue leave in the order in which they came, and only lost ones are missing. */
  lemma {:induction false} FirstInFirstOut(maxJobs: int, acts: seq<Action>, q: string)
    requires Exec(maxJobs, acts).Some?
    ensures Conserved(Exec(maxJobs, acts).value, q) && HandedOk(Exec(maxJobs, acts).value)
  {
    if acts != [] {
      var n := |acts| - 1;
      FirstInFirstOut(maxJobs, acts[..n], q);
      RunQueueInv(maxJobs, acts[..n]);
      ConservedStep(maxJobs, Exec(maxJobs, acts[..n]).value, acts[n], q);
    }
  }

  /** The tickets of the `RunCmd` calls, in the order of the calls. */
  ghost function Tickets(jobs: seq<Job>): seq<nat> {
    if jobs == [] then []
    else
      var last := jobs[|jobs| - 1];
      Tickets(jobs[..|jobs| - 1]) + (if last.ticket.Some? then [last.ticket.value] else [])
  }

  lemma {:induction false} TicketsSame(jobs: seq<Job>, n: nat, job: Job)
    requires n < |jobs| && job.ticket == jobs[n].ticket
    ensures Tickets(jobs[n := job]) == Tickets(jobs)
  {
    var m := |jobs| - 1;
    if n < m {
      TicketsSame(jobs[..m], n, job);
      assert jobs[n := job][..m] == jobs[..m][n := job];
    } else {
      assert jobs[n := job][..m] == jobs[..m];
    }
  }

  ghost predicate RunInOrder(s: State) {
    s.handed == Tickets(s.jobs) + (if s.prod.Sending? then [s.prod.t] else [])
  }

  lemma TicketsSnoc(jobs: seq<Job>, job: Job)
    ensures Tickets(jobs + [job]) == Tickets(jobs) + (if job.ticket.Some? then [job.ticket.value] else [])
  {
    assert (jobs + [job])[..|jobs|] == jobs;
  }

  /** Only the producer and the command loop touch what is handed out but not run yet. */
  lemma {:induction false} OfferFrame(maxJobs: int, s: State, a: Action)
    requires Enabled(maxJobs, s, a)
    ensures Do(maxJobs, s, a).handed == s.handed + (if a.Take? then [s.heap[s.prod.list][0]] else [])
    ensures var was, now := s.prod, Do(maxJobs, s, a).prod;
            && (a.Take? ==> !was.Sending? && now == Sending(s.heap[s.prod.list][0]))
            && (a.PickQueued? ==> was.Sending? && !now.Sending?)
            && (!a.Take? && !a.PickQueued? ==> (was.Sending? || now.Sending? ==> now == was))
  {
  }

  lemma {:induction false} RunInOrderStep(maxJobs: int, s: State, a: Action)
    requires RunInOrder(s) && Enabled(maxJobs, s, a)
    ensures RunInOrder(Do(maxJobs, s, a))
  {
    JobsFrame(maxJobs, s, a);
    OfferFrame(maxJobs, s, a);
    if a.Go? {
      TicketsSame(s.jobs, a.n, JobAfter(s.jobs[a.n], s.runners, a.step));
    } else if BeginsJob(a) {
      TicketsSnoc(s.jobs, NewJob(s, a));
    }
  }

  /** Queued commands are run in the order in which they are taken off the lists. */
  lemma {:induction false} RunAsHanded(maxJobs: int, acts: seq<Action>)
    requires Exec(maxJobs, acts).Some?
    ensures RunInOrder(Exec(maxJobs, acts).value)
  {
    if acts != [] {
      var n := |acts| - 1;
      RunAsHanded(maxJobs, acts[..n]);
      RunInOrderStep(maxJobs, Exec(maxJobs, acts[..n]).value, acts[n]);
    }
  }
}
