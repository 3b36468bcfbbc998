/** Per queue one command at a time: the token that dispatcher, producer and jobs pass on. */
module Tokens {
  import opened Wrappers
  import opened Manager

  // ---------------------------------------------------------------------------------------------
  // One token per queue
  // ---------------------------------------------------------------------------------------------

  /** Who can be responsible for making a queue move on. */
  datatype Holder = TheDispatcher | TheProducer | TheJob(n: nat)

  predicate Live(ph: Phase) { ph.Called? || ph.Running? || ph.Reported? || ph.Leaving? }

  ghost predicate Holds(s: State, h: Holder, q: string) {
    match h
    case TheDispatcher =>
      || (s.disp.Looked? && s.disp.created && s.disp.t < |s.received| && s.received[s.disp.t].queue == q)
      || s.disp == Signalling(q)
    case TheProducer =>
      || s.prod == Got(q)
      || (s.prod.Taking? && s.prod.q == q)
      || (s.prod.Sending? && s.prod.t < |s.received| && s.received[s.prod.t].queue == q)
    case TheJob(n) => n < |s.jobs| && s.jobs[n].cmd.queue == q && Live(s.jobs[n].phase)
  }

  /** Each queue has at most one token, and none when it is not in the map. */
  ghost predicate TokenInv(s: State) {
    && (forall h, q :: q != "" && Holds(s, h, q) ==> q in s.queues)
    && (forall h, h', q :: q != "" && Holds(s, h, q) && Holds(s, h', q) ==> h == h')
  }

  ghost predicate Belongs(received: seq<Command>, t: nat, q: string) { t < |received| && received[t].queue == q }

  /** Names point to different lists, and each list holds tickets of its own queue. */
  ghost predicate ListsOk(received: seq<Command>, heap: seq<seq<nat>>, queues: map<string, nat>) {
    && (forall q :: q in queues ==> q != "" && queues[q] < |heap|)
    && (forall q, q' :: q in queues && q' in queues && queues[q] == queues[q'] ==> q == q')
    && (forall q, j :: q in queues && 0 <= j < |heap[queues[q]]| ==> Belongs(received, heap[queues[q]][j], q))
  }

  /** The dispatcher holds the list of its command's queue, or a list that is no queue any more. */
  ghost predicate DispatcherOk(received: seq<Command>, heap: seq<seq<nat>>, queues: map<string, nat>,
                               disp: Dispatcher) {
    match disp
    case DIdle => true
    case Looked(t, list, _) =>
      && t == |received| - 1 && list < |heap|
      && (forall q :: q in queues ==> (queues[q] == list <==> q == received[t].queue))
    case Signalling(q) => q != ""
  }

  ghost predicate ProducerOk(received: seq<Command>, heap: seq<seq<nat>>, queues: map<string, nat>, prod: Producer) {
    match prod
    case PIdle => true
    case Got(q) => q != ""
    case Taking(q, list) => q in queues && queues[q] == list < |heap| && heap[list] != []
    case Sending(t) => t < |received|
  }

  ghost predicate JobsOk(received: seq<Command>, jobs: seq<Job>) {
    forall n :: 0 <= n < |jobs| ==>
      match jobs[n].ticket
      case Some(t) => t < |received| && jobs[n].cmd == received[t]
      case None => jobs[n].cmd.queue == ""
  }

  /** The pointers are right. */
  ghost predicate Shape(s: State) {
    && (forall t :: 0 <= t < |s.received| ==> s.received[t].queue != "")
    && ListsOk(s.received, s.heap, s.queues)
    && DispatcherOk(s.received, s.heap, s.queues, s.disp)
    && ProducerOk(s.received, s.heap, s.queues, s.prod)
    && JobsOk(s.received, s.jobs)
  }

  ghost predicate QueueInv(s: State) { Shape(s) && TokenInv(s) }

  // Shape, step by step. Steps of the loop and of jobs leave the lists alone.

  lemma {:induction false} LongerReceived(s: State, cmd: Command)
    requires Shape(s)
    ensures var r := s.received + [cmd];
            ListsOk(r, s.heap, s.queues) && JobsOk(r, s.jobs) && ProducerOk(r, s.heap, s.queues, s.prod)
  {
    var r := s.received + [cmd];
    assert forall t :: 0 <= t < |s.received| ==> r[t] == s.received[t];
    forall q, j | q in s.queues && 0 <= j < |s.heap[s.queues[q]]| ensures Belongs(r, s.heap[s.queues[q]][j], q) {
      assert Belongs(s.received, s.heap[s.queues[q]][j], q);
    }
  }

  lemma {:induction false} LongerHeap(received: seq<Command>, heap: seq<seq<nat>>, queues: map<string, nat>, q0: string)
    requires ListsOk(received, heap, queues) && q0 !in queues && q0 != ""
    ensures ListsOk(received, heap + [[]], queues[q0 := |heap|])
  {
    var heap', queues' := heap + [[]], queues[q0 := |heap|];
    forall q, j | q in queues' && 0 <= j < |heap'[queues'[q]]| ensures Belongs(received, heap'[queues'[q]][j], q) {
      assert heap'[queues[q]] == heap[queues[q]];
    }
  }

  lemma {:induction false} DispatchShape(s: State, cmd: Command)
    requires QueueInv(s) && s.disp.DIdle?
    ensures Shape(DoDispatch(s, cmd))
  {
    if cmd.queue != "" {
      LongerReceived(s, cmd);
      if cmd.queue !in s.queues {
        LongerHeap(s.received + [cmd], s.heap, s.queues, cmd.queue);
      }
    }
  }

  lemma {:induction false} PushShape(s: State)
    requires QueueInv(s) && s.disp.Looked?
    ensures Shape(DoPush(s))
  {
    var s' := DoPush(s);
    forall q, j | q in s'.queues && 0 <= j < |s'.heap[s'.queues[q]]|
      ensures Belongs(s'.received, s'.heap[s'.queues[q]][j], q)
    {
      if s.queues[q] == s.disp.list && j == |s.heap[s.queues[q]]| {
        assert s'.heap[s'.queues[q]][j] == s.disp.t;
      } else {
        assert s'.heap[s'.queues[q]][j] == s.heap[s.queues[q]][j];
      }
    }
  }

  lemma {:induction false} ProduceShape(s: State)
    requires QueueInv(s) && s.prod.Got?
    ensures Shape(DoProduce(s))
  {
  }

  lemma {:induction false} TakeShape(s: State)
    requires QueueInv(s) && s.prod.Taking?
    ensures Shape(DoTake(s))
  {
    var s' := DoTake(s);
    assert Belongs(s.received, s.heap[s.queues[s.prod.q]][0], s.prod.q);
    forall q, j | q in s'.queues && 0 <= j < |s'.heap[s'.queues[q]]|
      ensures Belongs(s'.received, s'.heap[s'.queues[q]][j], q)
    {
      var list := s.queues[q];
      if list == s.prod.list {
        assert s'.heap[list][j] == s.heap[list][j + 1];
      } else {
        assert s'.heap[list][j] == s.heap[list][j];
      }
    }
  }

  lemma {:induction false} JobShape(maxJobs: int, s: State, a: Action)
    requires Shape(s) && Enabled(maxJobs, s, a) && !MovesLists(a)
    ensures JobsOk(s.received, Do(maxJobs, s, a).jobs)
  {
    JobsFrame(maxJobs, s, a);
  }

  lemma {:induction false} ShapeStep(maxJobs: int, s: State, a: Action)
    requires QueueInv(s) && Enabled(maxJobs, s, a)
    ensures Shape(Do(maxJobs, s, a))
  {
    match a
    case Dispatch(cmd) => DispatchShape(s, cmd);
    case Push => PushShape(s);
    case Produce => ProduceShape(s);
    case Take => TakeShape(s);
    case _ =>
      ListsFrame(maxJobs, s, a);
      JobShape(maxJobs, s, a);
  }

  // The token, step by step: it stays, it is created with its queue, or it moves.

  ghost predicate KeepsTokens(s: State, s': State) {
    forall h, q :: q != "" && Holds(s', h, q) ==> Holds(s, h, q) && q in s'.queues
  }

  /** In `s'` the token of `q0` is with `to`, and `from` has given it up. */
  ghost predicate MovesToken(s: State, s': State, q0: string, from: Holder, to: Holder) {
    && s'.queues == s.queues
    && Holds(s, from, q0)
    && forall h, q :: q != "" && Holds(s', h, q) ==> (h == to && q == q0) || (Holds(s, h, q) && !(h == from && q == q0))
  }

  ghost predicate CreatesToken(s: State, s': State, q0: string, to: Holder) {
    && q0 !in s.queues && q0 in s'.queues
    && (forall q :: q in s.queues ==> q in s'.queues)
    && forall h, q :: q != "" && Holds(s', h, q) ==> (h == to && q == q0) || Holds(s, h, q)
  }

  ghost predicate Passes(s: State, s': State, q0: string, from: Holder, to: Holder) {
    q0 != "" && (KeepsTokens(s, s') || MovesToken(s, s', q0, from, to) || CreatesToken(s, s', q0, to))
  }

  /** What a step may do with tokens. */
  ghost predicate TokenStepOk(s: State, s': State) {
    exists q0, from, to :: Passes(s, s', q0, from, to)
  }

  lemma {:induction false} TokenFollows(s: State, s': State, q0: string, from: Holder, to: Holder)
    requires TokenInv(s) && Passes(s, s', q0, from, to)
    ensures TokenInv(s')
  {
    forall h, h', q | q != "" && Holds(s', h, q) && Holds(s', h', q) ensures h == h' {
    }
  }

  lemma {:induction false} DispatchToken(s: State, cmd: Command)
    requires QueueInv(s) && s.disp.DIdle?
    ensures TokenStepOk(s, DoDispatch(s, cmd))
  {
    if cmd.queue != "" {
      var s' := DoDispatch(s, cmd);
      assert forall t :: 0 <= t < |s.received| ==> s'.received[t] == s.received[t];
      if cmd.queue in s.queues {
        assert KeepsTokens(s, s');
      } else {
        assert CreatesToken(s, s', cmd.queue, TheDispatcher);
      }
      assert Passes(s, s', cmd.queue, TheDispatcher, TheDispatcher);
    } else {
      assert KeepsTokens(s, s);
      assert Passes(s, s, "q", TheDispatcher, TheDispatcher);
    }
  }

  lemma {:induction false} ProduceToken(s: State)
    requires QueueInv(s) && s.prod.Got?
    ensures TokenStepOk(s, DoProduce(s))
  {
    var s', q0 := DoProduce(s), s.prod.q;
    assert Holds(s, TheProducer, q0);
    forall h, q | q != "" && Holds(s', h, q) ensures Holds(s, h, q) && q in s'.queues {
      assert Holds(s, h, q);
      if q == q0 {
        assert h == TheProducer;
      }
    }
    assert KeepsTokens(s, s');
    assert Passes(s, s', q0, TheProducer, TheProducer);
  }

  lemma {:induction false} SignalToken(s: State)
    requires QueueInv(s) && s.disp.Signalling? && s.prod.PIdle?
    ensures TokenStepOk(s, DoSignal(s))
  {
    assert MovesToken(s, DoSignal(s), s.disp.q, TheDispatcher, TheProducer);
    assert Passes(s, DoSignal(s), s.disp.q, TheDispatcher, TheProducer);
  }

  lemma {:induction false} TakeToken(s: State)
    requires QueueInv(s) && s.prod.Taking?
    ensures TokenStepOk(s, DoTake(s))
  {
    assert Belongs(s.received, s.heap[s.queues[s.prod.q]][0], s.prod.q);
    assert KeepsTokens(s, DoTake(s));
    assert Passes(s, DoTake(s), s.prod.q, TheProducer, TheProducer);
  }

  lemma {:induction false} PickToken(s: State)
    requires QueueInv(s) && s.prod.Sending?
    ensures TokenStepOk(s, DoCall(s, s.received[s.prod.t], Some(s.prod.t), true).(prod := PIdle))
  {
    var s' := DoCall(s, s.received[s.prod.t], Some(s.prod.t), true).(prod := PIdle);
    var q, n := s.received[s.prod.t].queue, |s.jobs|;
    assert MovesToken(s, s', q, TheProducer, TheJob(n));
    assert Passes(s, s', q, TheProducer, TheJob(n));
  }

  lemma {:induction false} CallToken(s: State, cmd: Command, byLoop: bool)
    requires QueueInv(s) && cmd.queue == ""
    ensures TokenStepOk(s, DoCall(s, cmd, None, byLoop))
  {
    assert KeepsTokens(s, DoCall(s, cmd, None, byLoop));
    assert Passes(s, DoCall(s, cmd, None, byLoop), "q", TheProducer, TheProducer);
  }

  /** A job that was live may go on; one that was not does not come back. */
  lemma {:induction false} JobToken(s: State, n: nat, step: JobStep)
    requires QueueInv(s) && n < |s.jobs| && JobEnabled(s.jobs[n], s.prod, step)
    ensures TokenStepOk(s, DoJob(s, n, step))
  {
    var s', q := DoJob(s, n, step), s.jobs[n].cmd.queue;
    if step.Notify? && q != "" {
      assert MovesToken(s, s', q, TheJob(n), TheProducer);
      assert Passes(s, s', q, TheJob(n), TheProducer);
    } else {
      assert KeepsTokens(s, s');
      assert Passes(s, s', "q", TheProducer, TheProducer);
    }
  }

  lemma {:induction false} PushToken(s: State)
    requires QueueInv(s) && s.disp.Looked?
    ensures TokenStepOk(s, DoPush(s))
  {
    assert KeepsTokens(s, DoPush(s));
    assert Passes(s, DoPush(s), "q", TheProducer, TheProducer);
  }

  lemma {:induction false} TokenStep(maxJobs: int, s: State, a: Action)
    requires QueueInv(s) && Enabled(maxJobs, s, a)
    ensures TokenStepOk(s, Do(maxJobs, s, a))
  {
    match a
    case Dispatch(cmd) => DispatchToken(s, cmd);
    case Push => PushToken(s);
    case SignalNew => SignalToken(s);
    case Produce => ProduceToken(s);
    case Take => TakeToken(s);
    case PickDirect(cmd) => CallToken(s, cmd, true);
    case PickQueued => PickToken(s);
    case Call(cmd) => CallToken(s, cmd, false);
    case Go(n, step) => JobToken(s, n, step);
    case _ => LoopToken(s, Do(maxJobs, s, a));
  }

  lemma LoopToken(s: State, s': State)
    requires TokenInv(s) && s'.(loop := s.loop) == s
    ensures TokenStepOk(s, s')
  {
    assert KeepsTokens(s, s');
    assert Passes(s, s', "q", TheProducer, TheProducer);
  }

  lemma {:induction false} QueueInvStep(maxJobs: int, s: State, a: Action)
    requires QueueInv(s) && Enabled(maxJobs, s, a)
    ensures QueueInv(Do(maxJobs, s, a))
  {
    ShapeStep(maxJobs, s, a);
    TokenStep(maxJobs, s, a);
    var q0, from, to :| Passes(s, Do(maxJobs, s, a), q0, from, to);
    TokenFollows(s, Do(maxJobs, s, a), q0, from, to);
  }

  lemma {:induction false} RunQueueInv(maxJobs: int, acts: seq<Action>)
    requires Exec(maxJobs, acts).Some?
    ensures QueueInv(Exec(maxJobs, acts).value)
  {
    if acts != [] {
      var n := |acts| - 1;
      RunQueueInv(maxJobs, acts[..n]);
      QueueInvStep(maxJobs, Exec(maxJobs, acts[..n]).value, acts[n]);
    }
  }

  /**
    Mutual exclusion: at most one command of a queue lies between being taken off its list and the
    notification of its end, and while there is one the producer is not about to take another.
   */
  lemma {:induction false} OneAtATime(maxJobs: int, s: State, n: nat, n': nat)
    requires Reachable(maxJobs, s) && n < |s.jobs| && n' < |s.jobs|
    requires s.jobs[n].cmd.queue == s.jobs[n'].cmd.queue != ""
    requires Live(s.jobs[n].phase) && Live(s.jobs[n'].phase)
    ensures n == n'
    ensures !Holds(s, TheProducer, s.jobs[n].cmd.queue) && !Holds(s, TheDispatcher, s.jobs[n].cmd.queue)
  {
    var acts :| Exec(maxJobs, acts) == Some(s);
    RunQueueInv(maxJobs, acts);
    var q := s.jobs[n].cmd.queue;
    assert Holds(s, TheJob(n), q) && Holds(s, TheJob(n'), q);
  }
}
