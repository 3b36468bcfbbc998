/**
  The process manager with its serial command queues, as interleaved atomic steps: base/pm/queue.go and
  base/pm/pm.go (`NewRunner`, `RunCmd`, `processCmds`, `cleanUp`), fed by base/sink.go.

  Unbuffered channels are rendezvous: sender and receiver move in one step. What a goroutine does on its
  own between two accesses to shared state belongs to the step before it.
 */
module Manager {
  import opened Wrappers

  /** `known` says that the command map has a factory for the command; the tags come back with its result. */
  datatype Command = Command(id: string, queue: string, known: bool, tags: string)

  datatype Outcome = UnknownCmd | DuplicateId | Ended(state: string)

  datatype Phase =
    | Called                   // inside `RunCmd`, before the id is looked up
    | Refusing(why: Outcome)   // about to report that it will not run
    | Refused
    | Running                  // in the runners table
    | Reported                 // its result was handed to the handlers
    | Leaving                  // out of the table, about to notify its queue
    | Waking                   // about to wake the command loop
    | Gone

  /** One call of `RunCmd`. The ticket numbers the commands that came through a queue. */
  datatype Job = Job(cmd: Command, ticket: Option<nat>, byLoop: bool, phase: Phase, reports: seq<Outcome>)

  datatype Dispatcher =
    | DIdle
    | Looked(t: nat, list: nat, created: bool)  // holds a list, has not pushed to it yet
    | Signalling(q: string)

  datatype Producer =
    | PIdle
    | Got(q: string)
    | Taking(q: string, list: nat)
    | Sending(t: nat)

  datatype Loop =
    | Testing      // about to compare the number of runners with maxJobs
    | Parking      // found no room; inside `Wait`, not yet on the condition's list
    | Asleep       // on the list: the next broadcast wakes it
    | Ready        // in the `select`
    | Busy(n: nat) // inside `RunCmd`

  datatype State = State(
    received: seq<Command>,    // history: what the dispatcher took, in order; indices are tickets
    disp: Dispatcher,
    heap: seq<seq<nat>>,       // every list ever made; a deleted queue's list may still be held
    queues: map<string, nat>,  // queue name to list
    prod: Producer,
    handed: seq<nat>,          // history: tickets taken off the lists, in order
    lost: set<nat>,            // history: tickets pushed to a list that is no queue any more
    loop: Loop,
    jobs: seq<Job>,
    runners: map<string, nat>)

  function Start(): State {
    State([], DIdle, [], map[], PIdle, [], {}, Testing, [], map[])
  }

  datatype Action =
    | Dispatch(cmd: Command)    // dispatcherLoop: receive, then look the queue up under the lock
    | Push                      // dispatcherLoop: PushBack, outside the lock
    | SignalNew                 // dispatcherLoop: signal a queue it has just made
    | Produce                   // producerLoop: look the queue up, maybe delete it, under the lock
    | Take                      // producerLoop: remove the front
    | Check                     // processCmds: compare the number of runners with maxJobs
    | Sleep                     // processCmds: `Wait` puts itself on the condition's list
    | PickDirect(cmd: Command)  // processCmds: a command without a queue
    | PickQueued                // processCmds: the command that the producer offers
    | Return                    // processCmds: RunCmd is back
    | Call(cmd: Command)        // RunCmd from elsewhere, without a queue
    | Go(n: nat, step: JobStep) // the next step of a `RunCmd` call, its runner or its cleanUp

  datatype JobStep =
    | Register                  // RunCmd: known? id free? then the runner starts
    | Refuse                    // RunCmd: report the refusal
    | Report(state: string)     // Run, deferred: the result callback
    | Unregister                // cleanUp: delete the id
    | Notify                    // cleanUp: signal the queue
    | Broadcast                 // cleanUp: wake the command loop, if it is asleep

  // ---------------------------------------------------------------------------------------------
  // Steps
  // ---------------------------------------------------------------------------------------------

  predicate InPhase(s: State, n: nat, ph: Phase) { n < |s.jobs| && s.jobs[n].phase == ph }

  /** `RunCmd` has returned. */
  predicate Decided(ph: Phase) { !ph.Called? && !ph.Refusing? }

  ghost predicate Enabled(maxJobs: int, s: State, a: Action) {
    match a
    case Dispatch(_) => s.disp.DIdle?
    case Push => s.disp.Looked? && s.disp.list < |s.heap| && s.disp.t < |s.received|
    case SignalNew => s.disp.Signalling? && s.prod.PIdle?
    case Produce => s.prod.Got? && (s.prod.q in s.queues ==> s.queues[s.prod.q] < |s.heap|)
    case Take => s.prod.Taking? && s.prod.list < |s.heap| && s.heap[s.prod.list] != []
    case Check => s.loop.Testing?
    case Sleep => s.loop.Parking?
    case PickDirect(cmd) => s.loop.Ready? && cmd.queue == ""
    case PickQueued => s.loop.Ready? && s.prod.Sending? && s.prod.t < |s.received|
    case Return => s.loop.Busy? && s.loop.n < |s.jobs| && Decided(s.jobs[s.loop.n].phase)
    case Call(cmd) => cmd.queue == ""
    case Go(n, step) => n < |s.jobs| && JobEnabled(s.jobs[n], s.prod, step)
  }

  predicate JobEnabled(job: Job, prod: Producer, step: JobStep) {
    match step
    case Register => job.phase.Called?
    case Refuse => job.phase.Refusing?
    case Report(_) => job.phase.Running?
    case Unregister => job.phase.Reported?
    case Notify => job.phase.Leaving? && (job.cmd.queue == "" || prod.PIdle?)
    case Broadcast => job.phase.Waking?
  }

  ghost function Do(maxJobs: int, s: State, a: Action): State
    requires Enabled(maxJobs, s, a)
  {
    match a
    case Dispatch(cmd) => DoDispatch(s, cmd)
    case Push => DoPush(s)
    case SignalNew => DoSignal(s)
    case Produce => DoProduce(s)
    case Take => DoTake(s)
    case Check => s.(loop := if |s.runners| < maxJobs then Ready else Parking)
    case Sleep => s.(loop := Asleep)
    case PickDirect(cmd) => DoCall(s, cmd, None, true)
    case PickQueued => DoCall(s, s.received[s.prod.t], Some(s.prod.t), true).(prod := PIdle)
    case Return => s.(loop := Testing)
    case Call(cmd) => DoCall(s, cmd, None, false)
    case Go(n, step) => DoJob(s, n, step)
  }

  /** A new call of `RunCmd`; the command loop waits for its own calls. */
  function DoCall(s: State, cmd: Command, ticket: Option<nat>, byLoop: bool): State {
    s.(loop := if byLoop then Busy(|s.jobs|) else s.loop,
       jobs := s.jobs + [Job(cmd, ticket, byLoop, Called, [])])
  }

  /** One step of job `n`. Some steps also change the runners table, the producer or the command loop. */
  function DoJob(s: State, n: nat, step: JobStep): State
    requires n < |s.jobs| && JobEnabled(s.jobs[n], s.prod, step)
  {
    var job := s.jobs[n];
    s.(jobs := s.jobs[n := JobAfter(job, s.runners, step)],
       runners := RunnersAfter(s.runners, job, n, step),
       prod := if step.Notify? && job.cmd.queue != "" then Got(job.cmd.queue) else s.prod,
       loop := if step.Broadcast? && s.loop.Asleep? then Testing else s.loop)
  }

  predicate Accepted(job: Job, runners: map<string, nat>) { job.cmd.known && job.cmd.id !in runners }

  function JobAfter(job: Job, runners: map<string, nat>, step: JobStep): Job
    requires step.Refuse? ==> job.phase.Refusing?
  {
    match step
    case Register =>
      var why := if job.cmd.known then DuplicateId else UnknownCmd;
      job.(phase := if Accepted(job, runners) then Running else Refusing(why))
    case Refuse => job.(phase := Refused, reports := job.reports + [job.phase.why])
    case Report(state) => job.(phase := Reported, reports := job.reports + [Ended(state)])
    case Unregister => job.(phase := Leaving)
    case Notify => job.(phase := Waking)
    case Broadcast => job.(phase := Gone)
  }

  function RunnersAfter(runners: map<string, nat>, job: Job, n: nat, step: JobStep): map<string, nat> {
    if step.Register? && Accepted(job, runners) then runners[job.cmd.id := n]
    else if step.Unregister? then runners - {job.cmd.id}
    else runners
  }

  function DoSignal(s: State): State
    requires s.disp.Signalling?
  {
    s.(disp := DIdle, prod := Got(s.disp.q))
  }

  function DoTake(s: State): State
    requires s.prod.Taking? && s.prod.list < |s.heap| && s.heap[s.prod.list] != []
  {
    var list := s.heap[s.prod.list];
    s.(heap := s.heap[s.prod.list := list[1..]], prod := Sending(list[0]), handed := s.handed + [list[0]])
  }

  function DoDispatch(s: State, cmd: Command): State {
    if cmd.queue == "" then s  // not a queued command: only a warning
    else if cmd.queue in s.queues then
      s.(received := s.received + [cmd], disp := Looked(|s.received|, s.queues[cmd.queue], false))
    else
      s.(received := s.received + [cmd], disp := Looked(|s.received|, |s.heap|, true),
         heap := s.heap + [[]], queues := s.queues[cmd.queue := |s.heap|])
  }

  ghost function DoPush(s: State): State
    requires s.disp.Looked? && s.disp.list < |s.heap| && s.disp.t < |s.received|
  {
    var t, list := s.disp.t, s.disp.list;
    s.(heap := s.heap[list := s.heap[list] + [t]],
       disp := if s.disp.created then Signalling(s.received[t].queue) else DIdle,
       lost := if list in s.queues.Values then s.lost else s.lost + {t})
  }

  function DoProduce(s: State): State
    requires s.prod.Got? && (s.prod.q in s.queues ==> s.queues[s.prod.q] < |s.heap|)
  {
    var q := s.prod.q;
    if q !in s.queues then s.(prod := PIdle)
    else if s.heap[s.queues[q]] == [] then s.(queues := s.queues - {q}, prod := PIdle)
    else s.(prod := Taking(q, s.queues[q]))
  }

  ghost function Exec(maxJobs: int, acts: seq<Action>): Option<State> {
    if acts == [] then Some(Start())
    else
      var n := |acts| - 1;
      var before := Exec(maxJobs, acts[..n]);
      if before.Some? && Enabled(maxJobs, before.value, acts[n]) then Some(Do(maxJobs, before.value, acts[n])) else None
  }

  ghost predicate Reachable(maxJobs: int, s: State) {
    exists acts :: Exec(maxJobs, acts) == Some(s)
  }

  /** The state after the steps `acts` from `s`, if all of them were possible. */
  ghost function After(maxJobs: int, s: State, acts: seq<Action>): Option<State>
    decreases |acts|
  {
    if acts == [] then Some(s)
    else if Enabled(maxJobs, s, acts[0]) then After(maxJobs, Do(maxJobs, s, acts[0]), acts[1..])
    else None
  }

  /** The commands that a sink has pushed in a run, in order. */
  function Pushes(acts: seq<Action>): seq<Command> {
    if acts == [] then [] else Pushes(acts[..|acts| - 1]) + Pushed1(acts[|acts| - 1])
  }

  function Pushed1(a: Action): seq<Command> { if a.PickDirect? || a.Dispatch? then [a.cmd] else [] }

  lemma PushesMore(acts: seq<Action>, a: Action)
    ensures Pushes(acts + [a]) == Pushes(acts) + Pushed1(a)
  {
    assert (acts + [a])[..|acts|] == acts;
  }

  /** A run carried on by one step. */
  lemma Then(maxJobs: int, acts: seq<Action>, s: State, a: Action) returns (acts': seq<Action>, s': State)
    requires Exec(maxJobs, acts) == Some(s) && Enabled(maxJobs, s, a)
    ensures acts' == acts + [a] && s' == Do(maxJobs, s, a) && Exec(maxJobs, acts') == Some(s')
  {
    acts', s' := acts + [a], Do(maxJobs, s, a);
    assert acts'[..|acts|] == acts;
  }

  // ---------------------------------------------------------------------------------------------
  // What a step leaves alone
  // ---------------------------------------------------------------------------------------------

  /** The steps that touch the lists. */
  predicate MovesLists(a: Action) { a.Dispatch? || a.Push? || a.Produce? || a.Take? }

  /** The steps that begin a job. */
  predicate BeginsJob(a: Action) { a.PickDirect? || a.PickQueued? || a.Call? }

  ghost predicate SameLists(s: State, s': State) {
    && s'.received == s.received && s'.heap == s.heap && s'.queues == s.queues
    && s'.handed == s.handed && s'.lost == s.lost
  }

  lemma {:induction false} ListsFrame(maxJobs: int, s: State, a: Action)
    requires Enabled(maxJobs, s, a) && !MovesLists(a)
    ensures SameLists(s, Do(maxJobs, s, a))
    ensures Do(maxJobs, s, a).disp == if a.SignalNew? then DIdle else s.disp
    ensures a.SignalNew? ==> s.disp.Signalling?
  {
  }

  /** The job that a step begins. */
  function NewJob(s: State, a: Action): Job
    requires BeginsJob(a) && (a.PickQueued? ==> s.prod.Sending? && s.prod.t < |s.received|)
  {
    if a.PickQueued? then Job(s.received[s.prod.t], Some(s.prod.t), true, Called, [])
    else Job(a.cmd, None, a.PickDirect?, Called, [])
  }

  lemma {:induction false} JobsFrame(maxJobs: int, s: State, a: Action)
    requires Enabled(maxJobs, s, a)
    ensures a.Go? ==> Do(maxJobs, s, a).jobs == s.jobs[a.n := JobAfter(s.jobs[a.n], s.runners, a.step)]
    ensures BeginsJob(a) ==> Do(maxJobs, s, a).jobs == s.jobs + [NewJob(s, a)]
    ensures !a.Go? && !BeginsJob(a) ==> Do(maxJobs, s, a).jobs == s.jobs
  {
  }
}
