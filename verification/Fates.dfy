/** What can become of a dispatch: runs of core0, a container and redis together. */
module Fates {
  import opened Wrappers
  import opened Answers
  import opened Routing
  import Manager
  import QueueLoss
  import Dispatches

  /** A run carried on by one step. */
  lemma Then(maxJobs: int, sinks: set<string>, acts: seq<Action>, s: State, a: Action)
    returns (acts': seq<Action>, s': State)
    requires Exec(maxJobs, sinks, acts) == Some(s) && Enabled(maxJobs, s, a)
    ensures acts' == acts + [a] && s' == Do(maxJobs, sinks, s, a) && Exec(maxJobs, sinks, acts') == Some(s')
  {
    acts', s' := acts + [a], Do(maxJobs, sinks, s, a);
    assert acts'[..|acts|] == acts;
  }

  // ---------------------------------------------------------------------------------------------
  // A container does whatever a process manager can do
  // ---------------------------------------------------------------------------------------------

  ghost predicate FreshIds(cmds: seq<Command>) {
    && (forall j :: 0 <= j < |cmds| ==> cmds[j].id != "")
    && (forall j, k :: 0 <= j < k < |cmds| ==> cmds[j].id != cmds[k].id)
  }

  /** Exactly these commands have been dispatched, to container `c`. */
  ghost predicate Sent(dispatched: map<string, Origin>, c: nat, cmds: seq<Command>) {
    && (forall id :: id in dispatched ==> exists j :: 0 <= j < |cmds| && cmds[j].id == id)
    && (forall j :: 0 <= j < |cmds| ==>
          cmds[j].id in dispatched && dispatched[cmds[j].id] == Origin(cmds[j].tags, c))
  }

  /** No result has been forwarded, lost or forgotten. */
  ghost predicate Untouched(s: State) {
    s.responses.taken == 0 && s.results == map[] && s.lost == {} && s.expired == {} && s.local == {}
  }

  ghost predicate Underway(s: State, c: nat, cmds: seq<Command>) {
    c in s.boxes && s.boxes[c].sent.all == cmds && Sent(s.dispatched, c, cmds) && Untouched(s)
  }

  lemma {:induction false} SentMore(dispatched: map<string, Origin>, c: nat, cmds: seq<Command>, cmd: Command)
    requires Sent(dispatched, c, cmds) && FreshIds(cmds + [cmd])
    ensures cmd.id != "" && cmd.id !in dispatched
    ensures Sent(dispatched[cmd.id := Origin(cmd.tags, c)], c, cmds + [cmd])
  {
    var all := cmds + [cmd];
    assert all[|cmds|] == cmd;
    forall j | 0 <= j < |cmds| ensures all[j] == cmds[j] && cmds[j].id != cmd.id {
    }
    forall id | id in dispatched ensures exists j :: 0 <= j < |all| && all[j].id == id {
      var j :| 0 <= j < |cmds| && cmds[j].id == id;
      assert all[j].id == id;
    }
  }

  lemma {:induction false} DispatchAll(maxJobs: int, sinks: set<string>, c: nat, cmds: seq<Command>)
    returns (acts: seq<Action>, s: State)
    requires c > 0 && FreshIds(cmds)
    ensures Exec(maxJobs, sinks, acts) == Some(s) && (cmds != [] ==> c in s.boxes)
    ensures BoxOf(s, c) == Box(Log(cmds, 0), false, Manager.Start(), []) && Sent(s.dispatched, c, cmds) && Untouched(s)
  {
    if cmds == [] {
      acts, s := [], Start();
    } else {
      var n := |cmds| - 1;
      var cmd := cmds[n];
      acts, s := DispatchAll(maxJobs, sinks, c, cmds[..n]);
      assert cmds == cmds[..n] + [cmd];
      SentMore(s.dispatched, c, cmds[..n], cmd);
      acts, s := Then(maxJobs, sinks, acts, s, Dispatch(cmd.tags, c, cmd.id, cmd.queue, cmd.known));
    }
  }

  /** The sink only pushes commands with a queue to the queue manager. */
  predicate OnlyQueued(steps: seq<Manager.Action>) {
    forall j :: 0 <= j < |steps| && steps[j].Dispatch? ==> steps[j].cmd.queue != ""
  }

  lemma {:induction false} PushOne(maxJobs: int, sinks: set<string>, acts: seq<Action>, s: State, c: nat,
                                   cmds: seq<Command>,
                                   step: Manager.Action)
    returns (acts': seq<Action>, s': State)
    requires Exec(maxJobs, sinks, acts) == Some(s) && Underway(s, c, cmds) && !s.boxes[c].held
    requires Submits(step) && Manager.Enabled(maxJobs, s.boxes[c].core, step)
    requires s.boxes[c].sent.taken < |cmds| && cmds[s.boxes[c].sent.taken] == step.cmd
    ensures Exec(maxJobs, sinks, acts') == Some(s') && Underway(s', c, cmds) && !s'.boxes[c].held
    ensures s'.boxes[c].sent.taken == s.boxes[c].sent.taken + 1
    ensures s'.boxes[c].core == Manager.Do(maxJobs, s.boxes[c].core, step)
  {
    acts', s' := Then(maxJobs, sinks, acts, s, Fetch(c));
    assert Pushing(step.cmd) == step;
    acts', s' := Then(maxJobs, sinks, acts', s', Submit(c));
  }

  lemma {:induction false} CoreOne(maxJobs: int, sinks: set<string>, acts: seq<Action>, s: State, c: nat,
                                   cmds: seq<Command>,
                                   step: Manager.Action)
    returns (acts': seq<Action>, s': State)
    requires Exec(maxJobs, sinks, acts) == Some(s) && Underway(s, c, cmds) && !s.boxes[c].held
    requires !step.PickDirect? && !step.Dispatch? && Manager.Enabled(maxJobs, s.boxes[c].core, step)
    ensures Exec(maxJobs, sinks, acts') == Some(s') && Underway(s', c, cmds) && !s'.boxes[c].held
    ensures s'.boxes[c].sent == s.boxes[c].sent && s'.boxes[c].core == Manager.Do(maxJobs, s.boxes[c].core, step)
  {
    acts', s' := Then(maxJobs, sinks, acts, s, Core(c, step, true));
  }

  /**
    Every run of a process manager, fed by a sink with commands that have ids of their own, is what some run of
    core0 and redis makes a container do. So whatever can happen to a command there can happen to a dispatch.
   */
  lemma {:induction false} ContainerDoes(maxJobs: int, sinks: set<string>, c: nat, cmds: seq<Command>,
                                         steps: seq<Manager.Action>)
    returns (acts: seq<Action>, s: State)
    requires c > 0 && cmds != [] && FreshIds(cmds) && OnlyQueued(steps)
    requires Manager.Exec(maxJobs, steps).Some? && Manager.Pushes(steps) <= cmds
    ensures Exec(maxJobs, sinks, acts) == Some(s) && Underway(s, c, cmds) && !s.boxes[c].held
    ensures s.boxes[c].sent.taken == |Manager.Pushes(steps)| && s.boxes[c].core == Manager.Exec(maxJobs, steps).value
  {
    if steps == [] {
      acts, s := DispatchAll(maxJobs, sinks, c, cmds);
    } else {
      var n := |steps| - 1;
      acts, s := ContainerDoes(maxJobs, sinks, c, cmds, steps[..n]);
      if Submits(steps[n]) {
        acts, s := PushOne(maxJobs, sinks, acts, s, c, cmds, steps[n]);
      } else {
        acts, s := CoreOne(maxJobs, sinks, acts, s, c, cmds, steps[n]);
      }
    }
  }

  // ---------------------------------------------------------------------------------------------
  // Lost in the container
  // ---------------------------------------------------------------------------------------------

  lemma {:induction false} DispatchIsPush(steps: seq<Manager.Action>, j: nat)
    requires j < |steps| && steps[j].Dispatch?
    ensures steps[j].cmd in Manager.Pushes(steps)
  {
    if j < |steps| - 1 {
      DispatchIsPush(steps[..|steps| - 1], j);
    }
  }

  lemma {:induction false} QueuedOnly(steps: seq<Manager.Action>)
    requires forall cmd :: cmd in Manager.Pushes(steps) ==> cmd.queue != ""
    ensures OnlyQueued(steps)
  {
    forall j | 0 <= j < |steps| && steps[j].Dispatch? ensures steps[j].cmd.queue != "" {
      DispatchIsPush(steps, j);
    }
  }

  /** Only the first step pushes. */
  lemma {:induction false} FirstPushes(steps: seq<Manager.Action>)
    requires steps != [] && steps[0].Dispatch?
    requires forall j :: 0 < j < |steps| ==> !steps[j].Dispatch? && !steps[j].PickDirect?
    ensures Manager.Pushes(steps) == [steps[0].cmd]
  {
    if |steps| == 1 {
      assert steps[..0] == [];
    } else {
      FirstPushes(steps[..|steps| - 1]);
    }
  }

  lemma FourMore(steps: seq<Manager.Action>, a: Manager.Action, b: Manager.Action, c: Manager.Action, d: Manager.Action)
    ensures Manager.Pushes(steps + [a] + [b] + [c] + [d]) ==
            Manager.Pushes(steps) + Manager.Pushed1(a) + Manager.Pushed1(b) + Manager.Pushed1(c) + Manager.Pushed1(d)
  {
    Manager.PushesMore(steps, a);
    Manager.PushesMore(steps + [a], b);
    Manager.PushesMore(steps + [a] + [b], c);
    Manager.PushesMore(steps + [a] + [b] + [c], d);
  }

  lemma {:induction false} LosingSteps(a: Command, b: Command) returns (steps: seq<Manager.Action>, m: Manager.State)
    requires a.known && a.queue == b.queue != ""
    ensures Manager.Exec(1, steps) == Some(m) && Manager.Pushes(steps) == [a, b] && m.received == [a, b] && 1 in m.lost
  {
    var one, m1 := QueueLoss.RunOne(a);
    steps, m := QueueLoss.NextCommandCanBeLost(1, one, m1, 0, b);
    FirstPushes(one);
    FourMore(one, Manager.Go(0, Manager.Notify), Manager.Dispatch(b), Manager.Produce, Manager.Push);
  }

  /** A dispatch can be lost inside: the second of two for one queue, when the first is done. */
  lemma {:induction false} CanBeLostInside(sinks: set<string>, c: nat, a: Command, b: Command)
    returns (acts: seq<Action>, s: State)
    requires c > 0 && a.id != "" && b.id != "" && a.id != b.id && a.known && a.queue == b.queue != ""
    ensures Exec(1, sinks, acts) == Some(s) && Underway(s, c, [a, b]) && LostInside(s.boxes[c], b.id)
  {
    var steps, m := LosingSteps(a, b);
    QueuedOnly(steps);
    acts, s := ContainerDoes(1, sinks, c, [a, b], steps);
    SecondIsMislaid(sinks, acts, s, c, a, b);
  }

  lemma {:induction false} SecondIsMislaid(sinks: set<string>, acts: seq<Action>, s: State, c: nat, a: Command,
                                           b: Command)
    requires Exec(1, sinks, acts) == Some(s) && Underway(s, c, [a, b])
    requires s.boxes[c].core.received == [a, b] && 1 in s.boxes[c].core.lost
    ensures LostInside(s.boxes[c], b.id)
  {
    BoxOfRun(1, sinks, acts, c);
    Dispatches.TraceIsSent(1, c, s.boxes[c], s.dispatched, 1, Queued(1));
    assert MislaidAt(s.boxes[c], 1, b.id);
  }

  // ---------------------------------------------------------------------------------------------
  // Answered, and then
  // ---------------------------------------------------------------------------------------------

  ghost predicate CanBe(maxJobs: int, sinks: set<string>, s: State) {
    exists acts :: Exec(maxJobs, sinks, acts) == Some(s)
  }

  lemma {:induction false} SingleResponse(responses: Log<Item>, dispatched: map<string, Origin>, id: string)
    requires ResponsesOk(responses, dispatched) && HasResponse(responses.all, id)
    requires forall other :: other in dispatched ==> other == id
    ensures id in dispatched && responses.all == [Item(id, dispatched[id].sink)]
  {
    var k: nat :| RespondedAt(responses.all, k, id);
    assert forall j :: 0 <= j < |responses.all| ==> responses.all[j].id == id;
    assert responses.all[0].id == responses.all[|responses.all| - 1].id;
  }

  /** The only dispatch has been answered: its result is the only one on the way. */
  lemma {:induction false} OnlyResponse(maxJobs: int, sinks: set<string>, acts: seq<Action>, s: State, c: nat,
                                        cmd: Command)
    requires Exec(maxJobs, sinks, acts) == Some(s) && Underway(s, c, [cmd]) && AnsweredIn(s.boxes[c], cmd.id)
    ensures s.responses.all == [Item(cmd.id, cmd.tags)]
  {
    assert [cmd][0] == cmd && cmd.id in s.dispatched && s.dispatched[cmd.id] == Origin(cmd.tags, c);
    MailOfRun(maxJobs, sinks, acts, cmd.id);
    SingleResponse(s.responses, s.dispatched, cmd.id);
  }

  lemma {:induction false} MailOfRun(maxJobs: int, sinks: set<string>, acts: seq<Action>, id: string)
    requires Exec(maxJobs, sinks, acts).Some?
    ensures var s := Exec(maxJobs, sinks, acts).value;
            && ResponsesOk(s.responses, s.dispatched)
            && (IsAnswered(s.boxes, s.dispatched, id) && id !in s.lost ==> HasResponse(s.responses.all, id))
  {
    RunKeeps(maxJobs, sinks, acts);
  }

  lemma {:induction false} ComesHome(maxJobs: int, sinks: set<string>, acts: seq<Action>, s: State, c: nat,
                                     cmd: Command)
    returns (acts': seq<Action>, s': State)
    requires Exec(maxJobs, sinks, acts) == Some(s) && Underway(s, c, [cmd]) && AnsweredIn(s.boxes[c], cmd.id)
    requires cmd.tags in sinks
    ensures Exec(maxJobs, sinks, acts') == Some(s') && s'.dispatched == s.dispatched
    ensures Results(s'.results, cmd.tags, cmd.id) == [Item(cmd.id, cmd.tags)]
  {
    OnlyResponse(maxJobs, sinks, acts, s, c, cmd);
    acts', s' := Then(maxJobs, sinks, acts, s, Forward(true));
  }

  lemma {:induction false} IsDropped(maxJobs: int, sinks: set<string>, acts: seq<Action>, s: State, c: nat,
                                     cmd: Command)
    returns (acts': seq<Action>, s': State)
    requires Exec(maxJobs, sinks, acts) == Some(s) && Underway(s, c, [cmd]) && AnsweredIn(s.boxes[c], cmd.id)
    ensures Exec(maxJobs, sinks, acts') == Some(s') && cmd.id in s'.lost
  {
    OnlyResponse(maxJobs, sinks, acts, s, c, cmd);
    acts', s' := Then(maxJobs, sinks, acts, s, Forward(false));
  }

  lemma {:induction false} ComesTooLate(maxJobs: int, sinks: set<string>, acts: seq<Action>, s: State, c: nat,
                                        cmd: Command)
    returns (acts': seq<Action>, s': State)
    requires Exec(maxJobs, sinks, acts) == Some(s) && Underway(s, c, [cmd]) && AnsweredIn(s.boxes[c], cmd.id)
    ensures Exec(maxJobs, sinks, acts') == Some(s') && cmd.id in s'.expired
  {
    OnlyResponse(maxJobs, sinks, acts, s, c, cmd);
    assert s.responses.all[0] in s.responses.all[0..];
    acts', s' := Then(maxJobs, sinks, acts, s, Expire);
  }

  /** From there it can come home, be dropped, or expire before or after it was forwarded. */
  lemma {:induction false} FatesOfResult(maxJobs: int, sinks: set<string>, acts: seq<Action>, s: State, c: nat,
                                         cmd: Command)
    returns (home: State, dropped: State, late: State, unread: State)
    requires Exec(maxJobs, sinks, acts) == Some(s) && Underway(s, c, [cmd]) && AnsweredIn(s.boxes[c], cmd.id)
    requires cmd.tags in sinks
    ensures CanBe(maxJobs, sinks, home) && cmd.id in home.dispatched && AtHome(home, cmd.id)
    ensures CanBe(maxJobs, sinks, dropped) && cmd.id in dropped.lost
    ensures CanBe(maxJobs, sinks, late) && cmd.id in late.expired
    ensures CanBe(maxJobs, sinks, unread) && cmd.id in unread.expired
  {
    assert [cmd][0] == cmd && cmd.id in s.dispatched && s.dispatched[cmd.id] == Origin(cmd.tags, c);
    var acts1, acts2, acts3, acts4;
    acts1, home := ComesHome(maxJobs, sinks, acts, s, c, cmd);
    acts2, dropped := IsDropped(maxJobs, sinks, acts, s, c, cmd);
    acts3, late := ComesTooLate(maxJobs, sinks, acts, s, c, cmd);
    acts4, unread := Then(maxJobs, sinks, acts1, home, ExpireResult(cmd.tags, cmd.id));
  }

  // ---------------------------------------------------------------------------------------------
  // Every dispatch can be answered
  // ---------------------------------------------------------------------------------------------

  lemma {:induction false} AnswerArrived(maxJobs: int, sinks: set<string>, acts: seq<Action>, s: State, c: nat,
                                         cmd: Command,
                                         tr: Trace)
    requires Exec(maxJobs, sinks, acts) == Some(s) && Underway(s, c, [cmd])
    requires IsTrace(s.boxes[c].core, tr) && CommandOf(s.boxes[c].core, tr) == cmd
          && AnsweredBy(s.boxes[c].core.jobs, 0, tr)
    ensures AnsweredIn(s.boxes[c], cmd.id)
  {
    BoxOfRun(maxJobs, sinks, acts, c);
    Dispatches.TraceIsSent(maxJobs, c, s.boxes[c], s.dispatched, 0, tr);
    assert AnsweredAt(s.boxes[c], 0, cmd.id);
  }

  lemma {:induction false} QueuedIsAnswered(sinks: set<string>, c: nat, cmd: Command)
    returns (acts: seq<Action>, s: State)
    requires c > 0 && cmd.id != "" && cmd.known && cmd.queue != ""
    ensures Exec(1, sinks, acts) == Some(s) && Underway(s, c, [cmd]) && AnsweredIn(s.boxes[c], cmd.id)
  {
    var steps, m := QueueLoss.RunOne(cmd);
    FirstPushes(steps);
    QueuedOnly(steps);
    acts, s := ContainerDoes(1, sinks, c, [cmd], steps);
    AnswerArrived(1, sinks, acts, s, c, cmd, Queued(0));
  }

  lemma {:induction false} DirectRun(cmd: Command) returns (steps: seq<Manager.Action>, m: Manager.State)
    requires cmd.queue == "" && cmd.known
    ensures steps ==
          [Manager.Check, Manager.PickDirect(cmd), Manager.Go(0, Manager.Register),
                Manager.Go(0, Manager.Report("SUCCESS"))]
    ensures Manager.Exec(1, steps) == Some(m) && |m.jobs| == 1 && m.jobs[0].cmd == cmd
    ensures m.jobs[0].byLoop && m.jobs[0].ticket == None && m.jobs[0].reports != []
  {
    steps, m := Manager.Then(1, [], Manager.Start(), Manager.Check);
    steps, m := Manager.Then(1, steps, m, Manager.PickDirect(cmd));
    steps, m := Manager.Then(1, steps, m, Manager.Go(0, Manager.Register));
    steps, m := Manager.Then(1, steps, m, Manager.Go(0, Manager.Report("SUCCESS")));
  }

  lemma {:induction false} DirectPushes(cmd: Command, steps: seq<Manager.Action>)
    requires |steps| == 4 && steps[1] == Manager.PickDirect(cmd)
    requires forall j :: 0 <= j < 4 && j != 1 ==> !steps[j].Dispatch? && !steps[j].PickDirect?
    ensures Manager.Pushes(steps) == [cmd]
  {
    assert steps == [] + [steps[0]] + [steps[1]] + [steps[2]] + [steps[3]];
    FourMore([], steps[0], steps[1], steps[2], steps[3]);
  }

  lemma {:induction false} DirectIsAnswered(sinks: set<string>, c: nat, cmd: Command)
    returns (acts: seq<Action>, s: State)
    requires c > 0 && cmd.id != "" && cmd.known && cmd.queue == ""
    ensures Exec(1, sinks, acts) == Some(s) && Underway(s, c, [cmd]) && AnsweredIn(s.boxes[c], cmd.id)
  {
    var steps, m := DirectRun(cmd);
    DirectPushes(cmd, steps);
    acts, s := ContainerDoes(1, sinks, c, [cmd], steps);
    AnswerArrived(1, sinks, acts, s, c, cmd, Direct(0));
  }

  /**
    Any known command that comes through a sink, with or without a queue, can be answered and its result come
    home; and it can be dropped, or expire on the way or at home.
   */
  lemma {:induction false} EveryFate(sinks: set<string>, c: nat, cmd: Command)
    returns (home: State, dropped: State, late: State, unread: State)
    requires c > 0 && cmd.id != "" && cmd.known && cmd.tags in sinks
    ensures CanBe(1, sinks, home) && cmd.id in home.dispatched && AtHome(home, cmd.id)
    ensures CanBe(1, sinks, dropped) && cmd.id in dropped.lost
    ensures CanBe(1, sinks, late) && cmd.id in late.expired
    ensures CanBe(1, sinks, unread) && cmd.id in unread.expired
  {
    var acts, s;
    if cmd.queue == "" {
      acts, s := DirectIsAnswered(sinks, c, cmd);
    } else {
      acts, s := QueuedIsAnswered(sinks, c, cmd);
    }
    home, dropped, late, unread := FatesOfResult(1, sinks, acts, s, c, cmd);
  }

  /** The answer of a container may get lost on its way into the response list, whichever it is. */
  lemma {:induction false} AnswerMayFail(maxJobs: int, s: State, sinks: set<string>, c: nat, step: Manager.Action)
    requires Enabled(maxJobs, s, Core(c, step, true)) && ResultOf(s.boxes[c].core, step).Some?
    ensures Enabled(maxJobs, s, Core(c, step, false))
    ensures var id := ResultOf(s.boxes[c].core, step).value.id;
            id in Do(maxJobs, sinks, s, Core(c, step, false)).lost
  {
  }

  /** The result of a command of core0 itself goes straight to the list of its sink, behind what is there. */
  lemma {:induction false} OwnResult(maxJobs: int, sinks: set<string>, s: State, sink: string, id: string)
    requires id != "" && id !in s.dispatched
    ensures Enabled(maxJobs, s, Local(sink, id))
    ensures var s' := Do(maxJobs, sinks, s, Local(sink, id));
            && Results(s'.results, sink, id) == Results(s.results, sink, id) + [Item(id, "")]
            && forall sink', id' :: (sink', id') != (sink, id) ==>
                 Results(s'.results, sink', id') == Results(s.results, sink', id')
  {
  }
}
