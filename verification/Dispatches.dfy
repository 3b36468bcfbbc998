/** What a container gets of what was dispatched to it: core0/containers/manager.go (`dispatch`) and base/sink.go. */
module Dispatches {
  import opened Wrappers
  import opened Answers
  import opened Routing
  import Manager
  import Serial

  // ---------------------------------------------------------------------------------------------
  // The list of a container only grows
  // ---------------------------------------------------------------------------------------------

  lemma {:induction false} SentGrows(maxJobs: int, sinks: set<string>, s: State, a: Action, c: nat)
    requires Enabled(maxJobs, s, a)
    ensures BoxOf(s, c).sent.all <= BoxOf(Do(maxJobs, sinks, s, a), c).sent.all
  {
  }

  /** Position `j` of the list of container `c` holds this command. */
  ghost predicate HoldsAt(s: State, c: nat, j: nat, cmd: Command) {
    j < |BoxOf(s, c).sent.all| && BoxOf(s, c).sent.all[j] == cmd
  }

  lemma {:induction false} StaysAt(maxJobs: int, sinks: set<string>, acts: seq<Action>, n: nat, c: nat, j: nat,
                                   cmd: Command)
    requires Exec(maxJobs, sinks, acts).Some? && n <= |acts| && Exec(maxJobs, sinks, acts[..n]).Some?
    requires HoldsAt(Exec(maxJobs, sinks, acts[..n]).value, c, j, cmd)
    ensures HoldsAt(Exec(maxJobs, sinks, acts).value, c, j, cmd)
  {
    if n == |acts| {
      assert acts[..n] == acts;
    } else {
      var m := |acts| - 1;
      assert acts[..m][..n] == acts[..n];
      StaysAt(maxJobs, sinks, acts[..m], n, c, j, cmd);
      StaysOneStep(maxJobs, sinks, acts, c, j, cmd);
    }
  }

  lemma {:induction false} StaysOneStep(maxJobs: int, sinks: set<string>, acts: seq<Action>, c: nat, j: nat,
                                        cmd: Command)
    requires Exec(maxJobs, sinks, acts).Some? && acts != []
    requires HoldsAt(Exec(maxJobs, sinks, acts[..|acts| - 1]).value, c, j, cmd)
    ensures HoldsAt(Exec(maxJobs, sinks, acts).value, c, j, cmd)
  {
    var m := |acts| - 1;
    SentGrows(maxJobs, sinks, Exec(maxJobs, sinks, acts[..m]).value, acts[m], c);
  }

  lemma {:induction false} ExecPrefix(maxJobs: int, sinks: set<string>, acts: seq<Action>, n: nat)
    requires Exec(maxJobs, sinks, acts).Some? && n <= |acts|
    ensures Exec(maxJobs, sinks, acts[..n]).Some?
  {
    if n == |acts| {
      assert acts[..n] == acts;
    } else {
      var m := |acts| - 1;
      assert acts[..m][..n] == acts[..n];
      ExecPrefix(maxJobs, sinks, acts[..m], n);
    }
  }

  /** Where in the list a dispatch puts its command: at the end. */
  lemma {:induction false} DispatchPuts(maxJobs: int, sinks: set<string>, acts: seq<Action>, n: nat) returns (j: nat)
    requires Exec(maxJobs, sinks, acts).Some? && n < |acts| && acts[n].Dispatch?
    ensures Exec(maxJobs, sinks, acts[..n]).Some?
          && j == |BoxOf(Exec(maxJobs, sinks, acts[..n]).value, acts[n].container).sent.all|
    ensures HoldsAt(Exec(maxJobs, sinks, acts).value, acts[n].container, j,
                    Manager.Command(acts[n].id, acts[n].queue, acts[n].known, acts[n].sink))
  {
    ExecPrefix(maxJobs, sinks, acts, n);
    ExecPrefix(maxJobs, sinks, acts, n + 1);
    assert acts[..n + 1][..n] == acts[..n];
    j := |BoxOf(Exec(maxJobs, sinks, acts[..n]).value, acts[n].container).sent.all|;
    StaysAt(maxJobs, sinks, acts, n + 1, acts[n].container, j,
            Manager.Command(acts[n].id, acts[n].queue, acts[n].known, acts[n].sink));
  }

  // ---------------------------------------------------------------------------------------------
  // The command in the container is the one that was dispatched
  // ---------------------------------------------------------------------------------------------

  /** The command is the only one with its id in the list of the container and in its process manager. */
  ghost predicate OnlyOne(box: Box, cmd: Command) {
    && (exists j :: 0 <= j < |box.sent.all| && box.sent.all[j] == cmd)
    && (forall j :: 0 <= j < |box.sent.all| && box.sent.all[j].id == cmd.id ==> box.sent.all[j] == cmd)
    && (forall t :: 0 <= t < |box.core.received| && box.core.received[t].id == cmd.id ==> box.core.received[t] == cmd)
    && (forall n :: 0 <= n < |box.core.jobs| && box.core.jobs[n].byLoop && box.core.jobs[n].cmd.id == cmd.id ==>
          box.core.jobs[n].cmd == cmd)
  }

  lemma {:induction false} TraceIsSent(maxJobs: int, c: nat, box: Box, dispatched: map<string, Origin>, j: nat,
                                       tr: Trace)
    requires BoxInv(maxJobs, c, box, dispatched) && j < |box.sent.all| && IsTrace(box.core, tr)
    requires CommandOf(box.core, tr).id == box.sent.all[j].id
    ensures j < |box.traces| && box.traces[j] == tr && CommandOf(box.core, tr) == box.sent.all[j]
  {
    var k: nat :| k < |box.traces| && box.traces[k] == tr;
    assert box.sent.all[k].id == box.sent.all[j].id;
  }

  lemma {:induction false} LoopJobIsTrace(maxJobs: int, core: Manager.State, n: nat)
    requires Manager.Reachable(maxJobs, core) && n < |core.jobs| && core.jobs[n].byLoop
    ensures IsTrace(core, TraceOf(core.jobs, n)) && CommandOf(core, TraceOf(core.jobs, n)) == core.jobs[n].cmd
  {
    CoreFacts(maxJobs, core);
  }

  lemma {:induction false} SentIsOnly(maxJobs: int, c: nat, box: Box, dispatched: map<string, Origin>, j: nat)
    requires BoxInv(maxJobs, c, box, dispatched) && j < |box.sent.all|
    ensures OnlyOne(box, box.sent.all[j])
  {
    var cmd := box.sent.all[j];
    forall t: nat | t < |box.core.received| && box.core.received[t].id == cmd.id ensures box.core.received[t] == cmd {
      TraceIsSent(maxJobs, c, box, dispatched, j, Queued(t));
    }
    forall n: nat | n < |box.core.jobs| && box.core.jobs[n].byLoop && box.core.jobs[n].cmd.id == cmd.id
      ensures box.core.jobs[n].cmd == cmd
    {
      LoopJobIsTrace(maxJobs, box.core, n);
      TraceIsSent(maxJobs, c, box, dispatched, j, TraceOf(box.core.jobs, n));
    }
  }

  /**
    Over every run, a dispatch arrives as it was: the only command with its id in the list of the container and
    in its process manager is the dispatched one, with its queue, and with the sink as its tags.
   */
  lemma {:induction false} ArrivesAsDispatched(maxJobs: int, sinks: set<string>, acts: seq<Action>, n: nat,
                                               sink: string,
                                               c: nat, id: string, queue: string, known: bool)
    requires Exec(maxJobs, sinks, acts).Some? && n < |acts| && acts[n] == Dispatch(sink, c, id, queue, known)
    ensures c in Exec(maxJobs, sinks, acts).value.boxes
    ensures OnlyOne(Exec(maxJobs, sinks, acts).value.boxes[c], Manager.Command(id, queue, known, sink))
  {
    var j := DispatchPuts(maxJobs, sinks, acts, n);
    BoxOfRun(maxJobs, sinks, acts, c);
    var s := Exec(maxJobs, sinks, acts).value;
    SentIsOnly(maxJobs, c, s.boxes[c], s.dispatched, j);
  }

  // ---------------------------------------------------------------------------------------------
  // Serial queues, over both hops
  // ---------------------------------------------------------------------------------------------

  /** Commands of queues have their tickets in the order of the list. */
  ghost predicate TicketsRise(traces: seq<Trace>) {
    forall j, k :: 0 <= j < k < |traces| && traces[j].Queued? && traces[k].Queued? ==> traces[j].t < traces[k].t
  }

  lemma {:induction false} TicketsStep(maxJobs: int, sinks: set<string>, s: State, a: Action, c: nat)
    requires Enabled(maxJobs, s, a) && TicketsRise(BoxOf(s, c).traces)
    requires forall j :: 0 <= j < |BoxOf(s, c).traces| ==> IsTrace(BoxOf(s, c).core, BoxOf(s, c).traces[j])
    ensures TicketsRise(BoxOf(Do(maxJobs, sinks, s, a), c).traces)
  {
  }

  lemma {:induction false} RunTickets(maxJobs: int, sinks: set<string>, acts: seq<Action>, c: nat)
    requires Exec(maxJobs, sinks, acts).Some?
    ensures TicketsRise(BoxOf(Exec(maxJobs, sinks, acts).value, c).traces)
  {
    if acts != [] {
      var n := |acts| - 1;
      RunTickets(maxJobs, sinks, acts[..n], c);
      var s := Exec(maxJobs, sinks, acts[..n]).value;
      if c in s.boxes {
        BoxOfRun(maxJobs, sinks, acts[..n], c);
      }
      TicketsStep(maxJobs, sinks, s, acts[n], c);
    }
  }

  /** The job of container `c` that runs a command with the id, and came from its sink. */
  ghost predicate RunsId(box: Box, n: nat, id: string) {
    n < |box.core.jobs| && box.core.jobs[n].byLoop && box.core.jobs[n].cmd.id == id
  }

  /** The command has been refused, or its runner has ended and left the table. */
  predicate IsOver(ph: Manager.Phase) { ph.Refusing? || ph.Refused? || ph.Waking? || ph.Gone? }

  /** Of two jobs of one queue, the one with the lower ticket is the earlier one, and it is over. */
  lemma {:induction false} LowerTicketFirst(maxJobs: int, core: Manager.State, n: nat, m: nat)
    requires Manager.Reachable(maxJobs, core) && n < |core.jobs| && m < |core.jobs|
    requires core.jobs[n].cmd.queue == core.jobs[m].cmd.queue != ""
    requires core.jobs[n].ticket.Some? && core.jobs[m].ticket.Some?
    requires core.jobs[n].ticket.value < core.jobs[m].ticket.value
    ensures n < m && IsOver(core.jobs[n].phase)
  {
    var acts :| Manager.Exec(maxJobs, acts) == Some(core);
    if n < m {
      Serial.SerialInOrder(maxJobs, acts, n, m);
    } else {
      assert n != m;
      Serial.SerialInOrder(maxJobs, acts, m, n);
    }
  }

  /** The job that runs the `j`-th command has the ticket of its trace. */
  lemma {:induction false} TicketOfSent(maxJobs: int, c: nat, box: Box, dispatched: map<string, Origin>, j: nat, n: nat)
    requires BoxInv(maxJobs, c, box, dispatched) && j < |box.sent.all| && box.sent.all[j].queue != ""
    requires RunsId(box, n, box.sent.all[j].id)
    ensures j < |box.traces| && box.traces[j].Queued? && box.core.jobs[n].ticket == Some(box.traces[j].t)
    ensures box.core.jobs[n].cmd == box.sent.all[j]
  {
    LoopJobIsTrace(maxJobs, box.core, n);
    TraceIsSent(maxJobs, c, box, dispatched, j, TraceOf(box.core.jobs, n));
    if box.core.jobs[n].ticket.None? {
      DirectHasNoQueue(maxJobs, box.core, n);
    }
  }

  lemma DirectHasNoQueue(maxJobs: int, core: Manager.State, n: nat)
    requires Manager.Reachable(maxJobs, core) && n < |core.jobs| && core.jobs[n].ticket.None?
    ensures core.jobs[n].cmd.queue == ""
  {
    CoreFacts(maxJobs, core);
  }

  lemma {:induction false} InListOrder(maxJobs: int, c: nat, box: Box, dispatched: map<string, Origin>, j: nat,
                                       k: nat, n: nat, m: nat)
    requires BoxInv(maxJobs, c, box, dispatched) && TicketsRise(box.traces) && j < k < |box.sent.all|
    requires box.sent.all[j].queue == box.sent.all[k].queue != ""
    requires RunsId(box, n, box.sent.all[j].id) && RunsId(box, m, box.sent.all[k].id)
    ensures n < m && IsOver(box.core.jobs[n].phase)
  {
    TicketOfSent(maxJobs, c, box, dispatched, j, n);
    TicketOfSent(maxJobs, c, box, dispatched, k, m);
    LowerTicketFirst(maxJobs, box.core, n, m);
  }

  /**
    Over every run, through both hops: two commands that were dispatched to one container with one queue are
    run in the order of the dispatches, and the second is not started before the first is over.
   */
  lemma {:induction false} SerialOverBothHops(maxJobs: int, sinks: set<string>, acts: seq<Action>, a: nat, b: nat,
                                              n: nat, m: nat)
    requires Exec(maxJobs, sinks, acts).Some? && a < b < |acts| && acts[a].Dispatch? && acts[b].Dispatch?
    requires acts[a].container == acts[b].container && acts[a].queue == acts[b].queue != ""
    requires RunsId(BoxOf(Exec(maxJobs, sinks, acts).value, acts[a].container), n, acts[a].id)
    requires RunsId(BoxOf(Exec(maxJobs, sinks, acts).value, acts[a].container), m, acts[b].id)
    ensures n < m && IsOver(BoxOf(Exec(maxJobs, sinks, acts).value, acts[a].container).core.jobs[n].phase)
  {
    var s, c := Exec(maxJobs, sinks, acts).value, acts[a].container;
    var j := DispatchPuts(maxJobs, sinks, acts, a);
    var k := DispatchPuts(maxJobs, sinks, acts, b);
    FirstIsBefore(maxJobs, sinks, acts, a, b, j);
    BoxOfRun(maxJobs, sinks, acts, c);
    RunTickets(maxJobs, sinks, acts, c);
    InListOrder(maxJobs, c, s.boxes[c], s.dispatched, j, k, n, m);
  }

  lemma {:induction false} FirstIsBefore(maxJobs: int, sinks: set<string>, acts: seq<Action>, a: nat, b: nat, j: nat)
    requires Exec(maxJobs, sinks, acts).Some? && a < b < |acts| && acts[a].Dispatch?
          && Exec(maxJobs, sinks, acts[..a]).Some?
    requires j == |BoxOf(Exec(maxJobs, sinks, acts[..a]).value, acts[a].container).sent.all|
    ensures Exec(maxJobs, sinks, acts[..b]).Some?
    ensures j < |BoxOf(Exec(maxJobs, sinks, acts[..b]).value, acts[a].container).sent.all|
  {
    ExecPrefix(maxJobs, sinks, acts, b);
    assert acts[..b][..a] == acts[..a] && acts[..b][a] == acts[a];
    var j' := DispatchPuts(maxJobs, sinks, acts[..b], a);
  }
}
