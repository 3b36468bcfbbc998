/**
  Commands for containers and their results, over two hops: core0/containers/manager.go (`dispatch`,
  `forwardNext`), base/sink.go and base/sinkclient.go. Every container's coreX has a sink loop and a whole
  process manager (Manager.dfy). The redis lists are sequences; the steps of core0, of every coreX and of
  the forwarder interleave freely.
 */
module Routing {
  import opened Wrappers
  import opened Answers
  import Manager
  import Tokens
  import QueueLoss

  type Command = Manager.Command

  /** A result: the id and the tags are those of the command (base/pm/pm.go:396). */
  datatype Item = Item(id: string, tags: string)

  /** A redis list together with its past: the entries before `taken` have been popped. */
  datatype Log<T> = Log(all: seq<T>, taken: nat)

  /**
    One container. If `held`, its sink loop has popped a command and not pushed it to the process manager
    yet. History: `traces[j]` is the place of `sent.all[j]` in the process manager.
   */
  datatype Box = Box(sent: Log<Command>, held: bool, core: Manager.State, traces: seq<Trace>)

  /** Where a dispatch came from and where it went. */
  datatype Origin = Origin(sink: string, container: nat)

  datatype State = State(
    boxes: map<nat, Box>,
    responses: Log<Item>,                      // corex:results
    results: map<(string, string), seq<Item>>, // behind each sink, result:<id>
    dispatched: map<string, Origin>,           // history: by id
    local: set<string>,                        // history: ids of commands that core0 runs itself
    lost: set<string>,                         // history: ids whose result could not be delivered
    expired: set<string>)                      // history: ids whose result was delivered and expired in its list

  datatype Action =
    | Dispatch(sink: string, container: nat, id: string, queue: string, known: bool)  // corex.dispatch, with a new id
    | Fetch(c: nat)                                           // coreX, sink loop: GetNext
    | Submit(c: nat)                                          // coreX, sink loop: PushCmd or PushCmdToQueue
    | Core(c: nat, step: Manager.Action, delivered: bool)     // coreX: any other step of the process manager
    | Forward(delivered: bool)                                // core0: forwardNext
    | Local(sink: string, id: string)                         // core0: the result of a command of its own
    | Expire                                                  // redis: corex:results, not used for 300 seconds
    | ExpireResult(sink: string, id: string)                  // redis: result:<id>, 300 seconds after its result

  function EmptyBox(): Box { Box(Log([], 0), false, Manager.Start(), []) }

  function Start(): State { State(map[], Log([], 0), map[], map[], {}, {}, {}) }

  function BoxOf(s: State, c: nat): Box { if c in s.boxes then s.boxes[c] else EmptyBox() }

  function Results(results: map<(string, string), seq<Item>>, sink: string, id: string): seq<Item> {
    if (sink, id) in results then results[(sink, id)] else []
  }

  // ---------------------------------------------------------------------------------------------
  // Steps
  // ---------------------------------------------------------------------------------------------

  /** How the sink loop pushes a command. */
  function Pushing(cmd: Command): Manager.Action {
    if cmd.queue == "" then Manager.PickDirect(cmd) else Manager.Dispatch(cmd)
  }

  ghost predicate CanSubmit(maxJobs: int, box: Box) {
    && box.held && 0 < box.sent.taken <= |box.sent.all|
    && Manager.Enabled(maxJobs, box.core, Pushing(box.sent.all[box.sent.taken - 1]))
  }

  /** Ids are new: a dispatch draws one that is in use nowhere, and clients do not name one that was drawn. */
  ghost predicate Enabled(maxJobs: int, s: State, a: Action) {
    match a
    case Dispatch(_, c, id, _, _) => c > 0 && id != "" && id !in s.dispatched && id !in s.local
    case Fetch(c) => c in s.boxes && !s.boxes[c].held && s.boxes[c].sent.taken < |s.boxes[c].sent.all|
    case Submit(c) => c in s.boxes && CanSubmit(maxJobs, s.boxes[c])
    case Core(c, step, _) =>
      c in s.boxes && !step.PickDirect? && !step.Dispatch? && Manager.Enabled(maxJobs, s.boxes[c].core, step)
    case Forward(_) => s.responses.taken < |s.responses.all|
    case Local(_, id) => id != "" && id !in s.dispatched
    case Expire => s.responses.taken < |s.responses.all|
    case ExpireResult(sink, id) => Results(s.results, sink, id) != []
  }

  ghost function Submitted(maxJobs: int, box: Box): Box
    requires CanSubmit(maxJobs, box)
  {
    var a := Pushing(box.sent.all[box.sent.taken - 1]);
    box.(held := false, core := Manager.Do(maxJobs, box.core, a), traces := box.traces + [NewTrace(box.core, a)])
  }

  /** The result that a step of the process manager hands to the sink, if it does. */
  function ResultOf(core: Manager.State, step: Manager.Action): Option<Item> {
    if Answers.Answers(core, step) then Some(Item(core.jobs[step.n].cmd.id, core.jobs[step.n].cmd.tags)) else None
  }

  ghost function Do(maxJobs: int, sinks: set<string>, s: State, a: Action): State
    requires Enabled(maxJobs, s, a)
  {
    match a
    case Dispatch(sink, c, id, queue, known) =>
      var box := BoxOf(s, c);
      var sent := Log(box.sent.all + [Manager.Command(id, queue, known, sink)], box.sent.taken);
      s.(boxes := s.boxes[c := box.(sent := sent)], dispatched := s.dispatched[id := Origin(sink, c)])
    case Fetch(c) =>
      var box := s.boxes[c];
      s.(boxes := s.boxes[c := box.(held := true, sent := Log(box.sent.all, box.sent.taken + 1))])
    case Submit(c) => s.(boxes := s.boxes[c := Submitted(maxJobs, s.boxes[c])])
    case Core(c, step, delivered) =>
      var box := s.boxes[c];
      var box' := box.(core := Manager.Do(maxJobs, box.core, step));
      Respond(s.(boxes := s.boxes[c := box']), ResultOf(box.core, step), delivered)
    case Forward(delivered) => DoForward(sinks, s, delivered)
    case Local(sink, id) => WithLocal(s, sink, id)
    case Expire => DoExpire(s)
    case ExpireResult(sink, id) => WithoutResult(s, sink, id)
  }

  function WithLocal(s: State, sink: string, id: string): State {
    s.(results := s.results[(sink, id) := Results(s.results, sink, id) + [Item(id, "")]], local := s.local + {id})
  }

  function WithoutResult(s: State, sink: string, id: string): State {
    s.(results := s.results - {(sink, id)}, expired := if id in s.dispatched then s.expired + {id} else s.expired)
  }

  /** Everything that was not forwarded yet is gone. */
  function DoExpire(s: State): State
    requires s.responses.taken <= |s.responses.all|
  {
    var rest := s.responses.all[s.responses.taken..];
    s.(responses := Log(s.responses.all, |s.responses.all|), expired := s.expired + set x | x in rest :: x.id)
  }

  /** The sink client of a container: it has a response queue. */
  function Respond(s: State, x: Option<Item>, delivered: bool): State {
    if x.None? then s
    else if delivered then s.(responses := Log(s.responses.all + [x.value], s.responses.taken))
    else s.(lost := s.lost + {x.value.id})
  }

  /** `forwardNext`: the tags name the sink, whose client has no response queue. */
  function DoForward(sinks: set<string>, s: State, delivered: bool): State
    requires s.responses.taken < |s.responses.all|
  {
    var x := s.responses.all[s.responses.taken];
    var s' := s.(responses := Log(s.responses.all, s.responses.taken + 1));
    if x.tags in sinks && delivered then
      s'.(results := s.results[(x.tags, x.id) := Results(s.results, x.tags, x.id) + [x]])
    else s'.(lost := s.lost + {x.id})
  }

  ghost function Exec(maxJobs: int, sinks: set<string>, acts: seq<Action>): Option<State> {
    if acts == [] then Some(Start())
    else
      var n := |acts| - 1;
      var before := Exec(maxJobs, sinks, acts[..n]);
      if before.Some? && Enabled(maxJobs, before.value, acts[n]) then Some(Do(maxJobs, sinks, before.value, acts[n]))
      else None
  }

  // ---------------------------------------------------------------------------------------------
  // One container
  // ---------------------------------------------------------------------------------------------

  /** The `j`-th command for the container is dispatched id `id`. */
  ghost predicate SentAt(box: Box, j: nat, id: string) { j < |box.sent.all| && box.sent.all[j].id == id }

  ghost predicate SentOk(c: nat, sent: seq<Command>, dispatched: map<string, Origin>) {
    && (forall j :: 0 <= j < |sent| ==> sent[j].id in dispatched && dispatched[sent[j].id] == Origin(sent[j].tags, c))
    && (forall j, k :: 0 <= j < k < |sent| ==> sent[j].id != sent[k].id)
  }

  /** The process manager of the container has exactly the commands that its sink has pushed. */
  ghost predicate TracesOk(core: Manager.State, traces: seq<Trace>, sent: seq<Command>) {
    && |traces| <= |sent|
    && (forall j :: 0 <= j < |traces| ==> IsTrace(core, traces[j]) && CommandOf(core, traces[j]) == sent[j])
    && (forall tr :: IsTrace(core, tr) ==> tr in traces)
  }

  ghost predicate BoxInv(maxJobs: int, c: nat, box: Box, dispatched: map<string, Origin>) {
    && Manager.Reachable(maxJobs, box.core)
    && box.sent.taken <= |box.sent.all| && |box.traces| == box.sent.taken - (if box.held then 1 else 0)
    && SentOk(c, box.sent.all, dispatched)
    && TracesOk(box.core, box.traces, box.sent.all)
  }

  ghost predicate AnsweredAt(box: Box, j: nat, id: string) {
    j < |box.traces| && SentAt(box, j, id) && Answered(box.core, box.traces[j])
  }

  ghost predicate AnsweredIn(box: Box, id: string) { exists j: nat :: AnsweredAt(box, j, id) }

  lemma StaysReachable(maxJobs: int, core: Manager.State, step: Manager.Action)
    requires Manager.Reachable(maxJobs, core) && Manager.Enabled(maxJobs, core, step)
    ensures Manager.Reachable(maxJobs, Manager.Do(maxJobs, core, step))
  {
    var acts :| Manager.Exec(maxJobs, acts) == Some(core);
    var acts', core' := Manager.Then(maxJobs, acts, core, step);
  }

  /** What is known of the process manager of a container. */
  lemma CoreFacts(maxJobs: int, core: Manager.State)
    requires Manager.Reachable(maxJobs, core)
    ensures Tokens.JobsOk(core.received, core.jobs) && TicketsByLoop(core.jobs)
  {
    var acts :| Manager.Exec(maxJobs, acts) == Some(core);
    Tokens.RunQueueInv(maxJobs, acts);
    RunTicketsByLoop(maxJobs, acts);
  }

  lemma {:induction false} SubmitTraces(maxJobs: int, box: Box)
    requires TracesOk(box.core, box.traces, box.sent.all) && CanSubmit(maxJobs, box)
          && |box.traces| == box.sent.taken - 1
    ensures var box' := Submitted(maxJobs, box);
            TracesOk(box'.core, box'.traces, box'.sent.all)
  {
    var box', a := Submitted(maxJobs, box), Pushing(box.sent.all[box.sent.taken - 1]);
    assert Submits(a);
    TraceStep(maxJobs, box.core, a, NewTrace(box.core, a));
    forall j | 0 <= j < |box'.traces|
      ensures IsTrace(box'.core, box'.traces[j]) && CommandOf(box'.core, box'.traces[j]) == box'.sent.all[j]
    {
      TraceStep(maxJobs, box.core, a, box'.traces[j]);
    }
    forall tr | IsTrace(box'.core, tr) ensures tr in box'.traces {
      TraceStep(maxJobs, box.core, a, tr);
    }
  }

  lemma {:induction false} SubmitAnswers(maxJobs: int, box: Box, id: string)
    requires Manager.Reachable(maxJobs, box.core) && TracesOk(box.core, box.traces, box.sent.all)
    requires CanSubmit(maxJobs, box) && |box.traces| == box.sent.taken - 1
    ensures AnsweredIn(Submitted(maxJobs, box), id) <==> AnsweredIn(box, id)
  {
    var box', a := Submitted(maxJobs, box), Pushing(box.sent.all[box.sent.taken - 1]);
    CoreFacts(maxJobs, box.core);
    NewIsUnanswered(maxJobs, box.core, a);
    forall j: nat ensures AnsweredAt(box', j, id) <==> AnsweredAt(box, j, id) {
      if j < |box.traces| {
        AnswerStep(maxJobs, box.core, a, box.traces[j]);
      }
    }
  }

  lemma {:induction false} CoreTraces(maxJobs: int, box: Box, step: Manager.Action)
    requires TracesOk(box.core, box.traces, box.sent.all)
    requires Manager.Enabled(maxJobs, box.core, step) && !step.PickDirect? && !step.Dispatch?
    ensures TracesOk(Manager.Do(maxJobs, box.core, step), box.traces, box.sent.all)
  {
    var core' := Manager.Do(maxJobs, box.core, step);
    forall j | 0 <= j < |box.traces|
      ensures IsTrace(core', box.traces[j]) && CommandOf(core', box.traces[j]) == box.sent.all[j]
    {
      TraceStep(maxJobs, box.core, step, box.traces[j]);
    }
    forall tr | IsTrace(core', tr) ensures tr in box.traces {
      TraceStep(maxJobs, box.core, step, tr);
    }
  }

  /** A step of the process manager answers at most one command, which was not answered before. */
  lemma {:induction false} CoreAnswers(maxJobs: int, c: nat, box: Box, dispatched: map<string, Origin>,
                                       step: Manager.Action, id: string)
    requires BoxInv(maxJobs, c, box, dispatched)
    requires Manager.Enabled(maxJobs, box.core, step) && !step.PickDirect? && !step.Dispatch?
    ensures var box', x := box.(core := Manager.Do(maxJobs, box.core, step)), ResultOf(box.core, step);
            && (AnsweredIn(box', id) <==> AnsweredIn(box, id) || (x.Some? && x.value.id == id))
            && (x.Some? ==> !AnsweredIn(box, x.value.id))
            && (x.Some? ==> x.value.id in dispatched && dispatched[x.value.id] == Origin(x.value.tags, c))
  {
    var core, core', x := box.core, Manager.Do(maxJobs, box.core, step), ResultOf(box.core, step);
    var box' := box.(core := core');
    CoreFacts(maxJobs, core);
    forall j: nat | j < |box.traces|
      ensures Answered(core', box.traces[j]) <==>
              Answered(core, box.traces[j]) || (x.Some? && box.traces[j] == TraceOf(core.jobs, step.n))
    {
      AnswerStep(maxJobs, core, step, box.traces[j]);
    }
    forall j: nat | AnsweredAt(box, j, id) ensures AnsweredAt(box', j, id) {
    }
    if x.Some? {
      var acts :| Manager.Exec(maxJobs, acts) == Some(core);
      AnsweredOnce(maxJobs, acts, core, step);
      var tr := TraceOf(core.jobs, step.n);
      var j: nat :| j < |box.traces| && box.traces[j] == tr;
      assert box.sent.all[j] == core.jobs[step.n].cmd;
      assert AnsweredAt(box', j, x.value.id);
      assert forall k: nat :: SentAt(box, k, x.value.id) ==> k == j;
    }
    forall j: nat | AnsweredAt(box', j, id) && !AnsweredAt(box, j, id) ensures x.Some? && x.value.id == id {
      assert box.sent.all[j] == core.jobs[step.n].cmd;
    }
  }

  // ---------------------------------------------------------------------------------------------
  // All of it
  // ---------------------------------------------------------------------------------------------

  ghost predicate EveryBox(maxJobs: int, boxes: map<nat, Box>, dispatched: map<string, Origin>) {
    forall c :: c in boxes ==> BoxInv(maxJobs, c, boxes[c], dispatched)
  }

  /** Every dispatched id was pushed to the list of its container. */
  ghost predicate EveryId(boxes: map<nat, Box>, dispatched: map<string, Origin>) {
    forall id :: id in dispatched ==>
      dispatched[id].container in boxes && HasBeenSent(boxes[dispatched[id].container], id)
  }

  ghost predicate BoxesInv(maxJobs: int, boxes: map<nat, Box>, dispatched: map<string, Origin>) {
    EveryBox(maxJobs, boxes, dispatched) && EveryId(boxes, dispatched)
  }

  ghost predicate HasBeenSent(box: Box, id: string) { exists j: nat :: SentAt(box, j, id) }

  ghost predicate RespondedAt(all: seq<Item>, k: nat, id: string) { k < |all| && all[k].id == id }

  /** Each dispatched id has at most one result on its way. */
  ghost predicate ResponsesOk(responses: Log<Item>, dispatched: map<string, Origin>) {
    && responses.taken <= |responses.all|
    && (forall k :: 0 <= k < |responses.all| ==>
          responses.all[k].id in dispatched && dispatched[responses.all[k].id].sink == responses.all[k].tags)
    && (forall j, k :: 0 <= j < k < |responses.all| ==> responses.all[j].id != responses.all[k].id)
  }

  /** What was forwarded is at home or gone, that is, lost or expired; what was not is neither. */
  ghost predicate ForwardedOk(sinks: set<string>, responses: Log<Item>, results: map<(string, string), seq<Item>>,
                              gone: set<string>) {
    forall k :: 0 <= k < |responses.all| ==>
      var x := responses.all[k];
      if k < responses.taken && x.id !in gone then x.tags in sinks && Results(results, x.tags, x.id) == [x]
      else (k >= responses.taken ==> x.id !in gone) && Results(results, x.tags, x.id) == []
  }

  ghost predicate HasResponse(all: seq<Item>, id: string) { exists k: nat :: RespondedAt(all, k, id) }

  /** A result of `id` was put on the way to `sink`. */
  ghost predicate SentHome(all: seq<Item>, sink: string, id: string) {
    exists k: nat :: RespondedAt(all, k, id) && all[k].tags == sink
  }

  /** A list of results holds results of its own: forwarded ones, or those of core0 itself. */
  ghost predicate ListsOk(all: seq<Item>, results: map<(string, string), seq<Item>>, dispatched: map<string, Origin>,
                          local: set<string>) {
    forall sink, id :: Results(results, sink, id) != [] ==>
      if id in dispatched then SentHome(all, sink, id) else id in local
  }

  ghost predicate HistoryOk(dispatched: map<string, Origin>, local: set<string>, lost: set<string>) {
    (forall id :: id in local ==> id !in dispatched) && (forall id :: id in lost ==> id in dispatched)
  }

  ghost predicate MailInv(sinks: set<string>, s: State) {
    && ResponsesOk(s.responses, s.dispatched)
    && ForwardedOk(sinks, s.responses, s.results, s.lost + s.expired)
    && ListsOk(s.responses.all, s.results, s.dispatched, s.local)
    && HistoryOk(s.dispatched, s.local, s.lost)
    && ExpiredOk(s.responses, s.lost, s.expired)
  }

  /** What expired had been delivered. */
  ghost predicate ExpiredOk(responses: Log<Item>, lost: set<string>, expired: set<string>) {
    forall id :: id in expired ==> id !in lost && HasTaken(responses, id)
  }

  /** A result of `id` was taken out of the response list. */
  ghost predicate HasTaken(responses: Log<Item>, id: string) {
    exists k: nat :: RespondedAt(responses.all, k, id) && k < responses.taken
  }

  ghost predicate IsAnswered(boxes: map<nat, Box>, dispatched: map<string, Origin>, id: string) {
    id in dispatched && dispatched[id].container in boxes && AnsweredIn(boxes[dispatched[id].container], id)
  }

  /** An id is answered exactly if its result was put on the way or lost. */
  ghost predicate Linked(boxes: map<nat, Box>, dispatched: map<string, Origin>, all: seq<Item>, lost: set<string>) {
    forall id :: id in dispatched ==> (IsAnswered(boxes, dispatched, id) <==> id in lost || HasResponse(all, id))
  }

  ghost predicate Inv(maxJobs: int, sinks: set<string>, s: State) {
    && BoxesInv(maxJobs, s.boxes, s.dispatched)
    && MailInv(sinks, s)
    && Linked(s.boxes, s.dispatched, s.responses.all, s.lost)
  }

  // Steps inside a container.

  lemma {:induction false} BoxesStep(maxJobs: int, boxes: map<nat, Box>, dispatched: map<string, Origin>, c: nat,
                                     box': Box)
    requires BoxesInv(maxJobs, boxes, dispatched) && c in boxes && BoxInv(maxJobs, c, box', dispatched)
    requires box'.sent.all == boxes[c].sent.all
    ensures BoxesInv(maxJobs, boxes[c := box'], dispatched)
  {
    assert EveryBox(maxJobs, boxes[c := box'], dispatched);
    EveryIdStays(boxes, dispatched, c, box');
  }

  lemma {:induction false} EveryIdStays(boxes: map<nat, Box>, dispatched: map<string, Origin>, c: nat, box': Box)
    requires EveryId(boxes, dispatched) && c in boxes && boxes[c].sent.all <= box'.sent.all
    ensures EveryId(boxes[c := box'], dispatched)
  {
    forall id | id in dispatched ensures HasBeenSent(boxes[c := box'][dispatched[id].container], id) {
      SameSent(boxes[c], box', id);
    }
  }

  lemma SameSent(box: Box, box': Box, id: string)
    requires box.sent.all <= box'.sent.all
    ensures HasBeenSent(box, id) ==> HasBeenSent(box', id)
  {
    if j: nat :| SentAt(box, j, id) {
      assert SentAt(box', j, id);
    }
  }

  /** A step inside container `c` that answers nothing. */
  lemma {:induction false} BoxStep(maxJobs: int, sinks: set<string>, s: State, c: nat, box': Box)
    requires Inv(maxJobs, sinks, s) && c in s.boxes && BoxInv(maxJobs, c, box', s.dispatched)
    requires box'.sent.all == s.boxes[c].sent.all
    requires forall id :: AnsweredIn(box', id) <==> AnsweredIn(s.boxes[c], id)
    ensures Inv(maxJobs, sinks, s.(boxes := s.boxes[c := box']))
  {
    BoxesStep(maxJobs, s.boxes, s.dispatched, c, box');
    LinkKept(s.boxes, s.boxes[c := box'], s.dispatched, c, s.responses.all, s.lost);
  }

  lemma {:induction false} LinkKept(boxes: map<nat, Box>, boxes': map<nat, Box>, dispatched: map<string, Origin>,
                                    c: nat, all: seq<Item>, lost: set<string>)
    requires Linked(boxes, dispatched, all, lost) && c in boxes && c in boxes' && boxes' == boxes[c := boxes'[c]]
    requires forall id :: AnsweredIn(boxes'[c], id) <==> AnsweredIn(boxes[c], id)
    ensures Linked(boxes', dispatched, all, lost)
  {
    forall id | id in dispatched ensures IsAnswered(boxes', dispatched, id) <==> IsAnswered(boxes, dispatched, id) {
    }
  }

  lemma {:induction false} FetchKeeps(maxJobs: int, sinks: set<string>, s: State, c: nat)
    requires Inv(maxJobs, sinks, s) && Enabled(maxJobs, s, Fetch(c))
    ensures Inv(maxJobs, sinks, Do(maxJobs, sinks, s, Fetch(c)))
  {
    var box := s.boxes[c];
    FetchAnswers(box);
    BoxStep(maxJobs, sinks, s, c, box.(held := true, sent := Log(box.sent.all, box.sent.taken + 1)));
  }

  lemma {:induction false} FetchAnswers(box: Box)
    ensures var box' := box.(held := true, sent := Log(box.sent.all, box.sent.taken + 1));
            forall id :: AnsweredIn(box', id) <==> AnsweredIn(box, id)
  {
    var box' := box.(held := true, sent := Log(box.sent.all, box.sent.taken + 1));
    assert forall j: nat, id :: AnsweredAt(box', j, id) <==> AnsweredAt(box, j, id);
  }

  lemma {:induction false} SubmitKeeps(maxJobs: int, sinks: set<string>, s: State, c: nat)
    requires Inv(maxJobs, sinks, s) && Enabled(maxJobs, s, Submit(c))
    ensures Inv(maxJobs, sinks, Do(maxJobs, sinks, s, Submit(c)))
  {
    var box := s.boxes[c];
    SubmitTraces(maxJobs, box);
    StaysReachable(maxJobs, box.core, Pushing(box.sent.all[box.sent.taken - 1]));
    forall id ensures AnsweredIn(Submitted(maxJobs, box), id) <==> AnsweredIn(box, id) {
      SubmitAnswers(maxJobs, box, id);
    }
    BoxStep(maxJobs, sinks, s, c, Submitted(maxJobs, box));
  }

  /** A result is put on the way or lost. */
  lemma {:induction false} RespondKeeps(sinks: set<string>, s: State, x: Item, delivered: bool)
    requires MailInv(sinks, s) && x.id in s.dispatched && s.dispatched[x.id].sink == x.tags
    requires !HasResponse(s.responses.all, x.id) && x.id !in s.lost
    ensures MailInv(sinks, Respond(s, Some(x), delivered))
  {
    var s' := Respond(s, Some(x), delivered);
    assert forall k: nat :: k < |s.responses.all| ==> RespondedAt(s.responses.all, k, s.responses.all[k].id);
    forall sink, id | SentHome(s.responses.all, sink, id) ensures SentHome(s'.responses.all, sink, id) {
      var k: nat :| RespondedAt(s.responses.all, k, id) && s.responses.all[k].tags == sink;
      assert RespondedAt(s'.responses.all, k, id);
    }
    assert forall sink :: Results(s.results, sink, x.id) == [];
    StillExpired(s.responses, s'.responses, s.lost, s'.lost, s.expired);
  }

  /** What has expired stays so. */
  lemma {:induction false} StillExpired(responses: Log<Item>, responses': Log<Item>, lost: set<string>,
                                        lost': set<string>, expired: set<string>)
    requires ExpiredOk(responses, lost, expired)
    requires responses.all <= responses'.all && responses.taken <= responses'.taken
    requires forall id :: id in lost' && id !in lost ==> !HasTaken(responses, id)
    ensures ExpiredOk(responses', lost', expired)
  {
    forall id | id in expired ensures HasTaken(responses', id) {
      var k: nat :| RespondedAt(responses.all, k, id) && k < responses.taken;
      assert RespondedAt(responses'.all, k, id);
    }
  }

  lemma {:induction false} RespondsOnce(s: State, x: Item, delivered: bool, id: string)
    ensures var s' := Respond(s, Some(x), delivered);
            id in s'.lost || HasResponse(s'.responses.all, id) <==>
            id in s.lost || HasResponse(s.responses.all, id) || id == x.id
  {
    var s' := Respond(s, Some(x), delivered);
    if k: nat :| RespondedAt(s.responses.all, k, id) {
      assert RespondedAt(s'.responses.all, k, id);
    }
    if delivered {
      assert RespondedAt(s'.responses.all, |s.responses.all|, x.id);
      if k: nat :| RespondedAt(s'.responses.all, k, id) {
        assert RespondedAt(s.responses.all, k, id) || id == x.id;
      }
    }
  }

  /** A step inside container `c` that answers one command. */
  lemma {:induction false} AnswerKeeps(maxJobs: int, sinks: set<string>, s: State, c: nat, box': Box, x: Item,
                                       delivered: bool)
    requires Inv(maxJobs, sinks, s) && c in s.boxes && BoxInv(maxJobs, c, box', s.dispatched)
    requires box'.sent.all == s.boxes[c].sent.all
    requires forall id :: AnsweredIn(box', id) <==> AnsweredIn(s.boxes[c], id) || id == x.id
    requires x.id in s.dispatched && s.dispatched[x.id] == Origin(x.tags, c) && !AnsweredIn(s.boxes[c], x.id)
    ensures Inv(maxJobs, sinks, Respond(s.(boxes := s.boxes[c := box']), Some(x), delivered))
  {
    var s1 := s.(boxes := s.boxes[c := box']);
    assert !IsAnswered(s.boxes, s.dispatched, x.id);
    BoxesStep(maxJobs, s.boxes, s.dispatched, c, box');
    RespondKeeps(sinks, s1, x, delivered);
    LinkMoved(s, c, box', x, delivered);
  }

  lemma {:induction false} LinkMoved(s: State, c: nat, box': Box, x: Item, delivered: bool)
    requires Linked(s.boxes, s.dispatched, s.responses.all, s.lost) && c in s.boxes
    requires forall id :: AnsweredIn(box', id) <==> AnsweredIn(s.boxes[c], id) || id == x.id
    requires x.id in s.dispatched && s.dispatched[x.id].container == c
    ensures var s' := Respond(s.(boxes := s.boxes[c := box']), Some(x), delivered);
            Linked(s'.boxes, s'.dispatched, s'.responses.all, s'.lost)
  {
    var s1 := s.(boxes := s.boxes[c := box']);
    forall id | id in s.dispatched
      ensures IsAnswered(s1.boxes, s.dispatched, id) <==> IsAnswered(s.boxes, s.dispatched, id) || id == x.id
    {
    }
    forall id | id in s.dispatched {
      RespondsOnce(s1, x, delivered, id);
    }
  }

  lemma {:induction false} CoreKeeps(maxJobs: int, sinks: set<string>, s: State, c: nat, step: Manager.Action,
                                     delivered: bool)
    requires Inv(maxJobs, sinks, s) && Enabled(maxJobs, s, Core(c, step, delivered))
    ensures Inv(maxJobs, sinks, Do(maxJobs, sinks, s, Core(c, step, delivered)))
  {
    var box, x := s.boxes[c], ResultOf(s.boxes[c].core, step);
    var box' := box.(core := Manager.Do(maxJobs, box.core, step));
    CoreTraces(maxJobs, box, step);
    StaysReachable(maxJobs, box.core, step);
    forall id ensures AnsweredIn(box', id) <==> AnsweredIn(box, id) || (x.Some? && x.value.id == id) {
      CoreAnswers(maxJobs, c, box, s.dispatched, step, id);
    }
    CoreAnswers(maxJobs, c, box, s.dispatched, step, "");
    if x.Some? {
      AnswerKeeps(maxJobs, sinks, s, c, box', x.value, delivered);
    } else {
      BoxStep(maxJobs, sinks, s, c, box');
    }
  }

  // Steps of core0.

  /** The container after one more command has been pushed to its list. */
  function WithCommand(box: Box, cmd: Command): Box { box.(sent := Log(box.sent.all + [cmd], box.sent.taken)) }

  lemma {:induction false} NewCommandInBox(maxJobs: int, c: nat, box: Box, dispatched: map<string, Origin>,
                                           cmd: Command)
    requires BoxInv(maxJobs, c, box, dispatched) && cmd.id !in dispatched
    ensures BoxInv(maxJobs, c, WithCommand(box, cmd), dispatched[cmd.id := Origin(cmd.tags, c)])
    ensures !AnsweredIn(box, cmd.id)
    ensures forall id :: AnsweredIn(WithCommand(box, cmd), id) <==> AnsweredIn(box, id)
  {
    assert forall j: nat, id :: AnsweredAt(WithCommand(box, cmd), j, id) <==> AnsweredAt(box, j, id);
  }

  lemma {:induction false} OtherBoxes(maxJobs: int, c: nat, box: Box, dispatched: map<string, Origin>, id: string,
                                      origin: Origin)
    requires BoxInv(maxJobs, c, box, dispatched) && id !in dispatched
    ensures BoxInv(maxJobs, c, box, dispatched[id := origin])
  {
  }

  lemma EmptyBoxOk(maxJobs: int, c: nat, dispatched: map<string, Origin>)
    ensures BoxInv(maxJobs, c, EmptyBox(), dispatched)
  {
    assert Manager.Exec(maxJobs, []) == Some(Manager.Start());
  }

  lemma {:induction false} DispatchBoxes(maxJobs: int, s: State, c: nat, cmd: Command)
    requires BoxesInv(maxJobs, s.boxes, s.dispatched) && cmd.id !in s.dispatched
    ensures BoxesInv(maxJobs, s.boxes[c := WithCommand(BoxOf(s, c), cmd)], s.dispatched[cmd.id := Origin(cmd.tags, c)])
  {
    var box := BoxOf(s, c);
    var boxes', dispatched' := s.boxes[c := WithCommand(box, cmd)], s.dispatched[cmd.id := Origin(cmd.tags, c)];
    EmptyBoxOk(maxJobs, c, s.dispatched);
    NewCommandInBox(maxJobs, c, box, s.dispatched, cmd);
    forall c' | c' in boxes' ensures BoxInv(maxJobs, c', boxes'[c'], dispatched') {
      if c' != c {
        OtherBoxes(maxJobs, c', s.boxes[c'], s.dispatched, cmd.id, Origin(cmd.tags, c));
      }
    }
    forall id | id in dispatched' ensures HasBeenSent(boxes'[dispatched'[id].container], id) {
      if id == cmd.id {
        assert SentAt(boxes'[c], |box.sent.all|, id);
      } else {
        SameSent(box, boxes'[c], id);
      }
    }
  }

  lemma {:induction false} DispatchLinks(maxJobs: int, s: State, c: nat, cmd: Command)
    requires BoxesInv(maxJobs, s.boxes, s.dispatched) && cmd.id !in s.dispatched && cmd.id !in s.lost
    requires Linked(s.boxes, s.dispatched, s.responses.all, s.lost) && ResponsesOk(s.responses, s.dispatched)
    ensures Linked(s.boxes[c := WithCommand(BoxOf(s, c), cmd)], s.dispatched[cmd.id := Origin(cmd.tags, c)],
          s.responses.all, s.lost)
  {
    var boxes', dispatched' := s.boxes[c := WithCommand(BoxOf(s, c), cmd)], s.dispatched[cmd.id := Origin(cmd.tags, c)];
    EmptyBoxOk(maxJobs, c, s.dispatched);
    NewCommandInBox(maxJobs, c, BoxOf(s, c), s.dispatched, cmd);
    assert !HasResponse(s.responses.all, cmd.id);
    forall id | id in s.dispatched
      ensures IsAnswered(boxes', dispatched', id) <==> IsAnswered(s.boxes, s.dispatched, id)
    {
    }
  }

  lemma {:induction false} DispatchMail(sinks: set<string>, s: State, id: string, origin: Origin)
    requires MailInv(sinks, s) && id !in s.dispatched && id !in s.local
    ensures MailInv(sinks, s.(dispatched := s.dispatched[id := origin]))
  {
    assert forall sink :: Results(s.results, sink, id) == [];
  }

  lemma {:induction false} DispatchKeeps(maxJobs: int, sinks: set<string>, s: State, a: Action)
    requires Inv(maxJobs, sinks, s) && a.Dispatch? && Enabled(maxJobs, s, a)
    ensures Inv(maxJobs, sinks, Do(maxJobs, sinks, s, a))
  {
    var cmd := Manager.Command(a.id, a.queue, a.known, a.sink);
    DispatchBoxes(maxJobs, s, a.container, cmd);
    DispatchLinks(maxJobs, s, a.container, cmd);
    DispatchMail(sinks, s, a.id, Origin(a.sink, a.container));
  }

  lemma {:induction false} ForwardLists(sinks: set<string>, s: State, delivered: bool)
    requires MailInv(sinks, s) && s.responses.taken < |s.responses.all|
    ensures ListsOk(s.responses.all, DoForward(sinks, s, delivered).results, s.dispatched, s.local)
  {
    var results', x := DoForward(sinks, s, delivered).results, s.responses.all[s.responses.taken];
    assert RespondedAt(s.responses.all, s.responses.taken, x.id);
    forall sink, id | Results(results', sink, id) != []
      ensures if id in s.dispatched then SentHome(s.responses.all, sink, id) else id in s.local
    {
      assert (sink == x.tags && id == x.id) || Results(s.results, sink, id) != [];
    }
  }

  lemma {:induction false} ForwardMoves(sinks: set<string>, s: State, delivered: bool)
    requires MailInv(sinks, s) && s.responses.taken < |s.responses.all|
    ensures var s' := DoForward(sinks, s, delivered);
            ForwardedOk(sinks, s'.responses, s'.results, s'.lost + s'.expired)
  {
    var s', x := DoForward(sinks, s, delivered), s.responses.all[s.responses.taken];
    assert Results(s.results, x.tags, x.id) == [];
    forall k | 0 <= k < |s.responses.all| && k != s.responses.taken
      ensures var y := s.responses.all[k];
              y.id != x.id && Results(s'.results, y.tags, y.id) == Results(s.results, y.tags, y.id)
    {
    }
  }

  lemma {:induction false} ForwardMail(sinks: set<string>, s: State, delivered: bool)
    requires MailInv(sinks, s) && s.responses.taken < |s.responses.all|
    ensures MailInv(sinks, DoForward(sinks, s, delivered))
  {
    ForwardLists(sinks, s, delivered);
    ForwardMoves(sinks, s, delivered);
    var s' := DoForward(sinks, s, delivered);
    StillExpired(s.responses, s'.responses, s.lost, s'.lost, s.expired);
  }

  lemma {:induction false} ForwardKeeps(maxJobs: int, sinks: set<string>, s: State, delivered: bool)
    requires Inv(maxJobs, sinks, s) && s.responses.taken < |s.responses.all|
    ensures Inv(maxJobs, sinks, DoForward(sinks, s, delivered))
  {
    ForwardMail(sinks, s, delivered);
    LinkLost(s.boxes, s.dispatched, s.responses.all, s.lost, s.responses.taken);
    assert DoForward(sinks, s, delivered).lost == s.lost
        || DoForward(sinks, s, delivered).lost == s.lost + {s.responses.all[s.responses.taken].id};
  }

  /** A result that was put on the way may get lost there. */
  lemma {:induction false} LinkLost(boxes: map<nat, Box>, dispatched: map<string, Origin>, all: seq<Item>,
                                    lost: set<string>, k: nat)
    requires Linked(boxes, dispatched, all, lost) && k < |all|
    ensures Linked(boxes, dispatched, all, lost + {all[k].id})
  {
    assert RespondedAt(all, k, all[k].id);
  }

  lemma {:induction false} LocalKeeps(sinks: set<string>, s: State, sink: string, id: string)
    requires MailInv(sinks, s) && id !in s.dispatched
    ensures MailInv(sinks, WithLocal(s, sink, id))
  {
    var results' := s.results[(sink, id) := Results(s.results, sink, id) + [Item(id, "")]];
    forall sink', other | Results(results', sink', other) != []
      ensures if other in s.dispatched then SentHome(s.responses.all, sink', other) else other in s.local + {id}
    {
      assert other != id ==> Results(s.results, sink', other) != [];
    }
    assert forall k :: 0 <= k < |s.responses.all| ==>
        Results(results', s.responses.all[k].tags, s.responses.all[k].id) ==
        Results(s.results, s.responses.all[k].tags, s.responses.all[k].id);
  }

  // Steps of redis.

  lemma {:induction false} NewlyExpired(s: State, k: nat)
    requires ResponsesOk(s.responses, s.dispatched) && k < |s.responses.all|
    ensures s.responses.all[k].id in DoExpire(s).expired <==>
          s.responses.all[k].id in s.expired || s.responses.taken <= k
  {
    var all, n := s.responses.all, s.responses.taken;
    if n <= k {
      assert all[n..][k - n] == all[k] && all[k] in all[n..];
    } else {
      forall x | x in all[n..] ensures x.id != all[k].id {
        var j :| n <= j < |all| && all[j] == x;
      }
    }
  }

  lemma {:induction false} ExpireForwarded(sinks: set<string>, s: State)
    requires ResponsesOk(s.responses, s.dispatched) && ForwardedOk(sinks, s.responses, s.results, s.lost + s.expired)
    ensures var s' := DoExpire(s);
            ForwardedOk(sinks, s'.responses, s'.results, s'.lost + s'.expired)
  {
    forall k: nat | k < |s.responses.all| {
      NewlyExpired(s, k);
    }
  }

  lemma {:induction false} ExpireExpired(sinks: set<string>, s: State)
    requires MailInv(sinks, s)
    ensures ExpiredOk(DoExpire(s).responses, s.lost, DoExpire(s).expired)
  {
    var s' := DoExpire(s);
    StillExpired(s.responses, s'.responses, s.lost, s.lost, s.expired);
    forall id | id in s'.expired && id !in s.expired ensures id !in s.lost && HasTaken(s'.responses, id) {
      var k :| s.responses.taken <= k < |s.responses.all| && s.responses.all[k].id == id;
      assert RespondedAt(s'.responses.all, k, id);
    }
  }

  lemma {:induction false} ExpireResultMail(sinks: set<string>, s: State, sink: string, id: string)
    requires MailInv(sinks, s) && Results(s.results, sink, id) != []
    ensures MailInv(sinks, WithoutResult(s, sink, id))
  {
    var results' := s.results - {(sink, id)};
    forall sink', other | Results(results', sink', other) != []
      ensures if other in s.dispatched then SentHome(s.responses.all, sink', other) else other in s.local
    {
      assert Results(s.results, sink', other) != [];
    }
    if id in s.dispatched {
      assert SentHome(s.responses.all, sink, id);
      var k: nat :| RespondedAt(s.responses.all, k, id) && s.responses.all[k].tags == sink;
      assert k < s.responses.taken && id !in s.lost && HasTaken(s.responses, id);
    }
  }

  lemma {:induction false} ExpireKeeps(maxJobs: int, sinks: set<string>, s: State)
    requires Inv(maxJobs, sinks, s)
    ensures Inv(maxJobs, sinks, DoExpire(s))
  {
    ExpireForwarded(sinks, s);
    ExpireExpired(sinks, s);
  }

  lemma {:induction false} RunKeeps(maxJobs: int, sinks: set<string>, acts: seq<Action>)
    requires Exec(maxJobs, sinks, acts).Some?
    ensures Inv(maxJobs, sinks, Exec(maxJobs, sinks, acts).value)
  {
    if acts != [] {
      var n := |acts| - 1;
      RunKeeps(maxJobs, sinks, acts[..n]);
      StepKeeps(maxJobs, sinks, Exec(maxJobs, sinks, acts[..n]).value, acts[n]);
    }
  }

  lemma {:induction false} StepKeeps(maxJobs: int, sinks: set<string>, s: State, a: Action)
    requires Inv(maxJobs, sinks, s) && Enabled(maxJobs, s, a)
    ensures Inv(maxJobs, sinks, Do(maxJobs, sinks, s, a))
  {
    match a
    case Dispatch(_, _, _, _, _) => DispatchKeeps(maxJobs, sinks, s, a);
    case Fetch(c) => FetchKeeps(maxJobs, sinks, s, c);
    case Submit(c) => SubmitKeeps(maxJobs, sinks, s, c);
    case Core(c, step, delivered) => CoreKeeps(maxJobs, sinks, s, c, step, delivered);
    case Forward(delivered) => ForwardKeeps(maxJobs, sinks, s, delivered);
    case Local(sink, id) => LocalKeeps(sinks, s, sink, id);
    case Expire => ExpireKeeps(maxJobs, sinks, s);
    case ExpireResult(sink, id) => ExpireResultMail(sinks, s, sink, id);
  }

  // ---------------------------------------------------------------------------------------------
  // Where a dispatched id can be
  // ---------------------------------------------------------------------------------------------

  /** In the container's list, or held by its sink loop. */
  ghost predicate OnItsWay(box: Box, id: string) { exists j: nat :: SentAt(box, j, id) && |box.traces| <= j }

  ghost predicate OpenAt(box: Box, j: nat, id: string) {
    SentAt(box, j, id) && j < |box.traces| && !Answered(box.core, box.traces[j]) && !Mislaid(box.core, box.traces[j])
  }

  /** With the container's process manager: in a queue or running. */
  ghost predicate Inside(box: Box, id: string) { exists j: nat :: OpenAt(box, j, id) }

  ghost predicate MislaidAt(box: Box, j: nat, id: string) {
    SentAt(box, j, id) && j < |box.traces| && Mislaid(box.core, box.traces[j])
  }

  /** Lost by the container's queue manager. */
  ghost predicate LostInside(box: Box, id: string) { exists j: nat :: MislaidAt(box, j, id) }

  ghost predicate OnItsWayBack(s: State, id: string) {
    exists k: nat :: RespondedAt(s.responses.all, k, id) && s.responses.taken <= k
  }

  ghost predicate AtHome(s: State, id: string)
    requires id in s.dispatched
  {
    Results(s.results, s.dispatched[id].sink, id) == [Item(id, s.dispatched[id].sink)]
  }

  function Count(b: bool): nat { if b then 1 else 0 }

  /** A command is answered or mislaid, not both. */
  lemma {:induction false} AnsweredNotMislaid(maxJobs: int, core: Manager.State, tr: Trace)
    requires Manager.Reachable(maxJobs, core) && Answered(core, tr)
    ensures !Mislaid(core, tr)
  {
    var acts :| Manager.Exec(maxJobs, acts) == Some(core);
    var n: nat :| AnsweredBy(core.jobs, n, tr);
    RunIsNotMislaid(maxJobs, acts, n, tr);
  }

  /** Before its answer a dispatched id is in exactly one of three states, and after it in none of them. */
  lemma {:induction false} InsideOrAnswered(maxJobs: int, c: nat, box: Box, dispatched: map<string, Origin>, j: nat,
                                            id: string)
    requires BoxInv(maxJobs, c, box, dispatched) && SentAt(box, j, id)
    ensures Count(OnItsWay(box, id)) + Count(Inside(box, id)) + Count(LostInside(box, id))
            + Count(AnsweredIn(box, id)) == 1
  {
    assert forall k: nat :: SentAt(box, k, id) ==> k == j;
    if j < |box.traces| {
      assert !OnItsWay(box, id);
      assert AnsweredIn(box, id) <==> AnsweredAt(box, j, id);
      assert Inside(box, id) <==> OpenAt(box, j, id);
      assert LostInside(box, id) <==> MislaidAt(box, j, id);
      if Answered(box.core, box.traces[j]) {
        AnsweredNotMislaid(maxJobs, box.core, box.traces[j]);
      }
    } else {
      assert OnItsWay(box, id);
    }
  }

  /** After its answer it is in exactly one of four states, and before it in none of them. */
  lemma {:induction false} BackOrNotAnswered(maxJobs: int, sinks: set<string>, s: State, id: string)
    requires MailInv(sinks, s) && Linked(s.boxes, s.dispatched, s.responses.all, s.lost) && id in s.dispatched
    ensures Count(OnItsWayBack(s, id)) + Count(AtHome(s, id)) + Count(id in s.lost) + Count(id in s.expired)
         == Count(IsAnswered(s.boxes, s.dispatched, id))
  {
    if k: nat :| RespondedAt(s.responses.all, k, id) {
      assert s.responses.all[k] == Item(id, s.dispatched[id].sink);
      assert HasResponse(s.responses.all, id);
      assert OnItsWayBack(s, id) <==> s.responses.taken <= k;
    } else {
      assert !SentHome(s.responses.all, s.dispatched[id].sink, id);
      assert !HasResponse(s.responses.all, id);
    }
  }

  /**
    In every run, over all interleavings: a dispatched id is in exactly one of seven states. It is on its way
    to the container, inside, lost by the container's queue manager, on its way back, at home, dropped
    because a result could not be delivered, or expired in a list that nobody read in time.
   */
  lemma {:induction false} NothingVanishes(maxJobs: int, sinks: set<string>, acts: seq<Action>, id: string)
    requires Exec(maxJobs, sinks, acts).Some? && id in Exec(maxJobs, sinks, acts).value.dispatched
    ensures var s := Exec(maxJobs, sinks, acts).value;
            && s.dispatched[id].container in s.boxes
            && var box := s.boxes[s.dispatched[id].container];
               Count(OnItsWay(box, id)) + Count(Inside(box, id)) + Count(LostInside(box, id))
               + Count(OnItsWayBack(s, id)) + Count(AtHome(s, id)) + Count(id in s.lost) + Count(id in s.expired) == 1
  {
    var s := Exec(maxJobs, sinks, acts).value;
    RunKeeps(maxJobs, sinks, acts);
    var c := s.dispatched[id].container;
    var j: nat :| SentAt(s.boxes[c], j, id);
    InsideOrAnswered(maxJobs, c, s.boxes[c], s.dispatched, j, id);
    BackOrNotAnswered(maxJobs, sinks, s, id);
  }

  /**
    In every run, a result for a dispatched id is only ever in the list of the sink that the dispatch
    came through, it is the only one there, and there is none in any other list.
   */
  lemma {:induction false} ResultsGoHome(maxJobs: int, sinks: set<string>, acts: seq<Action>, sink: string, id: string)
    requires Exec(maxJobs, sinks, acts).Some? && id in Exec(maxJobs, sinks, acts).value.dispatched
    requires Results(Exec(maxJobs, sinks, acts).value.results, sink, id) != []
    ensures var s := Exec(maxJobs, sinks, acts).value;
            s.dispatched[id].sink == sink && sink in sinks && AtHome(s, id) && IsAnswered(s.boxes, s.dispatched, id)
  {
    var s := Exec(maxJobs, sinks, acts).value;
    RunKeeps(maxJobs, sinks, acts);
    assert SentHome(s.responses.all, sink, id);
    var k: nat :| RespondedAt(s.responses.all, k, id) && s.responses.all[k].tags == sink;
    assert HasResponse(s.responses.all, id);
  }

  /** Redis is there, and every dispatch came through a sink. */
  ghost predicate NoFailures(sinks: set<string>, acts: seq<Action>) {
    forall k :: 0 <= k < |acts| ==>
      && (acts[k].Core? || acts[k].Forward? ==> acts[k].delivered)
      && (acts[k].Dispatch? ==> acts[k].sink in sinks)
  }

  ghost predicate AllFromSinks(sinks: set<string>, dispatched: map<string, Origin>) {
    forall id :: id in dispatched ==> dispatched[id].sink in sinks
  }

  lemma {:induction false} NotDropped(maxJobs: int, sinks: set<string>, s: State, a: Action)
    requires Enabled(maxJobs, s, a) && s.lost == {} && AllFromSinks(sinks, s.dispatched)
          && ResponsesOk(s.responses, s.dispatched)
    requires (a.Core? || a.Forward? ==> a.delivered) && (a.Dispatch? ==> a.sink in sinks)
    ensures Do(maxJobs, sinks, s, a).lost == {} && AllFromSinks(sinks, Do(maxJobs, sinks, s, a).dispatched)
  {
  }

  lemma {:induction false} NothingDropped(maxJobs: int, sinks: set<string>, acts: seq<Action>)
    requires Exec(maxJobs, sinks, acts).Some? && NoFailures(sinks, acts)
    ensures Exec(maxJobs, sinks, acts).value.lost == {}
    ensures AllFromSinks(sinks, Exec(maxJobs, sinks, acts).value.dispatched)
  {
    if acts != [] {
      var n := |acts| - 1;
      NothingDropped(maxJobs, sinks, acts[..n]);
      RunKeeps(maxJobs, sinks, acts[..n]);
      NotDropped(maxJobs, sinks, Exec(maxJobs, sinks, acts[..n]).value, acts[n]);
    }
  }

  /** Every list is read in time. */
  predicate NothingExpires(acts: seq<Action>) {
    forall k :: 0 <= k < |acts| ==> !acts[k].Expire? && !acts[k].ExpireResult?
  }

  lemma {:induction false} NotExpired(maxJobs: int, sinks: set<string>, acts: seq<Action>)
    requires Exec(maxJobs, sinks, acts).Some? && NothingExpires(acts)
    ensures Exec(maxJobs, sinks, acts).value.expired == {}
  {
    if acts != [] {
      NotExpired(maxJobs, sinks, acts[..|acts| - 1]);
    }
  }

  /**
    Command `j` for the container was lost by its queue manager, in a run that deletes its queue at the wrong
    moment.
   */
  ghost predicate DoomedInside(maxJobs: int, box: Box, j: nat) {
    && j < |box.traces| && j < |box.sent.all| && box.sent.all[j].queue != "" && box.traces[j].Queued?
    && exists run :: Manager.Exec(maxJobs, run) == Some(box.core) && QueueLoss.Doomed(maxJobs, run, box.traces[j].t)
  }

  lemma {:induction false} MislaidIsDoomed(maxJobs: int, c: nat, box: Box, dispatched: map<string, Origin>, j: nat,
                                           id: string)
    requires BoxInv(maxJobs, c, box, dispatched) && MislaidAt(box, j, id)
    ensures DoomedInside(maxJobs, box, j)
  {
    var acts :| Manager.Exec(maxJobs, acts) == Some(box.core);
    QueueLoss.LostExactlyWhenDoomed(maxJobs, acts, box.traces[j].t);
    Tokens.RunQueueInv(maxJobs, acts);
  }

  lemma {:induction false} BoxOfRun(maxJobs: int, sinks: set<string>, acts: seq<Action>, c: nat)
    requires Exec(maxJobs, sinks, acts).Some? && c in Exec(maxJobs, sinks, acts).value.boxes
    ensures BoxInv(maxJobs, c, Exec(maxJobs, sinks, acts).value.boxes[c], Exec(maxJobs, sinks, acts).value.dispatched)
  {
    RunKeeps(maxJobs, sinks, acts);
  }

  /**
    Without failures of redis a dispatched id is lost only by the race in its container's queue manager, which
    no command without a queue is subject to, or because its result expires.
   */
  lemma {:induction false} LostOnlyInside(maxJobs: int, sinks: set<string>, acts: seq<Action>, id: string)
    requires Exec(maxJobs, sinks, acts).Some? && NoFailures(sinks, acts)
          && id in Exec(maxJobs, sinks, acts).value.dispatched
    ensures var s := Exec(maxJobs, sinks, acts).value;
            && s.lost == {} && (NothingExpires(acts) ==> s.expired == {})
            && s.dispatched[id].container in s.boxes
            && var box := s.boxes[s.dispatched[id].container];
               && (LostInside(box, id) || id in s.expired <==>
                     !(OnItsWay(box, id) || Inside(box, id) || OnItsWayBack(s, id) || AtHome(s, id)))
               && forall j: nat :: MislaidAt(box, j, id) ==> DoomedInside(maxJobs, box, j)
  {
    var s := Exec(maxJobs, sinks, acts).value;
    NothingDropped(maxJobs, sinks, acts);
    NothingVanishes(maxJobs, sinks, acts, id);
    if NothingExpires(acts) {
      NotExpired(maxJobs, sinks, acts);
    }
    var c := s.dispatched[id].container;
    BoxOfRun(maxJobs, sinks, acts, c);
    forall j: nat | MislaidAt(s.boxes[c], j, id) ensures DoomedInside(maxJobs, s.boxes[c], j) {
      MislaidIsDoomed(maxJobs, c, s.boxes[c], s.dispatched, j, id);
    }
  }
}
