/**
  A system process under its runner, as interleaved steps: base/pm/process/systemprocess.go (`Run`),
  base/pm/stream/input.go, the loop of base/pm/runner.go and the statsd daemon that the loop feeds.

  There are two consumers, the goroutine that waits for the exit, the runner and the daemon. All channels
  between them have no buffer: sender and receiver move in one step.
 */
module Process {
  import opened Wrappers
  import opened Stream
  import opened Runner
  import Stats

  // ---------------------------------------------------------------------------------------------
  // What a process puts on its channel
  // ---------------------------------------------------------------------------------------------

  /** `msgInterceptor`: what of a printed message reaches the runner. */
  function Intercept(m: Message): Option<Message> {
    var m' := if m.level == EXIT_STATE then m.(level := STDERR) else m;
    if m'.level > INTERNAL then None else Some(m')
  }

  function Intercepted(ms: seq<Message>): seq<Message> {
    if ms == [] then []
    else
      var m := Intercept(ms[0]);
      (if m.Some? then [m.value] else []) + Intercepted(ms[1..])
  }

  /** `c` is made of `a` and `b`, each in its order. */
  ghost predicate Merges(c: seq<Message>, a: seq<Message>, b: seq<Message>) {
    if c == [] then a == [] && b == []
    else
      || (a != [] && a[0] == c[0] && Merges(c[1..], a[1..], b))
      || (b != [] && b[0] == c[0] && Merges(c[1..], a, b[1..]))
  }

  function ExitMessage(status: int): Message {
    Message(EXIT_STATE, if status == 0 then "SUCCESS" else "ERROR")
  }

  /**
    The messages that the consumers find in the two outputs, the exit status of the process, and what former
    executions of the same command fed to statsd.
   */
  datatype Setup = Setup(out: seq<Message>, err: seq<Message>, status: int, earlier: seq<Stats.Event>)

  /** The setup of a process that prints the given bytes. `failed` says that reading ends with an error. */
  function Printing(out: string, outFailed: bool, err: string, errFailed: bool, status: int,
                    earlier: seq<Stats.Event>): Setup {
    Setup(Parse(STDOUT, out, outFailed), Parse(STDERR, err, errFailed), status, earlier)
  }

  /** Both outputs, intercepted, in some interleaving, and after both have ended one exit message. */
  ghost predicate SystemChannel(x: Setup, channel: seq<Message>) {
    && channel != []
    && channel[|channel| - 1] == ExitMessage(x.status)
    && Merges(channel[..|channel| - 1], Intercepted(x.out), Intercepted(x.err))
  }

  // ---------------------------------------------------------------------------------------------
  // States and steps
  // ---------------------------------------------------------------------------------------------

  /** The goroutine that waits for the end of both outputs, then for the process, then reports and closes. */
  datatype Exit = AwaitOut | AwaitErr | AwaitPid | Reporting | Closing | Closed

  datatype Pc =
    | Selecting
    | Feeding(todo: seq<Stats.Event>)  // inside the body of the loop, with something to send to statsd
    | Draining                         // the loop is over; the rest of the channel is thrown away
    | Done

  datatype State = State(
    out: seq<Message>,       // printed, and not handled by the consumer of stdout yet
    err: seq<Message>,
    exit: Exit,
    pc: Pc,
    fed: seq<Stats.Event>,   // all that the daemon took, former executions and flushes included
    outSent: seq<Message>,   // history: what each consumer has sent
    errSent: seq<Message>,
    taken: seq<Message>,     // history: what the runner has received
    events: seq<Event>,      // history: what the `select` took
    sent: seq<Stats.Event>,  // history: what the runner has sent to statsd
    end: Option<JobState>)

  datatype Action =
    | DropOut | DropErr        // an internal message is handled by the interceptor itself
    | DeliverOut | DeliverErr  // interceptor to runner
    | EndOut | EndErr          // end of input, to the waiting goroutine
    | Exited                   // WaitPID returns
    | DeliverExit              // the exit message to the runner
    | Close
    | Take(e: Event)           // the `select` takes a kill, a timeout or a tick
    | FeedOne                  // runner to daemon
    | FlushStats               // the daemon's own tick
    | Finish                   // the runner sees that the channel is closed

  function Start(x: Setup): State {
    State(x.out, x.err, AwaitOut, Selecting, x.earlier, [], [], [], [], [], None)
  }

  predicate Listening(pc: Pc) { pc.Selecting? || pc.Draining? }

  function StatusOf(parse: Stats.Parser, s: State): Stats.Status { Stats.Run(parse, s.fed).status }

  /** The first message is one that the interceptor passes on. */
  predicate Passes(ms: seq<Message>) { ms != [] && Intercept(ms[0]).Some? }

  predicate Swallows(ms: seq<Message>) { ms != [] && Intercept(ms[0]).None? }

  /** `status` is that of the daemon; a panic there ends everything. */
  predicate Enabled(status: Stats.Status, s: State, a: Action) {
    && !status.Crashed?
    && match a
       case DropOut => Swallows(s.out)
       case DropErr => Swallows(s.err)
       case DeliverOut => Passes(s.out) && Listening(s.pc)
       case DeliverErr => Passes(s.err) && Listening(s.pc)
       case EndOut => s.out == [] && s.exit.AwaitOut?
       case EndErr => s.err == [] && s.exit.AwaitErr?
       case Exited => s.exit.AwaitPid?
       case DeliverExit => s.exit.Reporting? && Listening(s.pc)
       case Close => s.exit.Closing?
       case Take(e) => s.pc.Selecting? && !e.Sent?
       case FeedOne => s.pc.Feeding? && s.pc.todo != [] && status.Alive?
       case FlushStats => status.Alive?
       case Finish => s.pc.Draining? && s.exit.Closed?
  }

  function Go(ops: seq<Stats.Event>): Pc { if ops == [] then Selecting else Feeding(ops) }

  /** The body of the loop. */
  function Selected(feed: Stats.Feeder, s: State, e: Event): State {
    s.(events := s.events + [e],
       pc := if Ends(e) then Draining else Go(OpsOf(feed, e)),
       end := if Ends(e) then Some(EndState(e)) else s.end)
  }

  function Receive(feed: Stats.Feeder, s: State, m: Message): State {
    var s' := s.(taken := s.taken + [m]);
    if s.pc.Selecting? then Selected(feed, s', Sent(m)) else s'
  }

  function Do(feed: Stats.Feeder, x: Setup, status: Stats.Status, s: State, a: Action): State
    requires Enabled(status, s, a)
  {
    match a
    case DropOut => s.(out := s.out[1..])
    case DropErr => s.(err := s.err[1..])
    case DeliverOut =>
      var m := Intercept(s.out[0]).value;
      Receive(feed, s.(out := s.out[1..], outSent := s.outSent + [m]), m)
    case DeliverErr =>
      var m := Intercept(s.err[0]).value;
      Receive(feed, s.(err := s.err[1..], errSent := s.errSent + [m]), m)
    case EndOut => s.(exit := AwaitErr)
    case EndErr => s.(exit := AwaitPid)
    case Exited => s.(exit := Reporting)
    case DeliverExit => Receive(feed, s.(exit := Closing), ExitMessage(x.status))
    case Close => s.(exit := Closed)
    case Take(e) => Selected(feed, s, e)
    case FeedOne => s.(fed := s.fed + [s.pc.todo[0]], sent := s.sent + [s.pc.todo[0]], pc := Go(s.pc.todo[1..]))
    case FlushStats => s.(fed := s.fed + [Stats.Flush])
    case Finish => s.(pc := Done)
  }

  ghost function Exec(parse: Stats.Parser, feed: Stats.Feeder, x: Setup, acts: seq<Action>): Option<State> {
    if acts == [] then Some(Start(x))
    else
      var n := |acts| - 1;
      var before := Exec(parse, feed, x, acts[..n]);
      if before.Some? && Enabled(StatusOf(parse, before.value), before.value, acts[n]) then
        Some(Do(feed, x, StatusOf(parse, before.value), before.value, acts[n]))
      else None
  }

  // ---------------------------------------------------------------------------------------------
  // What the runner receives
  // ---------------------------------------------------------------------------------------------

  lemma {:induction false} MergeOne(c: seq<Message>, a: seq<Message>, b: seq<Message>, m: Message)
    requires Merges(c, a, b)
    ensures Merges(c + [m], a + [m], b) && Merges(c + [m], a, b + [m])
  {
    if c == [] {
      assert [m][1..] == [] && Merges([], [], []);
      assert c + [m] == [m] && a + [m] == [m] && b + [m] == [m];
    } else {
      assert (c + [m])[1..] == c[1..] + [m];
      if a != [] && a[0] == c[0] && Merges(c[1..], a[1..], b) {
        MergeOne(c[1..], a[1..], b, m);
        assert (a + [m])[1..] == a[1..] + [m];
      } else {
        MergeOne(c[1..], a, b[1..], m);
        assert (b + [m])[1..] == b[1..] + [m];
      }
    }
  }

  lemma {:induction false} MergeRest(c: seq<Message>, a: seq<Message>, b: seq<Message>, more: seq<Message>)
    requires Merges(c, a, b)
    ensures Merges(c + more, a + more, b) && Merges(c + more, a, b + more)
  {
    if more == [] {
      assert c + more == c && a + more == a && b + more == b;
    } else {
      var n := |more| - 1;
      MergeRest(c, a, b, more[..n]);
      MergeOne(c + more[..n], a + more[..n], b, more[n]);
      MergeOne(c + more[..n], a, b + more[..n], more[n]);
      assert c + more == (c + more[..n]) + [more[n]];
      assert a + more == (a + more[..n]) + [more[n]] && b + more == (b + more[..n]) + [more[n]];
    }
  }

  predicate Over(exit: Exit) { exit.Closing? || exit.Closed? }

  /** What was received from the consumers, without the exit message. */
  function Body(exit: Exit, taken: seq<Message>): seq<Message> {
    if Over(exit) && taken != [] then taken[..|taken| - 1] else taken
  }

  /** A consumer has sent what it had to and has the rest before it. */
  ghost predicate ConsumerOk(printed: seq<Message>, left: seq<Message>, sent: seq<Message>) {
    Intercepted(printed) == sent + Intercepted(left)
  }

  ghost predicate ChannelInv(x: Setup, s: State) {
    && ConsumerOk(x.out, s.out, s.outSent)
    && ConsumerOk(x.err, s.err, s.errSent)
    && Merges(Body(s.exit, s.taken), s.outSent, s.errSent)
    && (!s.exit.AwaitOut? ==> s.out == [])
    && (!s.exit.AwaitOut? && !s.exit.AwaitErr? ==> s.err == [])
    && (Over(s.exit) ==> s.taken != [] && s.taken[|s.taken| - 1] == ExitMessage(x.status))
  }

  lemma NextHandled(printed: seq<Message>, left: seq<Message>, sent: seq<Message>)
    requires ConsumerOk(printed, left, sent) && left != []
    ensures var m := Intercept(left[0]);
            ConsumerOk(printed, left[1..], if m.Some? then sent + [m.value] else sent)
  {
  }

  /** The part of the state that `ChannelInv` is about, apart from what was received. */
  ghost predicate SameOutputs(s: State, s': State) {
    s'.out == s.out && s'.err == s.err && s'.outSent == s.outSent && s'.errSent == s.errSent && s'.exit == s.exit
  }

  lemma ReceiveFrame(feed: Stats.Feeder, s: State, m: Message)
    ensures SameOutputs(s, Receive(feed, s, m)) && Receive(feed, s, m).taken == s.taken + [m]
    ensures Receive(feed, s, m).fed == s.fed && Receive(feed, s, m).sent == s.sent
  {
  }

  lemma {:induction false} DeliverChannel(feed: Stats.Feeder, x: Setup, s: State, first: bool)
    requires ChannelInv(x, s) && !Over(s.exit) && Passes(if first then s.out else s.err)
    ensures var m := Intercept(if first then s.out[0] else s.err[0]).value;
            var s1 := if first then s.(out := s.out[1..], outSent := s.outSent + [m])
                      else s.(err := s.err[1..], errSent := s.errSent + [m]);
            ChannelInv(x, Receive(feed, s1, m))
  {
    var m := Intercept(if first then s.out[0] else s.err[0]).value;
    var s1 := if first then s.(out := s.out[1..], outSent := s.outSent + [m])
              else s.(err := s.err[1..], errSent := s.errSent + [m]);
    ReceiveFrame(feed, s1, m);
    MergeOne(s.taken, s.outSent, s.errSent, m);
    if first {
      NextHandled(x.out, s.out, s.outSent);
    } else {
      NextHandled(x.err, s.err, s.errSent);
    }
  }

  lemma {:induction false} ExitChannel(feed: Stats.Feeder, x: Setup, s: State)
    requires ChannelInv(x, s) && s.exit.Reporting?
    ensures ChannelInv(x, Receive(feed, s.(exit := Closing), ExitMessage(x.status)))
  {
    var s' := Receive(feed, s.(exit := Closing), ExitMessage(x.status));
    ReceiveFrame(feed, s.(exit := Closing), ExitMessage(x.status));
    assert s'.taken[..|s.taken|] == s.taken;
  }

  /** Nothing was handled by a consumer or received by the runner. */
  ghost predicate NothingMoved(s: State, s': State) {
    && s'.out == s.out && s'.err == s.err && s'.outSent == s.outSent && s'.errSent == s.errSent && s'.taken == s.taken
    && Over(s'.exit) == Over(s.exit)
    && (!s'.exit.AwaitOut? ==> !s.exit.AwaitOut? || s.out == [])
    && (!s'.exit.AwaitOut? && !s'.exit.AwaitErr? ==> (!s.exit.AwaitOut? && !s.exit.AwaitErr?) || s.err == [])
  }

  predicate MovesOutput(a: Action) { a.DropOut? || a.DropErr? || a.DeliverOut? || a.DeliverErr? || a.DeliverExit? }

  lemma {:induction false} ChannelFrame(feed: Stats.Feeder, x: Setup, status: Stats.Status, s: State, a: Action)
    requires Enabled(status, s, a) && !MovesOutput(a)
    ensures NothingMoved(s, Do(feed, x, status, s, a))
  {
  }

  lemma {:induction false} ChannelKept(x: Setup, s: State, s': State)
    requires ChannelInv(x, s) && NothingMoved(s, s')
    ensures ChannelInv(x, s')
  {
    assert Body(s'.exit, s'.taken) == Body(s.exit, s.taken);
  }

  lemma {:induction false} ChannelStep(feed: Stats.Feeder, x: Setup, status: Stats.Status, s: State, a: Action)
    requires ChannelInv(x, s) && Enabled(status, s, a)
    ensures ChannelInv(x, Do(feed, x, status, s, a))
  {
    match a
    case DropOut => NextHandled(x.out, s.out, s.outSent);
    case DropErr => NextHandled(x.err, s.err, s.errSent);
    case DeliverOut => DeliverChannel(feed, x, s, true);
    case DeliverErr => DeliverChannel(feed, x, s, false);
    case DeliverExit => ExitChannel(feed, x, s);
    case _ =>
      ChannelFrame(feed, x, status, s, a);
      ChannelKept(x, s, Do(feed, x, status, s, a));
  }

  lemma {:induction false} RunChannelInv(parse: Stats.Parser, feed: Stats.Feeder, x: Setup, acts: seq<Action>)
    requires Exec(parse, feed, x, acts).Some?
    ensures ChannelInv(x, Exec(parse, feed, x, acts).value)
  {
    if acts != [] {
      var n := |acts| - 1;
      RunChannelInv(parse, feed, x, acts[..n]);
      var s := Exec(parse, feed, x, acts[..n]).value;
      ChannelStep(feed, x, StatusOf(parse, s), s, acts[n]);
    }
  }

  /** What is missing of the channel. */
  function Rest(x: Setup, s: State): seq<Message> {
    if Over(s.exit) then [] else Intercepted(s.out) + Intercepted(s.err) + [ExitMessage(x.status)]
  }

  /**
    In every run, whatever the process prints: what the runner has received so far is the beginning of both
    outputs, intercepted, in some interleaving, followed by one exit message; and it is all of that once
    the channel is closed.
   */
  lemma {:induction false} ChannelCarries(parse: Stats.Parser, feed: Stats.Feeder, x: Setup, acts: seq<Action>)
    requires Exec(parse, feed, x, acts).Some?
    ensures var s := Exec(parse, feed, x, acts).value;
            SystemChannel(x, s.taken + Rest(x, s)) && (s.exit.Closed? ==> SystemChannel(x, s.taken))
  {
    RunChannelInv(parse, feed, x, acts);
    Completes(x, Exec(parse, feed, x, acts).value);
  }

  lemma {:induction false} MergeBoth(c: seq<Message>, a: seq<Message>, b: seq<Message>, out: seq<Message>,
                                     err: seq<Message>)
    requires Merges(c, a, b)
    ensures Merges(c + out + err, a + out, b + err)
  {
    MergeRest(c, a, b, out);
    MergeRest(c + out, a + out, b, err);
  }

  lemma {:induction false} CompletesLater(x: Setup, s: State)
    requires ChannelInv(x, s) && !Over(s.exit)
    ensures SystemChannel(x, s.taken + Rest(x, s))
  {
    var out, err := Intercepted(s.out), Intercepted(s.err);
    MergeBoth(s.taken, s.outSent, s.errSent, out, err);
    AddLast(s.taken, out, err, ExitMessage(x.status));
  }

  lemma AddLast(c: seq<Message>, out: seq<Message>, err: seq<Message>, last: Message)
    ensures var all := c + (out + err + [last]);
            all[|all| - 1] == last && all[..|all| - 1] == c + out + err
  {
    assert c + (out + err + [last]) == c + out + err + [last];
  }

  lemma {:induction false} Completes(x: Setup, s: State)
    requires ChannelInv(x, s)
    ensures SystemChannel(x, s.taken + Rest(x, s)) && (s.exit.Closed? ==> SystemChannel(x, s.taken))
  {
    if Over(s.exit) {
      assert s.taken + Rest(x, s) == s.taken;
      assert s.outSent + [] == s.outSent && s.errSent + [] == s.errSent;
    } else {
      CompletesLater(x, s);
    }
  }

  // ---------------------------------------------------------------------------------------------
  // The exit state is the exit status
  // ---------------------------------------------------------------------------------------------

  /** Nobody kills the process and its time does not run out. */
  predicate Calm(acts: seq<Action>) { forall j :: 0 <= j < |acts| && acts[j].Take? ==> !Ends(acts[j].e) }

  predicate NoneEnds(events: seq<Event>) { forall j :: 0 <= j < |events| ==> !Ends(events[j]) }

  predicate InLoop(pc: Pc) { pc.Selecting? || pc.Feeding? }

  /** The loop was ended by the exit message and by nothing before it. */
  predicate EndedByExit(x: Setup, events: seq<Event>, end: Option<JobState>) {
    && events != []
    && NoneEnds(events[..|events| - 1])
    && events[|events| - 1] == Sent(ExitMessage(x.status))
    && end == Some(EndState(events[|events| - 1]))
  }

  ghost predicate RunnerInv(x: Setup, s: State) {
    && Messages(s.events) == s.taken
    && (if s.end.None? then InLoop(s.pc) && !Over(s.exit) && NoneEnds(s.events)
        else !InLoop(s.pc) && Over(s.exit) && EndedByExit(x, s.events, s.end))
    && (s.pc.Done? ==> s.exit.Closed?)
  }

  lemma MessagesMore(events: seq<Event>, e: Event)
    ensures Messages(events + [e]) == Messages(events) + (if e.Sent? then [e.m] else [])
  {
    assert (events + [e])[..|events|] == events;
  }

  lemma {:induction false} DeliverRunner(feed: Stats.Feeder, x: Setup, s: State, s1: State, m: Message)
    requires RunnerInv(x, s) && s.end.None? && s.pc.Selecting? && m.level != EXIT_STATE
    requires s1.pc == s.pc && s1.events == s.events && s1.taken == s.taken && s1.end == s.end && s1.exit == s.exit
    ensures RunnerInv(x, Receive(feed, s1, m))
  {
    MessagesMore(s.events, Sent(m));
  }

  lemma {:induction false} ExitRunner(feed: Stats.Feeder, x: Setup, s: State)
    requires RunnerInv(x, s) && s.end.None? && s.pc.Selecting?
    ensures RunnerInv(x, Receive(feed, s.(exit := Closing), ExitMessage(x.status)))
  {
    MessagesMore(s.events, Sent(ExitMessage(x.status)));
    assert (s.events + [Sent(ExitMessage(x.status))])[..|s.events|] == s.events;
  }

  lemma {:induction false} TakeRunner(feed: Stats.Feeder, x: Setup, s: State, e: Event)
    requires RunnerInv(x, s) && s.end.None? && s.pc.Selecting? && !e.Sent? && !Ends(e)
    ensures RunnerInv(x, Selected(feed, s, e))
  {
    MessagesMore(s.events, e);
  }

  /** The other steps only move the waiting goroutine, or feed statsd, or see the end of the channel. */
  predicate MovesRunner(a: Action) { a.DeliverOut? || a.DeliverErr? || a.DeliverExit? || a.Take? }

  lemma {:induction false} RunnerFrame(feed: Stats.Feeder, x: Setup, status: Stats.Status, s: State, a: Action)
    requires Enabled(status, s, a) && !MovesRunner(a)
    ensures var s' := Do(feed, x, status, s, a);
            && s'.events == s.events && s'.taken == s.taken && s'.end == s.end
            && (InLoop(s'.pc) <==> InLoop(s.pc)) && (Over(s'.exit) <==> Over(s.exit))
            && (s'.pc.Done? ==> s'.exit.Closed? || s.pc.Done?) && (s.exit.Closed? ==> s'.exit.Closed?)
  {
  }

  lemma {:induction false} RunnerKept(x: Setup, s: State, s': State)
    requires RunnerInv(x, s) && s'.events == s.events && s'.taken == s.taken && s'.end == s.end
    requires (InLoop(s'.pc) <==> InLoop(s.pc)) && (Over(s'.exit) <==> Over(s.exit))
    requires (s'.pc.Done? ==> s'.exit.Closed? || s.pc.Done?) && (s.exit.Closed? ==> s'.exit.Closed?)
    ensures RunnerInv(x, s')
  {
  }

  lemma {:induction false} RunnerStep(feed: Stats.Feeder, x: Setup, status: Stats.Status, s: State, a: Action)
    requires Over(s.exit) ==> s.out == [] && s.err == []
    requires RunnerInv(x, s) && Enabled(status, s, a) && (a.Take? ==> !Ends(a.e))
    ensures RunnerInv(x, Do(feed, x, status, s, a))
  {
    match a
    case DeliverOut =>
      var m := Intercept(s.out[0]).value;
      DeliverRunner(feed, x, s, s.(out := s.out[1..], outSent := s.outSent + [m]), m);
    case DeliverErr =>
      var m := Intercept(s.err[0]).value;
      DeliverRunner(feed, x, s, s.(err := s.err[1..], errSent := s.errSent + [m]), m);
    case DeliverExit => ExitRunner(feed, x, s);
    case Take(e) => TakeRunner(feed, x, s, e);
    case _ =>
      RunnerFrame(feed, x, status, s, a);
      RunnerKept(x, s, Do(feed, x, status, s, a));
  }

  lemma {:induction false} RunRunnerInv(parse: Stats.Parser, feed: Stats.Feeder, x: Setup, acts: seq<Action>)
    requires Exec(parse, feed, x, acts).Some? && Calm(acts)
    ensures RunnerInv(x, Exec(parse, feed, x, acts).value)
  {
    if acts != [] {
      var n := |acts| - 1;
      RunRunnerInv(parse, feed, x, acts[..n]);
      RunChannelInv(parse, feed, x, acts[..n]);
      var s := Exec(parse, feed, x, acts[..n]).value;
      RunnerStep(feed, x, StatusOf(parse, s), s, acts[n]);
    }
  }

  lemma EndsLast(events: seq<Event>)
    requires events != [] && NoneEnds(events[..|events| - 1]) && Ends(events[|events| - 1])
    ensures FirstEnd(events) == |events| - 1
  {
    assert forall j :: 0 <= j < |events| - 1 ==> events[..|events| - 1][j] == events[j];
  }

  /**
    Whatever a system process prints, in any interleaving: if it is neither killed nor out of time, and the
    loop ends, then it ends as SUCCESS if the exit status is 0 and as ERROR if not, and everything the
    process printed has been taken into account.
   */
  lemma {:induction false} ExitStateIsTheStatus(parse: Stats.Parser, feed: Stats.Feeder, x: Setup, acts: seq<Action>)
    requires Exec(parse, feed, x, acts).Some? && Calm(acts) && Exec(parse, feed, x, acts).value.end.Some?
    ensures var s := Exec(parse, feed, x, acts).value; var n := |s.events| - 1;
            && s.end == Some(if x.status == 0 then SUCCESS else ERROR)
            && n >= 0 && FirstEnd(s.events) == n && EndState(s.events[n]) == s.end.value
            && Merges(Messages(s.events[..n]), Intercepted(x.out), Intercepted(x.err))
  {
    var s := Exec(parse, feed, x, acts).value;
    RunRunnerInv(parse, feed, x, acts);
    RunChannelInv(parse, feed, x, acts);
    EndsLast(s.events);
    AllTaken(x, s);
  }

  lemma {:induction false} AllTaken(x: Setup, s: State)
    requires ChannelInv(x, s) && RunnerInv(x, s) && s.end.Some?
    ensures Merges(Messages(s.events[..|s.events| - 1]), Intercepted(x.out), Intercepted(x.err))
  {
    var n := |s.events| - 1;
    assert s.events == s.events[..n] + [s.events[n]];
    MessagesMore(s.events[..n], s.events[n]);
    assert s.taken[..|s.taken| - 1] == Messages(s.events[..n]);
    assert s.outSent + [] == s.outSent && s.errSent + [] == s.errSent;
  }

  // ---------------------------------------------------------------------------------------------
  // The loop gets to its end exactly if statsd takes what it is fed
  // ---------------------------------------------------------------------------------------------

  function Todo(pc: Pc): seq<Stats.Event> { if pc.Feeding? then pc.todo else [] }

  /** The loop has sent, or still has to send, what its events ask for. */
  ghost predicate OpsInv(feed: Stats.Feeder, s: State) {
    s.sent + Todo(s.pc) == AllOps(feed, s.events) && (s.pc.Feeding? ==> s.pc.todo != [])
  }

  lemma OpsMore(feed: Stats.Feeder, events: seq<Event>, e: Event)
    ensures AllOps(feed, events + [e]) == AllOps(feed, events) + OpsOf(feed, e)
  {
    assert (events + [e])[..|events|] == events;
  }

  lemma {:induction false} SelectedOps(feed: Stats.Feeder, s: State, e: Event)
    requires OpsInv(feed, s) && s.pc.Selecting? && (Ends(e) ==> OpsOf(feed, e) == [])
    ensures OpsInv(feed, Selected(feed, s, e))
  {
    OpsMore(feed, s.events, e);
  }

  lemma {:induction false} ReceiveOps(feed: Stats.Feeder, s: State, m: Message)
    requires OpsInv(feed, s) && !s.pc.Feeding?
    ensures OpsInv(feed, Receive(feed, s, m))
  {
    if s.pc.Selecting? {
      SelectedOps(feed, s.(taken := s.taken + [m]), Sent(m));
    }
  }

  /** The steps of the consumers, of the waiting goroutine and of the daemon do not touch the loop. */
  lemma {:induction false} LoopFrame(feed: Stats.Feeder, x: Setup, status: Stats.Status, s: State, a: Action)
    requires Enabled(status, s, a) && !a.DeliverOut? && !a.DeliverErr? && !a.DeliverExit? && !a.Take? && !a.FeedOne?
    ensures var s' := Do(feed, x, status, s, a);
            s'.sent == s.sent && s'.events == s.events && s'.pc == if a.Finish? then Done else s.pc
  {
  }

  lemma {:induction false} FeedOps(feed: Stats.Feeder, s: State, s': State)
    requires OpsInv(feed, s) && s.pc.Feeding? && s.pc.todo != []
    requires s'.sent == s.sent + [s.pc.todo[0]] && s'.pc == Go(s.pc.todo[1..]) && s'.events == s.events
    ensures OpsInv(feed, s')
  {
    assert s.pc.todo == [s.pc.todo[0]] + s.pc.todo[1..];
    assert s'.sent + Todo(s'.pc) == s.sent + s.pc.todo;
  }

  lemma {:induction false} OpsStep(feed: Stats.Feeder, x: Setup, status: Stats.Status, s: State, a: Action)
    requires OpsInv(feed, s) && Enabled(status, s, a)
    ensures OpsInv(feed, Do(feed, x, status, s, a))
  {
    match a
    case DeliverOut =>
      var m := Intercept(s.out[0]).value;
      ReceiveOps(feed, s.(out := s.out[1..], outSent := s.outSent + [m]), m);
    case DeliverErr =>
      var m := Intercept(s.err[0]).value;
      ReceiveOps(feed, s.(err := s.err[1..], errSent := s.errSent + [m]), m);
    case DeliverExit => ReceiveOps(feed, s.(exit := Closing), ExitMessage(x.status));
    case Take(e) => SelectedOps(feed, s, e);
    case FeedOne => FeedOps(feed, s, Do(feed, x, status, s, a));
    case _ => LoopFrame(feed, x, status, s, a);
  }

  /** What the daemon took, and how it has been since. */
  ghost predicate FedInv(parse: Stats.Parser, earlier: seq<Stats.Event>, fed: seq<Stats.Event>,
                         sent: seq<Stats.Event>) {
    && Stats.SameFed(fed, earlier + sent)
    && (sent != [] ==> Stats.Lawful(earlier + sent[..|sent| - 1]))
    && (Stats.Run(parse, fed).status.Crashed? <==>
          sent != [] && Stats.Strange(earlier + sent[..|sent| - 1], sent[|sent| - 1]))
  }

  lemma {:induction false} FeedFed(parse: Stats.Parser, earlier: seq<Stats.Event>, fed: seq<Stats.Event>,
                                   sent: seq<Stats.Event>, op: Stats.Event)
    requires FedInv(parse, earlier, fed, sent) && Stats.Run(parse, fed).status.Alive?
    ensures FedInv(parse, earlier, fed + [op], sent + [op])
  {
    Stats.AliveIffLawful(parse, fed);
    Stats.SameFedIsEnough(fed, earlier + sent);
    Stats.CrashStep(parse, fed, op);
    assert (sent + [op])[..|sent|] == sent;
    FedMore(fed, earlier, sent, op);
  }

  lemma FedMore(fed: seq<Stats.Event>, earlier: seq<Stats.Event>, sent: seq<Stats.Event>, op: Stats.Event)
    requires Stats.SameFed(fed, earlier + sent)
    ensures Stats.SameFed(fed + [op], earlier + (sent + [op])) && Stats.SameFed(fed + [Stats.Flush], earlier + sent)
  {
    assert earlier + (sent + [op]) == (earlier + sent) + [op];
    assert forall e :: e in fed + [op] <==> e in fed || e == op;
    assert forall e :: e in fed + [Stats.Flush] <==> e in fed || e == Stats.Flush;
    assert forall e :: e in (earlier + sent) + [op] <==> e in earlier + sent || e == op;
  }

  lemma {:induction false} FlushFed(parse: Stats.Parser, earlier: seq<Stats.Event>, fed: seq<Stats.Event>,
                                    sent: seq<Stats.Event>)
    requires FedInv(parse, earlier, fed, sent) && Stats.Run(parse, fed).status.Alive?
    ensures FedInv(parse, earlier, fed + [Stats.Flush], sent)
  {
    Stats.CrashStep(parse, fed, Stats.Flush);
    FedMore(fed, earlier, sent, Stats.Flush);
  }

  lemma {:induction false} FedFrame(feed: Stats.Feeder, x: Setup, status: Stats.Status, s: State, a: Action)
    requires Enabled(status, s, a)
    ensures var s' := Do(feed, x, status, s, a);
            && s'.fed == s.fed + (if a.FeedOne? then [s.pc.todo[0]] else if a.FlushStats? then [Stats.Flush] else [])
            && s'.sent == s.sent + (if a.FeedOne? then [s.pc.todo[0]] else [])
  {
  }

  lemma {:induction false} RunFedInv(parse: Stats.Parser, feed: Stats.Feeder, x: Setup, acts: seq<Action>)
    requires Exec(parse, feed, x, acts).Some? && !Stats.Run(parse, x.earlier).status.Crashed?
    ensures var s := Exec(parse, feed, x, acts).value;
            OpsInv(feed, s) && FedInv(parse, x.earlier, s.fed, s.sent)
  {
    if acts == [] {
      assert x.earlier + [] == x.earlier;
    } else {
      var n := |acts| - 1;
      RunFedInv(parse, feed, x, acts[..n]);
      var s := Exec(parse, feed, x, acts[..n]).value;
      OpsStep(feed, x, StatusOf(parse, s), s, acts[n]);
      FedStep(parse, feed, x, s, acts[n]);
    }
  }

  lemma {:induction false} FedStep(parse: Stats.Parser, feed: Stats.Feeder, x: Setup, s: State, a: Action)
    requires FedInv(parse, x.earlier, s.fed, s.sent) && Enabled(StatusOf(parse, s), s, a)
    ensures var s' := Do(feed, x, StatusOf(parse, s), s, a);
            FedInv(parse, x.earlier, s'.fed, s'.sent)
  {
    FedFrame(feed, x, StatusOf(parse, s), s, a);
    if a.FeedOne? {
      FeedFed(parse, x.earlier, s.fed, s.sent, s.pc.todo[0]);
    } else if a.FlushStats? {
      FlushFed(parse, x.earlier, s.fed, s.sent);
      assert s.sent + [] == s.sent;
    } else {
      assert s.fed + [] == s.fed && s.sent + [] == s.sent;
    }
  }

  /** A step that only a clock or a user takes. */
  predicate IsClock(a: Action) { a.Take? || a.FlushStats? }

  /** The runner is blocked in a send that nobody is going to receive. */
  predicate Hung(status: Stats.Status, s: State) { s.pc.Feeding? && s.pc.todo != [] && status.Returned? }

  /** If neither the runner nor the program is stuck, there is something to do until the runner is done. */
  lemma {:induction false} CanMove(status: Stats.Status, s: State) returns (a: Action)
    requires (!s.exit.AwaitOut? ==> s.out == []) && (!s.exit.AwaitOut? && !s.exit.AwaitErr? ==> s.err == [])
    requires (InLoop(s.pc) <==> !Over(s.exit)) && (s.pc.Feeding? ==> s.pc.todo != [])
    requires !status.Crashed? && !Hung(status, s) && !s.pc.Done?
    ensures Enabled(status, s, a) && !IsClock(a)
  {
    if s.pc.Feeding? {
      a := FeedOne;
    } else if s.out != [] {
      a := if Passes(s.out) then DeliverOut else DropOut;
    } else if s.err != [] {
      a := if Passes(s.err) then DeliverErr else DropErr;
    } else {
      match s.exit
      case AwaitOut => a := EndOut;
      case AwaitErr => a := EndErr;
      case AwaitPid => a := Exited;
      case Reporting => a := DeliverExit;
      case Closing => a := Close;
      case Closed => a := Finish;
    }
  }

  /** What was sent is a proper part of what had to be, or all of it. */
  lemma {:induction false} DeliveredIff(parse: Stats.Parser, earlier: seq<Stats.Event>, fed: seq<Stats.Event>,
                                        sent: seq<Stats.Event>, todo: seq<Stats.Event>)
    requires FedInv(parse, earlier, fed, sent)
    requires todo != [] ==> !Stats.Run(parse, fed).status.Alive?
    ensures Stats.Deliverable(earlier, sent + todo) <==> todo == [] && !Stats.Run(parse, fed).status.Crashed?
  {
    var ops := sent + todo;
    if todo == [] {
      assert ops == sent;
    } else if Stats.Deliverable(earlier, ops) {
      Stats.AliveIffLawful(parse, fed);
      Stats.SameFedIsEnough(fed, earlier + sent);
      assert ops[..|ops| - 1] == sent + todo[..|todo| - 1];
      Stats.LawfulPart(earlier + sent, earlier + ops[..|ops| - 1]);
    }
  }

  /**
    A calm run in which nothing but clocks can move any more has reached its end exactly if everything that
    was fed to statsd before the last message was lawful, and that message did not have a new key and an
    unknown type. If it has not, the runner hangs in a send or the program has crashed.
   */
  lemma {:induction false} EndsIffDeliverable(parse: Stats.Parser, feed: Stats.Feeder, x: Setup, acts: seq<Action>)
    requires Exec(parse, feed, x, acts).Some? && Calm(acts) && !Stats.Run(parse, x.earlier).status.Crashed?
    requires var s := Exec(parse, feed, x, acts).value;
             forall a :: Enabled(StatusOf(parse, s), s, a) ==> IsClock(a)
    ensures var s := Exec(parse, feed, x, acts).value;
            && (s.pc.Done? <==> Stats.Deliverable(x.earlier, AllOps(feed, s.events)))
            && (s.pc.Done? || Hung(StatusOf(parse, s), s) || StatusOf(parse, s).Crashed?)
  {
    var s := Exec(parse, feed, x, acts).value;
    RunChannelInv(parse, feed, x, acts);
    RunRunnerInv(parse, feed, x, acts);
    RunFedInv(parse, feed, x, acts);
    if s.pc.Done? {
      DoneIsNotCrashed(parse, feed, x, acts);
    }
    Settled(parse, feed, x, s);
  }

  lemma {:induction false} Settled(parse: Stats.Parser, feed: Stats.Feeder, x: Setup, s: State)
    requires ChannelInv(x, s) && RunnerInv(x, s) && OpsInv(feed, s) && FedInv(parse, x.earlier, s.fed, s.sent)
    requires forall a :: Enabled(StatusOf(parse, s), s, a) ==> IsClock(a)
    requires s.pc.Done? ==> !StatusOf(parse, s).Crashed?
    ensures s.pc.Done? <==> Stats.Deliverable(x.earlier, AllOps(feed, s.events))
    ensures s.pc.Done? || Hung(StatusOf(parse, s), s) || StatusOf(parse, s).Crashed?
  {
    NothingElse(x, StatusOf(parse, s), s);
    DeliveredIff(parse, x.earlier, s.fed, s.sent, Todo(s.pc));
  }

  lemma {:induction false} NothingElse(x: Setup, status: Stats.Status, s: State)
    requires ChannelInv(x, s) && RunnerInv(x, s) && (s.pc.Feeding? ==> s.pc.todo != [])
    requires forall a :: Enabled(status, s, a) ==> IsClock(a)
    ensures s.pc.Done? || Hung(status, s) || status.Crashed?
  {
    if !status.Crashed? && !Hung(status, s) && !s.pc.Done? {
      var a := CanMove(status, s);
    }
  }

  lemma {:induction false} DoneIsNotCrashed(parse: Stats.Parser, feed: Stats.Feeder, x: Setup, acts: seq<Action>)
    requires Exec(parse, feed, x, acts).Some? && Exec(parse, feed, x, acts).value.pc.Done?
    ensures !StatusOf(parse, Exec(parse, feed, x, acts).value).Crashed?
  {
    var s := Exec(parse, feed, x, acts[..|acts| - 1]).value;
    FedFrame(feed, x, StatusOf(parse, s), s, acts[|acts| - 1]);
    assert s.fed + [] == s.fed;
    Stats.CrashStep(parse, s.fed, Stats.Flush);
  }

  // ---------------------------------------------------------------------------------------------
  // Which output is safe
  // ---------------------------------------------------------------------------------------------

  /** What a list of messages feeds to statsd. */
  function MessageOps(feed: Stats.Feeder, ms: seq<Message>): seq<Stats.Event> {
    if ms == [] then [] else OpsOf(feed, Sent(ms[0])) + MessageOps(feed, ms[1..])
  }

  /** What both outputs feed to statsd. */
  function AllPrinted(feed: Stats.Feeder, x: Setup): seq<Stats.Event> {
    MessageOps(feed, Intercepted(x.out)) + MessageOps(feed, Intercepted(x.err))
  }

  /** All that statsd can get: from former executions, from the meter and from what the process prints. */
  function SafeList(feed: Stats.Feeder, x: Setup): seq<Stats.Event> {
    x.earlier + Metered("", "", "", "") + MessageOps(feed, Intercepted(x.out)) + MessageOps(feed, Intercepted(x.err))
  }

  predicate Bad(status: Stats.Status, s: State) { Hung(status, s) || status.Crashed? }

  /** No run without kill and timeout ever hangs or crashes. */
  ghost predicate Safe(parse: Stats.Parser, feed: Stats.Feeder, x: Setup) {
    forall acts :: Exec(parse, feed, x, acts).Some? && Calm(acts) ==>
      !Bad(StatusOf(parse, Exec(parse, feed, x, acts).value), Exec(parse, feed, x, acts).value)
  }

  /** Every operation has the key and the kind of one on the list. */
  ghost predicate Covered(list: seq<Stats.Event>, ops: seq<Stats.Event>) {
    forall e :: e in ops && e.Fed? ==> CoveredOne(list, e)
  }

  ghost predicate CoveredOne(list: seq<Stats.Event>, e: Stats.Event) {
    e.Fed? && exists e' :: e' in list && e'.Fed? && e'.key == e.key && e'.kind == e.kind
  }

  lemma {:induction false} CoveredIsLawful(list: seq<Stats.Event>, ops: seq<Stats.Event>)
    requires Stats.Lawful(list) && Covered(list, ops)
    ensures Stats.Lawful(ops)
  {
    forall e, f | e in ops && f in ops && e.Fed? && f.Fed? && e.key == f.key ensures e.kind == f.kind {
      assert CoveredOne(list, e) && CoveredOne(list, f);
    }
    forall e | e in ops && e.Fed? ensures e.kind.Some? {
      assert CoveredOne(list, e);
    }
  }

  lemma {:induction false} InterceptedHas(ms: seq<Message>, m: Message)
    requires m in ms && Intercept(m).Some?
    ensures Intercept(m).value in Intercepted(ms)
  {
    if ms[0] != m {
      InterceptedHas(ms[1..], m);
    }
  }

  lemma {:induction false} MessageOpsHas(feed: Stats.Feeder, ms: seq<Message>, m: Message, e: Stats.Event)
    requires m in ms && e in OpsOf(feed, Sent(m))
    ensures e in MessageOps(feed, ms)
  {
    if ms[0] != m {
      MessageOpsHas(feed, ms[1..], m, e);
    }
  }

  lemma {:induction false} PrintedIsCovered(feed: Stats.Feeder, x: Setup, m: Message)
    requires (m in x.out || m in x.err) && Intercept(m).Some?
    ensures Covered(SafeList(feed, x), OpsOf(feed, Sent(Intercept(m).value)))
  {
    var m' := Intercept(m).value;
    forall e | e in OpsOf(feed, Sent(m')) && e.Fed? ensures CoveredOne(SafeList(feed, x), e) {
      var ms := if m in x.out then x.out else x.err;
      InterceptedHas(ms, m);
      MessageOpsHas(feed, Intercepted(ms), m', e);
      assert e in SafeList(feed, x);
    }
  }

  lemma {:induction false} MeterIsCovered(feed: Stats.Feeder, x: Setup, e: Event)
    requires e.Meter?
    ensures Covered(SafeList(feed, x), OpsOf(feed, e))
  {
    var ops, plain := Metered(e.cpu, e.rss, e.vms, e.swap), Metered("", "", "", "");
    forall op | op in ops && op.Fed? ensures CoveredOne(SafeList(feed, x), op) {
      var j :| 0 <= j < 4 && ops[j] == op;
      assert plain[j].key == op.key && plain[j].kind == op.kind && plain[j] in plain;
      assert plain[j] in SafeList(feed, x);
    }
  }

  /** Nothing but what is on the list gets to statsd. */
  ghost predicate CoverInv(feed: Stats.Feeder, x: Setup, s: State) {
    && (forall m :: m in s.out ==> m in x.out) && (forall m :: m in s.err ==> m in x.err)
    && Covered(SafeList(feed, x), s.fed) && Covered(SafeList(feed, x), Todo(s.pc))
  }

  /** What a step feeds or is going to feed is on the list. */
  lemma {:induction false} CoverStep(feed: Stats.Feeder, x: Setup, status: Stats.Status, s: State, a: Action)
    requires CoverInv(feed, x, s) && Enabled(status, s, a)
    ensures CoverInv(feed, x, Do(feed, x, status, s, a))
  {
    FedFrame(feed, x, status, s, a);
    match a
    case DeliverOut => PrintedIsCovered(feed, x, s.out[0]);
    case DeliverErr => PrintedIsCovered(feed, x, s.err[0]);
    case Take(e) =>
      if e.Meter? {
        MeterIsCovered(feed, x, e);
      }
    case _ =>
  }

  lemma {:induction false} RunCovered(parse: Stats.Parser, feed: Stats.Feeder, x: Setup, acts: seq<Action>)
    requires Exec(parse, feed, x, acts).Some?
    ensures CoverInv(feed, x, Exec(parse, feed, x, acts).value)
  {
    if acts == [] {
      forall e | e in x.earlier && e.Fed? ensures CoveredOne(SafeList(feed, x), e) {
        assert e in SafeList(feed, x);
      }
    } else {
      var n := |acts| - 1;
      RunCovered(parse, feed, x, acts[..n]);
      var s := Exec(parse, feed, x, acts[..n]).value;
      CoverStep(feed, x, StatusOf(parse, s), s, acts[n]);
    }
  }

  /** Output that is lawful, together with the meter and with what came before, never stops the runner, in any run. */
  lemma {:induction false} LawfulIsSafe(parse: Stats.Parser, feed: Stats.Feeder, x: Setup, acts: seq<Action>)
    requires Exec(parse, feed, x, acts).Some? && Stats.Lawful(SafeList(feed, x))
    ensures StatusOf(parse, Exec(parse, feed, x, acts).value).Alive?
  {
    RunCovered(parse, feed, x, acts);
    var s := Exec(parse, feed, x, acts).value;
    CoveredIsLawful(SafeList(feed, x), s.fed);
    Stats.AliveIffLawful(parse, s.fed);
  }

  // ---------------------------------------------------------------------------------------------
  // Every run gets there, or gets stuck
  // ---------------------------------------------------------------------------------------------

  function ExitWork(exit: Exit): nat {
    match exit
    case AwaitOut => 5
    case AwaitErr => 4
    case AwaitPid => 3
    case Reporting => 2
    case Closing => 1
    case Closed => 0
  }

  function Work(s: State): nat {
    3 * |s.out| + 3 * |s.err| + 2 * |Todo(s.pc)| + ExitWork(s.exit) + (if s.pc.Done? then 0 else 1)
  }

  lemma {:induction false} WorkStep(feed: Stats.Feeder, x: Setup, status: Stats.Status, s: State, a: Action)
    requires Enabled(status, s, a)
    ensures Work(Do(feed, x, status, s, a)) + (if IsClock(a) then 0 else 1) <= Work(s) + (if a.Take? then 8 else 0)
  {
  }

  /** How many of the steps satisfy the condition. */
  function HowMany(acts: seq<Action>, which: Action -> bool): nat {
    if acts == [] then 0 else HowMany(acts[..|acts| - 1], which) + (if which(acts[|acts| - 1]) then 1 else 0)
  }

  /** Between two ticks only so many steps are possible: a run that goes on for ever needs endlessly many ticks. */
  lemma {:induction false} StepsAreBounded(parse: Stats.Parser, feed: Stats.Feeder, x: Setup, acts: seq<Action>)
    requires Exec(parse, feed, x, acts).Some?
    ensures HowMany(acts, a => !IsClock(a)) + Work(Exec(parse, feed, x, acts).value)
            <= Work(Start(x)) + 8 * HowMany(acts, (a: Action) => a.Take?)
  {
    if acts != [] {
      var n := |acts| - 1;
      StepsAreBounded(parse, feed, x, acts[..n]);
      var s := Exec(parse, feed, x, acts[..n]).value;
      WorkStep(feed, x, StatusOf(parse, s), s, acts[n]);
    }
  }

  // ---------------------------------------------------------------------------------------------
  // Output that stops the runner
  // ---------------------------------------------------------------------------------------------

  lemma Then(parse: Stats.Parser, feed: Stats.Feeder, x: Setup, acts: seq<Action>, s: State, a: Action)
    returns (acts': seq<Action>, s': State)
    requires Exec(parse, feed, x, acts) == Some(s) && Enabled(StatusOf(parse, s), s, a)
    ensures acts' == acts + [a] && s' == Do(feed, x, StatusOf(parse, s), s, a)
          && Exec(parse, feed, x, acts') == Some(s')
  {
    acts', s' := acts + [a], Do(feed, x, StatusOf(parse, s), s, a);
    assert acts'[..|acts|] == acts;
  }

  /** A message for statsd is received and what it says is fed. */
  lemma {:induction false} FeedNext(parse: Stats.Parser, feed: Stats.Feeder, x: Setup, acts: seq<Action>, s: State)
    returns (acts': seq<Action>, s': State)
    requires Exec(parse, feed, x, acts) == Some(s) && s.pc.Selecting? && StatusOf(parse, s).Alive?
    requires s.out != [] && s.out[0].level == STATSD && feed(s.out[0].text).Some?
    ensures Exec(parse, feed, x, acts') == Some(s') && s'.pc.Selecting? && s'.out == s.out[1..]
    ensures var op := feed(s.out[0].text).value; s'.fed == s.fed + [Stats.Fed(op.key, op.kind, op.value)]
    ensures Calm(acts) ==> Calm(acts')
  {
    acts', s' := Then(parse, feed, x, acts, s, DeliverOut);
    acts', s' := Then(parse, feed, x, acts', s', FeedOne);
  }

  /** The same, when statsd does not receive any more. */
  lemma {:induction false} FeedBlocks(parse: Stats.Parser, feed: Stats.Feeder, x: Setup, acts: seq<Action>, s: State)
    returns (acts': seq<Action>, s': State)
    requires Exec(parse, feed, x, acts) == Some(s) && s.pc.Selecting? && StatusOf(parse, s).Returned?
    requires s.out != [] && s.out[0].level == STATSD && feed(s.out[0].text).Some?
    ensures Exec(parse, feed, x, acts') == Some(s') && Hung(StatusOf(parse, s'), s') && s'.out == s.out[1..]
    ensures Calm(acts) ==> Calm(acts')
  {
    acts', s' := Then(parse, feed, x, acts, s, DeliverOut);
  }

  ghost predicate FeedsAs(feed: Stats.Feeder, m: Message, key: string, kind: Option<Stats.Kind>) {
    m.level == STATSD && feed(m.text).Some? && feed(m.text).value.key == key && feed(m.text).value.kind == kind
  }

  lemma {:induction false} TwoKinds(parse: Stats.Parser, e: Stats.Event, e': Stats.Event)
    requires e.Fed? && e'.Fed? && e.key == e'.key && e.kind.Some? && e'.kind != e.kind
    ensures Stats.Run(parse, [e]).status.Alive? && Stats.Run(parse, [e, e']).status.Returned?
  {
    Stats.RunMore(parse, [], e);
    Stats.RunMore(parse, [e], e');
    assert [] + [e] == [e] && [e] + [e'] == [e, e'];
  }

  /** In `s'` the runner hangs and has taken nothing since `s`. */
  ghost predicate HungSince(parse: Stats.Parser, s: State, s': State) {
    Hung(StatusOf(parse, s'), s') && s'.end == s.end && s'.events == s.events
  }

  /** The state after the steps `more` from `s`, if all of them were possible. */
  ghost function After(parse: Stats.Parser, feed: Stats.Feeder, x: Setup, s: State, more: seq<Action>): Option<State>
    decreases |more|
  {
    if more == [] then Some(s)
    else if Enabled(StatusOf(parse, s), s, more[0]) then
      After(parse, feed, x, Do(feed, x, StatusOf(parse, s), s, more[0]), more[1..])
    else None
  }

  lemma {:induction false} HungStep(parse: Stats.Parser, feed: Stats.Feeder, x: Setup, s: State, a: Action)
    requires Hung(StatusOf(parse, s), s) && Enabled(StatusOf(parse, s), s, a)
    ensures HungSince(parse, s, Do(feed, x, StatusOf(parse, s), s, a))
  {
  }

  /** A runner that hangs does so for good, however the run goes on: it takes nothing any more, not even a kill. */
  lemma {:induction false} HungForGood(parse: Stats.Parser, feed: Stats.Feeder, x: Setup, s: State, more: seq<Action>)
    requires Hung(StatusOf(parse, s), s) && After(parse, feed, x, s, more).Some?
    ensures HungSince(parse, s, After(parse, feed, x, s, more).value)
    decreases |more|
  {
    if more != [] {
      HungStep(parse, feed, x, s, more[0]);
      HungForGood(parse, feed, x, Do(feed, x, StatusOf(parse, s), s, more[0]), more[1..]);
    }
  }

  /**
    Any process that prints a statsd message, one for the same key with another type, and a third one can
    block its runner for ever.
   */
  lemma {:induction false} ThreeMessagesHang(parse: Stats.Parser, feed: Stats.Feeder, x: Setup, key: string,
                                             kind: Stats.Kind, other: Option<Stats.Kind>)
    returns (acts: seq<Action>, s: State)
    requires |x.out| == 3 && x.earlier == []
    requires FeedsAs(feed, x.out[0], key, Some(kind)) && FeedsAs(feed, x.out[1], key, other) && other != Some(kind)
    requires x.out[2].level == STATSD && feed(x.out[2].text).Some?
    ensures Exec(parse, feed, x, acts) == Some(s) && Calm(acts) && Hung(StatusOf(parse, s), s)
  {
    var op, op' := feed(x.out[0].text).value, feed(x.out[1].text).value;
    var e, e' := Stats.Fed(op.key, op.kind, op.value), Stats.Fed(op'.key, op'.kind, op'.value);
    TwoKinds(parse, e, e');
    s := Start(x);
    assert Exec(parse, feed, x, []) == Some(s);
    acts, s := FeedNext(parse, feed, x, [], s);
    assert s.fed == [e];
    acts, s := FeedNext(parse, feed, x, acts, s);
    assert s.fed == [e, e'];
    acts, s := FeedBlocks(parse, feed, x, acts, s);
  }

  /** One message with a new key and a type that is not known ends the whole program. */
  lemma {:induction false} OneMessageCrashes(parse: Stats.Parser, feed: Stats.Feeder, x: Setup, key: string)
    returns (acts: seq<Action>, s: State)
    requires |x.out| >= 1 && x.earlier == [] && FeedsAs(feed, x.out[0], key, None)
    ensures Exec(parse, feed, x, acts) == Some(s) && Calm(acts) && StatusOf(parse, s).Crashed?
    ensures forall a :: !Enabled(StatusOf(parse, s), s, a)
  {
    s := Start(x);
    assert Exec(parse, feed, x, []) == Some(s);
    acts, s := FeedNext(parse, feed, x, [], s);
    assert s.fed == [] + [s.fed[0]];
    Stats.RunMore(parse, [], s.fed[0]);
  }

  /** The text of a statsd message. */
  function StatsText(key: string, value: string, optype: string): string { key + ":" + value + "|" + optype }

  function StatsLines(a: string, b: string, c: string): seq<Item> {
    [Single(STATSD, a), Single(STATSD, b), Single(STATSD, c)]
  }

  lemma {:induction false} LinesAreRead(a: string, b: string, c: string)
    requires forall t :: t in [a, b, c] ==> '\n' !in t && t != "" && t[0] != ':'
    ensures Parse(STDOUT, Print(StatsLines(a, b, c)), false) ==
            [Message(STATSD, a), Message(STATSD, b), Message(STATSD, c)]
  {
    var items := StatsLines(a, b, c);
    assert a in [a, b, c] && b in [a, b, c] && c in [a, b, c];
    RoundTrip(STDOUT, items);
    assert items[1..][1..] == items[2..] && items[2..][1..] == [];
    assert AllMeant(STDOUT, items[2..]) == [Message(STATSD, c)];
    assert AllMeant(STDOUT, items[1..]) == [Message(STATSD, b)] + AllMeant(STDOUT, items[2..]);
  }

  lemma OnOneLine(key: string, value: string, optype: string)
    requires '\n' !in key && '\n' !in value && '\n' !in optype && key != "" && key[0] != ':'
    ensures var t := StatsText(key, value, optype); '\n' !in t && t != "" && t[0] != ':'
  {
  }

  /** What a process prints to count and to gauge under the same name: `10::a:1|c` and twice `10::a:1|g`. */
  function Liar(): string {
    Print(StatsLines(StatsText("a", "1", "c"), StatsText("a", "1", "g"), StatsText("a", "1", "g")))
  }

  lemma {:induction false} LiarIsRead()
    ensures var c, g := StatsText("a", "1", "c"), StatsText("a", "1", "g");
            Parse(STDOUT, Liar(), false) == [Message(STATSD, c), Message(STATSD, g), Message(STATSD, g)]
  {
    OnOneLine("a", "1", "c");
    OnOneLine("a", "1", "g");
    LinesAreRead(StatsText("a", "1", "c"), StatsText("a", "1", "g"), StatsText("a", "1", "g"));
  }

  lemma {:induction false} LiarFeeds()
    ensures FeedsAs(FeedText, Message(STATSD, StatsText("a", "1", "c")), "a", Some(Stats.Counter))
    ensures FeedsAs(FeedText, Message(STATSD, StatsText("a", "1", "g")), "a", Some(Stats.Gauge))
  {
    Stats.FeedsWhatItSays("a", "1", "c");
    Stats.FeedsWhatItSays("a", "1", "g");
  }

  /** These three lines are enough, whatever the exit status. */
  lemma {:induction false} LiarHangs(parse: Stats.Parser, status: int) returns (acts: seq<Action>, s: State)
    ensures Exec(parse, FeedText, Printing(Liar(), false, "", false, status, []), acts) == Some(s)
    ensures Calm(acts) && Hung(StatusOf(parse, s), s)
  {
    LiarIsRead();
    LiarFeeds();
    var x := Printing(Liar(), false, "", false, status, []);
    acts, s := ThreeMessagesHang(parse, FeedText, x, "a", Stats.Counter, Some(Stats.Gauge));
  }

  // ---------------------------------------------------------------------------------------------
  // Other output is not safe
  // ---------------------------------------------------------------------------------------------

  /** A run without kill and timeout that has led to `s`. */
  ghost predicate Leads(parse: Stats.Parser, feed: Stats.Feeder, x: Setup, acts: seq<Action>, s: State) {
    Exec(parse, feed, x, acts) == Some(s) && Calm(acts)
  }

  /** The runner has sent `ops` more and is back in its `select`. */
  ghost predicate SentTo(s: State, s': State, ops: seq<Stats.Event>) {
    s'.pc.Selecting? && s'.sent == s.sent + ops
  }

  lemma {:induction false} SendOne(parse: Stats.Parser, feed: Stats.Feeder, x: Setup, acts: seq<Action>, s: State)
    returns (acts': seq<Action>, s': State)
    requires Leads(parse, feed, x, acts, s) && s.pc.Feeding? && s.pc.todo != [] && StatusOf(parse, s).Alive?
    ensures Leads(parse, feed, x, acts', s') && s'.pc == Go(s.pc.todo[1..]) && s'.out == s.out && s'.err == s.err
    ensures s'.sent + Todo(s'.pc) == s.sent + s.pc.todo
  {
    acts', s' := Then(parse, feed, x, acts, s, FeedOne);
    FirstOfTodo(s.sent, s.pc.todo);
  }

  lemma FirstOfTodo(sent: seq<Stats.Event>, todo: seq<Stats.Event>)
    requires todo != []
    ensures sent + [todo[0]] + Todo(Go(todo[1..])) == sent + todo
  {
    assert todo == [todo[0]] + todo[1..];
    assert Todo(Go(todo[1..])) == todo[1..];
  }

  /** What the runner has to send gets sent, or it hangs, or the program crashes. */
  lemma {:induction false} SendAll(parse: Stats.Parser, feed: Stats.Feeder, x: Setup, acts: seq<Action>, s: State)
    returns (acts': seq<Action>, s': State)
    requires Leads(parse, feed, x, acts, s) && !StatusOf(parse, s).Crashed?
          && (s.pc.Selecting? || (s.pc.Feeding? && s.pc.todo != []))
    ensures Leads(parse, feed, x, acts', s')
    ensures Bad(StatusOf(parse, s'), s') || (SentTo(s, s', Todo(s.pc)) && s'.out == s.out && s'.err == s.err)
    decreases |Todo(s.pc)|
  {
    acts', s' := acts, s;
    if s.pc.Selecting? {
      assert s.sent + [] == s.sent;
    } else if StatusOf(parse, s).Alive? {
      acts', s' := SendOne(parse, feed, x, acts, s);
      if !StatusOf(parse, s').Crashed? {
        acts', s' := SendAll(parse, feed, x, acts', s');
      }
    }
  }

  /** One more event is taken and what it feeds is sent. */
  lemma {:induction false} TakeAndSend(parse: Stats.Parser, feed: Stats.Feeder, x: Setup, acts: seq<Action>, s: State,
                                       a: Action, e: Event)
    returns (acts': seq<Action>, s': State)
    requires Leads(parse, feed, x, acts, s) && s.pc.Selecting? && Enabled(StatusOf(parse, s), s, a) && !Ends(e)
    requires (a.DeliverOut? && e == Sent(Intercept(s.out[0]).value))
          || (a.DeliverErr? && e == Sent(Intercept(s.err[0]).value)) || a == Take(e)
    ensures Leads(parse, feed, x, acts', s')
    ensures Bad(StatusOf(parse, s'), s')
         || (SentTo(s, s', OpsOf(feed, e)) && s'.out == (if a.DeliverOut? then s.out[1..] else s.out)
             && s'.err == (if a.DeliverErr? then s.err[1..] else s.err))
  {
    acts', s' := Then(parse, feed, x, acts, s, a);
    assert Todo(s'.pc) == OpsOf(feed, e) && s'.fed == s.fed && s'.sent == s.sent;
    acts', s' := SendAll(parse, feed, x, acts', s');
  }

  lemma {:induction false} OpsOfFirst(feed: Stats.Feeder, ms: seq<Message>)
    requires ms != []
    ensures var m := Intercept(ms[0]); var ops := if m.Some? then OpsOf(feed, Sent(m.value)) else [];
            MessageOps(feed, Intercepted(ms)) == ops + MessageOps(feed, Intercepted(ms[1..]))
  {
    var m, rest := Intercept(ms[0]), Intercepted(ms[1..]);
    if m.Some? {
      assert Intercepted(ms) == [m.value] + rest;
      FirstOps(feed, m.value, rest);
    } else {
      assert Intercepted(ms) == [] + rest == rest;
    }
  }

  lemma {:induction false} FirstOps(feed: Stats.Feeder, m: Message, rest: seq<Message>)
    ensures MessageOps(feed, [m] + rest) == OpsOf(feed, Sent(m)) + MessageOps(feed, rest)
  {
    assert ([m] + rest)[1..] == rest;
  }

  lemma SentInTwo(sent: seq<Stats.Event>, a: seq<Stats.Event>, b: seq<Stats.Event>)
    ensures sent + a + b == sent + (a + b)
  {
  }

  lemma {:induction false} SendOutput(parse: Stats.Parser, feed: Stats.Feeder, x: Setup, acts: seq<Action>, s: State)
    returns (acts': seq<Action>, s': State)
    requires Leads(parse, feed, x, acts, s) && s.pc.Selecting? && !StatusOf(parse, s).Crashed?
    ensures Leads(parse, feed, x, acts', s')
    ensures Bad(StatusOf(parse, s'), s') || (SentTo(s, s', MessageOps(feed, Intercepted(s.out))) && s'.err == s.err)
    decreases |s.out|
  {
    acts', s' := acts, s;
    if s.out == [] {
      assert s.sent + [] == s.sent;
    } else {
      OpsOfFirst(feed, s.out);
      if Passes(s.out) {
        acts', s' := TakeAndSend(parse, feed, x, acts, s, DeliverOut, Sent(Intercept(s.out[0]).value));
      } else {
        acts', s' := Then(parse, feed, x, acts, s, DropOut);
        assert s.sent + [] == s.sent;
      }
      if !Bad(StatusOf(parse, s'), s') {
        SentInTwo(s.sent, if Passes(s.out) then OpsOf(feed, Sent(Intercept(s.out[0]).value)) else [],
                  MessageOps(feed, Intercepted(s.out[1..])));
        acts', s' := SendOutput(parse, feed, x, acts', s');
      }
    }
  }

  lemma {:induction false} SendErrors(parse: Stats.Parser, feed: Stats.Feeder, x: Setup, acts: seq<Action>, s: State)
    returns (acts': seq<Action>, s': State)
    requires Leads(parse, feed, x, acts, s) && s.pc.Selecting? && !StatusOf(parse, s).Crashed?
    ensures Leads(parse, feed, x, acts', s')
    ensures Bad(StatusOf(parse, s'), s') || SentTo(s, s', MessageOps(feed, Intercepted(s.err)))
    decreases |s.err|
  {
    acts', s' := acts, s;
    if s.err == [] {
      assert s.sent + [] == s.sent;
    } else {
      OpsOfFirst(feed, s.err);
      if Passes(s.err) {
        acts', s' := TakeAndSend(parse, feed, x, acts, s, DeliverErr, Sent(Intercept(s.err[0]).value));
      } else {
        acts', s' := Then(parse, feed, x, acts, s, DropErr);
        assert s.sent + [] == s.sent;
      }
      if !Bad(StatusOf(parse, s'), s') {
        SentInTwo(s.sent, if Passes(s.err) then OpsOf(feed, Sent(Intercept(s.err[0]).value)) else [],
                  MessageOps(feed, Intercepted(s.err[1..])));
        acts', s' := SendErrors(parse, feed, x, acts', s');
      }
    }
  }

  lemma {:induction false} SendMeter(parse: Stats.Parser, feed: Stats.Feeder, x: Setup, acts: seq<Action>, s: State)
    returns (acts': seq<Action>, s': State)
    requires Leads(parse, feed, x, acts, s) && s.pc.Selecting? && !StatusOf(parse, s).Crashed?
    ensures Leads(parse, feed, x, acts', s')
    ensures Bad(StatusOf(parse, s'), s') || SentTo(s, s', Metered("", "", "", ""))
  {
    acts', s' := TakeAndSend(parse, feed, x, acts, s, Take(Meter("", "", "", "")), Meter("", "", "", ""));
  }

  lemma {:induction false} SendBoth(parse: Stats.Parser, feed: Stats.Feeder, x: Setup, acts: seq<Action>, s: State)
    returns (acts': seq<Action>, s': State)
    requires Leads(parse, feed, x, acts, s) && s.pc.Selecting? && !StatusOf(parse, s).Crashed?
    ensures Leads(parse, feed, x, acts', s')
    ensures Bad(StatusOf(parse, s'), s')
         || SentTo(s, s', MessageOps(feed, Intercepted(s.out)) + MessageOps(feed, Intercepted(s.err)))
  {
    acts', s' := SendOutput(parse, feed, x, acts, s);
    if !Bad(StatusOf(parse, s'), s') {
      SentInTwo(s.sent, MessageOps(feed, Intercepted(s.out)), MessageOps(feed, Intercepted(s.err)));
      acts', s' := SendErrors(parse, feed, x, acts', s');
    }
  }

  lemma StartLeads(parse: Stats.Parser, feed: Stats.Feeder, x: Setup)
    ensures Leads(parse, feed, x, [], Start(x))
  {
  }

  /** All output, then one tick of the meter: everything on the list is fed, unless something bad happens before. */
  lemma {:induction false} SendList(parse: Stats.Parser, feed: Stats.Feeder, x: Setup)
    returns (acts: seq<Action>, s: State)
    requires !Stats.Run(parse, x.earlier).status.Crashed?
    ensures Leads(parse, feed, x, acts, s)
    ensures Bad(StatusOf(parse, s), s)
         || (s.pc.Selecting?
             && s.sent == AllPrinted(feed, x) + Metered("", "", "", ""))
  {
    StartLeads(parse, feed, x);
    acts, s := SendBoth(parse, feed, x, [], Start(x));
    if !Bad(StatusOf(parse, s), s) {
      acts, s := SendMeter(parse, feed, x, acts, s);
    }
  }

  lemma {:induction false} SameList(earlier: seq<Stats.Event>, meter: seq<Stats.Event>, out: seq<Stats.Event>,
                                    err: seq<Stats.Event>)
    ensures Stats.SameFed(earlier + (out + err + meter), earlier + meter + out + err)
  {
  }

  /** Output that is not lawful can stop the runner: at once, or at the next tick of the meter. */
  lemma {:induction false} UnlawfulIsUnsafe(parse: Stats.Parser, feed: Stats.Feeder, x: Setup)
    returns (acts: seq<Action>, s: State)
    requires !Stats.Run(parse, x.earlier).status.Crashed? && !Stats.Lawful(SafeList(feed, x))
    ensures Leads(parse, feed, x, acts, s) && Bad(StatusOf(parse, s), s)
  {
    acts, s := SendList(parse, feed, x);
    if !Bad(StatusOf(parse, s), s) {
      NotAlive(parse, feed, x, acts, s);
      acts, s := Then(parse, feed, x, acts, s, Take(Meter("", "", "", "")));
    }
  }

  lemma {:induction false} NotAlive(parse: Stats.Parser, feed: Stats.Feeder, x: Setup, acts: seq<Action>, s: State)
    requires !Stats.Run(parse, x.earlier).status.Crashed? && !Stats.Lawful(SafeList(feed, x))
          && Exec(parse, feed, x, acts) == Some(s)
    requires s.sent == AllPrinted(feed, x) + Metered("", "", "", "")
    ensures !StatusOf(parse, s).Alive?
  {
    RunFedInv(parse, feed, x, acts);
    Stats.AliveIffLawful(parse, s.fed);
    Stats.SameFedIsEnough(s.fed, x.earlier + s.sent);
    SameList(x.earlier, Metered("", "", "", ""),
             MessageOps(feed, Intercepted(x.out)), MessageOps(feed, Intercepted(x.err)));
    Stats.SameFedIsEnough(x.earlier + s.sent, SafeList(feed, x));
  }

  /**
    Exactly which processes are safe: no run without kill and timeout ever hangs or crashes if and only if the
    messages to statsd of both outputs, of the meter and of former executions are lawful together.
   */
  lemma {:induction false} SafeIffLawful(parse: Stats.Parser, feed: Stats.Feeder, x: Setup)
    requires !Stats.Run(parse, x.earlier).status.Crashed?
    ensures Safe(parse, feed, x) <==> Stats.Lawful(SafeList(feed, x))
  {
    if Stats.Lawful(SafeList(feed, x)) {
      forall acts | Exec(parse, feed, x, acts).Some? && Calm(acts)
        ensures !Bad(StatusOf(parse, Exec(parse, feed, x, acts).value), Exec(parse, feed, x, acts).value)
      {
        LawfulIsSafe(parse, feed, x, acts);
      }
    } else {
      var acts, s := UnlawfulIsUnsafe(parse, feed, x);
    }
  }

  /**
    A safe process comes to its end in every run that has nothing but clocks left, with the state of its exit
    status.
   */
  lemma {:induction false} SafeEnds(parse: Stats.Parser, feed: Stats.Feeder, x: Setup, acts: seq<Action>)
    requires Stats.Lawful(SafeList(feed, x)) && Exec(parse, feed, x, acts).Some? && Calm(acts)
    requires var s := Exec(parse, feed, x, acts).value;
             forall a :: Enabled(StatusOf(parse, s), s, a) ==> IsClock(a)
    ensures var s := Exec(parse, feed, x, acts).value;
            s.pc.Done? && s.end == Some(if x.status == 0 then SUCCESS else ERROR)
  {
    LawfulIsSafe(parse, feed, x, acts);
    RunChannelInv(parse, feed, x, acts);
    RunRunnerInv(parse, feed, x, acts);
    LawfulIsSafe(parse, feed, x, []);
    RunFedInv(parse, feed, x, acts);
    NothingElse(x, StatusOf(parse, Exec(parse, feed, x, acts).value), Exec(parse, feed, x, acts).value);
    ExitStateIsTheStatus(parse, feed, x, acts);
  }

  lemma {:induction false} PrintedOnList(feed: Stats.Feeder, x: Setup, m: Message, key: string,
                                         kind: Option<Stats.Kind>)
    returns (e: Stats.Event)
    requires m in x.out && FeedsAs(feed, m, key, kind)
    ensures e in SafeList(feed, x) && e.Fed? && e.key == key && e.kind == kind
  {
    var op := feed(m.text).value;
    e := Stats.Fed(op.key, op.kind, op.value);
    InterceptedHas(x.out, m);
    MessageOpsHas(feed, Intercepted(x.out), m, e);
  }

  /** Two printed lines, with one key and two types, are not safe: the next tick of the meter may hang. */
  lemma {:induction false} TwoTypesAreUnsafe(parse: Stats.Parser, feed: Stats.Feeder, x: Setup, m: Message, m': Message,
                                             key: string, kind: Option<Stats.Kind>, other: Option<Stats.Kind>)
    requires !Stats.Run(parse, x.earlier).status.Crashed? && m in x.out && m' in x.out && kind != other
    requires FeedsAs(feed, m, key, kind) && FeedsAs(feed, m', key, other)
    ensures !Safe(parse, feed, x)
  {
    var e := PrintedOnList(feed, x, m, key, kind);
    var e' := PrintedOnList(feed, x, m', key, other);
    SafeIffLawful(parse, feed, x);
  }

  /** Nor is a single line that uses a name of the meter for anything but a gauge. */
  lemma {:induction false} MeterNameIsUnsafe(parse: Stats.Parser, feed: Stats.Feeder, x: Setup, m: Message,
                                             kind: Option<Stats.Kind>)
    requires !Stats.Run(parse, x.earlier).status.Crashed? && m in x.out && kind != Some(Stats.Gauge)
    requires FeedsAs(feed, m, "_cpu_", kind)
    ensures !Safe(parse, feed, x)
  {
    var e := PrintedOnList(feed, x, m, "_cpu_", kind);
    var gauge := Metered("", "", "", "")[0];
    assert gauge in SafeList(feed, x) && gauge.key == "_cpu_" && gauge.kind == Some(Stats.Gauge);
    SafeIffLawful(parse, feed, x);
  }

  // ---------------------------------------------------------------------------------------------
  // What is always possible
  // ---------------------------------------------------------------------------------------------

  /**
    In its `select` the runner takes a kill, a timeout and any tick, and the first two end the loop as what they
    are.
   */
  lemma {:induction false} SelectTakes(feed: Stats.Feeder, x: Setup, status: Stats.Status, s: State, e: Event)
    requires s.pc.Selecting? && !status.Crashed? && !e.Sent?
    ensures Enabled(status, s, Take(e))
    ensures var s' := Do(feed, x, status, s, Take(e));
            && (e.Kill? ==> s'.end == Some(KILLED)) && (e.Timeout? ==> s'.end == Some(TIMEOUT))
            && (e.Kill? || e.Timeout? ==> s'.pc.Draining?)
            && (e.Tick? || e.Meter? ==> s'.end == s.end && InLoop(s'.pc))
  {
  }

  /** The daemon flushes whenever it likes, as long as it is alive. */
  lemma {:induction false} AliveFlushes(feed: Stats.Feeder, x: Setup, status: Stats.Status, s: State)
    requires status.Alive?
    ensures Enabled(status, s, FlushStats) && Do(feed, x, status, s, FlushStats).fed == s.fed + [Stats.Flush]
  {
  }
}
