/** The runner's message loop and its line buffer: base/pm/runner.go (`run`) and base/pm/stream/buffer.go. */
module Runner {
  import opened Wrappers
  import opened Stream
  import Stats

  const STDOUT := 1
  const STDERR := 2
  const CRITICAL := 9
  const STATSD := 10
  const EXIT_STATE := 50
  const INTERNAL := 100

  const STREAM_BUFFER_SIZE := 1000

  /** The result levels: json, yaml, toml, hrd and job. */
  predicate IsResult(level: int) { level == 20 || level == 21 || level == 22 || level == 23 || level == 30 }

  // ---------------------------------------------------------------------------------------------
  // The bounded line buffer
  // ---------------------------------------------------------------------------------------------

  /** The last `n` of `all`. */
  function LastOf(n: int, all: seq<string>): seq<string> {
    if n <= 0 then [] else if |all| <= n then all else all[|all| - n..]
  }

  /** Every line followed by a newline. */
  function Text(lines: seq<string>): string {
    if lines == [] then "" else Text(lines[..|lines| - 1]) + lines[|lines| - 1] + "\n"
  }

  class LineBuffer {
    const size: int
    var lines: seq<string>
    ghost var all: seq<string>  // everything ever appended

    ghost predicate Valid()
      reads this
    {
      lines == LastOf(size, all)
    }

    constructor (size: int)
      ensures Valid() && this.size == size && all == []
    {
      this.size, lines, all := size, [], [];
    }

    method Append(line: string)
      requires Valid()
      modifies this
      ensures Valid() && all == old(all) + [line]
    {
      lines := lines + [line];
      if |lines| > size {
        lines := lines[1..];
      }
      all := all + [line];
    }

    method String() returns (s: string)
      requires Valid()
      ensures s == Text(LastOf(size, all))
    {
      s := "";
      for j := 0 to |lines|
        invariant s == Text(lines[..j])
      {
        assert lines[..j + 1][..j] == lines[..j];
        s := s + lines[j] + "\n";
      }
      assert lines[..|lines|] == lines;
    }
  }

  // ---------------------------------------------------------------------------------------------
  // The message loop
  // ---------------------------------------------------------------------------------------------

  /** What the `select` can see. A meter tick reads the process's statistics. */
  datatype Event = Kill | Timeout | Meter(cpu: string, rss: string, vms: string, swap: string) | Tick | Sent(m: Message)

  datatype JobState = SUCCESS | ERROR | TIMEOUT | KILLED | Named(text: string)

  datatype JobResult = JobResult(state: JobState, level: int, data: string, stdout: string, stderr: string,
                                 critical: string)

  function StateOf(text: string): JobState {
    if text == "SUCCESS" then SUCCESS
    else if text == "ERROR" then ERROR
    else if text == "TIMEOUT" then TIMEOUT
    else if text == "KILLED" then KILLED
    else Named(text)
  }

  /** The events that end the loop. */
  predicate Ends(e: Event) { e.Kill? || e.Timeout? || (e.Sent? && e.m.level == EXIT_STATE) }

  function EndState(e: Event): JobState
    requires Ends(e)
  {
    if e.Kill? then KILLED else if e.Timeout? then TIMEOUT else StateOf(e.m.text)
  }

  /** All messages among the events. */
  function Messages(events: seq<Event>): seq<Message> {
    if events == [] then []
    else
      var e := events[|events| - 1];
      Messages(events[..|events| - 1]) + (if e.Sent? then [e.m] else [])
  }

  /** The texts of the messages of one level. */
  function Texts(ms: seq<Message>, level: int): seq<string> {
    if ms == [] then []
    else
      var m := ms[|ms| - 1];
      Texts(ms[..|ms| - 1], level) + (if m.level == level then [m.text] else [])
  }

  /** The last of the messages that are results. */
  function LastResult(ms: seq<Message>): Option<Message> {
    if ms == [] then None
    else if IsResult(ms[|ms| - 1].level) then Some(ms[|ms| - 1])
    else LastResult(ms[..|ms| - 1])
  }

  function LastText(texts: seq<string>): string { if texts == [] then "" else texts[|texts| - 1] }

  /** The job result, from what was sent before the end and from how it ended. */
  function ResultOf(ms: seq<Message>, end: JobState): JobResult {
    var result := LastResult(ms);
    JobResult(end,
              if result.Some? then result.value.level else 0,
              if result.Some? then result.value.text else "",
              Text(LastOf(STREAM_BUFFER_SIZE, Texts(ms, STDOUT))),
              Text(LastOf(STREAM_BUFFER_SIZE, Texts(ms, STDERR))),
              LastText(Texts(ms, CRITICAL)))
  }

  /** The index of the event that ends the loop, or their number if none does. */
  function FirstEnd(events: seq<Event>): (j: nat)
    ensures j <= |events| && (j < |events| ==> Ends(events[j]))
    ensures forall k :: 0 <= k < j ==> !Ends(events[k])
  {
    if events == [] || Ends(events[0]) then 0 else 1 + FirstEnd(events[1..])
  }

  /** What handling an event sends to statsd; `feed` stands for `FeedText`. */
  function OpsOf(feed: Stats.Feeder, e: Event): seq<Stats.Event> {
    match e
    case Meter(cpu, rss, vms, swap) => Metered(cpu, rss, vms, swap)
    case Sent(m) =>
      var op := feed(m.text);
      if m.level == STATSD && op.Some? then [Stats.Fed(op.value.key, op.value.kind, op.value.value)] else []
    case _ => []
  }

  /** A statsd message is trimmed and fed. */
  function FeedText(text: string): Option<Stats.Op> { Stats.FeedOf(Stats.Trim(text)) }

  /** `meter`. */
  function Metered(cpu: string, rss: string, vms: string, swap: string): (ops: seq<Stats.Event>)
    ensures |ops| == 4 && forall j :: 0 <= j < 4 ==> ops[j].Fed?
  {
    [Gauge("_cpu_", cpu), Gauge("_rss_", rss), Gauge("_vms_", vms), Gauge("_swap_", swap)]
  }

  function Gauge(key: string, value: string): Stats.Event { Stats.Fed(key, Some(Stats.Gauge), value) }

  function AllOps(feed: Stats.Feeder, events: seq<Event>): seq<Stats.Event> {
    if events == [] then [] else AllOps(feed, events[..|events| - 1]) + OpsOf(feed, events[|events| - 1])
  }

  /** Where a message goes: the buffers and variables after it hold what they hold for one message more. */
  class Collector {
    const out: LineBuffer
    const err: LineBuffer
    var result: Option<Message>
    var critical: string
    var ms: seq<Message>  // history: the messages so far

    ghost predicate Valid()
      reads this, out, err
    {
      && out != err && out.Valid() && err.Valid() && out.size == err.size == STREAM_BUFFER_SIZE
      && out.all == Texts(ms, STDOUT)
      && err.all == Texts(ms, STDERR)
      && result == LastResult(ms)
      && critical == LastText(Texts(ms, CRITICAL))
    }

    constructor ()
      ensures Valid() && ms == [] && fresh(out) && fresh(err)
    {
      out := new LineBuffer(STREAM_BUFFER_SIZE);
      err := new LineBuffer(STREAM_BUFFER_SIZE);
      result, critical, ms := None, "", [];
    }

    method Take(m: Message)
      requires Valid()
      modifies this, out, err
      ensures Valid() && ms == old(ms) + [m]
    {
      assert (ms + [m])[..|ms|] == ms;
      if IsResult(m.level) {
        result := Some(m);
      } else if m.level == STDOUT {
        out.Append(m.text);
      } else if m.level == STDERR {
        err.Append(m.text);
      } else if m.level == CRITICAL {
        critical := m.text;
      }
      ms := ms + [m];
    }

    /** The job result, when the loop has ended. */
    method Result(end: JobState) returns (r: Outcome)
      requires Valid()
      ensures r == Finished(ResultOf(ms, end))
    {
      var stdout := out.String();
      var stderr := err.String();
      r := Finished(JobResult(end,
                              if result.Some? then result.value.level else 0,
                              if result.Some? then result.value.text else "",
                              stdout, stderr, critical));
    }
  }

  /** How far `run` gets: the job result, more to come, blocked for ever in a send to statsd, or a panic there. */
  datatype Outcome = Finished(result: JobResult) | StillRunning | Blocked | Crashed

  /** What was fed so far, if statsd was alive when the last of it was sent. */
  ghost predicate AllSent(parse: Stats.Parser, fed: seq<Stats.Event>, ops: seq<Stats.Event>) {
    ops == [] || Stats.Run(parse, fed + ops[..|ops| - 1]).status.Alive?
  }

  lemma {:induction false} OneSent(parse: Stats.Parser, fed: seq<Stats.Event>, ops: seq<Stats.Event>, n: nat)
    requires n < |ops| && Stats.Run(parse, fed + ops[..n]).status.Alive?
    ensures Stats.Run(parse, fed + ops[..n + 1]) == Stats.Next(parse, Stats.Run(parse, fed + ops[..n]), ops[n])
    ensures AllSent(parse, fed, ops[..n + 1])
  {
    assert fed + ops[..n + 1] == (fed + ops[..n]) + [ops[n]] && ops[..n + 1][..n] == ops[..n];
    Stats.RunMore(parse, fed + ops[..n], ops[n]);
  }

  /** The sends to statsd that one event makes. Each needs the daemon to receive. */
  method Feed(parse: Stats.Parser, statsd: Stats.Statsd, ghost fed: seq<Stats.Event>, ops: seq<Stats.Event>)
    returns (sent: nat)
    requires statsd.Now() == Stats.Run(parse, fed) && forall j :: 0 <= j < |ops| ==> ops[j].Fed?
    modifies statsd
    ensures sent <= |ops| && statsd.Now() == Stats.Run(parse, fed + ops[..sent])
    ensures sent < |ops| ==> !statsd.status.Alive?
    ensures AllSent(parse, fed, ops[..sent])
  {
    sent := 0;
    assert fed + ops[..0] == fed;
    while sent < |ops| && statsd.status.Alive?
      invariant sent <= |ops| && statsd.Now() == Stats.Run(parse, fed + ops[..sent])
      invariant AllSent(parse, fed, ops[..sent])
    {
      var op := ops[sent];
      OneSent(parse, fed, ops, sent);
      statsd.Receive(parse, op.key, op.kind, op.value);
      sent := sent + 1;
    }
  }

  lemma {:induction false} OpsGrow(feed: Stats.Feeder, events: seq<Event>, j: nat)
    requires j <= |events|
    ensures AllOps(feed, events[..j]) <= AllOps(feed, events)
  {
    if j < |events| {
      OpsGrow(feed, events[..|events| - 1], j);
      assert events[..|events| - 1][..j] == events[..j];
    } else {
      assert events[..j] == events;
    }
  }

  /** A daemon that is not alive when there is more to send, or that crashed: not everything could be sent. */
  lemma {:induction false} NotDelivered(parse: Stats.Parser, earlier: seq<Stats.Event>, sent: seq<Stats.Event>,
                                        ops: seq<Stats.Event>)
    requires sent <= ops && ops != [] && !Stats.Run(parse, earlier + sent).status.Alive?
    requires |sent| < |ops| || Stats.Run(parse, earlier + sent).status.Crashed?
    ensures !Stats.Deliverable(earlier, ops)
  {
    assert ops[..|sent|] == sent;
    if Stats.Deliverable(earlier, ops) {
      if |sent| < |ops| {
        Stats.AliveBefore(parse, earlier, ops, |sent|);
      } else {
        assert sent == ops;
        Stats.DeliverableIff(parse, earlier, ops);
      }
    }
  }

  lemma {:induction false} DeliveredMore(parse: Stats.Parser, earlier: seq<Stats.Event>, done: seq<Stats.Event>,
                                         ops: seq<Stats.Event>)
    requires Stats.Deliverable(earlier, done) && !Stats.Run(parse, earlier + (done + ops)).status.Crashed?
    requires AllSent(parse, earlier + done, ops)
    ensures Stats.Deliverable(earlier, done + ops)
  {
    var all := done + ops;
    if ops == [] {
      assert all == done;
    } else {
      assert earlier + all[..|all| - 1] == earlier + done + ops[..|ops| - 1];
      Stats.DeliverableIff(parse, earlier, all);
    }
  }

  /**
    The body of the loop for an event that does not end it. If it does not get through, `sent` is what it could
    send.
   */
  method Handle(parse: Stats.Parser, feed: Stats.Feeder, statsd: Stats.Statsd, c: Collector,
                ghost fed: seq<Stats.Event>, e: Event)
    returns (through: bool, ghost sent: seq<Stats.Event>)
    requires statsd.Now() == Stats.Run(parse, fed) && !statsd.status.Crashed? && c.Valid()
    modifies statsd, c, c.out, c.err
    ensures sent <= OpsOf(feed, e) && statsd.Now() == Stats.Run(parse, fed + sent) && AllSent(parse, fed, sent)
    ensures through <==> sent == OpsOf(feed, e) && !statsd.status.Crashed?
    ensures |sent| < |OpsOf(feed, e)| ==> !statsd.status.Alive?
    ensures OpsOf(feed, e) == [] ==> through
    ensures through ==> c.Valid() && c.ms == old(c.ms) + (if e.Sent? then [e.m] else [])
  {
    var ops := OpsOf(feed, e);
    var n := Feed(parse, statsd, fed, ops);
    sent, through := ops[..n], n == |ops| && !statsd.status.Crashed?;
    assert ops == [] ==> fed + sent == fed;
    if through && e.Sent? {
      c.Take(e.m);
    }
  }

  /** How the loop ends, in terms of the events before its end and of what was fed to statsd earlier. */
  ghost predicate Ended(feed: Stats.Feeder, earlier: seq<Stats.Event>, events: seq<Event>, r: Outcome) {
    var j := FirstEnd(events);
    if Stats.Deliverable(earlier, AllOps(feed, events[..j])) then
      r == if j < |events| then Finished(ResultOf(Messages(events[..j]), EndState(events[j]))) else StillRunning
    else r.Blocked? || r.Crashed?
  }

  lemma {:induction false} EventsMore(feed: Stats.Feeder, events: seq<Event>, j: nat)
    requires j < |events|
    ensures AllOps(feed, events[..j + 1]) == AllOps(feed, events[..j]) + OpsOf(feed, events[j])
    ensures Messages(events[..j + 1]) == Messages(events[..j]) + (if events[j].Sent? then [events[j].m] else [])
  {
    assert events[..j + 1][..j] == events[..j];
  }

  lemma {:induction false} OpsBefore(feed: Stats.Feeder, events: seq<Event>, j: nat, end: nat)
    requires j <= end <= |events|
    ensures AllOps(feed, events[..j]) <= AllOps(feed, events[..end])
  {
    OpsGrow(feed, events[..end], j);
    assert events[..end][..j] == events[..j];
  }

  /** The loop has handled the first `j` events, and all it had to send to statsd was sent. */
  ghost predicate Handled(parse: Stats.Parser, feed: Stats.Feeder, earlier: seq<Stats.Event>, events: seq<Event>,
                          j: nat, d: Stats.Daemon, forwarded: seq<Message>) {
    && j <= FirstEnd(events)
    && forwarded == Messages(events[..j])
    && d == Stats.Run(parse, earlier + AllOps(feed, events[..j])) && !d.status.Crashed?
    && Stats.Deliverable(earlier, AllOps(feed, events[..j]))
  }

  lemma {:induction false} SentMore(parse: Stats.Parser, earlier: seq<Stats.Event>, done: seq<Stats.Event>,
                                    ops: seq<Stats.Event>, d: Stats.Daemon)
    requires Stats.Deliverable(earlier, done) && AllSent(parse, earlier + done, ops)
    requires d == Stats.Run(parse, earlier + done + ops) && !d.status.Crashed?
    ensures d == Stats.Run(parse, earlier + (done + ops)) && Stats.Deliverable(earlier, done + ops)
  {
    assert earlier + done + ops == earlier + (done + ops);
    DeliveredMore(parse, earlier, done, ops);
  }

  lemma {:induction false} HandledMore(parse: Stats.Parser, feed: Stats.Feeder, earlier: seq<Stats.Event>,
                                       events: seq<Event>, j: nat, d: Stats.Daemon, d': Stats.Daemon,
                                       forwarded: seq<Message>)
    requires Handled(parse, feed, earlier, events, j, d, forwarded) && j < FirstEnd(events)
    requires var fed, ops := earlier + AllOps(feed, events[..j]), OpsOf(feed, events[j]);
             d' == Stats.Run(parse, fed + ops) && !d'.status.Crashed? && AllSent(parse, fed, ops)
    ensures Handled(parse, feed, earlier, events, j + 1, d',
                    forwarded + (if events[j].Sent? then [events[j].m] else []))
  {
    SentMore(parse, earlier, AllOps(feed, events[..j]), OpsOf(feed, events[j]), d');
    EventsMore(feed, events, j);
  }

  /** Not everything that event `j` has to send could be sent, or the last of it was a panic. */
  lemma {:induction false} HandledNoMore(parse: Stats.Parser, feed: Stats.Feeder, earlier: seq<Stats.Event>,
                                         events: seq<Event>, j: nat, d: Stats.Daemon, sent: seq<Stats.Event>)
    requires j < FirstEnd(events) && sent <= OpsOf(feed, events[j]) && OpsOf(feed, events[j]) != []
    requires d == Stats.Run(parse, earlier + AllOps(feed, events[..j]) + sent) && !d.status.Alive?
    requires |sent| < |OpsOf(feed, events[j])| || d.status.Crashed?
    ensures !Stats.Deliverable(earlier, AllOps(feed, events[..FirstEnd(events)]))
  {
    var done, ops, all := AllOps(feed, events[..j]), OpsOf(feed, events[j]), AllOps(feed, events[..FirstEnd(events)]);
    EventsMore(feed, events, j);
    OpsBefore(feed, events, j + 1, FirstEnd(events));
    assert done + ops <= all;
    SentLess(parse, earlier, done, ops, sent, all, d);
  }

  lemma {:induction false} SentLess(parse: Stats.Parser, earlier: seq<Stats.Event>, done: seq<Stats.Event>,
                                    ops: seq<Stats.Event>, sent: seq<Stats.Event>, all: seq<Stats.Event>,
                                    d: Stats.Daemon)
    requires sent <= ops && ops != [] && done + ops <= all
    requires d == Stats.Run(parse, earlier + done + sent) && !d.status.Alive? && (|sent| < |ops| || d.status.Crashed?)
    ensures !Stats.Deliverable(earlier, all)
  {
    assert earlier + done + sent == earlier + (done + sent);
    assert done + sent <= done + ops;
    NotDelivered(parse, earlier, done + sent, all);
  }

  /**
    `run`, given the events in the order in which the `select` takes them, and a daemon that has been fed
    `earlier`, by former executions of the same command. `forwarded` is what the hooks and the message
    handlers of the manager see. The loop gets to its end exactly if everything it has to send to statsd on
    the way can be sent. After the loop the source also waits until the process has closed its channel.
   */
  method RunLoop(parse: Stats.Parser, feed: Stats.Feeder, statsd: Stats.Statsd, ghost earlier: seq<Stats.Event>,
                 events: seq<Event>)
    returns (r: Outcome, forwarded: seq<Message>)
    requires statsd.Now() == Stats.Run(parse, earlier) && !statsd.status.Crashed?
    modifies statsd
    ensures Ended(feed, earlier, events, r)
    ensures r.Blocked? ==> statsd.status.Returned?
    ensures r.Crashed? <==> statsd.status.Crashed?
    ensures r.Finished? || r.StillRunning? ==>
          Handled(parse, feed, earlier, events, FirstEnd(events), statsd.Now(), forwarded)
  {
    var c := new Collector();
    var j := 0;
    forwarded := [];
    assert earlier + AllOps(feed, events[..0]) == earlier;
    while j < |events| && !Ends(events[j])
      invariant Handled(parse, feed, earlier, events, j, statsd.Now(), forwarded)
      invariant fresh(c) && fresh(c.out) && fresh(c.err) && c.Valid() && c.ms == forwarded
    {
      ghost var d := statsd.Now();
      var through, sent := Handle(parse, feed, statsd, c, earlier + AllOps(feed, events[..j]), events[j]);
      if !through {
        HandledNoMore(parse, feed, earlier, events, j, statsd.Now(), sent);
        return if statsd.status.Crashed? then Crashed else Blocked, forwarded;
      }
      HandledMore(parse, feed, earlier, events, j, d, statsd.Now(), forwarded);
      forwarded := c.ms;
      j := j + 1;
    }
    assert j == FirstEnd(events);
    if j == |events| {
      return StillRunning, forwarded;
    }
    r := c.Result(EndState(events[j]));
  }
}
