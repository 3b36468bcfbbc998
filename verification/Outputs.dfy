/** What becomes of printed messages, and how the loop ends: base/pm/process/systemprocess.go and base/pm/runner.go. */
module Outputs {
  import opened Wrappers
  import opened Stream
  import opened Runner
  import opened Process
  import Stats

  // ---------------------------------------------------------------------------------------------
  // Every printed message
  // ---------------------------------------------------------------------------------------------

  /** Message by message: level 50 becomes 2, levels above 100 stay with the interceptor, all others are passed on. */
  lemma {:induction false} OneMorePrinted(ms: seq<Message>, m: Message)
    ensures Intercepted([]) == []
    ensures Intercepted(ms + [m]) ==
            Intercepted(ms) + (if m.level > 100 then [] else if m.level == 50 then [Message(2, m.text)] else [m])
  {
    if ms == [] {
      OnlyPrinted(m);
      assert [] + [m] == [m];
    } else {
      OneMorePrinted(ms[1..], m);
      assert (ms + [m])[1..] == ms[1..] + [m] && (ms + [m])[0] == ms[0];
    }
  }

  lemma OnlyPrinted(m: Message)
    ensures Intercepted([m]) == if m.level > 100 then [] else if m.level == 50 then [Message(2, m.text)] else [m]
  {
    assert [m][1..] == [] && Intercepted([]) == [];
  }

  lemma {:induction false} MergeCounts(c: seq<Message>, a: seq<Message>, b: seq<Message>)
    requires Merges(c, a, b)
    ensures multiset(c) == multiset(a) + multiset(b)
  {
    if c != [] {
      assert c == [c[0]] + c[1..];
      if a != [] && a[0] == c[0] && Merges(c[1..], a[1..], b) {
        MergeCounts(c[1..], a[1..], b);
        assert a == [a[0]] + a[1..];
      } else {
        MergeCounts(c[1..], a, b[1..]);
        assert b == [b[0]] + b[1..];
      }
    }
  }

  /** When a calm run ends, the loop has taken each printed message as often as it was printed. */
  lemma {:induction false} AllPrintedAreTaken(parse: Stats.Parser, feed: Stats.Feeder, x: Setup, acts: seq<Action>)
    requires Exec(parse, feed, x, acts).Some? && Calm(acts) && Exec(parse, feed, x, acts).value.end.Some?
    ensures var events := Exec(parse, feed, x, acts).value.events;
            && events != []
            && multiset(Messages(events[..|events| - 1])) == multiset(Intercepted(x.out)) + multiset(Intercepted(x.err))
  {
    ExitStateIsTheStatus(parse, feed, x, acts);
    var events := Exec(parse, feed, x, acts).value.events;
    MergeCounts(Messages(events[..|events| - 1]), Intercepted(x.out), Intercepted(x.err));
  }

  // ---------------------------------------------------------------------------------------------
  // Every end
  // ---------------------------------------------------------------------------------------------

  /** How the loop was ended, by its last event. */
  ghost predicate EndInv(x: Setup, s: State) {
    if InLoop(s.pc) then s.end == None
    else
      && s.events != []
      && match s.events[|s.events| - 1]
         case Kill => s.end == Some(KILLED)
         case Timeout => s.end == Some(TIMEOUT)
         case Sent(m) => m.level == 50 && s.end == Some(if x.status == 0 then SUCCESS else ERROR)
         case _ => false
  }

  lemma {:induction false} ReceiveEnds(feed: Stats.Feeder, x: Setup, s: State, s1: State, m: Message)
    requires EndInv(x, s) && Listening(s.pc) && (m.level != 50 || m == ExitMessage(x.status))
    requires s1.pc == s.pc && s1.events == s.events && s1.end == s.end
    ensures EndInv(x, Receive(feed, s1, m))
  {
  }

  lemma {:induction false} EndStep(feed: Stats.Feeder, x: Setup, status: Stats.Status, s: State, a: Action)
    requires EndInv(x, s) && Enabled(status, s, a)
    ensures EndInv(x, Do(feed, x, status, s, a))
  {
    match a
    case DeliverOut =>
      var m := Intercept(s.out[0]).value;
      ReceiveEnds(feed, x, s, s.(out := s.out[1..], outSent := s.outSent + [m]), m);
    case DeliverErr =>
      var m := Intercept(s.err[0]).value;
      ReceiveEnds(feed, x, s, s.(err := s.err[1..], errSent := s.errSent + [m]), m);
    case DeliverExit => ReceiveEnds(feed, x, s, s.(exit := Closing), ExitMessage(x.status));
    case Take(e) =>
    case FeedOne =>
    case _ =>
      LoopFrame(feed, x, status, s, a);
  }

  /**
    Over every run, also with kills and timeouts: the loop ends as KILLED by a kill, as TIMEOUT by a timeout, and
    otherwise by the exit, as SUCCESS or ERROR.
   */
  lemma {:induction false} EndTellsWhy(parse: Stats.Parser, feed: Stats.Feeder, x: Setup, acts: seq<Action>)
    requires Exec(parse, feed, x, acts).Some?
    ensures EndInv(x, Exec(parse, feed, x, acts).value)
  {
    if acts != [] {
      var n := |acts| - 1;
      EndTellsWhy(parse, feed, x, acts[..n]);
      var s := Exec(parse, feed, x, acts[..n]).value;
      EndStep(feed, x, StatusOf(parse, s), s, acts[n]);
    }
  }
}
