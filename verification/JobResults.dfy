/**
  What the job result says, message by message: base/pm/runner.go (`run`). All of it is about what
  `Runner.RunLoop` returns.
 */
module JobResults {
  import opened Wrappers
  import opened Stream
  import opened Runner
  import Stats

  // ---------------------------------------------------------------------------------------------
  // Before the end
  // ---------------------------------------------------------------------------------------------

  /** The events are none that end the loop: no kill, no timeout, and no message of level 50. */
  ghost predicate Before(pre: seq<Event>) {
    forall e :: e in pre ==> e.Meter? || e.Tick? || (e.Sent? && e.m.level != 50)
  }

  ghost predicate IsEnd(e: Event) { e.Kill? || e.Timeout? || (e.Sent? && e.m.level == 50) }

  /** The loop took `pre` and was ended by `end`; `r` is the result. */
  ghost predicate Gives(feed: Stats.Feeder, earlier: seq<Stats.Event>, pre: seq<Event>, end: Event, r: JobResult) {
    Before(pre) && IsEnd(end) && Ended(feed, earlier, pre + [end], Finished(r))
  }

  lemma {:induction false} GivesResult(feed: Stats.Feeder, earlier: seq<Stats.Event>, pre: seq<Event>, end: Event,
                                       r: JobResult)
    requires Gives(feed, earlier, pre, end, r)
    ensures Ends(end) && r == ResultOf(Messages(pre), EndState(end))
  {
    var events := pre + [end];
    assert forall j :: 0 <= j < |pre| ==> events[j] in pre;
    assert FirstEnd(events) == |pre| && events[..|pre|] == pre;
  }

  // ---------------------------------------------------------------------------------------------
  // The buffered lines
  // ---------------------------------------------------------------------------------------------

  function HowMany(ms: seq<Message>, level: int): nat {
    if ms == [] then 0 else HowMany(ms[..|ms| - 1], level) + (if ms[|ms| - 1].level == level then 1 else 0)
  }

  /** The text of the `j`-th message of the level, counted from 0. */
  ghost predicate IsNth(ms: seq<Message>, level: int, j: nat, text: string) {
    exists k :: 0 <= k < |ms| && ms[k].level == level && HowMany(ms[..k], level) == j && ms[k].text == text
  }

  /**
    What one more line does to a stream of which the last 1000 lines are kept. With 1000 or more lines before,
    the first one that was kept is dropped.
   */
  ghost predicate OneMoreLine(ms: seq<Message>, level: int, was: string, line: string, now: string) {
    var n := HowMany(ms, level);
    if n < 1000 then now == was + line + "\n"
    else exists first, rest :: IsNth(ms, level, n - 1000, first) && was == first + "\n" + rest
          && now == rest + line + "\n"
  }

  lemma {:induction false} TextsNth(ms: seq<Message>, level: int, j: nat)
    ensures |Texts(ms, level)| == HowMany(ms, level)
    ensures j < |Texts(ms, level)| ==> IsNth(ms, level, j, Texts(ms, level)[j])
  {
    if ms != [] {
      var n := |ms| - 1;
      TextsNth(ms[..n], level, j);
      if j < |Texts(ms[..n], level)| {
        var k :| 0 <= k < n && ms[..n][k].level == level && HowMany(ms[..n][..k], level) == j
              && ms[..n][k].text == Texts(ms[..n], level)[j];
        assert ms[..n][..k] == ms[..k];
      }
    }
  }

  lemma {:induction false} TextHead(lines: seq<string>)
    requires lines != []
    ensures Text(lines) == lines[0] + "\n" + Text(lines[1..])
  {
    var n := |lines| - 1;
    if n > 0 {
      TextHead(lines[..n]);
      assert lines[..n][1..] == lines[1..][..n - 1];
    } else {
      assert lines[..0] == [] && lines[1..] == [];
    }
  }

  lemma TextSnoc(lines: seq<string>, line: string)
    ensures Text(lines + [line]) == Text(lines) + line + "\n"
  {
    assert (lines + [line])[..|lines|] == lines;
  }

  lemma TextsSnoc(ms: seq<Message>, m: Message, level: int)
    ensures Texts(ms + [m], level) == Texts(ms, level) + (if m.level == level then [m.text] else [])
  {
    assert (ms + [m])[..|ms|] == ms;
  }

  lemma {:induction false} StreamGrows(ms: seq<Message>, m: Message)
    ensures OneMoreLine(ms, m.level, Text(LastOf(1000, Texts(ms, m.level))), m.text,
                        Text(LastOf(1000, Texts(ms + [m], m.level))))
  {
    var all := Texts(ms, m.level);
    TextsSnoc(ms, m, m.level);
    TextsNth(ms, m.level, if |all| < 1000 then 0 else |all| - 1000);
    var kept := LastOf(1000, all);
    if |all| < 1000 {
      TextSnoc(kept, m.text);
    } else {
      TextHead(kept);
      TextSnoc(kept[1..], m.text);
      assert LastOf(1000, all + [m.text]) == kept[1..] + [m.text];
    }
  }

  // ---------------------------------------------------------------------------------------------
  // One message more
  // ---------------------------------------------------------------------------------------------

  lemma {:induction false} OneMoreForResult(ms: seq<Message>, m: Message, end: JobState)
    ensures var r, r' := ResultOf(ms, end), ResultOf(ms + [m], end);
            && (m.level == 1 ==> OneMoreLine(ms, 1, r.stdout, m.text, r'.stdout))
            && (m.level != 1 ==> r'.stdout == r.stdout)
            && (m.level == 2 ==> OneMoreLine(ms, 2, r.stderr, m.text, r'.stderr))
            && (m.level != 2 ==> r'.stderr == r.stderr)
  {
    StreamOf(ms, m, 1);
    StreamOf(ms, m, 2);
  }

  lemma {:induction false} StreamOf(ms: seq<Message>, m: Message, level: int)
    ensures var was, now := Text(LastOf(1000, Texts(ms, level))), Text(LastOf(1000, Texts(ms + [m], level)));
            if m.level == level then OneMoreLine(ms, level, was, m.text, now) else now == was
  {
    TextsSnoc(ms, m, level);
    if m.level == level {
      StreamGrows(ms, m);
    } else {
      assert Texts(ms + [m], level) == Texts(ms, level);
    }
  }

  lemma {:induction false} OneMoreForTheRest(ms: seq<Message>, m: Message, end: JobState)
    ensures var r, r' := ResultOf(ms, end), ResultOf(ms + [m], end);
            && r'.state == r.state
            && r'.critical == (if m.level == 9 then m.text else r.critical)
            && (if m.level == 20 || m.level == 21 || m.level == 22 || m.level == 23 || m.level == 30
                then r'.level == m.level && r'.data == m.text
                else r'.level == r.level && r'.data == r.data)
  {
    TextsSnoc(ms, m, CRITICAL);
    assert (ms + [m])[..|ms|] == ms;
  }

  /**
    One more message before the end: level 1 adds its line to stdout, level 2 to stderr, level 9 is the critical
    text, levels 20 to 23 and 30 are data and level, and nothing else changes.
   */
  lemma {:induction false} OneMoreMessage(feed: Stats.Feeder, earlier: seq<Stats.Event>, earlier': seq<Stats.Event>,
                                          pre: seq<Event>, m: Message, end: Event, r: JobResult, r': JobResult)
    requires Gives(feed, earlier, pre, end, r) && Gives(feed, earlier', pre + [Sent(m)], end, r')
    ensures r'.state == r.state
    ensures m.level == 1 ==> OneMoreLine(Messages(pre), 1, r.stdout, m.text, r'.stdout)
    ensures m.level != 1 ==> r'.stdout == r.stdout
    ensures m.level == 2 ==> OneMoreLine(Messages(pre), 2, r.stderr, m.text, r'.stderr)
    ensures m.level != 2 ==> r'.stderr == r.stderr
    ensures r'.critical == if m.level == 9 then m.text else r.critical
    ensures if m.level == 20 || m.level == 21 || m.level == 22 || m.level == 23 || m.level == 30
            then r'.level == m.level && r'.data == m.text
            else r'.level == r.level && r'.data == r.data
  {
    GivesResult(feed, earlier, pre, end, r);
    GivesResult(feed, earlier', pre + [Sent(m)], end, r');
    assert (pre + [Sent(m)])[..|pre|] == pre;
    OneMoreForResult(Messages(pre), m, EndState(end));
    OneMoreForTheRest(Messages(pre), m, EndState(end));
  }

  /** Ticks of either clock change nothing. */
  lemma {:induction false} OneMoreTick(feed: Stats.Feeder, earlier: seq<Stats.Event>, earlier': seq<Stats.Event>,
                                       pre: seq<Event>, e: Event, end: Event, r: JobResult, r': JobResult)
    requires Gives(feed, earlier, pre, end, r) && Gives(feed, earlier', pre + [e], end, r') && !e.Sent?
    ensures r' == r
  {
    GivesResult(feed, earlier, pre, end, r);
    GivesResult(feed, earlier', pre + [e], end, r');
    NoMoreMessages(pre, e);
  }

  lemma NoMoreMessages(pre: seq<Event>, e: Event)
    requires !e.Sent?
    ensures Messages(pre + [e]) == Messages(pre)
  {
    assert (pre + [e])[..|pre|] == pre;
  }

  /** Without messages all is empty, and the state says how the loop was ended. */
  lemma {:induction false} NoMessage(feed: Stats.Feeder, earlier: seq<Stats.Event>, end: Event, r: JobResult)
    requires Gives(feed, earlier, [], end, r)
    ensures r.level == 0 && r.data == "" && r.stdout == "" && r.stderr == "" && r.critical == ""
    ensures end.Kill? ==> r.state == KILLED
    ensures end.Timeout? ==> r.state == TIMEOUT
    ensures end.Sent? && end.m.text == "SUCCESS" ==> r.state == SUCCESS
    ensures end.Sent? && end.m.text == "ERROR" ==> r.state == ERROR
  {
    GivesResult(feed, earlier, [], end, r);
  }

  // ---------------------------------------------------------------------------------------------
  // What is sent to statsd
  // ---------------------------------------------------------------------------------------------

  /** Only messages of level 10 are fed, and a tick of the meter feeds four gauges. */
  lemma {:induction false} WhatIsFed(feed: Stats.Feeder, e: Event)
    ensures e.Sent? && (e.m.level != 10 || feed(e.m.text).None?) ==> OpsOf(feed, e) == []
    ensures e.Sent? && e.m.level == 10 && feed(e.m.text).Some? ==>
              var op := feed(e.m.text).value; OpsOf(feed, e) == [Stats.Fed(op.key, op.kind, op.value)]
    ensures e.Meter? ==>
              var ops := OpsOf(feed, e);
              && |ops| == 4
              && ops[0] == Stats.Fed("_cpu_", Some(Stats.Gauge), e.cpu)
              && ops[1] == Stats.Fed("_rss_", Some(Stats.Gauge), e.rss)
              && ops[2] == Stats.Fed("_vms_", Some(Stats.Gauge), e.vms)
              && ops[3] == Stats.Fed("_swap_", Some(Stats.Gauge), e.swap)
    ensures !e.Sent? && !e.Meter? ==> OpsOf(feed, e) == []
  {
  }
}
