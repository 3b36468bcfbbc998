/** What statsd reports, by the names of its types: base/stats/stats.go and base/stats/buffer.go. */
module Reports {
  import opened Wrappers
  import opened Stats

  // ---------------------------------------------------------------------------------------------
  // The names
  // ---------------------------------------------------------------------------------------------

  /** Each of the five names stands for its own kind, and nothing else stands for any. */
  lemma {:induction false} KindsByName(t: string)
    ensures KindNamed(t) == Some(Gauge) <==> t == "g"
    ensures KindNamed(t) == Some(KeyValue) <==> t == "kv"
    ensures KindNamed(t) == Some(Counter) <==> t == "c"
    ensures KindNamed(t) == Some(Distinct) <==> t == "s"
    ensures KindNamed(t) == Some(Timer) <==> t == "ms"
    ensures KindNamed(t) == None <==> t != "g" && t != "kv" && t != "c" && t != "s" && t != "ms"
  {
    assert |"kv"| == 2 && |"ms"| == 2 && "kv"[0] != "ms"[0];
    assert |"g"| == 1 && "g"[0] != "c"[0] && "g"[0] != "s"[0] && "c"[0] != "s"[0];
  }

  /** A text in the documented format, from the name of the type to its kind. */
  lemma {:induction false} FedKind(key: string, value: string, t: string)
    requires Plain(key) && Plain(value) && Plain(t) && key != "" && t != ""
    ensures var op := FeedOf(Trim(key + ":" + value + "|" + t));
            && op.Some? && op.value.key == key && op.value.value == value
            && (op.value.kind == Some(Gauge) <==> t == "g") && (op.value.kind == Some(KeyValue) <==> t == "kv")
            && (op.value.kind == Some(Counter) <==> t == "c") && (op.value.kind == Some(Distinct) <==> t == "s")
            && (op.value.kind == Some(Timer) <==> t == "ms")
  {
    FeedsWhatItSays(key, value, t);
    KindsByName(t);
  }

  // ---------------------------------------------------------------------------------------------
  // Texts that are not plain
  // ---------------------------------------------------------------------------------------------

  lemma {:induction false} NoSeparator(s: string, sep: char)
    requires sep !in s
    ensures Split(s, sep) == [s]
  {
    FindNone(s, sep);
  }

  lemma {:induction false} FirstPart(a: string, sep: char, b: string)
    requires sep !in a
    ensures Split(a + [sep] + b, sep) == [a] + Split(b, sep)
  {
    var s := a + [sep] + b;
    FindEnd(a, sep, b);
    assert s[..|a|] == a && s[|a| + 1..] == b;
  }

  /** Without a bar, or without exactly one colon before it, nothing is fed. */
  lemma {:induction false} NotFed(data: string, rest: string)
    requires '|' !in data
    ensures FeedOf(data) == None
    ensures ':' !in data ==> FeedOf(data + "|" + rest) == None
    ensures forall a: string, b: string, c: string :: ':' !in a && ':' !in b && data == a + ":" + b + ":" + c ==>
              FeedOf(data + "|" + rest) == None
  {
    NoSeparator(data, '|');
    FirstPart(data, '|', rest);
    if ':' !in data {
      NoSeparator(data, ':');
    }
    forall a: string, b: string, c: string | ':' !in a && ':' !in b && data == a + ":" + b + ":" + c
      ensures FeedOf(data + "|" + rest) == None
    {
      assert data == a + ":" + (b + ":" + c);
      FirstPart(a, ':', b + ":" + c);
      FirstPart(b, ':', c);
    }
  }

  /** What follows a second bar does not matter, and neither do spaces around the key; the value is taken as it is. */
  lemma {:induction false} FlagIgnored(key: string, value: string, t: string, flag: string)
    requires '|' !in key && ':' !in key && '|' !in value && ':' !in value && '|' !in t
    ensures FeedOf(key + ":" + value + "|" + t + "|" + flag) == Some(Op(Trim(key), KindNamed(t), value))
  {
    var data, rest := key + ":" + value, t + "|" + flag;
    assert data + "|" + t + "|" + flag == data + "|" + rest;
    assert Split(data, ':') == [key, value] by {
      FirstPart(key, ':', value);
      NoSeparator(value, ':');
    }
    FirstPart(t, '|', flag);
    TwoParts(data, rest);
  }

  lemma {:induction false} TwoParts(data: string, rest: string)
    requires '|' !in data && |Split(data, ':')| == 2
    ensures var parts := Split(data, ':');
            FeedOf(data + "|" + rest) == Some(Op(Trim(parts[0]), KindNamed(Split(rest, '|')[0]), parts[1]))
  {
    FirstPart(data, '|', rest);
  }

  lemma {:induction false} SpacesTrimmed(before: nat, s: string, after: nat)
    requires s != "" && s[0] != ' ' && s[|s| - 1] != ' '
    ensures Trim(Spaces(before) + s + Spaces(after)) == s
  {
    var all := Spaces(before) + s + Spaces(after);
    if before > 0 {
      assert all[1..] == Spaces(before - 1) + s + Spaces(after);
      SpacesTrimmed(before - 1, s, after);
    } else if after > 0 {
      assert all == s + Spaces(after) && all[0] == s[0];
      assert all[..|all| - 1] == Spaces(0) + s + Spaces(after - 1);
      SpacesTrimmed(0, s, after - 1);
    } else {
      assert all == s;
    }
  }

  function Spaces(n: nat): string { seq(n, j => ' ') }

  // ---------------------------------------------------------------------------------------------
  // What is reported, message by message
  // ---------------------------------------------------------------------------------------------

  /** What a flush would report for the key now; a key that was never fed counts as 0. */
  function Now(parse: Parser, events: seq<Event>, key: string): real {
    if key in Series(Run(parse, events)) then Series(Run(parse, events))[key] else 0.0
  }

  /** The message at `j` is for the key and there was no flush since. */
  ghost predicate IsPending(events: seq<Event>, key: string, j: nat) {
    && j < |events| && events[j].Fed? && events[j].key == key
    && forall k :: j < k < |events| ==> events[k].Fed?
  }

  /** The positions of the numbers fed to the key since the last flush. */
  ghost function Numbers(parse: Parser, events: seq<Event>, key: string): set<nat> {
    set j: nat | j < |events| && IsPending(events, key, j) && events[j].value != "" && parse(events[j].value).Some?
  }

  lemma {:induction false} NumbersMore(parse: Parser, events: seq<Event>, key: string, e: Event)
    ensures Numbers(parse, events + [e], key) ==
            if e.Flush? then {}
            else if e.key == key && e.value != "" && parse(e.value).Some? then Numbers(parse, events, key) + {|events|}
            else Numbers(parse, events, key)
  {
    var all := events + [e];
    forall j: nat
      ensures IsPending(all, key, j) <==> e.Fed? && (IsPending(events, key, j) || (j == |events| && e.key == key))
    {
      assert e.Fed? && IsPending(events, key, j) ==> forall k :: j < k < |all| ==> all[k].Fed?;
      assert IsPending(all, key, j) && j < |events| ==> all[|events|].Fed? && forall k :: j < k < |events| ==>
            all[k] == events[k];
    }
  }

  lemma {:induction false} CountIsNumbers(parse: Parser, events: seq<Event>, key: string)
    ensures HowMany(parse, Since(events, key)) == |Numbers(parse, events, key)|
  {
    if events == [] {
      assert Numbers(parse, events, key) == {};
    } else {
      var n := |events| - 1;
      CountIsNumbers(parse, events[..n], key);
      NumbersMore(parse, events[..n], key, events[n]);
      assert events == events[..n] + [events[n]];
      if events[n].Fed? && events[n].key == key {
        var more := Since(events[..n], key) + [events[n].value];
        assert more[..|more| - 1] == Since(events[..n], key);
      }
    }
  }

  /** The value was fed to the key since the last flush. */
  ghost predicate SeenSince(events: seq<Event>, key: string, value: string) {
    exists j: nat :: IsPending(events, key, j) && events[j].value == value
  }

  lemma {:induction false} SinceIsSeen(events: seq<Event>, key: string, value: string)
    ensures value in Since(events, key) <==> SeenSince(events, key, value)
  {
    if events != [] {
      var n := |events| - 1;
      var e := events[n];
      SinceIsSeen(events[..n], key, value);
      if j: nat :| IsPending(events[..n], key, j) && events[..n][j].value == value && e.Fed? {
        assert IsPending(events, key, j);
      }
      if j: nat :| IsPending(events, key, j) && events[j].value == value && j < n {
        assert events[n].Fed?;
        assert IsPending(events[..n], key, j);
      }
      if e.Fed? && e.key == key && e.value == value {
        assert IsPending(events, key, n);
      }
    }
  }

  // Each message, by kind. A report of a timer is a mean: with one number more it is the mean of one more.

  /** The message is one that the daemon takes and survives. */
  ghost predicate Taken(events: seq<Event>, key: string, kind: Kind, value: string) {
    Lawful(events + [Fed(key, Some(kind), value)])
  }

  lemma {:induction false} BufferOfKind(parse: Parser, events: seq<Event>, key: string, kind: Kind, value: string)
    requires Taken(events, key, kind, value)
    ensures var d := Run(parse, events);
            && d.status.Alive? && (key in d.buffer ==> KindOf(d.buffer[key]) == kind)
            && Run(parse, events + [Fed(key, Some(kind), value)]) == OnFed(parse, d, key, Some(kind), value)
  {
    var e := Fed(key, Some(kind), value);
    LawfulMore(events, e);
    AliveIffLawful(parse, events);
    AliveIffLawful(parse, events + [e]);
    RunMore(parse, events, e);
    KindsRun(parse, events);
    KindsMore(parse, Run(parse, events), events, e);
  }

  /** The buffer of the key, or the one that it would get. */
  function BufferOf(d: Daemon, key: string, kind: Kind): Buffer {
    if key in d.buffer then d.buffer[key] else NewBuffer(kind)
  }

  lemma {:induction false} NowIs(parse: Parser, events: seq<Event>, key: string, kind: Kind, value: string)
    returns (b: Buffer)
    requires Taken(events, key, kind, value)
    ensures b == BufferOf(Run(parse, events), key, kind) && KindOf(b) == kind
    ensures Now(parse, events, key) == ValueOf(b)
    ensures Now(parse, events + [Fed(key, Some(kind), value)], key) == ValueOf(Append(parse, b, value))
  {
    BufferOfKind(parse, events, key, kind, value);
    b := BufferOf(Run(parse, events), key, kind);
  }

  /** An amount behind a sign; what is no number counts as nothing. */
  function Amount(parse: Parser, text: string): real {
    if parse(text).Some? then parse(text).value else 0.0
  }

  lemma {:induction false} GaugeReport(parse: Parser, events: seq<Event>, key: string, value: string)
    requires Taken(events, key, Gauge, value)
    ensures var was, now := Now(parse, events, key), Now(parse, events + [Fed(key, Some(Gauge), value)], key);
            if value == "" then now == was
            else if value[0] == '+' then now == was + Amount(parse, value[1..])
            else if value[0] == '-' then now == was - Amount(parse, value[1..])
            else now == (if parse(value).Some? then parse(value).value else was)
  {
    var b := NowIs(parse, events, key, Gauge, value);
  }

  lemma {:induction false} KeyValueReport(parse: Parser, events: seq<Event>, key: string, value: string)
    requires Taken(events, key, KeyValue, value)
    ensures var was, now := Now(parse, events, key), Now(parse, events + [Fed(key, Some(KeyValue), value)], key);
            now == if value != "" && parse(value).Some? then parse(value).value else was
  {
    var b := NowIs(parse, events, key, KeyValue, value);
  }

  lemma {:induction false} CounterReport(parse: Parser, events: seq<Event>, key: string, value: string)
    requires Taken(events, key, Counter, value)
    ensures var was, now := Now(parse, events, key), Now(parse, events + [Fed(key, Some(Counter), value)], key);
            now == if value != "" && parse(value).Some? then was + parse(value).value else was
  {
    var b := NowIs(parse, events, key, Counter, value);
  }

  lemma {:induction false} SetHolds(parse: Parser, events: seq<Event>, key: string, value: string)
    requires Run(parse, events).status.Alive? && BufferOf(Run(parse, events), key, Distinct).SetBuffer? && value != ""
    ensures value in BufferOf(Run(parse, events), key, Distinct).values <==> SeenSince(events, key, value)
  {
    BuffersHold(parse, events, key);
    SinceIsSeen(events, key, value);
  }

  lemma {:induction false} SetReport(parse: Parser, events: seq<Event>, key: string, value: string)
    requires Taken(events, key, Distinct, value)
    ensures var was, now := Now(parse, events, key), Now(parse, events + [Fed(key, Some(Distinct), value)], key);
            now == if value == "" || SeenSince(events, key, value) then was else was + 1.0
  {
    var b := NowIs(parse, events, key, Distinct, value);
    if value != "" {
      BufferOfKind(parse, events, key, Distinct, value);
      SetHolds(parse, events, key, value);
      assert value in b.values ==> b.values + {value} == b.values;
    }
  }

  lemma {:induction false} TimerHolds(parse: Parser, events: seq<Event>, key: string)
    requires Run(parse, events).status.Alive? && BufferOf(Run(parse, events), key, Timer).TimerBuffer?
    ensures var b := BufferOf(Run(parse, events), key, Timer);
            b.count == |Numbers(parse, events, key)| && (b.count == 0 ==> b.sum == 0.0)
  {
    BuffersHold(parse, events, key);
    CountIsNumbers(parse, events, key);
    if |Numbers(parse, events, key)| == 0 {
      NoNumbers(parse, Since(events, key));
    }
  }

  /** `x` is the mean of `n` numbers with this sum. */
  ghost predicate IsMean(x: real, n: nat, sum: real) { x * (n as real) == sum }

  /** `was` was the mean of `n` numbers, and `now` is that of these and one more. */
  ghost predicate OneMoreInMean(was: real, n: nat, num: real, now: real) {
    forall sum :: IsMean(was, n, sum) ==> IsMean(now, n + 1, sum + num)
  }

  lemma {:induction false} TimerReport(parse: Parser, events: seq<Event>, key: string, value: string)
    requires Taken(events, key, Timer, value)
    ensures var was, now := Now(parse, events, key), Now(parse, events + [Fed(key, Some(Timer), value)], key);
            if value != "" && parse(value).Some?
            then OneMoreInMean(was, |Numbers(parse, events, key)|, parse(value).value, now)
            else now == was
  {
    var b := NowIs(parse, events, key, Timer, value);
    TimerBufferHolds(parse, events, key, value, b);
    MeanStep(parse, b, value);
  }

  lemma {:induction false} TimerBufferHolds(parse: Parser, events: seq<Event>, key: string, value: string, b: Buffer)
    requires Taken(events, key, Timer, value) && b == BufferOf(Run(parse, events), key, Timer) && b.TimerBuffer?
    ensures b.count == |Numbers(parse, events, key)| && (b.count == 0 ==> b.sum == 0.0)
  {
    BufferOfKind(parse, events, key, Timer, value);
    TimerHolds(parse, events, key);
  }

  lemma MeanStep(parse: Parser, b: Buffer, value: string)
    requires b.TimerBuffer? && (b.count == 0 ==> b.sum == 0.0)
    ensures var was, now := ValueOf(b), ValueOf(Append(parse, b, value));
            if value != ""
                  && parse(value).Some? then OneMoreInMean(was, b.count, parse(value).value, now) else now == was
  {
    if value != "" && parse(value).Some? {
      var num := parse(value).value;
      forall sum | IsMean(ValueOf(b), b.count, sum) ensures IsMean(ValueOf(Append(parse, b, value)), b.count + 1,
            sum + num) {
        MeanIsExact(b.sum, b.count);
        MeanIsExact(b.sum + num, b.count + 1);
      }
    }
  }

  lemma MeanIsExact(sum: real, n: nat)
    requires n == 0 ==> sum == 0.0
    ensures IsMean(if n > 0 then sum / (n as real) else 0.0, n, sum)
  {
    if n > 0 {
      var m := n as real;
      assert (sum / m) * m == sum;
    }
  }

  lemma {:induction false} KeyHasKind(parse: Parser, events: seq<Event>, key: string, kind: Kind, value: string)
    requires Lawful(events) && Fed(key, Some(kind), value) in events
    ensures var d := Run(parse, events);
            d.status.Alive? && key in d.buffer && KindOf(d.buffer[key]) == kind
  {
    AliveIffLawful(parse, events);
    KindsRun(parse, events);
  }

  /** A flush leaves a gauge as it is and sets everything else to 0. */
  lemma {:induction false} FlushReport(parse: Parser, events: seq<Event>, key: string, kind: Kind, value: string)
    requires Lawful(events) && Fed(key, Some(kind), value) in events
    ensures Now(parse, events + [Flush], key) == if kind == Gauge then Now(parse, events, key) else 0.0
  {
    KeyHasKind(parse, events, key, kind, value);
    RunMore(parse, events, Flush);
    AfterFlush(Run(parse, events).buffer[key]);
  }

  lemma AfterFlush(b: Buffer)
    ensures ValueOf(AfterValue(b)) == if b.GaugeBuffer? then ValueOf(b) else 0.0
  {
  }

  /** A message for another key changes nothing. */
  lemma {:induction false} OtherReport(parse: Parser, events: seq<Event>, key: string, e: Event)
    requires Lawful(events + [e]) && e.Fed? && e.key != key
    ensures Now(parse, events + [e], key) == Now(parse, events, key)
  {
    LawfulMore(events, e);
    BufferOfKind(parse, events, e.key, e.kind.value, e.value);
  }

  // ---------------------------------------------------------------------------------------------
  // A list of values
  // ---------------------------------------------------------------------------------------------

  /** The values, fed to the key one after the other. */
  function FedAll(key: string, kind: Kind, vs: seq<string>): seq<Event> {
    if vs == [] then [] else FedAll(key, kind, vs[..|vs| - 1]) + [Fed(key, Some(kind), vs[|vs| - 1])]
  }

  lemma {:induction false} AllAreFed(key: string, kind: Kind, vs: seq<string>)
    ensures |FedAll(key, kind, vs)| == |vs|
    ensures forall j :: 0 <= j < |vs| ==> FedAll(key, kind, vs)[j] == Fed(key, Some(kind), vs[j])
  {
    if vs != [] {
      AllAreFed(key, kind, vs[..|vs| - 1]);
    }
  }

  lemma {:induction false} AllAreLawful(key: string, kind: Kind, vs: seq<string>)
    ensures Lawful(FedAll(key, kind, vs))
  {
    AllAreFed(key, kind, vs);
  }

  lemma {:induction false} LastIsTaken(key: string, kind: Kind, vs: seq<string>)
    requires vs != []
    ensures Taken(FedAll(key, kind, vs[..|vs| - 1]), key, kind, vs[|vs| - 1])
  {
    AllAreLawful(key, kind, vs);
  }

  /** `nums` are the numbers that the values stand for. */
  ghost predicate AllNumbers(parse: Parser, vs: seq<string>, nums: seq<real>) {
    |nums| == |vs| && forall j :: 0 <= j < |vs| ==> vs[j] != "" && parse(vs[j]) == Some(nums[j])
  }

  function SumOf(nums: seq<real>): real { if nums == [] then 0.0 else SumOf(nums[..|nums| - 1]) + nums[|nums| - 1] }

  lemma {:induction false} SumReported(parse: Parser, key: string, vs: seq<string>, nums: seq<real>)
    requires AllNumbers(parse, vs, nums)
    ensures Now(parse, FedAll(key, Counter, vs), key) == SumOf(nums)
  {
    if vs != [] {
      var n := |vs| - 1;
      SumReported(parse, key, vs[..n], nums[..n]);
      LastIsTaken(key, Counter, vs);
      CounterReport(parse, FedAll(key, Counter, vs[..n]), key, vs[n]);
    }
  }

  lemma {:induction false} CountedAll(parse: Parser, key: string, vs: seq<string>, nums: seq<real>)
    requires AllNumbers(parse, vs, nums)
    ensures |Numbers(parse, FedAll(key, Timer, vs), key)| == |vs|
  {
    if vs == [] {
      assert Numbers(parse, [], key) == {};
    } else {
      var n := |vs| - 1;
      CountedAll(parse, key, vs[..n], nums[..n]);
      AllAreFed(key, Timer, vs[..n]);
      NumbersMore(parse, FedAll(key, Timer, vs[..n]), key, Fed(key, Some(Timer), vs[n]));
    }
  }

  lemma {:induction false} MeanReported(parse: Parser, key: string, vs: seq<string>, nums: seq<real>)
    requires AllNumbers(parse, vs, nums)
    ensures IsMean(Now(parse, FedAll(key, Timer, vs), key), |vs|, SumOf(nums))
  {
    if vs != [] {
      var n := |vs| - 1;
      MeanReported(parse, key, vs[..n], nums[..n]);
      LastIsTaken(key, Timer, vs);
      CountedAll(parse, key, vs[..n], nums[..n]);
      TimerReport(parse, FedAll(key, Timer, vs[..n]), key, vs[n]);
    }
  }

  lemma {:induction false} LastReported(parse: Parser, key: string, vs: seq<string>, nums: seq<real>)
    requires AllNumbers(parse, vs, nums) && vs != []
    ensures Now(parse, FedAll(key, KeyValue, vs), key) == nums[|nums| - 1]
    ensures vs[|vs| - 1][0] != '+' && vs[|vs| - 1][0] != '-' ==>
          Now(parse, FedAll(key, Gauge, vs), key) == nums[|nums| - 1]
  {
    var n := |vs| - 1;
    LastIsTaken(key, KeyValue, vs);
    LastIsTaken(key, Gauge, vs);
    KeyValueReport(parse, FedAll(key, KeyValue, vs[..n]), key, vs[n]);
    GaugeReport(parse, FedAll(key, Gauge, vs[..n]), key, vs[n]);
  }

  lemma {:induction false} SeenInList(key: string, vs: seq<string>, value: string)
    ensures SeenSince(FedAll(key, Distinct, vs), key, value) <==> value in vs
  {
    AllAreFed(key, Distinct, vs);
    if j :| 0 <= j < |vs| && vs[j] == value {
      assert IsPending(FedAll(key, Distinct, vs), key, j);
    }
  }

  lemma {:induction false} DistinctReported(parse: Parser, key: string, vs: seq<string>)
    requires forall j :: 0 <= j < |vs| ==> vs[j] != ""
    ensures Now(parse, FedAll(key, Distinct, vs), key) == |Members(vs)| as real
  {
    if vs != [] {
      var n := |vs| - 1;
      DistinctReported(parse, key, vs[..n]);
      LastIsTaken(key, Distinct, vs);
      SeenInList(key, vs[..n], vs[n]);
      SetReport(parse, FedAll(key, Distinct, vs[..n]), key, vs[n]);
      MembersMore(vs);
    }
  }

  function Members(vs: seq<string>): set<string> { set v | v in vs }

  lemma MembersMore(vs: seq<string>)
    requires vs != []
    ensures var n := |vs| - 1;
            |Members(vs)| == |Members(vs[..n])| + (if vs[n] in vs[..n] then 0 else 1)
  {
    var n := |vs| - 1;
    assert Members(vs) == Members(vs[..n]) + {vs[n]};
  }

  // ---------------------------------------------------------------------------------------------
  // From texts to the report
  // ---------------------------------------------------------------------------------------------

  /** What feeding `key:v|t` for each of the values, in turn, sends to the daemon. */
  function FedTexts(key: string, t: string, vs: seq<string>): seq<Event> {
    if vs == [] then []
    else
      var n := |vs| - 1;
      var op := FeedOf(Trim(key + ":" + vs[n] + "|" + t));
      FedTexts(key, t, vs[..n]) + (if op.Some? then [Fed(op.value.key, op.value.kind, op.value.value)] else [])
  }

  lemma {:induction false} TextsAreFed(key: string, t: string, vs: seq<string>, kind: Kind)
    requires Plain(key) && Plain(t) && key != "" && t != "" && KindNamed(t) == Some(kind)
    requires forall j :: 0 <= j < |vs| ==> Plain(vs[j])
    ensures FedTexts(key, t, vs) == FedAll(key, kind, vs)
  {
    if vs != [] {
      var n := |vs| - 1;
      TextsAreFed(key, t, vs[..n], kind);
      LastText(key, t, vs, kind);
    }
  }

  lemma {:induction false} LastText(key: string, t: string, vs: seq<string>, kind: Kind)
    requires Plain(key) && Plain(t) && key != "" && t != "" && KindNamed(t) == Some(kind) && vs != []
          && Plain(vs[|vs| - 1])
    ensures FedTexts(key, t, vs) == FedTexts(key, t, vs[..|vs| - 1]) + [Fed(key, Some(kind), vs[|vs| - 1])]
  {
    FeedsWhatItSays(key, vs[|vs| - 1], t);
  }

  lemma {:induction false} NoFlushNoReport(parse: Parser, events: seq<Event>)
    requires forall j :: 0 <= j < |events| ==> events[j].Fed?
    ensures Reports(parse, events) == []
  {
    if events != [] {
      var n := |events| - 1;
      NoFlushNoReport(parse, events[..n]);
      assert !events[n].Flush?;
    }
  }

  /** One flush after all of them gives one report, which has the key. */
  lemma {:induction false} FlushIsNow(parse: Parser, key: string, kind: Kind, vs: seq<string>)
    requires vs != []
    ensures var r := Reports(parse, FedAll(key, kind, vs) + [Flush]);
            |r| == 1 && key in r[0] && r[0][key] == Now(parse, FedAll(key, kind, vs), key)
  {
    var events := FedAll(key, kind, vs);
    AllAreLawful(key, kind, vs);
    AllAreFed(key, kind, vs);
    KeyHasKind(parse, events, key, kind, vs[0]);
    assert (events + [Flush])[..|events|] == events;
    NoFlushNoReport(parse, events);
  }

  /** What a flush reports for the key after texts `key:v|t`, if it reports anything. */
  function Reported(parse: Parser, key: string, t: string, vs: seq<string>): Option<real> {
    var r := Reports(parse, FedTexts(key, t, vs) + [Flush]);
    if |r| == 1 && key in r[0] then Some(r[0][key]) else None
  }

  lemma {:induction false} ReportedIsNow(parse: Parser, key: string, t: string, vs: seq<string>, kind: Kind)
    requires Plain(key) && key != "" && Plain(t) && t != "" && KindNamed(t) == Some(kind) && vs != []
    requires forall j :: 0 <= j < |vs| ==> Plain(vs[j])
    ensures Reported(parse, key, t, vs) == Some(Now(parse, FedAll(key, kind, vs), key))
  {
    TextsAreFed(key, t, vs, kind);
    FlushIsNow(parse, key, kind, vs);
  }

  /** From texts to the report: a timer reports the mean of its numbers. */
  lemma {:induction false} TimerTexts(parse: Parser, key: string, vs: seq<string>, nums: seq<real>)
    requires Plain(key) && key != "" && vs != [] && (forall j :: 0 <= j < |vs| ==> Plain(vs[j]))
          && AllNumbers(parse, vs, nums)
    ensures Reported(parse, key, "ms", vs) == Some(SumOf(nums) / (|nums| as real))
  {
    KindsByName("ms");
    ReportedIsNow(parse, key, "ms", vs, Timer);
    MeanReported(parse, key, vs, nums);
    Divided(Now(parse, FedAll(key, Timer, vs), key), |vs|, SumOf(nums));
  }

  lemma Divided(x: real, n: nat, sum: real)
    requires n > 0 && IsMean(x, n, sum)
    ensures x == sum / (n as real)
  {
  }

  /** A counter reports the sum. */
  lemma {:induction false} CounterTexts(parse: Parser, key: string, vs: seq<string>, nums: seq<real>)
    requires Plain(key) && key != "" && vs != [] && (forall j :: 0 <= j < |vs| ==> Plain(vs[j]))
          && AllNumbers(parse, vs, nums)
    ensures Reported(parse, key, "c", vs) == Some(SumOf(nums))
  {
    KindsByName("c");
    ReportedIsNow(parse, key, "c", vs, Counter);
    SumReported(parse, key, vs, nums);
  }

  /** A key value reports the last number, and so does a gauge if that has no sign. */
  lemma {:induction false} LastTexts(parse: Parser, key: string, vs: seq<string>, nums: seq<real>)
    requires Plain(key) && key != "" && vs != [] && (forall j :: 0 <= j < |vs| ==> Plain(vs[j]))
          && AllNumbers(parse, vs, nums)
    ensures Reported(parse, key, "kv", vs) == Some(nums[|nums| - 1])
    ensures vs[|vs| - 1][0] != '+' && vs[|vs| - 1][0] != '-' ==> Reported(parse, key, "g", vs) == Some(nums[|nums| - 1])
  {
    KindsByName("kv");
    KindsByName("g");
    ReportedIsNow(parse, key, "kv", vs, KeyValue);
    ReportedIsNow(parse, key, "g", vs, Gauge);
    LastReported(parse, key, vs, nums);
  }

  /** A set reports how many different values there are. */
  lemma {:induction false} SetTexts(parse: Parser, key: string, vs: seq<string>)
    requires Plain(key) && key != "" && vs != [] && forall j :: 0 <= j < |vs| ==> Plain(vs[j]) && vs[j] != ""
    ensures Reported(parse, key, "s", vs) == Some(|set v | v in vs| as real)
  {
    KindsByName("s");
    ReportedIsNow(parse, key, "s", vs, Distinct);
    DistinctReported(parse, key, vs);
  }
}
