/** The statsd aggregator, over the reals: base/stats/stats.go and base/stats/buffer.go. */
module Stats {
  import opened Wrappers

  datatype Kind = Gauge | KeyValue | Counter | Distinct | Timer

  datatype Buffer =
    | GaugeBuffer(v: real)
    | KvBuffer(v: real)
    | CounterBuffer(v: real)
    | SetBuffer(values: set<string>)
    | TimerBuffer(sum: real, count: nat)

  /** `ParseFloat`; what is not a number gives none. */
  type Parser = string -> Option<real>

  function KindOf(b: Buffer): Kind {
    match b
    case GaugeBuffer(_) => Gauge
    case KvBuffer(_) => KeyValue
    case CounterBuffer(_) => Counter
    case SetBuffer(_) => Distinct
    case TimerBuffer(_, _) => Timer
  }

  function NewBuffer(kind: Kind): (b: Buffer)
    ensures KindOf(b) == kind
  {
    match kind
    case Gauge => GaugeBuffer(0.0)
    case KeyValue => KvBuffer(0.0)
    case Counter => CounterBuffer(0.0)
    case Distinct => SetBuffer({})
    case Timer => TimerBuffer(0.0, 0)
  }

  function Append(parse: Parser, b: Buffer, value: string): Buffer {
    if value == "" then b
    else
      match b
      case GaugeBuffer(v) =>
        var num := parse(if value[0] == '+' || value[0] == '-' then value[1..] else value);
        if num.None? then b
        else if value[0] == '+' then GaugeBuffer(v + num.value)
        else if value[0] == '-' then GaugeBuffer(v - num.value)
        else GaugeBuffer(num.value)
      case KvBuffer(v) => if parse(value).None? then b else KvBuffer(parse(value).value)
      case CounterBuffer(v) => if parse(value).None? then b else CounterBuffer(v + parse(value).value)
      case SetBuffer(values) => SetBuffer(values + {value})
      case TimerBuffer(sum, count) => if parse(value).None? then b else TimerBuffer(sum + parse(value).value, count + 1)
  }

  /** What `value` returns. */
  function ValueOf(b: Buffer): real {
    match b
    case GaugeBuffer(v) => v
    case KvBuffer(v) => v
    case CounterBuffer(v) => v
    case SetBuffer(values) => |values| as real
    case TimerBuffer(sum, count) => if count > 0 then sum / (count as real) else 0.0
  }

  /** What `value` leaves behind: a gauge keeps its value, everything else starts again. */
  function AfterValue(b: Buffer): Buffer { if b.GaugeBuffer? then b else NewBuffer(KindOf(b)) }

  // ---------------------------------------------------------------------------------------------
  // The daemon
  // ---------------------------------------------------------------------------------------------

  /** A message has no kind if its type is none of the known ones. */
  datatype Event = Fed(key: string, kind: Option<Kind>, value: string) | Flush

  /**
    The loop returns for good when a key changes its type. A key that is new and has an unknown type gets
    no buffer, and asking that for its type is a panic, which ends the whole program.
   */
  datatype Status = Alive | Returned | Crashed

  datatype Daemon = Daemon(buffer: map<string, Buffer>, status: Status)

  function OnFed(parse: Parser, d: Daemon, key: string, kind: Option<Kind>, value: string): Daemon {
    if key !in d.buffer && kind.None? then d.(status := Crashed)
    else
      var b := if key in d.buffer then d.buffer[key] else NewBuffer(kind.value);
      if Some(KindOf(b)) != kind then d.(status := Returned) else d.(buffer := d.buffer[key := Append(parse, b, value)])
  }

  function OnFlush(d: Daemon): Daemon {
    d.(buffer := map k | k in d.buffer :: AfterValue(d.buffer[k]))
  }

  function Series(d: Daemon): map<string, real> { map k | k in d.buffer :: ValueOf(d.buffer[k]) }

  class Statsd {
    var buffer: map<string, Buffer>
    var status: Status
    const flushSeconds: int

    function Now(): Daemon
      reads this
    {
      Daemon(buffer, status)
    }

    constructor (flushSeconds: int)
      ensures Now() == Daemon(map[], Alive) && this.flushSeconds == flushSeconds
    {
      buffer, status, this.flushSeconds := map[], Alive, flushSeconds;
    }

    /** One message of the `Run` loop. */
    method Receive(parse: Parser, key: string, kind: Option<Kind>, value: string)
      requires status.Alive?
      modifies this
      ensures Now() == OnFed(parse, old(Now()), key, kind, value)
    {
      var b;
      if key in buffer {
        b := buffer[key];
      } else if kind.Some? {
        b := NewBuffer(kind.value);
      } else {
        status := Crashed;
        return;
      }
      if Some(KindOf(b)) != kind {
        status := Returned;
        return;
      }
      buffer := buffer[key := Append(parse, b, value)];
    }

    /**
      The `Run` loop of a new daemon, given what its `select` takes. What comes after it has returned or
      crashed is taken by nobody. `reports` is what the flush handler gets.
     */
    method Serve(parse: Parser, events: seq<Event>) returns (reports: seq<map<string, real>>)
      requires Now() == Daemon(map[], Alive) && flushSeconds > 0
      modifies this
      ensures Now() == Run(parse, events) && reports == Reports(parse, events)
    {
      reports := [];
      for j := 0 to |events|
        invariant Now() == Run(parse, events[..j]) && reports == Reports(parse, events[..j])
      {
        assert events[..j + 1][..j] == events[..j];
        if status.Alive? {
          match events[j]
          case Fed(key, kind, value) => Receive(parse, key, kind, value);
          case Flush =>
            var series := DoFlush();
            if series.Some? {
              reports := reports + [series.value];
            } else {
              assert OnFlush(Now()) == Now();
            }
        }
      }
      assert events[..|events|] == events;
    }

    /** `flush`: with an interval below one second it only complains. */
    method DoFlush() returns (series: Option<map<string, real>>)
      modifies this
      ensures if flushSeconds <= 0 || old(buffer) == map[] then series == None && Now() == old(Now())
              else series == Some(Series(old(Now()))) && Now() == OnFlush(old(Now()))
    {
      if |buffer| == 0 {
        assert buffer.Keys == {};
        return None;
      }
      if flushSeconds <= 0 {
        return None;
      }
      var out := map[];
      out, buffer := TakeValues(buffer);
      series := Some(out);
    }
  }

  /** The loop of `flush`: every buffer gives its value and starts again. */
  method TakeValues(was: map<string, Buffer>) returns (out: map<string, real>, now: map<string, Buffer>)
    ensures out == Series(Daemon(was, Alive)) && now == OnFlush(Daemon(was, Alive)).buffer
  {
    ghost var series, after := Series(Daemon(was, Alive)), OnFlush(Daemon(was, Alive)).buffer;
    var left := was.Keys;
    out, now := map[], was;
    while left != {}
      invariant left <= was.Keys && out.Keys == was.Keys - left && now.Keys == was.Keys
      invariant forall k :: k in out ==> out[k] == series[k]
      invariant forall k :: k in now ==> now[k] == if k in left then was[k] else after[k]
      decreases |left|
    {
      var k :| k in left;
      left := left - {k};
      out := out[k := ValueOf(now[k])];
      now := now[k := AfterValue(now[k])];
    }
  }

  // ---------------------------------------------------------------------------------------------
  // Whole runs
  // ---------------------------------------------------------------------------------------------

  /** What one event does to a daemon that goes on. */
  function Next(parse: Parser, d: Daemon, e: Event): Daemon {
    if e.Fed? then OnFed(parse, d, e.key, e.kind, e.value) else OnFlush(d)
  }

  function Run(parse: Parser, events: seq<Event>): Daemon {
    if events == [] then Daemon(map[], Alive)
    else
      var d := Run(parse, events[..|events| - 1]);
      if d.status.Alive? then Next(parse, d, events[|events| - 1]) else d
  }

  lemma RunMore(parse: Parser, events: seq<Event>, e: Event)
    ensures Run(parse, events + [e]) ==
            if Run(parse, events).status.Alive? then Next(parse, Run(parse, events), e) else Run(parse, events)
  {
    assert (events + [e])[..|events|] == events;
  }

  /** What the flushes of a run report. */
  function Reports(parse: Parser, events: seq<Event>): seq<map<string, real>> {
    if events == [] then []
    else
      var n := |events| - 1;
      var d := Run(parse, events[..n]);
      Reports(parse, events[..n]) +
            (if d.status.Alive? && events[n].Flush? && d.buffer != map[] then [Series(d)] else [])
  }

  /** Key `k` is only ever used with kind `kind`. */
  ghost predicate OnlyKind(events: seq<Event>, k: string, kind: Kind) {
    forall e :: e in events && e.Fed? && e.key == k ==> e.kind == Some(kind)
  }

  /** Every message has a known type, and every key keeps its own. */
  ghost predicate Lawful(events: seq<Event>) {
    && (forall e :: e in events && e.Fed? ==> e.kind.Some?)
    && (forall e, e' :: e in events && e' in events && e.Fed? && e'.Fed? && e.key == e'.key ==> e.kind == e'.kind)
  }

  /** The key is new and the type unknown. */
  ghost predicate Strange(events: seq<Event>, e: Event) {
    e.Fed? && e.kind.None? && forall e' :: e' in events && e'.Fed? ==> e'.key != e.key
  }

  /** The values fed to key `k` since the last flush. */
  function Since(events: seq<Event>, k: string): seq<string> {
    if events == [] then []
    else
      var e := events[|events| - 1];
      if e.Flush? then []
      else if e.key == k then Since(events[..|events| - 1], k) + [e.value]
      else Since(events[..|events| - 1], k)
  }

  /** All values ever fed to key `k`. */
  function AllFed(events: seq<Event>, k: string): seq<string> {
    if events == [] then []
    else
      var e := events[|events| - 1];
      if e.Fed? && e.key == k then AllFed(events[..|events| - 1], k) + [e.value]
      else AllFed(events[..|events| - 1], k)
  }

  function Number(parse: Parser, value: string): Option<real> { if value == "" then None else parse(value) }

  function Total(parse: Parser, values: seq<string>): real {
    if values == [] then 0.0
    else
      var num := Number(parse, values[|values| - 1]);
      Total(parse, values[..|values| - 1]) + (if num.Some? then num.value else 0.0)
  }

  function HowMany(parse: Parser, values: seq<string>): nat {
    if values == [] then 0
    else HowMany(parse, values[..|values| - 1]) + (if Number(parse, values[|values| - 1]).Some? then 1 else 0)
  }

  function LastNumber(parse: Parser, values: seq<string>): real {
    if values == [] then 0.0
    else
      var num := Number(parse, values[|values| - 1]);
      if num.Some? then num.value else LastNumber(parse, values[..|values| - 1])
  }

  /** A gauge: the last plain number fed to it, with the signed ones after that added or subtracted. */
  function GaugeOf(parse: Parser, all: seq<string>): real {
    if all == [] then 0.0
    else
      var value, before := all[|all| - 1], GaugeOf(parse, all[..|all| - 1]);
      if value == "" then before
      else if value[0] == '+' then before + OrZero(parse(value[1..]))
      else if value[0] == '-' then before - OrZero(parse(value[1..]))
      else if parse(value).Some? then parse(value).value
      else before
  }

  function OrZero(num: Option<real>): real { if num.Some? then num.value else 0.0 }

  /**
    What the buffer of a key has to hold, in terms of the values fed since the last flush; a gauge,
    which flushes do not reset, in terms of all values fed.
   */
  ghost predicate Holds(parse: Parser, b: Buffer, values: seq<string>, all: seq<string>) {
    match b
    case GaugeBuffer(v) => v == GaugeOf(parse, all)
    case KvBuffer(v) => v == LastNumber(parse, values)
    case CounterBuffer(v) => v == Total(parse, values)
    case SetBuffer(vs) => vs == set x | x in values && x != ""
    case TimerBuffer(sum, count) => sum == Total(parse, values) && count == HowMany(parse, values)
  }

  ghost predicate HoldsFor(parse: Parser, events: seq<Event>, k: string) {
    var d := Run(parse, events);
    if k in d.buffer then Holds(parse, d.buffer[k], Since(events, k), AllFed(events, k))
    else Since(events, k) == AllFed(events, k) == []
  }

  lemma {:induction false} AppendHolds(parse: Parser, b: Buffer, values: seq<string>, all: seq<string>, value: string)
    requires Holds(parse, b, values, all)
    ensures Holds(parse, Append(parse, b, value), values + [value], all + [value])
  {
    assert (values + [value])[..|values|] == values && (all + [value])[..|all|] == all;
    if b.SetBuffer? {
      assert forall x :: x in values + [value] <==> x in values || x == value;
    }
  }

  /** While the loop lives, every buffer holds the aggregate of exactly what was fed since the last flush. */
  lemma {:induction false} BuffersHold(parse: Parser, events: seq<Event>, k: string)
    requires Run(parse, events).status.Alive?
    ensures HoldsFor(parse, events, k)
  {
    if events != [] {
      var n := |events| - 1;
      BuffersHold(parse, events[..n], k);
      var d, e := Run(parse, events[..n]), events[n];
      if e.Fed? && e.key == k {
        var b := if k in d.buffer then d.buffer[k] else NewBuffer(e.kind.value);
        assert Holds(parse, b, Since(events[..n], k), AllFed(events[..n], k));
        AppendHolds(parse, b, Since(events[..n], k), AllFed(events[..n], k), e.value);
      }
    }
  }

  /** The keys in use are those that were fed, each with the kind it was fed with. */
  ghost predicate KindsKnown(d: Daemon, events: seq<Event>) {
    && (forall e :: e in events && e.Fed? ==> e.key in d.buffer && e.kind == Some(KindOf(d.buffer[e.key])))
    && (forall k :: k in d.buffer ==> exists e :: e in events && e.Fed? && e.key == k)
  }

  /** Message `e` fits to what was fed before. */
  ghost predicate Fits(before: seq<Event>, e: Event) {
    e.Fed? ==> e.kind.Some? && forall e' :: e' in before && e'.Fed? && e'.key == e.key ==> e'.kind == e.kind
  }

  lemma {:induction false} LawfulMore(before: seq<Event>, e: Event)
    ensures Lawful(before + [e]) <==> Lawful(before) && Fits(before, e)
  {
    assert forall x :: x in before + [e] <==> x in before || x == e;
    assert e in before + [e];
  }

  lemma {:induction false} KindsMore(parse: Parser, d: Daemon, before: seq<Event>, e: Event)
    requires KindsKnown(d, before) && d.status.Alive? && e.Fed?
    ensures var d' := OnFed(parse, d, e.key, e.kind, e.value);
            && (d'.status.Alive? <==> Fits(before, e))
            && (d'.status.Crashed? <==> Strange(before, e))
  {
    if e.key in d.buffer {
      var x :| x in before && x.Fed? && x.key == e.key;
    }
  }

  lemma {:induction false} KindsKept(d: Daemon, d': Daemon, before: seq<Event>, e: Event)
    requires KindsKnown(d, before) && d'.buffer.Keys == d.buffer.Keys + (if e.Fed? then {e.key} else {})
    requires forall k :: k in d.buffer ==> KindOf(d'.buffer[k]) == KindOf(d.buffer[k])
    requires e.Fed? ==> e.kind == Some(KindOf(d'.buffer[e.key]))
    ensures KindsKnown(d', before + [e])
  {
    assert e in before + [e];
    forall k | k in d'.buffer ensures exists x :: x in before + [e] && x.Fed? && x.key == k {
      if k in d.buffer {
        var x :| x in before && x.Fed? && x.key == k;
        assert x in before + [e];
      }
    }
  }

  lemma {:induction false} KindFrame(parse: Parser, d: Daemon, e: Event)
    requires d.status.Alive? && Next(parse, d, e).status.Alive?
    ensures var d' := Next(parse, d, e);
            && d'.buffer.Keys == d.buffer.Keys + (if e.Fed? then {e.key} else {})
            && (forall k :: k in d.buffer ==> KindOf(d'.buffer[k]) == KindOf(d.buffer[k]))
            && (e.Fed? ==> e.kind == Some(KindOf(d'.buffer[e.key])))
  {
  }

  lemma {:induction false} KindsRun(parse: Parser, events: seq<Event>)
    requires Run(parse, events).status.Alive?
    ensures KindsKnown(Run(parse, events), events)
  {
    if events != [] {
      var n := |events| - 1;
      KindsRun(parse, events[..n]);
      assert events == events[..n] + [events[n]];
      KindFrame(parse, Run(parse, events[..n]), events[n]);
      KindsKept(Run(parse, events[..n]), Run(parse, events), events[..n], events[n]);
    }
  }

  lemma {:induction false} AliveStep(parse: Parser, before: seq<Event>, e: Event)
    ensures Run(parse, before + [e]).status.Alive? <==> Run(parse, before).status.Alive? && Fits(before, e)
  {
    assert (before + [e])[..|before|] == before;
    if Run(parse, before).status.Alive? && e.Fed? {
      KindsRun(parse, before);
      KindsMore(parse, Run(parse, before), before, e);
    }
  }

  /** The loop lives exactly as long as every type is known and every key keeps its own. */
  lemma {:induction false} AliveIffLawful(parse: Parser, events: seq<Event>)
    ensures Run(parse, events).status.Alive? <==> Lawful(events)
  {
    if events != [] {
      var n := |events| - 1;
      AliveIffLawful(parse, events[..n]);
      assert events == events[..n] + [events[n]];
      LawfulMore(events[..n], events[n]);
      AliveStep(parse, events[..n], events[n]);
    }
  }

  /** It crashes the program exactly when the first message that breaks this has a new key. */
  lemma {:induction false} CrashedIffStrange(parse: Parser, events: seq<Event>)
    ensures Run(parse, events).status.Crashed? <==>
              exists j :: 0 <= j < |events| && Lawful(events[..j]) && Strange(events[..j], events[j])
  {
    if events != [] {
      var n := |events| - 1;
      var before := events[..n];
      CrashedIffStrange(parse, before);
      CrashStep(parse, before, events[n]);
      assert events == before + [events[n]];
      assert forall j :: 0 <= j < n ==> before[..j] == events[..j] && before[j] == events[j];
    }
  }

  lemma {:induction false} CrashStep(parse: Parser, before: seq<Event>, e: Event)
    ensures Run(parse, before + [e]).status.Crashed? <==>
              Run(parse, before).status.Crashed? || (Lawful(before) && Strange(before, e))
  {
    assert (before + [e])[..|before|] == before;
    AliveIffLawful(parse, before);
    if Lawful(before) && e.Fed? {
      KindsRun(parse, before);
      KindsMore(parse, Run(parse, before), before, e);
    }
  }

  // ---------------------------------------------------------------------------------------------
  // Conservation
  // ---------------------------------------------------------------------------------------------

  /** What a flushed value stands for: a counter's value, a timer's mean times the number it is the mean of. */
  function Share(b: Buffer): real {
    match b
    case CounterBuffer(_) => ValueOf(b)
    case TimerBuffer(_, count) => ValueOf(b) * (count as real)
    case _ => 0.0
  }

  /** The sum of what key `k` has flushed. */
  ghost function FlushedTotal(parse: Parser, events: seq<Event>, k: string): real {
    if events == [] then 0.0
    else
      var before := events[..|events| - 1];
      var d := Run(parse, before);
      FlushedTotal(parse, before, k) +
      (if events[|events| - 1].Flush? && d.status.Alive? && k in d.buffer then Share(d.buffer[k]) else 0.0)
  }

  lemma {:induction false} ShareIsTotal(parse: Parser, b: Buffer, values: seq<string>, all: seq<string>)
    requires Holds(parse, b, values, all) && (b.TimerBuffer? || b.CounterBuffer?)
    ensures Share(b) == Total(parse, values)
  {
    if b.TimerBuffer? {
      if b.count == 0 {
        NoNumbers(parse, values);
      } else {
        assert (b.sum / (b.count as real)) * (b.count as real) == b.sum;
      }
    }
  }

  lemma {:induction false} NoNumbers(parse: Parser, values: seq<string>)
    requires HowMany(parse, values) == 0
    ensures Total(parse, values) == 0.0
  {
    if values != [] {
      NoNumbers(parse, values[..|values| - 1]);
    }
  }

  lemma {:induction false} TotalMore(parse: Parser, values: seq<string>, value: string)
    ensures Total(parse, values + [value]) == Total(parse, values) + Total(parse, [value])
  {
    assert (values + [value])[..|values|] == values && [value][..0] == [];
  }

  /**
    Over any interleaving of messages and flushes, what a counter or a timer has flushed, plus what is
    pending, is the sum of everything that was fed to it.
   */
  lemma {:induction false} Conservation(parse: Parser, events: seq<Event>, k: string, kind: Kind)
    requires Lawful(events) && OnlyKind(events, k, kind) && (kind == Counter || kind == Timer)
    ensures FlushedTotal(parse, events, k) + Total(parse, Since(events, k)) == Total(parse, AllFed(events, k))
  {
    if events != [] {
      var n := |events| - 1;
      var before, e := events[..n], events[n];
      assert forall x :: x in before ==> x in events;
      Conservation(parse, before, k, kind);
      if e.Flush? {
        FlushMoves(parse, events, k, kind);
      } else if e.key == k {
        TotalMore(parse, Since(before, k), e.value);
        TotalMore(parse, AllFed(before, k), e.value);
      }
    }
  }

  /** A flush moves what was pending to what was flushed. */
  lemma {:induction false} FlushMoves(parse: Parser, events: seq<Event>, k: string, kind: Kind)
    requires events != [] && events[|events| - 1].Flush?
    requires var before := events[..|events| - 1];
             Lawful(before) && OnlyKind(before, k, kind) && (kind == Counter || kind == Timer)
    ensures var before := events[..|events| - 1];
            FlushedTotal(parse, events, k) == FlushedTotal(parse, before, k) + Total(parse, Since(before, k))
  {
    var before := events[..|events| - 1];
    AliveIffLawful(parse, before);
    BuffersHold(parse, before, k);
    var d := Run(parse, before);
    if k in d.buffer {
      KindsRun(parse, before);
      var e :| e in before && e.Fed? && e.key == k;
      ShareIsTotal(parse, d.buffer[k], Since(before, k), AllFed(before, k));
    }
  }

  function Mean(parse: Parser, values: seq<string>): real {
    if HowMany(parse, values) == 0 then 0.0 else Total(parse, values) / (HowMany(parse, values) as real)
  }

  /** What a flush reports for a key, by kind, in terms of what was fed to it. */
  ghost predicate Reported(parse: Parser, events: seq<Event>, k: string, kind: Kind, v: real) {
    var values := Since(events, k);
    match kind
    case Gauge => v == GaugeOf(parse, AllFed(events, k))
    case KeyValue => v == LastNumber(parse, values)
    case Counter => v == Total(parse, values)
    case Distinct => v == |set x | x in values && x != ""| as real
    case Timer => v == Mean(parse, values)
  }

  lemma {:induction false} AliveReports(parse: Parser, events: seq<Event>, k: string)
    requires Run(parse, events).status.Alive? && k in Run(parse, events).buffer
    ensures Reported(parse, events, k, KindOf(Run(parse, events).buffer[k]), Series(Run(parse, events))[k])
  {
    BuffersHold(parse, events, k);
  }

  lemma {:induction false} FlushReports(parse: Parser, events: seq<Event>, k: string)
    requires Lawful(events) && k in Run(parse, events).buffer
    ensures Reported(parse, events, k, KindOf(Run(parse, events).buffer[k]), Series(Run(parse, events))[k])
  {
    AliveIffLawful(parse, events);
    AliveReports(parse, events, k);
  }

  // ---------------------------------------------------------------------------------------------
  // Feeding: the channel of the daemon has no buffer
  // ---------------------------------------------------------------------------------------------

  /** `strings.Split` with a separator of one character. */
  function Split(s: string, sep: char): (parts: seq<string>)
    ensures |parts| >= 1
    decreases |s|
  {
    var k := Find(s, sep);
    if k == |s| then [s] else [s[..k]] + Split(s[k + 1..], sep)
  }

  function Find(s: string, sep: char): (k: nat)
    ensures k <= |s| && (k < |s| ==> s[k] == sep)
    ensures forall j :: 0 <= j < k ==> s[j] != sep
  {
    if s == "" || s[0] == sep then 0 else 1 + Find(s[1..], sep)
  }

  /** `strings.Trim` of spaces. */
  function Trim(s: string): string {
    if s == "" then s
    else if s[0] == ' ' then Trim(s[1..])
    else if s[|s| - 1] == ' ' then Trim(s[..|s| - 1])
    else s
  }

  function KindNamed(optype: string): Option<Kind> {
    if optype == "g" then Some(Gauge)
    else if optype == "kv" then Some(KeyValue)
    else if optype == "c" then Some(Counter)
    else if optype == "s" then Some(Distinct)
    else if optype == "ms" then Some(Timer)
    else None
  }

  /** What `Feed` sends to the loop. */
  datatype Op = Op(key: string, kind: Option<Kind>, value: string)

  type Feeder = string -> Option<Op>

  /** `Feed`: the text has to have the format `key:value|type`. */
  function FeedOf(text: string): Option<Op> {
    var parts := Split(text, '|');
    var data := Split(parts[0], ':');
    if |parts| < 2 || |data| != 2 then None else Some(Op(Trim(data[0]), KindNamed(parts[1]), data[1]))
  }

  /**
    All of `ops` can be sent, one after the other, to a daemon that has been fed `earlier`. The last one
    may make the loop return; after that nobody receives.
   */
  ghost predicate Deliverable(earlier: seq<Event>, ops: seq<Event>) {
    ops == [] ||
    var n := |ops| - 1;
    Lawful(earlier + ops[..n]) && !Strange(earlier + ops[..n], ops[n])
  }

  /** The messages of `a` and `b` are the same. */
  ghost predicate SameFed(a: seq<Event>, b: seq<Event>) { forall e: Event :: e.Fed? ==> (e in a <==> e in b) }

  lemma {:induction false} SameFedIsEnough(a: seq<Event>, b: seq<Event>)
    requires SameFed(a, b)
    ensures Lawful(a) <==> Lawful(b)
    ensures forall e :: Strange(a, e) <==> Strange(b, e)
  {
  }

  lemma {:induction false} LawfulPart(a: seq<Event>, b: seq<Event>)
    requires Lawful(b) && forall e :: e in a ==> e in b
    ensures Lawful(a)
  {
  }

  /** If all can be sent, then the daemon is alive before each of them. */
  lemma {:induction false} AliveBefore(parse: Parser, earlier: seq<Event>, ops: seq<Event>, k: nat)
    requires Deliverable(earlier, ops) && k < |ops|
    ensures Run(parse, earlier + ops[..k]).status.Alive?
  {
    var n := |ops| - 1;
    assert forall e :: e in ops[..k] ==> e in ops[..n];
    LawfulPart(earlier + ops[..k], earlier + ops[..n]);
    AliveIffLawful(parse, earlier + ops[..k]);
  }

  /** They can be sent exactly if the daemon is alive before the last one, and that one is no panic. */
  lemma {:induction false} DeliverableIff(parse: Parser, earlier: seq<Event>, ops: seq<Event>)
    requires ops != []
    ensures Deliverable(earlier, ops) <==>
              Run(parse, earlier + ops[..|ops| - 1]).status.Alive? && !Run(parse, earlier + ops).status.Crashed?
  {
    var n := |ops| - 1;
    AliveIffLawful(parse, earlier + ops[..n]);
    CrashStep(parse, earlier + ops[..n], ops[n]);
    assert earlier + ops == (earlier + ops[..n]) + [ops[n]];
  }

  lemma {:induction false} FindEnd(a: string, sep: char, b: string)
    requires sep !in a
    ensures Find(a + [sep] + b, sep) == |a|
  {
    if a != "" {
      assert a[0] != sep && (a + [sep] + b)[1..] == a[1..] + [sep] + b;
      FindEnd(a[1..], sep, b);
    }
  }

  lemma {:induction false} FindNone(a: string, sep: char)
    requires sep !in a
    ensures Find(a, sep) == |a|
  {
    if a != "" {
      assert a[0] != sep;
      FindNone(a[1..], sep);
    }
  }

  lemma {:induction false} SplitTwo(a: string, sep: char, b: string)
    requires sep !in a && sep !in b
    ensures Split(a + [sep] + b, sep) == [a, b]
  {
    var s := a + [sep] + b;
    FindEnd(a, sep, b);
    FindNone(b, sep);
    assert s[..|a|] == a && s[|a| + 1..] == b;
  }

  predicate Plain(s: string) { '|' !in s && ':' !in s && ' ' !in s }

  /** A message in the documented format is fed as what it says. */
  lemma {:induction false} FeedsWhatItSays(key: string, value: string, optype: string)
    requires Plain(key) && Plain(value) && Plain(optype) && key != "" && optype != ""
    ensures FeedOf(Trim(key + ":" + value + "|" + optype)) == Some(Op(key, KindNamed(optype), value))
  {
    var data := key + ":" + value;
    var text := data + "|" + optype;
    assert text[0] == key[0] && text[|text| - 1] == optype[|optype| - 1];
    assert key[0] in key && optype[|optype| - 1] in optype;
    assert Trim(text) == text;
    assert '|' !in data;
    SplitTwo(data, '|', optype);
    SplitTwo(key, ':', value);
    assert key[|key| - 1] in key;
    assert Trim(key) == key;
  }
}
