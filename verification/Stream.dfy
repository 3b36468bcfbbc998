/** The parser for what a process prints: base/pm/stream/input.go. Characters stand for bytes. */
module Stream {
  import opened Wrappers

  datatype Message = Message(level: int, text: string)

  // ---------------------------------------------------------------------------------------------
  // The message pattern: digits, two or three colons, anything
  // ---------------------------------------------------------------------------------------------

  datatype Match = Match(digits: string, triple: bool, rest: string)

  predicate IsDigit(c: char) { '0' <= c <= '9' }

  function DigitCount(line: string): (n: nat)
    ensures n <= |line| && forall j :: 0 <= j < n ==> IsDigit(line[j])
    ensures n < |line| ==> !IsDigit(line[n])
  {
    if line == [] || !IsDigit(line[0]) then 0 else 1 + DigitCount(line[1..])
  }

  /** The pattern `^(\d+)(:{2,3})(.*)$`; it takes as many digits and colons as it can. */
  function FindMatch(line: string): Option<Match> {
    var d := DigitCount(line);
    if d == 0 || d + 2 > |line| || line[d..d + 2] != "::" then None
    else if d + 2 < |line| && line[d + 2] == ':' then Some(Match(line[..d], true, line[d + 3..]))
    else Some(Match(line[..d], false, line[d + 2..]))
  }

  const MAX_INT := 0x7FFF_FFFF_FFFF_FFFF

  function Value(digits: string): nat
    requires forall j :: 0 <= j < |digits| ==> IsDigit(digits[j])
  {
    if digits == [] then 0
    else
      assert IsDigit(digits[|digits| - 1]);
      10 * Value(digits[..|digits| - 1]) + (digits[|digits| - 1] as int - '0' as int)
  }

  /** `ParseInt`, whose range error is ignored: too large a number becomes the largest one. */
  function Level(digits: string): int
    requires forall j :: 0 <= j < |digits| ==> IsDigit(digits[j])
  {
    var v := Value(digits);
    if v > MAX_INT then MAX_INT else v
  }

  // ---------------------------------------------------------------------------------------------
  // The parser, line by line
  // ---------------------------------------------------------------------------------------------

  datatype Parser = Parser(level: int, message: string, multiline: bool, out: seq<Message>)

  const FRESH := Parser(0, "", false, [])

  /** What one line does. `dflt` is the level of lines that carry none. */
  function Feed(dflt: int, p: Parser, line: string): Parser {
    if line == "" then p
    else if !p.multiline then
      match FindMatch(line)
      case None => p.(out := p.out + [Message(dflt, line)])
      case Some(m) =>
        if m.triple then p.(level := Level(m.digits), message := m.rest, multiline := true)
        else p.(level := Level(m.digits), message := m.rest, out := p.out + [Message(Level(m.digits), m.rest)])
    else if line == ":::" then p.(multiline := false, out := p.out + [Message(p.level, p.message)])
    else p.(message := p.message + "\n" + line)
  }

  function FeedAll(dflt: int, p: Parser, lines: seq<string>): Parser
    decreases |lines|
  {
    if lines == [] then p else FeedAll(dflt, Feed(dflt, p, lines[0]), lines[1..])
  }

  /** Cut at every newline; what follows the last one is the last line. */
  function Lines(s: string): (ls: seq<string>)
    ensures |ls| >= 1
    decreases |s|
  {
    var k := LineEnd(s);
    if k == |s| then [s] else [s[..k]] + Lines(s[k + 1..])
  }

  function LineEnd(s: string): (k: nat)
    ensures k <= |s| && (k < |s| ==> s[k] == '\n')
    ensures forall j :: 0 <= j < k ==> s[j] != '\n'
  {
    if s == [] || s[0] == '\n' then 0 else 1 + LineEnd(s[1..])
  }

  /** The lines that are looked at: without the last one if reading failed there. */
  function Complete(input: string, failed: bool): seq<string> { ButLastIf(Lines(input), failed) }

  function ButLastIf(lines: seq<string>, failed: bool): seq<string>
    requires lines != []
  {
    if failed then lines[..|lines| - 1] else lines
  }

  function ParseRest(dflt: int, p: Parser, rest: string, failed: bool): Parser {
    FeedAll(dflt, p, Complete(rest, failed))
  }

  function Parse(dflt: int, input: string, failed: bool): seq<Message> { ParseRest(dflt, FRESH, input, failed).out }

  /** `consume`: the read loop. `failed` says that reading ends with an error and not at the end of input. */
  method Consume(dflt: int, input: string, failed: bool) returns (out: seq<Message>)
    ensures out == Parse(dflt, input, failed)
  {
    var rest, p := input, FRESH;
    ghost var result := ParseRest(dflt, FRESH, input, failed);
    while true
      invariant ParseRest(dflt, p, rest, failed) == result
      decreases |rest|
    {
      ReadOne(dflt, p, rest, failed);
      var k := LineEnd(rest);
      var line, eof := rest[..k], k == |rest|;
      if eof && failed {
        break;
      }
      if line != "" {
        p := ConsumeLine(dflt, p, line);
      }
      if eof {
        break;
      }
      rest := rest[k + 1..];
    }
    assert p == result;
    out := p.out;
  }

  /** The body of the loop, for a line that is not empty: it updates the parser's variables and emits. */
  method ConsumeLine(dflt: int, p: Parser, line: string) returns (p': Parser)
    requires line != ""
    ensures p' == Feed(dflt, p, line)
  {
    var Parser(level, message, multiline, out) := p;
    if !multiline {
      var m := FindMatch(line);
      if m.None? {
        out := out + [Message(dflt, line)];
      } else {
        level, message := Level(m.value.digits), m.value.rest;
        if m.value.triple {
          multiline := true;
        } else {
          out := out + [Message(level, message)];
        }
      }
    } else if line == ":::" {
      multiline := false;
      out := out + [Message(level, message)];
    } else {
      message := message + "\n" + line;
    }
    p' := Parser(level, message, multiline, out);
  }

  lemma {:induction false} ReadOne(dflt: int, p: Parser, rest: string, failed: bool)
    ensures var k := LineEnd(rest);
            ParseRest(dflt, p, rest, failed) ==
            if k < |rest| then ParseRest(dflt, Feed(dflt, p, rest[..k]), rest[k + 1..], failed)
            else if failed then p else Feed(dflt, p, rest[..k])
  {
    var k := LineEnd(rest);
    NextLine(rest, failed);
    if k < |rest| {
      FeedFirst(dflt, p, rest[..k], Complete(rest[k + 1..], failed));
    } else if !failed {
      FeedOne(dflt, p, rest[..k]);
    }
  }

  lemma {:induction false} NextLine(rest: string, failed: bool)
    ensures var k := LineEnd(rest);
            Complete(rest, failed) ==
            if k < |rest| then [rest[..k]] + Complete(rest[k + 1..], failed) else if failed then [] else [rest[..k]]
  {
    var k := LineEnd(rest);
    if k == |rest| {
      assert rest[..k] == rest && Lines(rest) == [rest];
    } else {
      ButLast(rest[..k], Lines(rest[k + 1..]), failed);
    }
  }

  lemma ButLast(x: string, more: seq<string>, failed: bool)
    requires more != []
    ensures ButLastIf([x] + more, failed) == [x] + ButLastIf(more, failed)
  {
  }

  lemma HeadFirst<T>(lines: seq<T>, more: seq<T>)
    requires lines != []
    ensures [lines[0]] + (lines[1..] + more) == lines + more
  {
  }

  lemma {:induction false} FeedFirst(dflt: int, p: Parser, line: string, more: seq<string>)
    ensures FeedAll(dflt, p, [line] + more) == FeedAll(dflt, Feed(dflt, p, line), more)
  {
    assert ([line] + more)[1..] == more;
  }

  // ---------------------------------------------------------------------------------------------
  // Printing
  // ---------------------------------------------------------------------------------------------

  /** What a process can mean to say. */
  datatype Item =
    | Plain(text: string)
    | Single(level: nat, text: string)
    | Block(level: nat, first: string, lines: seq<string>)

  function Decimal(n: nat): (s: string)
    ensures s != [] && forall j :: 0 <= j < |s| ==> IsDigit(s[j])
    ensures Value(s) == n
  {
    var last := [('0' as int + n % 10) as char];
    if n < 10 then last
    else
      var s := Decimal(n / 10) + last;
      assert s[..|s| - 1] == Decimal(n / 10);
      s
  }

  function ItemLines(item: Item): seq<string> {
    match item
    case Plain(text) => [text]
    case Single(level, text) => [Decimal(level) + "::" + text]
    case Block(level, first, lines) => [Decimal(level) + ":::" + first] + lines + [":::"]
  }

  function Unlines(lines: seq<string>): string {
    if lines == [] then "" else lines[0] + "\n" + Unlines(lines[1..])
  }

  function AllLines(items: seq<Item>): seq<string> {
    if items == [] then [] else ItemLines(items[0]) + AllLines(items[1..])
  }

  function Print(items: seq<Item>): string { Unlines(AllLines(items)) }

  function Joined(first: string, lines: seq<string>): string
    decreases |lines|
  {
    if lines == [] then first else Joined(first + "\n" + lines[0], lines[1..])
  }

  /** The message that an item stands for. */
  function Meant(dflt: int, item: Item): Message {
    match item
    case Plain(text) => Message(dflt, text)
    case Single(level, text) => Message(level, text)
    case Block(level, first, lines) => Message(level, Joined(first, lines))
  }

  function AllMeant(dflt: int, items: seq<Item>): seq<Message> {
    if items == [] then [] else [Meant(dflt, items[0])] + AllMeant(dflt, items[1..])
  }

  predicate OneLine(item: Item) {
    match item
    case Plain(text) => '\n' !in text
    case Single(_, text) => '\n' !in text
    case Block(_, first, lines) => '\n' !in first && forall j :: 0 <= j < |lines| ==> '\n' !in lines[j]
  }

  /** The items that survive: a block has no empty line and no line that ends it early, and so on. */
  predicate WellFormed(item: Item) {
    match item
    case Plain(text) => text != "" && FindMatch(text).None?
    case Single(level, text) => level <= MAX_INT && (text == "" || text[0] != ':')
    case Block(level, first, lines) =>
      level <= MAX_INT && forall j :: 0 <= j < |lines| ==> lines[j] != "" && lines[j] != ":::"
  }

  lemma {:induction false} LinesOfUnlines(lines: seq<string>)
    requires forall j :: 0 <= j < |lines| ==> '\n' !in lines[j]
    ensures Lines(Unlines(lines)) == lines + [""]
  {
    if lines == [] {
      assert Lines("") == [""];
    } else {
      LinesOfUnlines(lines[1..]);
      FirstLine(lines[0], Unlines(lines[1..]));
      HeadFirst(lines, [""]);
    }
  }

  lemma {:induction false} FirstLine(line: string, rest: string)
    requires '\n' !in line
    ensures Lines(line + "\n" + rest) == [line] + Lines(rest)
  {
    var s := line + "\n" + rest;
    EndOf(line, rest);
    assert s[..|line|] == line && s[|line| + 1..] == rest;
  }

  lemma {:induction false} EndOf(line: string, rest: string)
    requires '\n' !in line
    ensures LineEnd(line + "\n" + rest) == |line|
  {
    if line != [] {
      assert line[0] != '\n';
      assert (line + "\n" + rest)[1..] == line[1..] + "\n" + rest;
      EndOf(line[1..], rest);
    }
  }

  lemma {:induction false} FeedSplit(dflt: int, p: Parser, a: seq<string>, b: seq<string>)
    ensures FeedAll(dflt, p, a + b) == FeedAll(dflt, FeedAll(dflt, p, a), b)
    decreases |a|
  {
    if a == [] {
      assert a + b == b;
    } else {
      assert (a + b)[0] == a[0] && (a + b)[1..] == a[1..] + b;
      FeedSplit(dflt, Feed(dflt, p, a[0]), a[1..], b);
    }
  }

  lemma {:induction false} DigitsEnd(digits: string, rest: string)
    requires forall j :: 0 <= j < |digits| ==> IsDigit(digits[j])
    requires rest == [] || !IsDigit(rest[0])
    ensures DigitCount(digits + rest) == |digits|
  {
    if digits == [] {
      assert digits + rest == rest;
    } else {
      assert (digits + rest)[1..] == digits[1..] + rest;
      DigitsEnd(digits[1..], rest);
    }
  }

  /** The pattern takes a printed head apart again. */
  lemma {:induction false} MatchesHead(n: nat, tail: string)
    ensures var m := FindMatch(Decimal(n) + "::" + tail);
            m == Some(if tail != "" && tail[0] == ':' then Match(Decimal(n), true, tail[1..])
                      else Match(Decimal(n), false, tail))
  {
    var d := Decimal(n);
    var line := d + "::" + tail;
    assert line == d + ("::" + tail);
    DigitsEnd(d, "::" + tail);
    assert line[..|d|] == d && line[|d|..|d| + 2] == "::" && line[|d| + 2..] == tail;
    if tail != "" {
      assert line[|d| + 2] == tail[0] && line[|d| + 3..] == tail[1..];
    }
  }

  lemma {:induction false} InsideBlock(dflt: int, p: Parser, lines: seq<string>)
    requires p.multiline && forall j :: 0 <= j < |lines| ==> lines[j] != "" && lines[j] != ":::"
    ensures FeedAll(dflt, p, lines) == p.(message := Joined(p.message, lines))
    decreases |lines|
  {
    if lines != [] {
      InsideBlock(dflt, Feed(dflt, p, lines[0]), lines[1..]);
    }
  }

  /** A well-formed item makes the parser emit the message it stands for, and leaves it between messages. */
  lemma {:induction false} FeedItem(dflt: int, p: Parser, item: Item)
    requires !p.multiline && WellFormed(item)
    ensures var q := FeedAll(dflt, p, ItemLines(item));
            !q.multiline && q.out == p.out + [Meant(dflt, item)]
  {
    match item
    case Plain(text) => FeedOne(dflt, p, text);
    case Single(level, text) =>
      MatchesHead(level, text);
      FeedOne(dflt, p, Decimal(level) + "::" + text);
    case Block(level, first, lines) =>
      var head := Decimal(level) + ":::" + first;
      assert head == Decimal(level) + "::" + (":" + first) && (":" + first)[1..] == first;
      MatchesHead(level, ":" + first);
      FeedOne(dflt, p, head);
      var p1 := Feed(dflt, p, head);
      FeedSplit(dflt, p, [head] + lines, [":::"]);
      FeedSplit(dflt, p, [head], lines);
      InsideBlock(dflt, p1, lines);
      FeedOne(dflt, FeedAll(dflt, p1, lines), ":::");
  }

  lemma {:induction false} FeedOne(dflt: int, p: Parser, line: string)
    ensures FeedAll(dflt, p, [line]) == Feed(dflt, p, line)
  {
    assert [line][1..] == [];
  }

  lemma Assoc<T>(a: seq<T>, b: seq<T>, c: seq<T>)
    ensures (a + b) + c == a + (b + c)
  {
  }

  lemma {:induction false} FeedItems(dflt: int, p: Parser, items: seq<Item>)
    requires !p.multiline && forall j :: 0 <= j < |items| ==> WellFormed(items[j])
    ensures var q := FeedAll(dflt, p, AllLines(items));
            !q.multiline && q.out == p.out + AllMeant(dflt, items)
    decreases |items|
  {
    if items == [] {
      assert p.out + [] == p.out;
    } else {
      FeedItem(dflt, p, items[0]);
      FeedSplit(dflt, p, ItemLines(items[0]), AllLines(items[1..]));
      FeedItems(dflt, FeedAll(dflt, p, ItemLines(items[0])), items[1..]);
      Assoc(p.out, [Meant(dflt, items[0])], AllMeant(dflt, items[1..]));
    }
  }

  lemma {:induction false} NoNewlines(items: seq<Item>)
    requires forall j :: 0 <= j < |items| ==> OneLine(items[j])
    ensures forall j :: 0 <= j < |AllLines(items)| ==> '\n' !in AllLines(items)[j]
  {
    if items != [] {
      NoNewlines(items[1..]);
    }
  }

  /** Printing any list of well-formed items and parsing the result gives back exactly their messages. */
  lemma {:induction false} RoundTrip(dflt: int, items: seq<Item>)
    requires forall j :: 0 <= j < |items| ==> OneLine(items[j]) && WellFormed(items[j])
    ensures Parse(dflt, Print(items), false) == AllMeant(dflt, items)
  {
    NoNewlines(items);
    ParseLines(dflt, AllLines(items));
    FeedItems(dflt, FRESH, items);
  }

  // ---------------------------------------------------------------------------------------------
  // The conditions are exact
  // ---------------------------------------------------------------------------------------------

  lemma {:induction false} JoinedLength(first: string, lines: seq<string>)
    ensures |Joined(first, lines)| == |first| + |Joined("", lines)|
    decreases |lines|
  {
    if lines != [] {
      JoinedLength(first + "\n" + lines[0], lines[1..]);
      JoinedLength("" + "\n" + lines[0], lines[1..]);
    }
  }

  lemma {:induction false} OutGrows(dflt: int, p: Parser, lines: seq<string>)
    ensures p.out <= FeedAll(dflt, p, lines).out
    decreases |lines|
  {
    if lines != [] {
      OutGrows(dflt, Feed(dflt, p, lines[0]), lines[1..]);
    }
  }

  ghost predicate Survives(lines: seq<string>) {
    forall j :: 0 <= j < |lines| ==> lines[j] != "" && lines[j] != ":::"
  }

  /** A block with an empty line, or one that ends it early, comes out shorter than it was meant. */
  lemma {:induction false} BrokenBlock(dflt: int, p: Parser, lines: seq<string>)
    requires p.multiline && p.out == []
    ensures var q := FeedAll(dflt, p, lines + [":::"]);
            && q.out != [] && q.out[0].level == p.level
            && |q.out[0].text| <= |Joined(p.message, lines)|
            && (!Survives(lines) ==> |q.out[0].text| < |Joined(p.message, lines)|)
    decreases |lines|
  {
    JoinedLength(p.message, lines);
    if lines == [] {
      assert lines + [":::"] == [":::"];
      FeedOne(dflt, p, ":::");
    } else {
      var line, rest := lines[0], lines[1..];
      assert lines + [":::"] == [line] + (rest + [":::"]);
      FeedFirst(dflt, p, line, rest + [":::"]);
      JoinedLength("" + "\n" + line, rest);
      if line == ":::" {
        OutGrows(dflt, Feed(dflt, p, line), rest + [":::"]);
      } else {
        BrokenBlock(dflt, Feed(dflt, p, line), rest);
        JoinedLength(p.message, rest);
        if Survives(rest) && line != "" {
          assert Survives(lines);
        }
      }
    }
  }

  lemma {:induction false} ParseOneItem(dflt: int, item: Item)
    requires OneLine(item)
    ensures Parse(dflt, Print([item]), false) == FeedAll(dflt, FRESH, ItemLines(item)).out
  {
    assert [item][1..] == [] && AllLines([item]) == ItemLines(item) + [];
    assert ItemLines(item) + [] == ItemLines(item);
    NoNewlines([item]);
    ParseLines(dflt, ItemLines(item));
  }

  lemma {:induction false} BrokenPlain(dflt: int, text: string)
    requires !WellFormed(Plain(text))
    ensures FeedAll(dflt, FRESH, ItemLines(Plain(text))).out != [Message(dflt, text)]
  {
    FeedOne(dflt, FRESH, text);
    var out := Feed(dflt, FRESH, text).out;
    if text != "" {
      var m := FindMatch(text).value;
      assert |m.rest| < |text|;
      assert out == [] || out[0] == Message(Level(m.digits), m.rest);
    }
  }

  lemma {:induction false} BrokenSingle(dflt: int, level: nat, text: string)
    requires !WellFormed(Single(level, text))
    ensures FeedAll(dflt, FRESH, ItemLines(Single(level, text))).out != [Message(level, text)]
  {
    var line := Decimal(level) + "::" + text;
    MatchesHead(level, text);
    FeedOne(dflt, FRESH, line);
    var out := Feed(dflt, FRESH, line).out;
    assert out == [] || out[0].level == Level(Decimal(level));
  }

  lemma {:induction false} BrokenBlockItem(dflt: int, level: nat, first: string, lines: seq<string>)
    requires !WellFormed(Block(level, first, lines))
    ensures FeedAll(dflt, FRESH, ItemLines(Block(level, first, lines))).out != [Message(level, Joined(first, lines))]
  {
    var head := Decimal(level) + ":::" + first;
    assert head == Decimal(level) + "::" + (":" + first) && (":" + first)[1..] == first;
    MatchesHead(level, ":" + first);
    assert ItemLines(Block(level, first, lines)) == [head] + (lines + [":::"]);
    FeedFirst(dflt, FRESH, head, lines + [":::"]);
    var p := Feed(dflt, FRESH, head);
    assert p == Parser(Level(Decimal(level)), first, true, []);
    BrokenBlock(dflt, p, lines);
  }

  /** An item that fits on its lines comes back as itself exactly when it is well-formed. */
  lemma {:induction false} RoundTripIff(dflt: int, item: Item)
    requires OneLine(item)
    ensures Parse(dflt, Print([item]), false) == [Meant(dflt, item)] <==> WellFormed(item)
  {
    ParseOneItem(dflt, item);
    if WellFormed(item) {
      FeedItem(dflt, FRESH, item);
    } else {
      match item
      case Plain(text) => BrokenPlain(dflt, text);
      case Single(level, text) => BrokenSingle(dflt, level, text);
      case Block(level, first, lines) => BrokenBlockItem(dflt, level, first, lines);
    }
  }

  /** A block that is never ended is dropped, and everything before it is kept. */
  lemma {:induction false} UnfinishedBlockDropped(dflt: int, items: seq<Item>, level: nat, first: string,
                                                  lines: seq<string>)
    requires forall j :: 0 <= j < |items| ==> OneLine(items[j]) && WellFormed(items[j])
    requires OneLine(Block(level, first, lines)) && Survives(lines)
    ensures Parse(dflt, Print(items) + Unlines([Decimal(level) + ":::" + first] + lines), false)
         == Parse(dflt, Print(items), false)
  {
    var more := [Decimal(level) + ":::" + first] + lines;
    NoNewlines(items);
    UnlinesJoin(AllLines(items), more);
    ParseLines(dflt, AllLines(items) + more);
    ParseLines(dflt, AllLines(items));
    FeedItems(dflt, FRESH, items);
    FeedSplit(dflt, FRESH, AllLines(items), more);
    FeedUnfinished(dflt, FeedAll(dflt, FRESH, AllLines(items)), level, first, lines);
  }

  lemma {:induction false} ParseLines(dflt: int, lines: seq<string>)
    requires forall j :: 0 <= j < |lines| ==> '\n' !in lines[j]
    ensures Parse(dflt, Unlines(lines), false) == FeedAll(dflt, FRESH, lines).out
  {
    LinesOfUnlines(lines);
    FeedSplit(dflt, FRESH, lines, [""]);
    FeedOne(dflt, FeedAll(dflt, FRESH, lines), "");
  }

  lemma {:induction false} FeedUnfinished(dflt: int, p: Parser, level: nat, first: string, lines: seq<string>)
    requires !p.multiline && Survives(lines)
    ensures FeedAll(dflt, p, [Decimal(level) + ":::" + first] + lines).out == p.out
  {
    var head := Decimal(level) + ":::" + first;
    assert head == Decimal(level) + "::" + (":" + first) && (":" + first)[1..] == first;
    MatchesHead(level, ":" + first);
    FeedFirst(dflt, p, head, lines);
    InsideBlock(dflt, Feed(dflt, p, head), lines);
  }

  lemma {:induction false} UnlinesJoin(a: seq<string>, b: seq<string>)
    ensures Unlines(a + b) == Unlines(a) + Unlines(b)
  {
    if a == [] {
      assert a + b == b;
    } else {
      assert (a + b)[1..] == a[1..] + b;
      UnlinesJoin(a[1..], b);
      assert a[0] + "\n" + (Unlines(a[1..]) + Unlines(b)) == (a[0] + "\n" + Unlines(a[1..])) + Unlines(b);
    }
  }
}
