/** What the parser makes of printed text, character by character: base/pm/stream/input.go. */
module Printed {
  import opened Wrappers
  import opened Stream

  // ---------------------------------------------------------------------------------------------
  // Levels
  // ---------------------------------------------------------------------------------------------

  predicate Digits(ds: string) { forall j :: 0 <= j < |ds| ==> '0' <= ds[j] <= '9' }

  /** The decimal number. */
  function Number(ds: string): nat
    requires Digits(ds)
  {
    if ds == "" then 0
    else
      assert '0' <= ds[|ds| - 1];
      10 * Number(ds[..|ds| - 1]) + (ds[|ds| - 1] as int - '0' as int)
  }

  /** A level is the decimal number in front, or 9223372036854775807 if that is less. */
  lemma {:induction false} LevelIsNumber(ds: string)
    requires Digits(ds)
    ensures forall j :: 0 <= j < |ds| ==> IsDigit(ds[j])
    ensures Value(ds) == Number(ds)
    ensures Level(ds) == if Number(ds) > 9223372036854775807 then 9223372036854775807 else Number(ds)
  {
    assert forall j :: 0 <= j < |ds| ==> IsDigit(ds[j]);
    if ds != "" {
      LevelIsNumber(ds[..|ds| - 1]);
    }
  }

  // ---------------------------------------------------------------------------------------------
  // One line
  // ---------------------------------------------------------------------------------------------

  lemma {:induction false} ParseLine(dflt: int, line: string)
    requires '\n' !in line
    ensures Parse(dflt, line + "\n", false) == Feed(dflt, FRESH, line).out
  {
    assert [line][1..] == [] && Unlines([line]) == line + "\n" + "";
    assert line + "\n" + "" == line + "\n";
    ParseLines(dflt, [line]);
    FeedOne(dflt, FRESH, line);
  }

  /** The line begins with digits and two colons. */
  ghost predicate Tagged(line: string) {
    exists k :: 0 < k && k + 2 <= |line| && Digits(line[..k]) && line[k] == ':' && line[k + 1] == ':'
  }

  lemma {:induction false} TagFound(ds: string, tail: string)
    requires ds != "" && Digits(ds)
    ensures forall j :: 0 <= j < |ds| ==> IsDigit(ds[j])
    ensures FindMatch(ds + "::" + tail) ==
            Some(if tail != "" && tail[0] == ':' then Match(ds, true, tail[1..]) else Match(ds, false, tail))
  {
    LevelIsNumber(ds);
    var line := ds + "::" + tail;
    assert line == ds + ("::" + tail);
    DigitsEnd(ds, "::" + tail);
    assert line[..|ds|] == ds && line[|ds|..|ds| + 2] == "::" && line[|ds| + 2..] == tail;
    if tail != "" {
      assert line[|ds| + 2] == tail[0] && line[|ds| + 3..] == tail[1..];
    }
  }

  lemma {:induction false} NoTagNoMatch(line: string)
    requires !Tagged(line)
    ensures FindMatch(line).None?
  {
    var d := DigitCount(line);
    if FindMatch(line).Some? {
      assert line[d..d + 2] == "::" && line[d..d + 2][0] == line[d] && line[d..d + 2][1] == line[d + 1];
      assert Digits(line[..d]);
    }
  }

  /** A line without a tag is a message of the default level; an empty line is none. */
  lemma {:induction false} PlainLine(dflt: int, line: string)
    requires '\n' !in line && !Tagged(line)
    ensures Parse(dflt, line + "\n", false) == if line == "" then [] else [Message(dflt, line)]
  {
    ParseLine(dflt, line);
    NoTagNoMatch(line);
  }

  /** Digits, two colons and a text that does not begin with a third one are a message of that level. */
  lemma {:induction false} TaggedLine(dflt: int, ds: string, text: string)
    requires ds != "" && Digits(ds) && '\n' !in text && (text == "" || text[0] != ':')
    ensures Parse(dflt, ds + "::" + text + "\n", false) ==
            [Message(if Number(ds) > 9223372036854775807 then 9223372036854775807 else Number(ds), text)]
  {
    var line := ds + "::" + text;
    LevelIsNumber(ds);
    assert '\n' !in line;
    ParseLine(dflt, line);
    TagFound(ds, text);
  }

  // ---------------------------------------------------------------------------------------------
  // A block
  // ---------------------------------------------------------------------------------------------

  /** The lines that are not empty, each after a newline. */
  function Glued(lines: seq<string>): string {
    if lines == [] then ""
    else
      var n := |lines| - 1;
      Glued(lines[..n]) + (if lines[n] == "" then "" else "\n" + lines[n])
  }

  lemma {:induction false} InBlock(dflt: int, p: Parser, lines: seq<string>)
    requires p.multiline && forall j :: 0 <= j < |lines| ==> lines[j] != ":::"
    ensures FeedAll(dflt, p, lines) == p.(message := p.message + Glued(lines))
  {
    if lines == [] {
      assert p.message + "" == p.message;
    } else {
      var n := |lines| - 1;
      InBlock(dflt, p, lines[..n]);
      assert lines == lines[..n] + [lines[n]];
      FeedSplit(dflt, p, lines[..n], [lines[n]]);
      FeedOne(dflt, FeedAll(dflt, p, lines[..n]), lines[n]);
      AddGlued(p.message, lines);
    }
  }

  lemma {:induction false} AddGlued(message: string, lines: seq<string>)
    requires lines != []
    ensures var n := |lines| - 1;
            message + Glued(lines) ==
            if lines[n] == "" then message + Glued(lines[..n]) else message + Glued(lines[..n]) + "\n" + lines[n]
  {
    var before, line := Glued(lines[..|lines| - 1]), lines[|lines| - 1];
    assert message + (before + ("\n" + line)) == message + before + "\n" + line;
    assert message + (before + "") == message + before;
  }

  /**
    A block begins with digits and three colons and ends with a line of three colons. Its text is the rest of the
    first line and then all lines that are not empty; empty ones are dropped.
   */
  lemma {:induction false} WholeBlock(dflt: int, ds: string, first: string, lines: seq<string>)
    requires ds != "" && Digits(ds) && '\n' !in first
    requires forall j :: 0 <= j < |lines| ==> '\n' !in lines[j] && lines[j] != ":::"
    ensures Parse(dflt, Unlines([ds + ":::" + first] + lines + [":::"]), false) ==
            [Message(if Number(ds) > 9223372036854775807 then 9223372036854775807
                  else Number(ds), first + Glued(lines))]
  {
    var head := ds + ":::" + first;
    var all := [head] + lines + [":::"];
    LevelIsNumber(ds);
    assert head == ds + "::" + (":" + first) && (":" + first)[1..] == first;
    TagFound(ds, ":" + first);
    assert '\n' !in head;
    ParseLines(dflt, all);
    var p := Feed(dflt, FRESH, head);
    FeedSplit(dflt, FRESH, [head] + lines, [":::"]);
    FeedSplit(dflt, FRESH, [head], lines);
    FeedOne(dflt, FRESH, head);
    InBlock(dflt, p, lines);
    FeedOne(dflt, FeedAll(dflt, p, lines), ":::");
  }

  /** Printing a list of lines is putting a newline after each. */
  lemma {:induction false} LinesArePrinted(lines: seq<string>, line: string)
    ensures Unlines([]) == "" && Unlines(lines + [line]) == Unlines(lines) + line + "\n"
  {
    UnlinesJoin(lines, [line]);
    assert [line][1..] == [] && Unlines([line]) == line + "\n" + "";
    assert Unlines(lines) + (line + "\n") == Unlines(lines) + line + "\n";
  }

  // ---------------------------------------------------------------------------------------------
  // One after the other
  // ---------------------------------------------------------------------------------------------

  /** Between messages the parser goes on as a new one would, after what it has found so far. */
  ghost predicate GoesOnAs(p: Parser, q: Parser, before: seq<Message>) {
    && p.out == before + q.out && p.multiline == q.multiline
    && (p.multiline ==> p.level == q.level && p.message == q.message)
  }

  lemma FeedGoesOn(dflt: int, p: Parser, q: Parser, before: seq<Message>, line: string)
    requires GoesOnAs(p, q, before)
    ensures GoesOnAs(Feed(dflt, p, line), Feed(dflt, q, line), before)
  {
  }

  lemma {:induction false} AllGoOn(dflt: int, p: Parser, q: Parser, before: seq<Message>, lines: seq<string>)
    requires GoesOnAs(p, q, before)
    ensures GoesOnAs(FeedAll(dflt, p, lines), FeedAll(dflt, q, lines), before)
    decreases |lines|
  {
    if lines != [] {
      FeedGoesOn(dflt, p, q, before, lines[0]);
      AllGoOn(dflt, Feed(dflt, p, lines[0]), Feed(dflt, q, lines[0]), before, lines[1..]);
    }
  }

  lemma {:induction false} LinesAfter(lines: seq<string>, rest: string)
    requires forall j :: 0 <= j < |lines| ==> '\n' !in lines[j]
    ensures Lines(Unlines(lines) + rest) == lines + Lines(rest)
  {
    if lines == [] {
      assert "" + rest == rest;
    } else {
      var more := Unlines(lines[1..]) + rest;
      LinesAfter(lines[1..], rest);
      assert Unlines(lines) + rest == lines[0] + "\n" + more;
      FirstLine(lines[0], more);
      HeadFirst(lines, Lines(rest));
    }
  }

  /**
    Well-formed items, and then anything: first the messages of the items, then those of the rest, whether reading
    ends well or fails.
   */
  lemma {:induction false} ItemsFirst(dflt: int, items: seq<Item>, rest: string, failed: bool)
    requires forall j :: 0 <= j < |items| ==> OneLine(items[j]) && WellFormed(items[j])
    ensures Parse(dflt, Print(items) + rest, failed) == Parse(dflt, Print(items), false) + Parse(dflt, rest, failed)
  {
    var lines := AllLines(items);
    NoNewlines(items);
    LinesAfter(lines, rest);
    FeedItems(dflt, FRESH, items);
    ParseLines(dflt, lines);
    var p := FeedAll(dflt, FRESH, lines);
    ButLastAfter(lines, Lines(rest), failed);
    FeedSplit(dflt, FRESH, lines, ButLastIf(Lines(rest), failed));
    AllGoOn(dflt, p, FRESH, p.out, ButLastIf(Lines(rest), failed));
  }

  lemma ButLastAfter(lines: seq<string>, more: seq<string>, failed: bool)
    requires more != []
    ensures ButLastIf(lines + more, failed) == lines + ButLastIf(more, failed)
  {
    assert (lines + more)[..|lines + more| - 1] == lines + more[..|more| - 1];
  }

  /** If reading fails, what follows the last newline is dropped. If it ends well, the last newline may be missing. */
  lemma {:induction false} LastLine(dflt: int, lines: seq<string>, tail: string)
    requires (forall j :: 0 <= j < |lines| ==> '\n' !in lines[j]) && '\n' !in tail
    ensures Parse(dflt, Unlines(lines) + tail, true) == Parse(dflt, Unlines(lines), false)
    ensures Parse(dflt, Unlines(lines) + tail, false) == Parse(dflt, Unlines(lines) + tail + "\n", false)
  {
    LinesAfter(lines, tail);
    OnlyLine(tail);
    ParseLines(dflt, lines);
    assert (lines + [tail])[..|lines|] == lines;
    LinesArePrinted(lines, tail);
    ParseLines(dflt, lines + [tail]);
  }

  lemma {:induction false} OnlyLine(line: string)
    requires '\n' !in line
    ensures Lines(line) == [line]
  {
    assert forall j :: 0 <= j < |line| ==> line[j] != '\n';
  }
}
