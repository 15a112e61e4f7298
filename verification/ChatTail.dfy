/** The incremental reader of an event file that only grows. */
module ChatTail {
  import opened Prelude
  import opened Text

  /** Parses one trimmed, non-empty line; `None` is malformed JSON, which is skipped. */
  type Parser<!E> = string -> Option<E>

  function EventOf<E>(line: string, parse: Parser<E>): seq<E> {
    var raw := Trim(line);
    if raw == "" then []
    else match parse(raw)
      case None => []
      case Some(event) => [event]
  }

  /** A line yields what its trimmed text parses to, once; a blank or malformed one yields nothing. */
  lemma LineYields<E>(line: string, parse: Parser<E>)
    ensures Blank(line) ==> EventOf(line, parse) == []
    ensures !Blank(line) && parse(Trim(line)).None? ==> EventOf(line, parse) == []
    ensures !Blank(line) && parse(Trim(line)).Some? ==> EventOf(line, parse) == [parse(Trim(line)).value]
  {
    TrimEnds(line);
  }

  function EventsOf<E>(lines: seq<string>, parse: Parser<E>): seq<E> {
    if lines == [] then []
    else EventsOf(lines[..|lines| - 1], parse) + EventOf(lines[|lines| - 1], parse)
  }

  lemma EventsAppendOne<E>(lines: seq<string>, line: string, parse: Parser<E>)
    ensures EventsOf(lines + [line], parse) == EventsOf(lines, parse) + EventOf(line, parse)
  {
    assert (lines + [line])[..|lines|] == lines;
  }

  function LastIndexOfLf(text: string): (k: nat)
    requires HasLf(text)
    ensures k < |text| && text[k] == '\n' && forall i :: k < i < |text| ==> text[i] != '\n'
  {
    if text[|text| - 1] == '\n' then |text| - 1 else LastIndexOfLf(text[..|text| - 1])
  }

  /** Splitting what stands before the last LF yields the lines an LF ends. */
  lemma {:induction false} CutAndSplit(cut: string, tail: string)
    requires !HasLf(tail)
    ensures SplitLf(cut) == CompleteLines(cut + ("\n" + tail))
    decreases |cut|
  {
    hide CompleteLines, Tail;
    if HasLf(cut) {
      FirstLine(cut, "\n" + tail);
      CutAndSplit(cut[IndexOfLf(cut) + 1..], tail);
    } else {
      LastLine(cut, tail);
    }
  }

  lemma LastLine(line: string, tail: string)
    requires !HasLf(line) && !HasLf(tail)
    ensures CompleteLines(line + ("\n" + tail)) == [line] && Tail(line + ("\n" + tail)) == tail
  {
    var text := line + ("\n" + tail);
    assert text[|line|] == '\n' && forall i :: 0 <= i < |line| ==> text[i] == line[i];
    assert IndexOfLf(text) == |line|;
    assert text[..|line|] == line && text[|line| + 1..] == tail;
  }

  /** The lines a read of this content considers; an unreadable file has none. */
  function LinesIn(content: Option<string>): seq<string> {
    match content
    case None => []
    case Some(text) => CompleteLines(text)
  }

  lemma NothingComplete(content: Option<string>)
    requires content.None? || !HasLf(content.value)
    ensures LinesIn(content) == []
  {
  }

  /** What one read returns and where it leaves the cursor. */
  function ReadFrom<E>(linesRead: nat, content: Option<string>, parse: Parser<E>): (seq<E>, nat) {
    var lines := LinesIn(content);
    if linesRead >= |lines| then ([], linesRead) else (EventsOf(lines[linesRead..], parse), |lines|)
  }

  class ChatEventTailer {
    var linesRead: nat

    constructor ()
      ensures linesRead == 0
    {
      linesRead := 0;
    }

    method ReadFileEvents<E>(content: Option<string>, parse: Parser<E>) returns (events: seq<E>)
      modifies this
      ensures (events, linesRead) == ReadFrom(old(linesRead), content, parse)
    {
      hide EventOf, CompleteLines, SplitLf;
      events := [];
      if content.None? || content.value == "" || !HasLf(content.value) {
        NothingComplete(content);
        return;
      }
      var last := LastIndexOfLf(content.value);
      var lines := SplitLf(content.value[..last]);
      CutAndSplit(content.value[..last], content.value[last + 1..]);
      assert content.value == content.value[..last] + ("\n" + content.value[last + 1..]);
      if linesRead < |lines| {
        events := ReadLines(lines, parse);
      }
    }

    /** The loop, entered with lines left to read. */
    method ReadLines<E>(lines: seq<string>, parse: Parser<E>) returns (events: seq<E>)
      requires linesRead <= |lines|
      modifies this
      ensures events == EventsOf(lines[old(linesRead)..], parse) && linesRead == |lines|
    {
      hide EventOf;
      events := [];
      var from := linesRead;
      for index := from to |lines|
        invariant linesRead == index
        invariant events == EventsOf(lines[from..index], parse)
      {
        linesRead := linesRead + 1;
        assert lines[from..index + 1] == lines[from..index] + [lines[index]];
        EventsAppendOne(lines[from..index], lines[index], parse);
        events := events + EventOf(lines[index], parse);
      }
      assert lines[from..|lines|] == lines[from..];
    }
  }

  // ------------------------------------------------------------------------------- theorems

  /** A text through its last LF. */
  function Ended(text: string): string {
    if HasLf(text) then text[..LastIndexOfLf(text) + 1] else ""
  }

  /**
   The file only grows, as far as its lines have ended: what a read finds after the last LF may be cut
   inside a character, and decode to anything. A read may find the file missing.
   */
  predicate Grows(contents: seq<Option<string>>) {
    forall i, j :: 0 <= i < j < |contents| && contents[i].Some? && contents[j].Some? ==>
      Ended(contents[i].value) <= contents[j].value
  }

  function TailRun<E>(linesRead: nat, contents: seq<Option<string>>, parse: Parser<E>): (seq<E>, nat) {
    if contents == [] then ([], linesRead)
    else
      var (before, cursor) := TailRun(linesRead, contents[..|contents| - 1], parse);
      var (now, next) := ReadFrom(cursor, contents[|contents| - 1], parse);
      (before + now, next)
  }

  /** The last content a read found, if any. */
  function Latest(contents: seq<Option<string>>): Option<string> {
    if contents == [] then None
    else if contents[|contents| - 1].Some? then contents[|contents| - 1]
    else Latest(contents[..|contents| - 1])
  }

  lemma {:induction false} EndedIsAllItsLines(text: string)
    ensures CompleteLines(text) == CompleteLines(Ended(text)) && Tail(Ended(text)) == ""
  {
    hide CompleteLines, Tail;
    LinesUnfold("");
    LinesUnfold(text);
    if HasLf(text) {
      var k := LastIndexOfLf(text);
      var rest := text[k + 1..];
      assert text == Ended(text) + rest && !HasLf(rest);
      assert Ended(text) == text[..k] + "\n";
      ReadOneMore(text[..k], "\n");
      TailHasNoLf(text[..k]);
      LastLine(Tail(text[..k]), "");
      assert Tail(text[..k]) + ("\n" + "") == Tail(text[..k]) + "\n";
      ReadOneMore(Ended(text), rest);
      assert "" + rest == rest;
      LinesUnfold(rest);
    }
  }

  lemma LinesArePrefixes(a: string, b: string)
    requires Ended(a) <= b
    ensures CompleteLines(a) <= CompleteLines(b)
  {
    hide CompleteLines, Tail, Ended;
    var rest := b[|Ended(a)|..];
    EndedIsAllItsLines(a);
    ReadOneMore(Ended(a), rest);
    assert Ended(a) + rest == b;
  }

  lemma {:induction false} EventsAppend<E>(lines: seq<string>, more: seq<string>, parse: Parser<E>)
    ensures EventsOf(lines + more, parse) == EventsOf(lines, parse) + EventsOf(more, parse)
  {
    hide EventOf;
    if more == [] {
      assert lines + more == lines;
    } else {
      EventsAppend(lines, more[..|more| - 1], parse);
      assert (lines + more)[..|lines + more| - 1] == lines + more[..|more| - 1];
    }
  }

  lemma {:induction false} LatestIsOne(contents: seq<Option<string>>)
    ensures Latest(contents).Some? ==>
              exists i :: 0 <= i < |contents| && contents[i] == Latest(contents)
  {
    if contents != [] && contents[|contents| - 1].None? {
      LatestIsOne(contents[..|contents| - 1]);
    }
  }

  /**
   Exactly once: over any reads of a growing file, missing ones included, the outputs joined are
   the parsed complete lines of the last content read, and the cursor is their number.
   */
  lemma {:induction false} TailIsExactlyOnce<E>(contents: seq<Option<string>>, parse: Parser<E>)
    requires Grows(contents)
    ensures var lines := LinesIn(Latest(contents));
            TailRun(0, contents, parse) == (EventsOf(lines, parse), |lines|)
  {
    hide EventsOf, CompleteLines, ReadFrom, Ended;
    EmptyReads(LinesIn(Latest(contents)), parse);
    if contents != [] {
      var front, last := contents[..|contents| - 1], contents[|contents| - 1];
      TailIsExactlyOnce(front, parse);
      EmptyReads(LinesIn(Latest(front)), parse);
      if last.Some? {
        LatestIsOne(front);
        if Latest(front).Some? {
          LinesArePrefixes(Latest(front).value, last.value);
        }
        ReadContinues(LinesIn(Latest(front)), last, parse);
      } else {
        assert TailRun(0, front, parse).0 + [] == TailRun(0, front, parse).0;
      }
    }
  }

  lemma EmptyReads<E>(seen: seq<string>, parse: Parser<E>)
    ensures EventsOf([], parse) == []
    ensures ReadFrom(|seen|, None, parse) == ([], |seen|)
  {
  }

  /** A read that resumes after lines already returned returns the rest of them. */
  lemma ReadContinues<E>(seen: seq<string>, content: Option<string>, parse: Parser<E>)
    requires seen <= LinesIn(content)
    ensures var (now, next) := ReadFrom(|seen|, content, parse);
            EventsOf(seen, parse) + now == EventsOf(LinesIn(content), parse) && next == |LinesIn(content)|
  {
    var lines := LinesIn(content);
    assert lines == seen + lines[|seen|..];
    EventsAppend(seen, lines[|seen|..], parse);
    if |seen| == |lines| {
      assert lines == seen;
    }
  }
}
