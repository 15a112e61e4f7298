/** LF-only framing of a text stream, cut into arbitrary chunks. */
module Jsonl {
  import opened Text

  /** An emitted line loses one trailing CR. */
  function StripCr(line: string): string {
    if line != "" && line[|line| - 1] == '\r' then line[..|line| - 1] else line
  }

  /** One CR at the end is taken off, and nothing else is touched. */
  lemma OneCrIsStripped(line: string)
    ensures StripCr(line + "\r") == line
    ensures (forall rest :: line != rest + "\r") ==> StripCr(line) == line
  {
    var ended := line + "\r";
    assert ended[..|ended| - 1] == line;
    if line != "" && line[|line| - 1] == '\r' {
      assert line == line[..|line| - 1] + "\r";
    }
  }

  function StripAll(lines: seq<string>): seq<string> {
    seq(|lines|, i requires 0 <= i < |lines| => StripCr(lines[i]))
  }

  /** The complete lines of a text, as emitted. */
  function Complete(text: string): seq<string> {
    StripAll(CompleteLines(text))
  }

  lemma CompleteAppends(lines: seq<string>, more: seq<string>)
    ensures StripAll(lines + more) == StripAll(lines) + StripAll(more)
  {
  }

  lemma CompleteFirst(text: string)
    ensures !HasLf(text) ==> Complete(text) == []
    ensures HasLf(text) ==> Complete(text) == [StripCr(text[..IndexOfLf(text)])] + Complete(text[IndexOfLf(text) + 1..])
  {
    hide CompleteLines, StripCr;
    LinesUnfold(text);
    if HasLf(text) {
      var first := text[..IndexOfLf(text)];
      CompleteAppends([first], CompleteLines(text[IndexOfLf(text) + 1..]));
      assert StripAll([first]) == [StripCr(first)];
    }
  }

  /** The lines of a whole stream: the complete ones, and a non-empty tail. */
  function Lines(text: string): seq<string> {
    Complete(text) + (if Tail(text) == "" then [] else [StripCr(Tail(text))])
  }

  /** Equally: the text split on LF, an empty last piece dropped, each piece without one trailing CR. */
  lemma LinesAreTheSplit(text: string)
    ensures var pieces := SplitLf(text);
            && pieces != []
            && Lines(text) == StripAll(if pieces[|pieces| - 1] == "" then pieces[..|pieces| - 1] else pieces)
  {
    var pieces := SplitLf(text);
    SplitIsLinesAndTail(text);
    assert pieces[..|pieces| - 1] == CompleteLines(text);
    CompleteAppends(CompleteLines(text), [Tail(text)]);
  }

  class LineReader {
    var buffer: string
    var emitted: seq<string>

    constructor ()
      ensures buffer == "" && emitted == []
    {
      buffer, emitted := "", [];
    }

    method OnData(chunk: string)
      modifies this
      ensures emitted == old(emitted) + Complete(old(buffer) + chunk)
      ensures buffer == Tail(old(buffer) + chunk)
    {
      hide Complete, StripCr;
      buffer := buffer + chunk;
      ghost var text := buffer;
      while HasLf(buffer)
        invariant old(emitted) + Complete(text) == emitted + Complete(buffer)
        invariant Tail(buffer) == Tail(text)
        decreases |buffer|
      {
        CompleteFirst(buffer);
        var k := IndexOfLf(buffer);
        emitted := emitted + [StripCr(buffer[..k])];
        buffer := buffer[k + 1..];
      }
      CompleteFirst(buffer);
    }

    method OnEnd()
      modifies this
      ensures emitted == old(emitted) + (if old(buffer) == "" then [] else [StripCr(old(buffer))])
      ensures buffer == ""
    {
      if |buffer| > 0 {
        emitted := emitted + [StripCr(buffer)];
        buffer := "";
      }
    }

    /** A stream: its chunks, then its end. */
    method Read(chunks: seq<string>)
      requires buffer == "" && emitted == []
      modifies this
      ensures emitted == Lines(Join(chunks)) && buffer == ""
    {
      for i := 0 to |chunks|
        invariant emitted == Complete(Join(chunks[..i]))
        invariant buffer == Tail(Join(chunks[..i]))
      {
        assert chunks[..i + 1][..i] == chunks[..i];
        ReadOneMore(Join(chunks[..i]), chunks[i]);
        CompleteAppends(CompleteLines(Join(chunks[..i])), CompleteLines(buffer + chunks[i]));
        OnData(chunks[i]);
      }
      assert chunks[..|chunks|] == chunks;
      OnEnd();
    }
  }

  /** The text a stream carries, whatever its cuts. */
  function Join(chunks: seq<string>): string {
    if chunks == [] then "" else Join(chunks[..|chunks| - 1]) + chunks[|chunks| - 1]
  }

  // ------------------------------------------------------------------------- serialised records

  /** A record's JSON text and its terminator. */
  function SerializeJsonLine(json: string): string {
    json + "\n"
  }

  function SerializeAll(records: seq<string>): string {
    if records == [] then "" else SerializeJsonLine(records[0]) + SerializeAll(records[1..])
  }

  /** A text that survives framing. JSON text does: RFC 8259, section 7, escapes LF and CR in strings. */
  predicate Framable(json: string) {
    !HasLf(json) && StripCr(json) == json
  }

  lemma SerializeFirst(json: string, rest: string)
    requires !HasLf(json)
    ensures Complete(SerializeJsonLine(json) + rest) == [StripCr(json)] + Complete(rest)
    ensures Tail(SerializeJsonLine(json) + rest) == Tail(rest)
  {
    var line := SerializeJsonLine(json);
    assert line[|json|] == '\n';
    assert forall i :: 0 <= i < |json| ==> line[i] == json[i];
    assert IndexOfLf(line) == |json|;
    FirstLine(line, rest);
    CompleteFirst(line + rest);
    assert (line + rest)[..|json|] == json;
    assert (line + rest)[|json| + 1..] == rest;
    assert line[|json| + 1..] + rest == rest;
  }

  function CountLf(text: string): nat {
    if text == "" then 0 else (if text[0] == '\n' then 1 else 0) + CountLf(text[1..])
  }

  lemma {:induction false} CountLfAppends(a: string, b: string)
    ensures CountLf(a + b) == CountLf(a) + CountLf(b)
  {
    if a == "" {
      assert a + b == b;
    } else {
      assert (a + b)[1..] == a[1..] + b;
      CountLfAppends(a[1..], b);
    }
  }

  lemma {:induction false} CountLfOfLine(text: string)
    requires !HasLf(text)
    ensures CountLf(text) == 0
  {
    if text != "" {
      CountLfOfLine(text[1..]);
    }
  }

  lemma {:induction false} CompleteCounts(text: string)
    ensures |Complete(text)| == CountLf(text)
    decreases |text|
  {
    if HasLf(text) {
      var k := IndexOfLf(text);
      assert text == text[..k] + (['\n'] + text[k + 1..]);
      CountLfAppends(text[..k], ['\n'] + text[k + 1..]);
      CountLfAppends(['\n'], text[k + 1..]);
      CountLfOfLine(text[..k]);
      CompleteCounts(text[k + 1..]);
    } else {
      CountLfOfLine(text);
    }
  }

  lemma {:induction false} SerializedLfs(records: seq<string>)
    ensures CountLf(SerializeAll(records)) >= |records|
    ensures (exists r :: r in records && HasLf(r)) ==> CountLf(SerializeAll(records)) > |records|
    ensures Tail(SerializeAll(records)) == ""
  {
    if records != [] {
      var r, rest := records[0], SerializeAll(records[1..]);
      SerializedLfs(records[1..]);
      CountLfAppends(SerializeJsonLine(r), rest);
      CountLfAppends(r, "\n");
      if HasLf(r) {
        LfCounts(r);
      }
      assert forall x :: x in records ==> x == r || x in records[1..];
      ReadOneMore(SerializeJsonLine(r), rest);
      TailOfTerminated(r);
      assert Tail(SerializeAll(records)) == Tail("" + rest);
      assert "" + rest == rest;
    }
  }

  lemma {:induction false} LfCounts(text: string)
    requires HasLf(text)
    ensures CountLf(text) > 0
  {
    if text[0] != '\n' {
      assert IndexOfLf(text) > 0;
      assert text[1..][IndexOfLf(text) - 1] == '\n';
      LfCounts(text[1..]);
    }
  }

  lemma {:induction false} TailOfTerminated(text: string)
    ensures Tail(text + "\n") == ""
    decreases |text|
  {
    ReadOneMore(text, "\n");
    var t := Tail(text) + "\n";
    TailHasNoLf(text);
    assert t[|t| - 1] == '\n';
    assert IndexOfLf(t) == |t| - 1;
    assert t[|t|..] == "";
  }

  /** Without LFs inside, what comes back is each record without its trailing CR. */
  lemma {:induction false} StrippedComeBack(records: seq<string>)
    requires forall r :: r in records ==> !HasLf(r)
    ensures |Complete(SerializeAll(records))| == |records|
    ensures forall i :: 0 <= i < |records| ==> Complete(SerializeAll(records))[i] == StripCr(records[i])
  {
    if records != [] {
      SerializeFirst(records[0], SerializeAll(records[1..]));
      StrippedComeBack(records[1..]);
    }
  }

  /** Serialised records come back exactly if and only if each of them is framable. */
  lemma RecordsComeBackExactlyWhenFramable(records: seq<string>)
    ensures Lines(SerializeAll(records)) == records <==> forall r :: r in records ==> Framable(r)
  {
    SerializedLfs(records);
    CompleteCounts(SerializeAll(records));
    if forall r :: r in records ==> !HasLf(r) {
      StrippedComeBack(records);
      assert forall i :: 0 <= i < |records| ==> records[i] in records;
    }
  }
}
