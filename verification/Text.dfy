/** The string operations the repository's parsers are built from. */
module Text {
  /** The characters JavaScript's `trim` and `\s` remove. */
  predicate IsSpace(c: char) {
    || '\t' <= c <= '\r'
    || c == ' '
    || c == '\U{00A0}' || c == '\U{1680}' || c == '\U{FEFF}'
    || '\U{2000}' <= c <= '\U{200A}'
    || c == '\U{2028}' || c == '\U{2029}' || c == '\U{202F}' || c == '\U{205F}' || c == '\U{3000}'
  }

  /** ECMAScript's white space and line terminators (ECMA-262, sections 12.2 and 12.3), one by one. */
  lemma SpacesAreEcmaScripts(c: char)
    ensures var spaces := { 0x9, 0xA, 0xB, 0xC, 0xD, 0x20, 0xA0, 0x1680, 0x2000, 0x2001, 0x2002, 0x2003, 0x2004,
                            0x2005, 0x2006, 0x2007, 0x2008, 0x2009, 0x200A, 0x2028, 0x2029, 0x202F, 0x205F, 0x3000,
                            0xFEFF };
            IsSpace(c) <==> c as int in spaces
  {
  }

  function TrimLeft(s: string): string {
    if s != "" && IsSpace(s[0]) then TrimLeft(s[1..]) else s
  }

  function TrimRight(s: string): string {
    if s != "" && IsSpace(s[|s| - 1]) then TrimRight(s[..|s| - 1]) else s
  }

  function Trim(s: string): string {
    TrimRight(TrimLeft(s))
  }

  lemma {:induction false} LeftShortens(s: string)
    ensures |TrimLeft(s)| <= |s| && (|TrimLeft(s)| == |s| ==> TrimLeft(s) == s && (s != "" ==> !IsSpace(s[0])))
  {
    if s != "" && IsSpace(s[0]) {
      LeftShortens(s[1..]);
    }
  }

  lemma {:induction false} RightShortens(s: string)
    ensures |TrimRight(s)| <= |s| && (|TrimRight(s)| == |s| ==> TrimRight(s) == s && (s != "" ==> !IsSpace(s[|s| - 1])))
  {
    if s != "" && IsSpace(s[|s| - 1]) {
      RightShortens(s[..|s| - 1]);
    }
  }

  /** A text that trimming leaves alone starts and ends with no space. */
  lemma TrimsShorten(s: string)
    requires Trim(s) == s
    ensures TrimLeft(s) == s && TrimRight(s) == s
    ensures s != "" ==> !IsSpace(s[0]) && !IsSpace(s[|s| - 1])
  {
    LeftShortens(s);
    RightShortens(TrimLeft(s));
  }

  predicate Blank(s: string) {
    forall c :: c in s ==> IsSpace(c)
  }

  /** Leading space is exactly what `TrimLeft` removes. */
  lemma {:induction false} LeftCut(s: string, k: nat)
    requires k <= |s| && Blank(s[..k]) && (k == |s| || !IsSpace(s[k]))
    ensures TrimLeft(s) == s[k..]
  {
    if k > 0 {
      assert s[0] == s[..k][0];
      assert s[1..][..k - 1] == s[..k][1..];
      LeftCut(s[1..], k - 1);
      assert s[1..][k - 1..] == s[k..];
    } else {
      assert s[0..] == s;
    }
  }

  lemma {:induction false} LeftCuts(s: string) returns (k: nat)
    ensures k <= |s| && Blank(s[..k]) && (k == |s| || !IsSpace(s[k])) && TrimLeft(s) == s[k..]
  {
    k := 0;
    if s != "" && IsSpace(s[0]) {
      var rest := LeftCuts(s[1..]);
      k := rest + 1;
      assert s[..k] == [s[0]] + s[1..][..rest];
    }
    LeftCut(s, k);
  }

  lemma {:induction false} RightCuts(s: string) returns (k: nat)
    ensures k <= |s| && Blank(s[k..]) && (k == 0 || !IsSpace(s[k - 1])) && TrimRight(s) == s[..k]
  {
    k := |s|;
    if s != "" && IsSpace(s[|s| - 1]) {
      k := RightCuts(s[..|s| - 1]);
      assert s[k..] == s[..|s| - 1][k..] + [s[|s| - 1]];
      assert s[..|s| - 1][..k] == s[..k];
    } else {
      assert s[..k] == s;
    }
  }

  /** Trimming leaves nothing of a blank text alone, and otherwise a text with no space at either end. */
  lemma TrimEnds(s: string)
    ensures Trim(s) == "" <==> Blank(s)
    ensures Trim(s) != "" ==> !IsSpace(Trim(s)[0]) && !IsSpace(Trim(s)[|Trim(s)| - 1])
  {
    var i := LeftCuts(s);
    var t := TrimLeft(s);
    var j := RightCuts(t);
    assert s == s[..i] + t && t == t[..j] + t[j..];
    if t != "" {
      assert t[0] == s[i] && t[0] in s;
      assert t[0..] == t && t[0] in t;
    }
  }

  function LowerChar(c: char): char {
    if 'A' <= c <= 'Z' then (c as int + 32) as char else c
  }

  function UpperChar(c: char): char {
    if 'a' <= c <= 'z' then (c as int - 32) as char else c
  }

  function ToLower(s: string): string {
    if s == "" then "" else [LowerChar(s[0])] + ToLower(s[1..])
  }

  function ToUpper(s: string): string {
    if s == "" then "" else [UpperChar(s[0])] + ToUpper(s[1..])
  }

  /** The two differ in letters alone: each folds the other's away. */
  lemma {:induction false} CasesFold(s: string)
    ensures |ToLower(s)| == |s| && |ToUpper(s)| == |s|
    ensures forall i :: 0 <= i < |s| ==>
              if 'A' <= s[i] <= 'Z' then ToLower(s)[i] as int == s[i] as int + 0x20 else ToLower(s)[i] == s[i]
    ensures forall i :: 0 <= i < |s| ==>
              if 'a' <= s[i] <= 'z' then ToUpper(s)[i] as int == s[i] as int - 0x20 else ToUpper(s)[i] == s[i]
  {
    if s != "" {
      CasesFold(s[1..]);
    }
  }

  predicate HasLf(s: string) {
    '\n' in s
  }

  /** The first LF. */
  function IndexOfLf(s: string): (k: nat)
    requires HasLf(s)
    ensures k < |s| && s[k] == '\n' && forall i :: 0 <= i < k ==> s[i] != '\n'
  {
    if s[0] == '\n' then 0 else 1 + IndexOfLf(s[1..])
  }

  /** The lines of a text that an LF ends. */
  function CompleteLines(text: string): seq<string> {
    if !HasLf(text) then [] else [text[..IndexOfLf(text)]] + CompleteLines(text[IndexOfLf(text) + 1..])
  }

  /** What follows the last LF. */
  function Tail(text: string): string {
    if !HasLf(text) then text else Tail(text[IndexOfLf(text) + 1..])
  }

  /** The first line of a text is the first line of any longer one. */
  lemma FirstLine(text: string, more: string)
    requires HasLf(text)
    ensures HasLf(text + more) && IndexOfLf(text + more) == IndexOfLf(text)
    ensures CompleteLines(text + more)
         == [text[..IndexOfLf(text)]] + CompleteLines(text[IndexOfLf(text) + 1..] + more)
    ensures Tail(text + more) == Tail(text[IndexOfLf(text) + 1..] + more)
  {
    var k, whole := IndexOfLf(text), text + more;
    assert whole[k] == '\n';
    assert IndexOfLf(whole) == k;
    assert whole[..k] == text[..k];
    assert whole[k + 1..] == text[k + 1..] + more;
  }

  lemma LinesUnfold(text: string)
    ensures HasLf(text) ==>
              && CompleteLines(text) == [text[..IndexOfLf(text)]] + CompleteLines(text[IndexOfLf(text) + 1..])
              && Tail(text) == Tail(text[IndexOfLf(text) + 1..])
    ensures !HasLf(text) ==> CompleteLines(text) == [] && Tail(text) == text
  {
  }

  /** Reading a text and then more is reading the whole: only the tail is carried over. */
  lemma {:induction false} ReadOneMore(text: string, more: string)
    ensures CompleteLines(text + more) == CompleteLines(text) + CompleteLines(Tail(text) + more)
    ensures Tail(text + more) == Tail(Tail(text) + more)
    decreases |text|
  {
    hide CompleteLines, Tail;
    LinesUnfold(text);
    if HasLf(text) {
      FirstLine(text, more);
      ReadOneMore(text[IndexOfLf(text) + 1..], more);
    }
  }

  lemma {:induction false} TailHasNoLf(text: string)
    ensures !HasLf(Tail(text))
    decreases |text|
  {
    if HasLf(text) {
      TailHasNoLf(text[IndexOfLf(text) + 1..]);
    }
  }

  /** `split('\n')`. */
  function SplitLf(text: string): (lines: seq<string>)
    ensures lines != []
  {
    if !HasLf(text) then [text]
    else [text[..IndexOfLf(text)]] + SplitLf(text[IndexOfLf(text) + 1..])
  }

  /** Splitting leaves the lines an LF ends, and what follows the last LF. */
  lemma {:induction false} SplitIsLinesAndTail(text: string)
    ensures SplitLf(text) == CompleteLines(text) + [Tail(text)]
    decreases |text|
  {
    if HasLf(text) {
      SplitIsLinesAndTail(text[IndexOfLf(text) + 1..]);
    }
  }

  /** `join('\n')`. */
  function JoinLf(lines: seq<string>): string {
    if lines == [] then ""
    else if |lines| == 1 then lines[0]
    else lines[0] + "\n" + JoinLf(lines[1..])
  }

  lemma JoinFirst(first: string, rest: seq<string>)
    requires rest != []
    ensures JoinLf([first] + rest) == first + "\n" + JoinLf(rest)
  {
    assert ([first] + rest)[1..] == rest;
  }

  lemma {:induction false} JoinUndoesSplit(text: string)
    ensures JoinLf(SplitLf(text)) == text
    decreases |text|
  {
    if HasLf(text) {
      hide JoinLf;
      var k := IndexOfLf(text);
      JoinUndoesSplit(text[k + 1..]);
      JoinFirst(text[..k], SplitLf(text[k + 1..]));
      assert text == text[..k] + "\n" + text[k + 1..];
    }
  }

  lemma {:induction false} SplitUndoesJoin(lines: seq<string>)
    requires lines != [] && forall i :: 0 <= i < |lines| ==> !HasLf(lines[i])
    ensures SplitLf(JoinLf(lines)) == lines
    decreases |lines|
  {
    if |lines| > 1 {
      var first, rest := lines[0], JoinLf(lines[1..]);
      var text := first + "\n" + rest;
      SplitUndoesJoin(lines[1..]);
      assert text[|first|] == '\n' && forall i :: 0 <= i < |first| ==> text[i] == first[i];
      assert IndexOfLf(text) == |first|;
      assert text[..|first|] == first && text[|first| + 1..] == rest;
    }
  }

  lemma {:induction false} SplitHasNoLf(text: string)
    ensures SplitLf(text) != [] && forall i :: 0 <= i < |SplitLf(text)| ==> !HasLf(SplitLf(text)[i])
    decreases |text|
  {
    if HasLf(text) {
      SplitHasNoLf(text[IndexOfLf(text) + 1..]);
    }
  }
}
