/** The bead contract parser and the admission gate built on it. */
module BeadGate {
  import opened Prelude
  import opened Sequences
  import opened Text

  const REQUIRED_SECTIONS: seq<string> :=
    ["PROBLEM", "SUCCESS", "SCOPE", "NON_GOALS", "CONSTRAINTS", "VALIDATION", "OUTPUT"]

  predicate IsHeadingName(name: string) {
    name in REQUIRED_SECTIONS || name == "SCRUTINY"
  }

  // ----------------------------------------------------------------------------- headings

  // Drops leading hashes and the space after them.
  function StripHashes(s: string): string {
    if s != "" && s[0] == '#' then TrimLeft(DropHashes(s)) else s
  }

  function DropHashes(s: string): string {
    if s != "" && s[0] == '#' then DropHashes(s[1..]) else s
  }

  // Drops every star.
  function RemoveStars(s: string): string {
    if s == "" then "" else (if s[0] == '*' then "" else [s[0]]) + RemoveStars(s[1..])
  }

  predicate IsSeparator(c: char) {
    IsSpace(c) || c == '-'
  }

  /** `replace(/[\s-]+/g, '_')`; `inRun` tells that the previous character was replaced. */
  function Underscored(s: string, inRun: bool): string {
    if s == "" then ""
    else if IsSeparator(s[0]) then (if inRun then "" else "_") + Underscored(s[1..], true)
    else [s[0]] + Underscored(s[1..], false)
  }

  function Canonical(s: string): string {
    Underscored(ToUpper(s), false)
  }

  function StripColon(s: string): string {
    if s != "" && s[|s| - 1] == ':' then s[..|s| - 1] else s
  }

  function FirstColon(s: string): (k: nat)
    requires ':' in s
    ensures k < |s| && s[k] == ':' && forall i :: 0 <= i < k ==> s[i] != ':'
  {
    if s[0] == ':' then 0 else 1 + FirstColon(s[1..])
  }

  predicate IsLetter(c: char) {
    'A' <= c <= 'Z' || 'a' <= c <= 'z'
  }

  /** What stands before the colon: a letter, then letters, spaces, `_` and `-`, then any space. */
  predicate IsLabel(s: string) {
    var core := TrimRight(s);
    core != "" && IsLetter(core[0])
    && forall i :: 0 <= i < |core| ==> IsLetter(core[i]) || core[i] == ' ' || core[i] == '_' || core[i] == '-'
  }

  predicate HasLineTerminator(s: string) {
    exists c :: c in s && (c == '\n' || c == '\r' || c == '\U{2028}' || c == '\U{2029}')
  }

  datatype Heading = Heading(name: string, inlineBody: Option<string>)

  function Bare(line: string): string {
    Trim(RemoveStars(StripHashes(Trim(line))))
  }

  /** A bare or decorated section name, or the name, a colon and the first body line. */
  function HeadingOf(line: string): Option<Heading> {
    var bare := Bare(line);
    var whole := Canonical(Trim(StripColon(bare)));
    if IsHeadingName(whole) then Some(Heading(whole, None))
    else if ':' !in bare then None
    else
      var head, rest := bare[..FirstColon(bare)], TrimLeft(bare[FirstColon(bare) + 1..]);
      if !IsLabel(head) || HasLineTerminator(rest) then None
      else
        var name, inlineBody := Canonical(Trim(head)), Trim(rest);
        if !IsHeadingName(name) then None
        else Some(Heading(name, if inlineBody == "" then None else Some(inlineBody)))
  }

  // ------------------------------------------------------------------------------ sections

  /** The parser between lines: sections flushed so far, the open one, and its body lines. */
  datatype Scan = Scan(sections: map<string, string>, current: Option<string>, body: seq<string>)

  function Flush(s: Scan): map<string, string> {
    match s.current
    case None => s.sections
    case Some(name) => s.sections[name := Trim(JoinLf(s.body))]
  }

  function ScanLine(s: Scan, line: string): Scan {
    match HeadingOf(line)
    case Some(heading) =>
      Scan(Flush(s), Some(heading.name), if heading.inlineBody.Some? then [heading.inlineBody.value] else [])
    case None => if s.current.Some? then s.(body := s.body + [line]) else s
  }

  function ScanLines(lines: seq<string>): Scan {
    if lines == [] then Scan(map[], None, [])
    else ScanLine(ScanLines(lines[..|lines| - 1]), lines[|lines| - 1])
  }

  function Sections(description: string): map<string, string> {
    Flush(ScanLines(SplitLf(description)))
  }

  method ExtractSections(description: string) returns (sections: map<string, string>)
    ensures sections == Sections(description)
  {
    hide HeadingOf, SplitLf, JoinLf, Trim;
    sections := map[];
    var current: Option<string> := None;
    var body: seq<string> := [];
    var lines := SplitLf(description);
    for i := 0 to |lines|
      invariant Scan(sections, current, body) == ScanLines(lines[..i])
    {
      assert lines[..i + 1][..i] == lines[..i];
      var heading := HeadingOf(lines[i]);
      if heading.Some? {
        if current.Some? { sections := sections[current.value := Trim(JoinLf(body))]; }
        current := Some(heading.value.name);
        body := if heading.value.inlineBody.Some? then [heading.value.inlineBody.value] else [];
        continue;
      }
      if current.Some? { body := body + [lines[i]]; }
    }
    assert lines[..|lines|] == lines;
    if current.Some? { sections := sections[current.value := Trim(JoinLf(body))]; }
  }

  /** A section is present exactly when some line heads it: declared-but-empty is not absent. */
  lemma {:induction false} SectionsAreTheHeadings(lines: seq<string>, name: string)
    ensures name in Flush(ScanLines(lines)) <==>
            exists i :: 0 <= i < |lines| && HeadingOf(lines[i]).Some? && HeadingOf(lines[i]).value.name == name
  {
    hide HeadingOf, JoinLf, Trim;
    if lines != [] {
      SectionsAreTheHeadings(lines[..|lines| - 1], name);
    }
  }

  // ----------------------------------------------------------------------------- round trip

  /** Capital letters and underscores, as every section name is. */
  predicate IsPlainName(s: string) {
    s != "" && forall i :: 0 <= i < |s| ==> 'A' <= s[i] <= 'Z' || s[i] == '_'
  }

  lemma {:induction false} PlainIsFixed(s: string)
    requires IsPlainName(s)
    ensures RemoveStars(s) == s && ToUpper(s) == s && Underscored(s, false) == s
  {
    assert s == [s[0]] + s[1..];
    if |s| > 1 {
      PlainIsFixed(s[1..]);
    } else {
      assert s[1..] == "";
    }
  }

  /** A section name alone on its line is its own heading. */
  lemma PlainNameHeads(name: string)
    requires IsPlainName(name) && IsHeadingName(name)
    ensures HeadingOf(name) == Some(Heading(name, None))
  {
    hide IsHeadingName, RemoveStars, ToUpper, Underscored;
    PlainIsFixed(name);
    assert Trim(name) == name;
    assert StripHashes(name) == name;
    assert Bare(name) == name;
    assert StripColon(name) == name;
    assert Canonical(name) == name;
  }

  lemma {:induction false} ColonSurvives(s: string, inRun: bool)
    requires ':' in s
    ensures ':' in Underscored(ToUpper(s), inRun)
  {
    var upper := ToUpper(s);
    assert upper[1..] == ToUpper(s[1..]);
    if s[0] != ':' {
      ColonSurvives(s[1..], IsSeparator(upper[0]));
    }
  }

  lemma {:induction false} StarlessIsFixed(s: string)
    requires '*' !in s
    ensures RemoveStars(s) == s
  {
    if s != "" {
      assert s == [s[0]] + s[1..];
      StarlessIsFixed(s[1..]);
    }
  }

  lemma TrimLeftOfBody(body: string)
    requires body != "" && Trim(body) == body
    ensures TrimLeft(body) == body && !IsSpace(body[0]) && !IsSpace(body[|body| - 1])
    ensures TrimLeft(" " + body) == body
  {
    TrimsShorten(body);
    assert (" " + body)[1..] == body;
  }

  /** What may stand before a colon without more ado. */
  predicate IsHead(s: string) {
    IsTight(s) && s[0] != '#' && '*' !in s && ':' !in s
  }

  lemma BareOfInline(name: string, body: string)
    requires IsHead(name)
    requires body != "" && Trim(body) == body && '*' !in body
    ensures Bare(name + ": " + body) == name + ": " + body
  {
    hide RemoveStars;
    var line := name + ": " + body;
    TrimsShorten(body);
    assert line[|line| - 1] == body[|body| - 1] && line[0] == name[0];
    assert TrimLeft(line) == line && TrimRight(line) == line;
    assert StripHashes(line) == line;
    assert '*' !in line;
    StarlessIsFixed(line);
  }

  lemma WholeIsNoHeading(name: string, body: string)
    requires IsHead(name) && body != ""
    ensures !IsHeadingName(Canonical(Trim(StripColon(name + ": " + body))))
  {
    hide IsHeadingName, ToUpper, Underscored;
    var line := name + ": " + body;
    var stripped := StripColon(line);
    assert line[|name|] == ':' && |stripped| > |name| + 1 && stripped[|name|] == ':' && stripped[0] == name[0];
    assert TrimLeft(stripped) == stripped;
    ColonIsKept(stripped, |name|);
    ColonSurvives(Trim(stripped), false);
    NoHeadingHasAColon(Canonical(Trim(stripped)));
  }

  lemma {:induction false} ColonIsKept(s: string, k: nat)
    requires k < |s| && s[k] == ':'
    ensures ':' in TrimRight(s)
  {
    if IsSpace(s[|s| - 1]) {
      assert k < |s| - 1;
      ColonIsKept(s[..|s| - 1], k);
    }
  }

  lemma NoHeadingHasAColon(name: string)
    requires ':' in name
    ensures !IsHeadingName(name)
  {
    if IsHeadingName(name) {
      HeadingNamesArePlain(name);
    }
  }

  lemma PlainIsAHead(name: string)
    requires IsPlainName(name) && IsLetter(name[0])
    ensures IsHead(name) && IsLabelText(name)
  {
  }

  lemma ColonAfterName(name: string, rest: string)
    requires ':' !in name
    ensures var line := name + ":" + rest;
            ':' in line && FirstColon(line) == |name| && line[..|name|] == name && line[|name| + 1..] == rest
  {
    var line := name + ":" + rest;
    assert line[|name|] == ':';
    assert forall i :: 0 <= i < |name| ==> line[i] == name[i];
  }

  /** A letter, then letters, spaces, underscores and hyphens. */
  predicate IsLabelText(s: string) {
    && s != "" && ('a' <= s[0] <= 'z' || 'A' <= s[0] <= 'Z')
    && forall c :: c in s ==> 'a' <= c <= 'z' || 'A' <= c <= 'Z' || c == ' ' || c == '_' || c == '-'
  }

  lemma HeadIsALabel(head: string)
    requires IsHead(head)
    ensures Trim(head) == head && (IsLabel(head) <==> IsLabelText(head))
  {
    TightIsTrimmed(head);
    assert TrimRight(head) == head;
    assert IsLabelText(head) ==> forall i :: 0 <= i < |head| ==> head[i] in head;
    assert IsLabel(head) ==> forall c :: c in head ==> IsLetter(c) || c == ' ' || c == '_' || c == '-';
  }

  /**
   What stands before a colon heads a section exactly if it is a label and spells a section's name, and
   no line break other than LF stands in the text after it; the text is the section's first body line.
   */
  lemma InlineHeadsExactlyWhen(head: string, body: string)
    requires IsHead(head)
    requires body != "" && Trim(body) == body && '*' !in body
    ensures HeadingOf(head + ": " + body).Some? <==>
            && IsLabelText(head) && IsHeadingName(Canonical(head))
            && forall c :: c in body ==> c != '\n' && c != '\r' && c != '\U{2028}' && c != '\U{2029}'
    ensures HeadingOf(head + ": " + body).Some? ==>
            HeadingOf(head + ": " + body) == Some(Heading(Canonical(head), Some(body)))
  {
    hide IsHeadingName, IsLabel, IsLabelText, Bare, Canonical, Trim, TrimLeft, StripColon;
    BareOfInline(head, body);
    WholeIsNoHeading(head, body);
    assert head + ": " + body == head + ":" + (" " + body);
    ColonAfterName(head, " " + body);
    TrimLeftOfBody(body);
    HeadIsALabel(head);
  }

  /** A section name, a colon and text on one line: the text is the section's first body line. */
  lemma InlineNameHeads(name: string, body: string)
    requires IsHeadingName(name)
    requires body != "" && Trim(body) == body && '*' !in body && !HasLineTerminator(body)
    ensures HeadingOf(name + ": " + body) == Some(Heading(name, Some(body)))
  {
    hide IsHeadingName, IsPlainName, IsHead, IsLabelText, Canonical, Trim, HeadingOf;
    HeadingNamesArePlain(name);
    PlainIsAHead(name);
    PlainIsCanonical(name);
    InlineHeadsExactlyWhen(name, body);
  }

  lemma PlainIsCanonical(name: string)
    requires IsPlainName(name)
    ensures Canonical(name) == name
  {
    PlainIsFixed(name);
  }

  lemma HeadingNamesArePlain(name: string)
    requires IsHeadingName(name)
    ensures IsPlainName(name) && IsLetter(name[0])
  {
  }

  /** The eight names that head a section. */
  lemma HeadingNames(name: string)
    ensures IsHeadingName(name) <==>
            || name == "PROBLEM" || name == "SUCCESS" || name == "SCOPE" || name == "NON_GOALS"
            || name == "CONSTRAINTS" || name == "VALIDATION" || name == "OUTPUT" || name == "SCRUTINY"
  {
  }

  /** The name in any case, its underscores written as one space, tab or hyphen each if you like. */
  predicate Spells(s: string, name: string) {
    && |s| == |name|
    && forall i :: 0 <= i < |s| ==>
         UpperChar(s[i]) == name[i] || (name[i] == '_' && (s[i] == ' ' || s[i] == '\t' || s[i] == '-'))
  }

  /** No two underscores stand together, and none at an end. */
  predicate IsSpelt(name: string) {
    && IsPlainName(name) && name[0] != '_' && name[|name| - 1] != '_'
    && forall i :: 0 < i < |name| ==> name[i - 1] != '_' || name[i] != '_'
  }

  lemma HeadingNamesAreSpelt(name: string)
    requires IsHeadingName(name)
    ensures IsSpelt(name)
  {
    HeadingNamesArePlain(name);
    HeadingNames(name);
    if name == "NON_GOALS" {
      assert name[3] == '_' && forall i :: 0 <= i < |name| && i != 3 ==> name[i] != '_';
    } else {
      hide IsPlainName, IsHeadingName;
      NoUnderscore(name);
      PlainEnds(name);
    }
  }

  lemma NoUnderscore(name: string)
    requires || name == "PROBLEM" || name == "SUCCESS" || name == "SCOPE" || name == "CONSTRAINTS"
             || name == "VALIDATION" || name == "OUTPUT" || name == "SCRUTINY"
    ensures forall i :: 0 <= i < |name| ==> name[i] != '_'
  {
  }

  lemma PlainEnds(name: string)
    requires IsPlainName(name)
    ensures |name| > 0
  {
  }

  /** Upper-casing and joining a spelling gives the name; `inRun` tells of a separator just before. */
  lemma {:induction false} SpellingIsCanonical(s: string, name: string, inRun: bool)
    requires Spells(s, name) && (inRun && name != "" ==> name[0] != '_')
    requires forall i :: 0 <= i < |name| ==> 'A' <= name[i] <= 'Z' || name[i] == '_'
    requires forall i :: 0 < i < |name| ==> name[i - 1] != '_' || name[i] != '_'
    ensures Underscored(ToUpper(s), inRun) == name
  {
    if s == "" {
      assert name == "";
    } else {
      assert Spells(s[1..], name[1..]) by {
        assert forall i :: 0 <= i < |s| - 1 ==> s[1..][i] == s[i + 1] && name[1..][i] == name[i + 1];
      }
      assert name[1..] != "" ==> name[1..][0] == name[1];
      SeparatorsAreNoLetters(s[0]);
      assert ToUpper(s)[1..] == ToUpper(s[1..]);
      SpellingIsCanonical(s[1..], name[1..], IsSeparator(s[0]));
      assert name == [name[0]] + name[1..];
    }
  }

  lemma SeparatorsAreNoLetters(c: char)
    ensures IsSeparator(c) ==> UpperChar(c) == c
    ensures IsSeparator(UpperChar(c)) <==> IsSeparator(c)
  {
  }

  /** Leading hashes, with space after them. */
  function Hashes(n: nat): string {
    if n == 0 then "" else "#" + Hashes(n - 1)
  }

  function Stars(n: nat): string {
    if n == 0 then "" else "*" + Stars(n - 1)
  }

  /** A spelling as markdown decorates it: hashes before it, stars around it, a colon after it. */
  function Decorated(s: string, hashes: nat, stars: nat, colon: bool): string {
    Hashes(hashes) + (if hashes > 0 then " " else "") + (Stars(stars) + (s + (if colon then ":" else "")) + Stars(stars))
  }

  lemma {:induction false} HashesDrop(n: nat, rest: string)
    requires rest != "" && rest[0] != '#'
    ensures DropHashes(Hashes(n) + rest) == rest
  {
    if n == 0 {
      assert Hashes(0) + rest == rest;
    } else {
      assert (Hashes(n) + rest)[1..] == Hashes(n - 1) + rest;
      HashesDrop(n - 1, rest);
    }
  }

  lemma {:induction false} StarsDrop(n: nat, rest: string)
    ensures RemoveStars(Stars(n) + rest) == RemoveStars(rest)
  {
    if n == 0 {
      assert Stars(0) + rest == rest;
    } else {
      assert (Stars(n) + rest)[1..] == Stars(n - 1) + rest;
      StarsDrop(n - 1, rest);
    }
  }

  lemma {:induction false} StarsDropBehind(s: string, n: nat)
    requires '*' !in s
    ensures RemoveStars(s + Stars(n)) == s
  {
    if s == "" {
      assert s + Stars(n) == Stars(n) + "";
      StarsDrop(n, "");
    } else {
      assert (s + Stars(n))[1..] == s[1..] + Stars(n);
      StarsDropBehind(s[1..], n);
      assert s == [s[0]] + s[1..];
    }
  }

  /** Text that begins and ends with something else than space. */
  predicate IsTight(s: string) {
    s != "" && !IsSpace(s[0]) && !IsSpace(s[|s| - 1])
  }

  lemma TightIsTrimmed(s: string)
    requires IsTight(s)
    ensures Trim(s) == s && TrimLeft(s) == s
  {
  }

  lemma SpellingIsTight(s: string, name: string)
    requires IsSpelt(name) && Spells(s, name)
    ensures IsTight(s) && '*' !in s && s[0] != '#' && s[|s| - 1] != ':'
  {
    assert UpperChar(s[0]) == name[0] && UpperChar(s[|s| - 1]) == name[|name| - 1];
    forall i | 0 <= i < |s|
      ensures s[i] != '*'
    {
      assert UpperChar(s[i]) == name[i] || s[i] == ' ' || s[i] == '\t' || s[i] == '-';
    }
  }

  lemma {:induction false} StarsEnds(n: nat)
    ensures |Stars(n)| == n && forall i :: 0 <= i < n ==> Stars(n)[i] == '*'
  {
    if n > 0 {
      StarsEnds(n - 1);
    }
  }

  lemma {:induction false} HashesEnds(n: nat)
    ensures |Hashes(n)| == n && forall i :: 0 <= i < n ==> Hashes(n)[i] == '#'
  {
    if n > 0 {
      HashesEnds(n - 1);
    }
  }

  /** The decoration comes off: hashes, stars and the space between. */
  lemma BareOfDecorated(s: string, hashes: nat, stars: nat, colon: bool)
    requires IsTight(s) && '*' !in s && s[0] != '#'
    ensures Bare(Decorated(s, hashes, stars, colon)) == s + (if colon then ":" else "")
  {
    hide RemoveStars, StripHashes, Trim, IsTight, IsSpace, Hashes, Stars;
    var text := s + (if colon then ":" else "");
    var starred := Stars(stars) + text + Stars(stars);
    StaysTight(s, colon);
    StarsComeOff(text, stars);
    HashedIsTight(hashes, starred);
    TightIsTrimmed(Decorated(s, hashes, stars, colon));
    HashesComeOff(hashes, starred);
    TightIsTrimmed(text);
    assert Stars(stars) + text + Stars(stars) == Stars(stars) + (s + (if colon then ":" else "")) + Stars(stars);
  }

  lemma StaysTight(s: string, colon: bool)
    requires IsTight(s) && '*' !in s && s[0] != '#'
    ensures var text := s + (if colon then ":" else "");
            IsTight(text) && '*' !in text && text[0] != '#'
  {
  }

  lemma StarsComeOff(text: string, stars: nat)
    requires IsTight(text) && '*' !in text && text[0] != '#'
    ensures var starred := Stars(stars) + text + Stars(stars);
            IsTight(starred) && starred[0] != '#' && RemoveStars(starred) == text
  {
    hide RemoveStars;
    var starred := Stars(stars) + text + Stars(stars);
    StarsEnds(stars);
    assert starred[0] == (if stars > 0 then '*' else text[0]);
    assert starred[|starred| - 1] == (if stars > 0 then '*' else text[|text| - 1]);
    assert starred == Stars(stars) + (text + Stars(stars));
    StarsDrop(stars, text + Stars(stars));
    StarsDropBehind(text, stars);
  }

  lemma HashedIsTight(hashes: nat, starred: string)
    requires IsTight(starred)
    ensures IsTight(Hashes(hashes) + (if hashes > 0 then " " else "") + starred)
  {
    HashesEnds(hashes);
    var line := Hashes(hashes) + (if hashes > 0 then " " else "") + starred;
    assert line[|line| - 1] == starred[|starred| - 1];
    assert line[0] == (if hashes > 0 then '#' else starred[0]);
  }

  lemma HashesComeOff(hashes: nat, starred: string)
    requires IsTight(starred) && starred[0] != '#'
    ensures StripHashes(Hashes(hashes) + (if hashes > 0 then " " else "") + starred) == starred
  {
    HashesEnds(hashes);
    if hashes > 0 {
      var rest := " " + starred;
      assert Hashes(hashes) + " " + starred == Hashes(hashes) + rest;
      HashesDrop(hashes, rest);
      assert rest[1..] == starred;
      TightIsTrimmed(starred);
    } else {
      assert "" + "" + starred == starred;
    }
  }

  /** Any spelling of a section's name heads it, decorated or not, with a colon or without. */
  lemma AnySpellingHeads(name: string, s: string, hashes: nat, stars: nat, colon: bool)
    requires IsHeadingName(name) && Spells(s, name)
    ensures HeadingOf(Decorated(s, hashes, stars, colon)) == Some(Heading(name, None))
  {
    hide IsHeadingName, IsSpelt, Spells, Bare, Decorated, IsTight, Trim;
    HeadingNamesAreSpelt(name);
    SpellingIsTight(s, name);
    BareOfDecorated(s, hashes, stars, colon);
    ColonComesOff(s, colon);
    TightIsTrimmed(s);
    SpellingOfAll(s, name);
  }

  lemma ColonComesOff(s: string, colon: bool)
    requires s != "" && s[|s| - 1] != ':'
    ensures StripColon(s + (if colon then ":" else "")) == s
  {
    var text := s + (if colon then ":" else "");
    if colon {
      assert text[..|text| - 1] == s;
    } else {
      assert text == s;
    }
  }

  lemma SpellingOfAll(s: string, name: string)
    requires IsSpelt(name) && Spells(s, name)
    ensures Canonical(s) == name
  {
    SpellingIsCanonical(s, name, false);
  }

  /** A name written out: upper case, but for `_` where it has a space or a hyphen. */
  predicate WrittenAs(s: string, name: string) {
    && |s| == |name|
    && forall i :: 0 <= i < |s| ==> UpperChar(s[i]) == name[i] || (name[i] == '_' && (IsSpace(s[i]) || s[i] == '-'))
  }

  lemma {:induction false} JoiningKeepsPlaces(s: string, inRun: bool)
    ensures var name := Underscored(ToUpper(s), inRun);
            |name| <= |s| && (|name| == |s| ==> WrittenAs(s, name))
  {
    if s != "" {
      SeparatorsAreNoLetters(s[0]);
      assert ToUpper(s)[1..] == ToUpper(s[1..]);
      JoiningKeepsPlaces(s[1..], IsSeparator(s[0]));
    }
  }

  /** Spaces and hyphens in a row, of whatever kind and however many, count as one. */
  predicate IsGap(gap: string) {
    gap != "" && forall c :: c in gap ==> c == ' ' || c == '\t' || c == '-'
  }

  lemma {:induction false} GapsCountOnce(gap: string, rest: string, inRun: bool)
    requires forall c :: c in gap ==> c == ' ' || c == '\t' || c == '-'
    requires rest != "" && !IsSeparator(rest[0])
    ensures Underscored(gap + rest, inRun) == (if inRun || gap == "" then "" else "_") + Underscored(rest, false)
  {
    if gap == "" {
      assert gap + rest == rest;
    } else {
      assert gap[0] in gap;
      assert (gap + rest)[1..] == gap[1..] + rest;
      assert forall c :: c in gap[1..] ==> c in gap;
      GapsCountOnce(gap[1..], rest, true);
    }
  }

  lemma {:induction false} WordsJoin(word: string, gap: string, rest: string)
    requires forall c :: c in word ==> !IsSeparator(c)
    requires IsGap(gap) && rest != "" && !IsSeparator(rest[0])
    ensures Underscored(word + gap + rest, false) == word + "_" + Underscored(rest, false)
  {
    if word == "" {
      assert word + gap + rest == gap + rest;
      GapsCountOnce(gap, rest, false);
    } else {
      assert word[0] in word;
      assert (word + gap + rest)[1..] == word[1..] + gap + rest;
      WordsJoin(word[1..], gap, rest);
    }
  }

  /** The one name of two words is headed with any gap between them. */
  lemma AnyGapHeads(gap: string)
    requires IsGap(gap)
    ensures HeadingOf("NON" + gap + "GOALS") == Some(Heading("NON_GOALS", None))
  {
    hide Bare, Canonical, Trim, StripColon, IsGap, IsTight, Decorated;
    var line := "NON" + gap + "GOALS";
    GapIsCanonical(gap);
    GapIsTight(gap);
    BareOfDecorated(line, 0, 0, false);
    Undecorated(line);
    ColonComesOff(line, false);
    TightIsTrimmed(line);
    assert line + "" == line;
  }

  lemma Undecorated(s: string)
    ensures Decorated(s, 0, 0, false) == s
  {
  }

  lemma GapIsTight(gap: string)
    requires IsGap(gap)
    ensures var line := "NON" + gap + "GOALS";
            IsTight(line) && '*' !in line && line[0] != '#' && line[|line| - 1] != ':'
  {
    assert '*' !in "NON" && '*' !in "GOALS" && '*' !in gap;
  }

  lemma NoSeparators()
    ensures forall c :: c in "NON" ==> !IsSeparator(c)
    ensures !IsSeparator("GOALS"[0])
  {
  }

  lemma GapIsCanonical(gap: string)
    requires IsGap(gap)
    ensures Canonical("NON" + gap + "GOALS") == "NON_GOALS"
  {
    hide Underscored, ToUpper, IsGap, RemoveStars, IsSpace;
    GapIsUpper("NON", gap, "GOALS");
    NoSeparators();
    WordsJoin("NON", gap, "GOALS");
    PlainIsFixed("GOALS");
    assert "NON" + "_" + "GOALS" == "NON_GOALS";
  }

  lemma GapIsUpper(word: string, gap: string, rest: string)
    requires IsGap(gap) && IsPlainName(word) && IsPlainName(rest)
    ensures ToUpper(word + gap + rest) == word + gap + rest
  {
    UpperIsFixed(word + gap + rest);
  }

  lemma {:induction false} UpperIsFixed(s: string)
    requires forall c :: c in s ==> UpperChar(c) == c
    ensures ToUpper(s) == s
  {
    if s != "" {
      assert s[0] in s;
      UpperIsFixed(s[1..]);
    }
  }

  /**
   A line that names no section up to its colon, or at all, heads none. A line without a colon is the
   name: letter for letter, unless it has more than one space or hyphen in a row.
   */
  lemma HeadsOnlyWhatItNames(line: string)
    ensures HeadingOf(line).Some? ==> IsHeadingName(HeadingOf(line).value.name)
    ensures ':' !in Bare(line) && HeadingOf(line).Some? ==>
              var s, name := Trim(Bare(line)), HeadingOf(line).value.name;
              && HeadingOf(line).value.inlineBody.None?
              && name == Canonical(s)
              && |name| <= |s| && (|name| == |s| ==> WrittenAs(s, name))
  {
    hide Bare, Trim, IsHeadingName, WrittenAs, Underscored;
    JoiningKeepsPlaces(Trim(Bare(line)), false);
  }

  /**
   The last section of a name stands: the text after its heading's colon, if any, and then the lines up
   to the next heading, as one trimmed text.
   */
  lemma {:induction false} LastOfItsNameStands(before: seq<string>, line: string, body: seq<string>, after: seq<string>)
    requires HeadingOf(line).Some? && forall i :: 0 <= i < |body| ==> HeadingOf(body[i]).None?
    requires after == [] || HeadingOf(after[0]).Some?
    requires forall i :: 0 <= i < |after| && HeadingOf(after[i]).Some? ==>
               HeadingOf(after[i]).value.name != HeadingOf(line).value.name
    ensures var heading, scan := HeadingOf(line).value, ScanLines(before + [line] + body + after);
            var text := Trim(JoinLf((if heading.inlineBody.Some? then [heading.inlineBody.value] else []) + body));
            && heading.name in Flush(scan) && Flush(scan)[heading.name] == text
            && (after != [] ==> && scan.current.Some? && scan.current.value != heading.name
                                && heading.name in scan.sections && scan.sections[heading.name] == text)
    decreases |after|
  {
    hide HeadingOf, JoinLf, Trim;
    var begun := before + [line];
    if after == [] {
      assert begun[..|before|] == before;
      ScanBody(begun, body);
      assert begun + body + [] == begun + body;
    } else {
      var front, last := after[..|after| - 1], after[|after| - 1];
      LastOfItsNameStands(before, line, body, front);
      assert front != [] ==> front[0] == after[0];
      assert begun + body + after == begun + body + front + [last];
      ScanOneMore(begun + body + front, last);
    }
  }

  datatype Section = Section(name: string, body: string)

  /** A body that ends no section and that trimming leaves alone. */
  predicate IsBody(body: string) {
    Trim(body) == body && forall i :: 0 <= i < |SplitLf(body)| ==> HeadingOf(SplitLf(body)[i]).None?
  }

  predicate Printable(sections: seq<Section>) {
    && (forall i :: 0 <= i < |sections| ==> IsHeadingName(sections[i].name) && IsBody(sections[i].body))
    && (forall i, j :: 0 <= i < j < |sections| ==> sections[i].name != sections[j].name)
  }

  function PrintedLines(sections: seq<Section>): seq<string> {
    if sections == [] then []
    else
      var last := sections[|sections| - 1];
      PrintedLines(sections[..|sections| - 1]) + ([last.name] + SplitLf(last.body))
  }

  /** Each section under its bare heading. */
  function Print(sections: seq<Section>): string {
    JoinLf(PrintedLines(sections))
  }

  function MapOf(sections: seq<Section>): map<string, string> {
    if sections == [] then map[]
    else MapOf(sections[..|sections| - 1])[sections[|sections| - 1].name := sections[|sections| - 1].body]
  }

  lemma {:induction false} ScanBody(lines: seq<string>, body: seq<string>)
    requires ScanLines(lines).current.Some?
    requires forall i :: 0 <= i < |body| ==> HeadingOf(body[i]).None?
    ensures ScanLines(lines + body) == ScanLines(lines).(body := ScanLines(lines).body + body)
  {
    hide HeadingOf, Flush, ScanLines;
    if body == [] {
      assert lines + body == lines;
      assert ScanLines(lines).body + body == ScanLines(lines).body;
    } else {
      var front, last := body[..|body| - 1], body[|body| - 1];
      ScanBody(lines, front);
      ScanOneMore(lines + front, last);
      assert lines + body == lines + front + [last];
      assert ScanLines(lines).body + body == ScanLines(lines).body + front + [last];
    }
  }

  lemma ScanOneMore(lines: seq<string>, line: string)
    ensures ScanLines(lines + [line]) == ScanLine(ScanLines(lines), line)
  {
    hide ScanLine;
    assert (lines + [line])[..|lines|] == lines;
  }

  /** Scanning one more printed section adds it, whatever came before. */
  lemma ScanSection(before: seq<string>, name: string, body: string)
    requires IsHeadingName(name) && IsBody(body)
    ensures Flush(ScanLines(before + ([name] + SplitLf(body)))) == Flush(ScanLines(before))[name := body]
  {
    hide HeadingOf, IsHeadingName, JoinLf, SplitLf, Trim, Flush;
    var headed, lines := before + [name], SplitLf(body);
    ScanHeading(before, name);
    ScanBody(headed, lines);
    assert before + ([name] + lines) == headed + lines;
    assert [] + lines == lines;
    JoinUndoesSplit(body);
    FlushOpen(Scan(Flush(ScanLines(before)), Some(name), lines), name, body);
  }

  lemma ScanHeading(before: seq<string>, name: string)
    requires IsHeadingName(name)
    ensures ScanLines(before + [name]) == Scan(Flush(ScanLines(before)), Some(name), [])
  {
    hide HeadingOf, Flush;
    HeadingNamesArePlain(name);
    PlainNameHeads(name);
    assert (before + [name])[..|before|] == before;
  }

  lemma FlushOpen(s: Scan, name: string, body: string)
    requires s.current == Some(name) && JoinLf(s.body) == body && Trim(body) == body
    ensures Flush(s) == s.sections[name := body]
  {
  }

  lemma {:induction false} ScanPrinted(sections: seq<Section>)
    requires Printable(sections)
    ensures Flush(ScanLines(PrintedLines(sections))) == MapOf(sections)
  {
    hide HeadingOf, IsHeadingName, JoinLf, SplitLf, Trim, IsBody;
    if sections != [] {
      var front, last := sections[..|sections| - 1], sections[|sections| - 1];
      ScanPrinted(front);
      ScanSection(PrintedLines(front), last.name, last.body);
    }
  }

  lemma {:induction false} PrintedLinesAreLines(sections: seq<Section>)
    requires Printable(sections)
    ensures forall i :: 0 <= i < |PrintedLines(sections)| ==> !HasLf(PrintedLines(sections)[i])
    ensures sections != [] ==> PrintedLines(sections) != []
  {
    hide HeadingOf, IsHeadingName, SplitLf, IsBody;
    if sections != [] {
      var front, last := sections[..|sections| - 1], sections[|sections| - 1];
      PrintedLinesAreLines(front);
      HeadingNamesArePlain(last.name);
      PlainHasNoLf(last.name);
      SplitHasNoLf(last.body);
    }
  }

  lemma PlainHasNoLf(name: string)
    requires IsPlainName(name)
    ensures !HasLf(name)
  {
  }

  /** Parsing undoes printing: the map comes back section for section. */
  lemma ParseUndoesPrint(sections: seq<Section>)
    requires Printable(sections)
    ensures Sections(Print(sections)) == MapOf(sections)
    ensures forall i :: 0 <= i < |sections| ==>
              sections[i].name in Sections(Print(sections)) && Sections(Print(sections))[sections[i].name] == sections[i].body
  {
    hide HeadingOf, IsHeadingName, Trim;
    ScanPrinted(sections);
    if sections == [] {
      EmptyDescription();
    } else {
      PrintedLinesAreLines(sections);
      SplitUndoesJoin(PrintedLines(sections));
    }
    forall i | 0 <= i < |sections|
      ensures sections[i].name in MapOf(sections) && MapOf(sections)[sections[i].name] == sections[i].body
    {
      MapOfFinds(sections, i);
    }
  }

  lemma EmptyDescription()
    ensures Sections("") == map[]
  {
    assert SplitLf("") == [""];
    assert Canonical("") == "";
    assert HeadingOf("").None?;
    assert [""][..0] == [];
  }

  lemma {:induction false} MapOfHasNoOther(sections: seq<Section>, name: string)
    ensures name in MapOf(sections) <==> exists s :: s in sections && s.name == name
  {
    if sections != [] {
      var front, last := sections[..|sections| - 1], sections[|sections| - 1];
      MapOfHasNoOther(front, name);
      assert forall s :: s in sections <==> s in front || s == last;
    }
  }

  lemma {:induction false} MapOfFinds(sections: seq<Section>, i: nat)
    requires i < |sections|
    requires forall i, j :: 0 <= i < j < |sections| ==> sections[i].name != sections[j].name
    ensures sections[i].name in MapOf(sections) && MapOf(sections)[sections[i].name] == sections[i].body
  {
    if i < |sections| - 1 {
      MapOfFinds(sections[..|sections| - 1], i);
    }
  }

  // ------------------------------------------------------------------------------- the gate

  datatype Bead = Bead(
    id: string, title: string, status: Option<string>, description: Option<string>,
    dependencies: seq<string>, revision: Option<string>)

  datatype GateResult = Ready | NotReady(missing: seq<string>)

  function DescriptionOf(bead: Bead): string {
    if bead.description.Some? then bead.description.value else ""
  }

  predicate Dispatchable(bead: Bead) {
    bead.status.None? || ToLower(Trim(bead.status.value)) !in {"closed", "deferred"}
  }

  predicate Filled(sections: map<string, string>, name: string) {
    name in sections && sections[name] != ""
  }

  function MissingSections(sections: map<string, string>): seq<string> {
    Filter(REQUIRED_SECTIONS, (name: string) => !Filled(sections, name))
  }

  /** `declaresScrutiny` stands for the source's pattern match on the whole description. */
  function EvaluateBeadReadiness(bead: Bead, contractState: Option<string>, declaresScrutiny: string -> bool): GateResult {
    var missing := MissingSections(Sections(DescriptionOf(bead)));
    if !Dispatchable(bead) then NotReady([])
    else if contractState == Some("draft") then NotReady([])
    else if missing != [] then NotReady(missing)
    else if !declaresScrutiny(DescriptionOf(bead)) then NotReady(["SCRUTINY"])
    else Ready
  }

  /** A bead is admitted exactly when nothing refuses it, and a refusal lists what is missing. */
  lemma ReadyExactlyWhen(bead: Bead, contractState: Option<string>, declaresScrutiny: string -> bool)
    ensures var sections := Sections(DescriptionOf(bead));
            EvaluateBeadReadiness(bead, contractState, declaresScrutiny).Ready? <==>
              && !(bead.status.Some? && ToLower(Trim(bead.status.value)) == "closed")
              && !(bead.status.Some? && ToLower(Trim(bead.status.value)) == "deferred")
              && contractState != Some("draft")
              && Filled(sections, "PROBLEM") && Filled(sections, "SUCCESS") && Filled(sections, "SCOPE")
              && Filled(sections, "NON_GOALS") && Filled(sections, "CONSTRAINTS")
              && Filled(sections, "VALIDATION") && Filled(sections, "OUTPUT")
              && declaresScrutiny(DescriptionOf(bead))
    ensures var sections := Sections(DescriptionOf(bead));
            var result := EvaluateBeadReadiness(bead, contractState, declaresScrutiny);
            Dispatchable(bead) && contractState != Some("draft") && result.NotReady? ==>
              if forall name :: name in REQUIRED_SECTIONS ==> Filled(sections, name) then result.missing == ["SCRUTINY"]
              else forall name :: name in result.missing <==> name in REQUIRED_SECTIONS && !Filled(sections, name)
  {
    hide Sections, Filled;
    var sections := Sections(DescriptionOf(bead));
    AllRequired(sections);
    var unfilled := (name: string) => !Filled(sections, name);
    var missing := MissingSections(sections);
    forall name
      ensures name in missing <==> name in REQUIRED_SECTIONS && !Filled(sections, name)
    {
      MissingFinds(sections, name);
    }
    assert missing != [] ==> missing[0] in missing;
  }

  lemma AllRequired(sections: map<string, string>)
    ensures (forall name :: name in REQUIRED_SECTIONS ==> Filled(sections, name)) <==>
            && Filled(sections, "PROBLEM") && Filled(sections, "SUCCESS") && Filled(sections, "SCOPE")
            && Filled(sections, "NON_GOALS") && Filled(sections, "CONSTRAINTS")
            && Filled(sections, "VALIDATION") && Filled(sections, "OUTPUT")
  {
    hide Filled;
    var r := REQUIRED_SECTIONS;
    assert "PROBLEM" == r[0] && "SUCCESS" == r[1] && "SCOPE" == r[2] && "NON_GOALS" == r[3];
    assert "CONSTRAINTS" == r[4] && "VALIDATION" == r[5] && "OUTPUT" == r[6];
  }

  lemma MissingFinds(sections: map<string, string>, name: string)
    ensures name in MissingSections(sections) <==> name in REQUIRED_SECTIONS && !Filled(sections, name)
  {
    FilterFinds(REQUIRED_SECTIONS, (n: string) => !Filled(sections, n), name);
  }
}
