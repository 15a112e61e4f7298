/** The bounded contract of one activation, compiled from an admitted bead. */
module StepContract {
  import opened Prelude
  import opened Sequences
  import opened Text
  import opened Decimal
  import opened BeadGate

  datatype EvidenceRef = BeadRef(id: string, title: string) | BlockerRef(id: string)

  datatype OutputRequirement = OutputRequirement(description: string, format: Option<string>)

  /** `constraints` and `validation` are left off when empty. */
  datatype Contract = Contract(
    rootWorkRef: string,
    mandate: string,
    inputs: seq<EvidenceRef>,
    outputs: seq<OutputRequirement>,
    inScope: string,
    nonGoals: seq<string>,
    constraints: Option<seq<string>>,
    validation: Option<seq<string>>,
    specialist: string,
    generatedAt: int,
    sourceBeadRevision: Option<string>)

  // --------------------------------------------------------------------------------- lists

  predicate IsBullet(c: char) {
    c == '-' || c == '*' || c == '\U{2022}'
  }

  // Drops one leading bullet and the space after it.
  function StripBullet(s: string): string {
    if s != "" && IsBullet(s[0]) then TrimLeft(s[1..]) else s
  }

  function LeadingDigits(s: string): nat {
    if s != "" && IsDigit(s[0]) then 1 + LeadingDigits(s[1..]) else 0
  }

  // Drops a leading number with its `.` or `)`, and the space after it.
  function StripNumber(s: string): string {
    var n := LeadingDigits(s);
    if 0 < n < |s| && (s[n] == '.' || s[n] == ')') then TrimLeft(s[n + 1..]) else s
  }

  function ItemOf(line: string): string {
    Trim(StripNumber(StripBullet(Trim(line))))
  }

  function Items(lines: seq<string>): seq<string> {
    if lines == [] then []
    else
      var item := ItemOf(lines[0]);
      (if item == "" then [] else [item]) + Items(lines[1..])
  }

  function ToList(body: string): seq<string> {
    if body == "" then [] else Items(SplitLf(body))
  }

  /** Every listed item is the text of some line, in order, and none is empty. */
  lemma {:induction false} ItemsAreNonEmpty(lines: seq<string>, item: string)
    ensures item in Items(lines) <==> item != "" && exists i :: 0 <= i < |lines| && ItemOf(lines[i]) == item
  {
    hide ItemOf;
    if lines != [] {
      ItemsAreNonEmpty(lines[1..], item);
      if exists i :: 0 <= i < |lines| && ItemOf(lines[i]) == item {
        var i :| 0 <= i < |lines| && ItemOf(lines[i]) == item;
        assert i == 0 || lines[1..][i - 1] == lines[i];
      }
    }
  }

  /** Text no marker rule touches: trimmed, and not starting with a bullet or a digit. */
  predicate IsPlainItem(s: string) {
    && s != "" && Trim(s) == s && !HasLf(s)
    && s[0] != '-' && s[0] != '*' && s[0] != '\U{2022}' && !IsDigit(s[0])
  }

  datatype Marker = NoMarker | Bullet(c: char) | Number(n: nat, c: char)

  predicate IsMarker(m: Marker) {
    match m
    case NoMarker => true
    case Bullet(c) => c == '-' || c == '*' || c == '\U{2022}'
    case Number(_, c) => c == '.' || c == ')'
  }

  /** An item as operators write it. */
  function Listed(m: Marker, item: string): string {
    match m
    case NoMarker => item
    case Bullet(c) => [c, ' '] + item
    case Number(n, c) => Decimal.Print(n) + [c, ' '] + item
  }

  lemma PlainItemsStay(item: string)
    requires IsPlainItem(item)
    ensures Trim(item) == item && StripBullet(item) == item && StripNumber(item) == item
    ensures !IsSpace(item[0]) && !IsSpace(item[|item| - 1]) && TrimLeft(" " + item) == item
  {
    TrimsShorten(item);
    assert LeadingDigits(item) == 0;
    assert (" " + item)[1..] == item;
  }

  lemma {:induction false} DigitsLead(digits: string, rest: string)
    requires AllDigits(digits) && rest != "" && !IsDigit(rest[0])
    ensures LeadingDigits(digits + rest) == |digits|
  {
    if digits == "" {
      assert digits + rest == rest;
    } else {
      assert (digits + rest)[1..] == digits[1..] + rest;
      DigitsLead(digits[1..], rest);
    }
  }

  /** Whatever marker stands before it, an item is read back as written. */
  lemma MarkersAreDropped(m: Marker, item: string)
    requires IsMarker(m) && IsPlainItem(item)
    ensures ItemOf(Listed(m, item)) == item
  {
    hide Trim, TrimLeft, IsSpace;
    PlainItemsStay(item);
    var line := Listed(m, item);
    TrimOfListed(m, item);
    match m
    case NoMarker =>
    case Bullet(c) => assert line[1..] == " " + item;
    case Number(n, c) =>
      var digits := Decimal.Print(n);
      assert line == digits + ([c, ' '] + item);
      DigitsLead(digits, [c, ' '] + item);
      assert StripBullet(line) == line;
      assert line[|digits| + 1..] == " " + item;
  }

  lemma TrimOfListed(m: Marker, item: string)
    requires IsMarker(m) && IsPlainItem(item)
    ensures Trim(Listed(m, item)) == Listed(m, item)
  {
    PlainItemsStay(item);
    var line := Listed(m, item);
    assert line[|line| - 1] == item[|item| - 1];
    assert !IsSpace(line[0]);
  }

  function ListedAll(markers: seq<Marker>, items: seq<string>): seq<string>
    requires |markers| == |items|
  {
    seq(|items|, i requires 0 <= i < |items| => Listed(markers[i], items[i]))
  }

  lemma ListedIsALine(m: Marker, item: string)
    requires IsMarker(m) && IsPlainItem(item)
    ensures !HasLf(Listed(m, item))
  {
    if m.Number? {
      assert AllDigits(Decimal.Print(m.n));
    }
  }

  lemma {:induction false} ItemsOfListed(markers: seq<Marker>, items: seq<string>)
    requires |markers| == |items|
    requires forall i :: 0 <= i < |items| ==> IsMarker(markers[i]) && IsPlainItem(items[i])
    ensures Items(ListedAll(markers, items)) == items
  {
    hide ItemOf, IsPlainItem, IsMarker, Listed;
    if items != [] {
      MarkersAreDropped(markers[0], items[0]);
      ItemsOfListed(markers[1..], items[1..]);
      assert ListedAll(markers, items)[1..] == ListedAll(markers[1..], items[1..]);
      PlainIsNotEmpty(items[0]);
    }
  }

  lemma PlainIsNotEmpty(item: string)
    requires IsPlainItem(item)
    ensures item != ""
  {
  }

  /** Round trip: items written one a line, each with a bullet, a number or nothing, read back as the items. */
  lemma ListsReadBack(markers: seq<Marker>, items: seq<string>)
    requires |markers| == |items|
    requires forall i :: 0 <= i < |items| ==> IsMarker(markers[i]) && IsPlainItem(items[i])
    ensures ToList(JoinLf(ListedAll(markers, items))) == items
  {
    hide IsPlainItem, IsMarker, Listed, Items;
    var lines := ListedAll(markers, items);
    if items != [] {
      forall i | 0 <= i < |lines|
        ensures !HasLf(lines[i])
      {
        ListedIsALine(markers[i], items[i]);
      }
      SplitUndoesJoin(lines);
      ItemsOfListed(markers, items);
      assert JoinLf(lines) != "" by {
        if JoinLf(lines) == "" {
          assert SplitLf("") == [""];
          MarkersAreDropped(markers[0], items[0]);
          PlainIsNotEmpty(items[0]);
          assert Listed(markers[0], items[0]) == lines[0] == "";
          EmptyLineListsNothing();
        }
      }
    }
  }

  lemma EmptyLineListsNothing()
    ensures ItemOf("") == ""
  {
  }

  // ------------------------------------------------------------------------------- compiling

  function TextOf(sections: map<string, string>, name: string): string {
    if name in sections then sections[name] else ""
  }

  /** The non-empty ones of success and scope, a blank line between. */
  function Mandate(success: string, scope: string): string {
    if success == "" then scope
    else if scope == "" then success
    else success + "\n\n" + scope
  }

  function NonEmpty(items: seq<string>): Option<seq<string>> {
    if items == [] then None else Some(items)
  }

  function Blockers(dependencies: seq<string>): seq<EvidenceRef> {
    if dependencies == [] then []
    else (if dependencies[0] == "" then [] else [BlockerRef(dependencies[0])]) + Blockers(dependencies[1..])
  }

  function CompileStepContract(bead: Bead, specialist: string, responseFormat: Option<string>, now: int): Contract {
    var sections := Sections(DescriptionOf(bead));
    var scope, success, output :=
      TextOf(sections, "SCOPE"), TextOf(sections, "SUCCESS"), TextOf(sections, "OUTPUT");
    Contract(
      bead.id,
      Mandate(success, scope),
      [BeadRef(bead.id, bead.title)] + Blockers(bead.dependencies),
      if output == "" then []
      else [OutputRequirement(output, if responseFormat == Some("") then None else responseFormat)],
      scope,
      ToList(TextOf(sections, "NON_GOALS")),
      NonEmpty(ToList(TextOf(sections, "CONSTRAINTS"))),
      NonEmpty(ToList(TextOf(sections, "VALIDATION"))),
      specialist, now, bead.revision)
  }

  /** The inputs name the bead first, and then every blocker with an id, and no other. */
  lemma {:induction false} BlockersAreNamed(dependencies: seq<string>, id: string)
    ensures BlockerRef(id) in Blockers(dependencies) <==> id != "" && id in dependencies
  {
    if dependencies != [] {
      BlockersAreNamed(dependencies[1..], id);
      assert id in dependencies <==> id == dependencies[0] || id in dependencies[1..];
    }
  }

  /** Blockers stand in the order of the dependencies, each as often as it is one. */
  lemma BlockersKeepTheirOrder(before: seq<string>, id: string, after: seq<string>)
    ensures Blockers(before + [id] + after) ==
            Blockers(before) + (if id == "" then [] else [BlockerRef(id)]) + Blockers(after)
  {
    hide Blockers;
    BlockersAppend(before + [id], after);
    BlockersAppend(before, [id]);
    OneBlocker(id, []);
    NoBlockers();
    assert [id] + [] == [id];
  }

  lemma NoBlockers()
    ensures Blockers([]) == []
  {
  }

  lemma OneBlocker(id: string, rest: seq<string>)
    ensures Blockers([id] + rest) == (if id == "" then [] else [BlockerRef(id)]) + Blockers(rest)
  {
    assert ([id] + rest)[1..] == rest;
  }

  lemma {:induction false} BlockersAppend(before: seq<string>, after: seq<string>)
    ensures Blockers(before + after) == Blockers(before) + Blockers(after)
  {
    hide Blockers;
    if before == [] {
      assert before + after == after;
      NoBlockers();
    } else {
      assert before + after == [before[0]] + (before[1..] + after);
      assert before == [before[0]] + before[1..];
      OneBlocker(before[0], before[1..] + after);
      OneBlocker(before[0], before[1..]);
      BlockersAppend(before[1..], after);
    }
  }

  /** Gate and compiler read one parse: an admitted bead compiles to a usable contract. */
  lemma AdmittedBeadsCompile(
      bead: Bead, contractState: Option<string>, declaresScrutiny: string -> bool,
      specialist: string, responseFormat: Option<string>, now: int)
    ensures EvaluateBeadReadiness(bead, contractState, declaresScrutiny).Ready? ==>
            var c := CompileStepContract(bead, specialist, responseFormat, now);
            var sections := Sections(DescriptionOf(bead));
            && c.rootWorkRef == bead.id
            && "SUCCESS" in sections && "SCOPE" in sections && "OUTPUT" in sections
            && c.inScope == sections["SCOPE"] != ""
            && c.mandate == sections["SUCCESS"] + "\n\n" + c.inScope && |c.mandate| > |c.inScope| + 2
            && |c.outputs| == 1 && c.outputs[0].description == sections["OUTPUT"] != ""
  {
    hide Sections, Dispatchable, ToList;
    ReadyExactlyWhen(bead, contractState, declaresScrutiny);
    var sections := Sections(DescriptionOf(bead));
    assert REQUIRED_SECTIONS[1] == "SUCCESS" && REQUIRED_SECTIONS[2] == "SCOPE" && REQUIRED_SECTIONS[6] == "OUTPUT";
    if EvaluateBeadReadiness(bead, contractState, declaresScrutiny).Ready? {
      assert Filled(sections, "SUCCESS") && Filled(sections, "SCOPE") && Filled(sections, "OUTPUT");
    }
  }

  /** The fields that name things: the bead first, its revision, the specialist, the time and the format. */
  lemma ContractNamesItsSources(bead: Bead, specialist: string, responseFormat: Option<string>, now: int)
    ensures var c := CompileStepContract(bead, specialist, responseFormat, now);
            && c.rootWorkRef == bead.id && c.sourceBeadRevision == bead.revision
            && c.specialist == specialist && c.generatedAt == now
            && c.inputs != [] && c.inputs[0] == BeadRef(bead.id, bead.title) && c.inputs[1..] == Blockers(bead.dependencies)
            && |c.outputs| <= 1
            && (forall f :: c.outputs != [] ==> (c.outputs[0].format == Some(f) <==> responseFormat == Some(f) && f != ""))
  {
    hide Sections, ToList;
  }

  /** A section that lists items, each behind a marker or none. */
  ghost predicate ListsItems(section: Section, markers: seq<Marker>, items: seq<string>) {
    && |markers| == |items|
    && (forall i :: 0 <= i < |items| ==> IsMarker(markers[i]) && IsPlainItem(items[i]))
    && section.body == JoinLf(ListedAll(markers, items))
  }

  /**
   From the description to the contract: items listed under NON_GOALS, CONSTRAINTS and VALIDATION are
   the contract's own, each list under its own field, and an empty optional list is left off.
   */
  lemma ContractCarriesTheLists(
      bead: Bead, sections: seq<Section>, i: nat, markers: seq<Marker>, items: seq<string>,
      specialist: string, responseFormat: Option<string>, now: int)
    requires Printable(sections) && bead.description == Some(BeadGate.Print(sections))
    requires i < |sections| && ListsItems(sections[i], markers, items)
    ensures var c := CompileStepContract(bead, specialist, responseFormat, now);
            && (sections[i].name == "NON_GOALS" ==> c.nonGoals == items)
            && (sections[i].name == "CONSTRAINTS" ==> c.constraints == if items == [] then None else Some(items))
            && (sections[i].name == "VALIDATION" ==> c.validation == if items == [] then None else Some(items))
  {
    hide Sections, ToList, Printable, BeadGate.Print, ListedAll, JoinLf;
    ParseUndoesPrint(sections);
    ListsReadBack(markers, items);
  }

  /** The texts likewise: success and scope make the mandate, scope bounds it, output is what is owed. */
  lemma ContractCarriesTheTexts(
      bead: Bead, sections: seq<Section>, i: nat, specialist: string, responseFormat: Option<string>, now: int)
    requires Printable(sections) && bead.description == Some(BeadGate.Print(sections))
    requires i < |sections|
    ensures var c := CompileStepContract(bead, specialist, responseFormat, now);
            && (sections[i].name == "SCOPE" ==> c.inScope == sections[i].body)
            && (sections[i].name == "OUTPUT" && sections[i].body != "" ==>
                  |c.outputs| == 1 && c.outputs[0].description == sections[i].body)
            && (sections[i].name == "SUCCESS" ==> sections[i].body <= c.mandate)
            && (sections[i].name == "SUCCESS" && c.inScope == "" ==> c.mandate == sections[i].body)
            && (sections[i].name == "SCOPE" && (forall s :: s in sections ==> s.name != "SUCCESS") ==>
                  c.mandate == sections[i].body)
  {
    hide Sections, ToList, Printable, BeadGate.Print, MapOf;
    ParseUndoesPrint(sections);
    MapOfHasNoOther(sections, "SUCCESS");
  }

  // ---------------------------------------------------------------------------- bare markers

  /** Digits, and then `.` or `)`. */
  predicate BareNumber(s: string) {
    |s| > 1 && AllDigits(s[..|s| - 1]) && (s[|s| - 1] == '.' || s[|s| - 1] == ')')
  }

  /** Nothing, a number, or a bullet; or a bullet, space, and a number. */
  predicate BareMarker(s: string) {
    || s == ""
    || BareNumber(s)
    || (IsBullet(s[0]) && exists k :: 1 <= k <= |s| && Blank(s[1..k]) && (s[k..] == "" || BareNumber(s[k..])))
  }

  lemma {:induction false} LeadingDigitsAre(s: string)
    ensures var n := LeadingDigits(s);
            n <= |s| && AllDigits(s[..n]) && (n < |s| ==> !IsDigit(s[n]))
  {
    if s != "" && IsDigit(s[0]) {
      LeadingDigitsAre(s[1..]);
      assert s[..LeadingDigits(s)] == [s[0]] + s[1..][..LeadingDigits(s[1..])];
    }
  }

  predicate Tight(s: string) {
    s != "" ==> !IsSpace(s[0]) && !IsSpace(s[|s| - 1])
  }

  lemma BlankOfTrimLeft(s: string)
    ensures Blank(TrimLeft(s)) <==> Blank(s)
  {
    var k := LeftCuts(s);
    assert s == s[..k] + s[k..];
  }

  /** What a number leaves is blank exactly if it was all there was. */
  lemma NumberLeavesNothing(s: string)
    requires Tight(s)
    ensures Blank(StripNumber(s)) <==> s == "" || BareNumber(s)
  {
    var n := LeadingDigits(s);
    LeadingDigitsAre(s);
    if BareNumber(s) {
      DigitsLead(s[..|s| - 1], s[|s| - 1..]);
      assert s == s[..|s| - 1] + s[|s| - 1..];
    }
    if 0 < n < |s| && (s[n] == '.' || s[n] == ')') {
      BlankOfTrimLeft(s[n + 1..]);
      if n + 1 < |s| {
        assert s[n + 1..][|s| - n - 2] == s[|s| - 1] && s[|s| - 1] in s[n + 1..];
      } else {
        assert s[n + 1..] == "" && s[..n] == s[..|s| - 1];
      }
    } else if s != "" {
      assert s[0] in s;
    }
  }

  lemma NumbersStartWithADigit(s: string)
    ensures BareNumber(s) ==> IsDigit(s[0])
  {
    assert |s| > 1 ==> s[..|s| - 1][0] == s[0];
  }

  lemma BulletLeavesNothing(s: string)
    requires Tight(s)
    ensures Blank(StripNumber(StripBullet(s))) <==> BareMarker(s)
  {
    if s == "" || !IsBullet(s[0]) {
      NumberLeavesNothing(s);
    } else {
      var k := LeftCuts(s[1..]);
      var rest := s[1..][k..];
      assert rest == s[k + 1..] && s[1..][..k] == s[1..k + 1];
      assert rest != "" ==> rest[0] == s[1..][k] && rest[|rest| - 1] == s[|s| - 1];
      NumberLeavesNothing(rest);
      NumbersStartWithADigit(s);
      BulletCutIsUnique(s, rest);
    }
  }

  lemma BulletCutIsUnique(s: string, rest: string)
    requires s != "" && IsBullet(s[0]) && rest == TrimLeft(s[1..])
    ensures forall j :: 1 <= j <= |s| && Blank(s[1..j]) && (s[j..] == "" || BareNumber(s[j..])) ==> s[j..] == rest
  {
    forall j | 1 <= j <= |s| && Blank(s[1..j]) && (s[j..] == "" || BareNumber(s[j..]))
      ensures s[j..] == rest
    {
      NumbersStartWithADigit(s[j..]);
      assert s[1..][..j - 1] == s[1..j] && s[1..][j - 1..] == s[j..];
      LeftCut(s[1..], j - 1);
    }
  }

  /** A line lists nothing exactly if, trimmed, it is a bare marker. */
  lemma LineListsNothingExactlyWhen(line: string)
    ensures ItemOf(line) == "" <==> BareMarker(Trim(line))
  {
    hide BareMarker, StripNumber, StripBullet, Trim;
    TrimEnds(line);
    BulletLeavesNothing(Trim(line));
    TrimEnds(StripNumber(StripBullet(Trim(line))));
  }

  /**
   Admission does not promise items: a list section yields none exactly when it is absent or every
   one of its lines is a bare marker.
   */
  lemma ListIsEmptyExactlyWhen(body: string)
    ensures ToList(body) == [] <==>
            body == "" || forall i :: 0 <= i < |SplitLf(body)| ==> BareMarker(Trim(SplitLf(body)[i]))
  {
    hide ItemOf, BareMarker;
    var lines := SplitLf(body);
    forall i | 0 <= i < |lines|
      ensures ItemOf(lines[i]) == "" <==> BareMarker(Trim(lines[i]))
      ensures ItemOf(lines[i]) != "" ==> Items(lines) != []
    {
      LineListsNothingExactlyWhen(lines[i]);
      ItemsAreNonEmpty(lines, ItemOf(lines[i]));
    }
    if Items(lines) != [] {
      assert Items(lines)[0] in Items(lines);
      ItemsAreNonEmpty(lines, Items(lines)[0]);
      var i :| 0 <= i < |lines| && ItemOf(lines[i]) == Items(lines)[0];
      assert !BareMarker(Trim(SplitLf(body)[i]));
    }
  }

  /** The body `-` is not empty, so it passes the gate, and it lists nothing. */
  lemma MarkerListsNothing()
    ensures Trim("-") == "-" && ToList("-") == []
  {
    assert SplitLf("-") == ["-"];
    assert Trim("-") == "-";
    assert StripBullet("-") == TrimLeft("");
    assert ItemOf("-") == "";
  }
}
