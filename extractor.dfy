/** `AIService.parseTestCases` (src/aiService.ts:347-480): one pass over the
    lines of the model's markdown reply with a three-state mode machine, a
    bounded lookahead after each case header, and a chain of fallbacks that
    recover the requirement text.

    The functions below specify the pass line by line (`Step`, `ScanLines`)
    over what the regular expressions say about each trimmed line
    (`Classify`), and the lookahead declaratively (`Searched`, `LastField`);
    the method `ParseTestCases` is the loop itself and is proved to compute
    `Parse`. */
module Extractor {
  import opened Wrappers
  import opened Text
  import opened Patterns
  import opened Fallback

  /** One case: its title and the operation and expected result found under
      it, `''` when absent. */
  datatype TestCase = TestCase(title: string, operation: string, expected: string)

  /** A named category with its cases in document order. */
  datatype Category = Category(category: string, cases: seq<TestCase>)

  /** `TestCaseResult`: the requirement sentence, the categories, and the
      reply the result was extracted from. */
  datatype ParseResult = ParseResult(requirement: string, testCases: seq<Category>, rawText: string)

  /** The two flags `inRequirementSection` and `inTestCaseSection`, which are
      never both set. */
  datatype Mode = Outside | InRequirement | InTestCases

  /** The loop's variables after some prefix of the lines. */
  datatype Scan = Scan(
    requirement: string,
    testCases: seq<Category>,
    currentCategory: string,
    currentCases: seq<TestCase>,
    mode: Mode,
    requirementLines: seq<string>)

  const InitialScan: Scan := Scan("", [], "", [], Outside, [])

  /** What is returned when nothing yields a requirement (src/aiService.ts:476). */
  const Placeholder: string := "未能从 AI 响应中提取需求描述，请查看完整文本。"

  /** What the loop can learn from one trimmed line: the answer of each
      regular expression it may apply to it. */
  datatype LineInfo = LineInfo(
    text: string,
    requirementStart: bool,
    caseSectionStart: bool,
    marker: bool,
    category: Option<string>,
    caseTitle: Option<string>,
    stop: bool,
    operation: Option<string>,
    expected: Option<string>)

  function Classify(line: string): LineInfo
  {
    LineInfo(line, IsRequirementStart(line), IsCaseSectionStart(line), IsMarkerLine(line),
             CategoryName(line), CaseTitle(line), IsCaseStop(line),
             FieldValue(line, Operation), FieldValue(line, Expected))
  }

  /** What holds of every classified line: its text is trimmed, and every
      captured group is non-empty, as `(.+)` captures at least one character. */
  predicate Coherent(info: LineInfo)
  {
    Trim(info.text) == info.text
    && info.marker == IsMarkerLine(info.text)
    && (info.category.Some? ==> info.category.value != "")
    && (info.caseTitle.Some? ==> info.caseTitle.value != "")
    && (info.operation.Some? ==> info.operation.value != "")
    && (info.expected.Some? ==> info.expected.value != "")
  }

  lemma ClassifyCoherent(line: string)
    ensures Coherent(Classify(Trim(line)))
  {
    TrimIdempotent(line);
  }

  /** The reply's lines, each trimmed and classified: every line
      `parseTestCases` inspects is `lines[i].trim()` or `lines[j].trim()`. */
  function Classified(lines: seq<string>): (ci: seq<LineInfo>)
    ensures |ci| == |lines|
    decreases |lines|
  {
    if lines == [] then [] else [Classify(Trim(lines[0]))] + Classified(lines[1..])
  }

  lemma {:induction false} ClassifiedAt(lines: seq<string>, k: nat)
    requires k < |lines|
    ensures Classified(lines)[k] == Classify(Trim(lines[k]))
    decreases k
  {
    if k > 0 {
      ClassifiedAt(lines[1..], k - 1);
    }
  }

  lemma ClassifiedCoherent(lines: seq<string>)
    ensures forall k :: 0 <= k < |lines| ==> Coherent(Classified(lines)[k])
  {
    forall k | 0 <= k < |lines|
      ensures Coherent(Classified(lines)[k])
    {
      ClassifiedAt(lines, k);
      ClassifyCoherent(lines[k]);
    }
  }

  /** What the lookahead and the category test read from a classified line
      is what the regular expressions say of the trimmed line. */
  lemma ClassifiedFields(lines: seq<string>)
    ensures forall k :: 0 <= k < |lines| ==>
              var info := Classified(lines)[k];
              info.text == Trim(lines[k]) && info.marker == IsMarkerLine(Trim(lines[k]))
              && info.requirementStart == IsRequirementStart(Trim(lines[k]))
              && info.caseSectionStart == IsCaseSectionStart(Trim(lines[k]))
              && info.stop == IsCaseStop(Trim(lines[k]))
              && info.operation == FieldValue(Trim(lines[k]), Operation)
              && info.expected == FieldValue(Trim(lines[k]), Expected)
              && info.category == CategoryName(Trim(lines[k]))
  {
    forall k | 0 <= k < |lines|
      ensures var info := Classified(lines)[k];
              info.text == Trim(lines[k]) && info.marker == IsMarkerLine(Trim(lines[k]))
              && info.requirementStart == IsRequirementStart(Trim(lines[k]))
              && info.caseSectionStart == IsCaseSectionStart(Trim(lines[k]))
              && info.stop == IsCaseStop(Trim(lines[k]))
              && info.operation == FieldValue(Trim(lines[k]), Operation)
              && info.expected == FieldValue(Trim(lines[k]), Expected)
              && info.category == CategoryName(Trim(lines[k]))
    {
      ClassifiedAt(lines, k);
    }
  }

  function FieldOf(info: LineInfo, f: Field): Option<string>
  {
    match f
    case Operation => info.operation
    case Expected => info.expected
  }

  // ---------------------------------------------------------------------
  // The lookahead after a case header (src/aiService.ts:416-441)
  // ---------------------------------------------------------------------

  /** The lines the lookahead may visit for the case header at `i`: lines
      i+1 .. i+9, as far as the reply goes (`j < lines.length && j < i + 10`). */
  function Window(ci: seq<LineInfo>, i: nat): (w: seq<LineInfo>)
    requires i < |ci|
    ensures |w| == Min(|ci| - i - 1, 9)
    ensures forall k :: 0 <= k < |w| ==> w[k] == ci[i + 1 + k]
  {
    ci[i + 1..Min(|ci|, i + 10)]
  }

  /** Index of the first line of `w` that ends a lookahead, `|w|` when none. */
  function FirstStop(w: seq<LineInfo>): (n: nat)
    ensures n <= |w|
    ensures forall k :: 0 <= k < n ==> !w[k].stop
    ensures n < |w| ==> w[n].stop
    decreases |w|
  {
    if w == [] || w[0].stop then 0 else 1 + FirstStop(w[1..])
  }

  /** The lines the lookahead after the case header at `i` reads: the window
      cut before its first stop line. */
  function Searched(ci: seq<LineInfo>, i: nat): seq<LineInfo>
    requires i < |ci|
  {
    var w := Window(ci, i);
    w[..FirstStop(w)]
  }

  /** The value of the last line of `ls` that carries field `f`: each
      matching line overwrites the previous value. */
  function LastField(ls: seq<LineInfo>, f: Field): Option<string>
    decreases |ls|
  {
    if ls == [] then None
    else match FieldOf(ls[|ls| - 1], f)
      case Some(v) => Some(v)
      case None => LastField(ls[..|ls| - 1], f)
  }

  /** `''` for a field no line carried. */
  function OrEmpty(v: Option<string>): string
  {
    match v
    case Some(x) => x
    case None => ""
  }

  /** The case the header at line `i` with title `title` produces. */
  function CaseAt(ci: seq<LineInfo>, i: nat, title: string): TestCase
    requires i < |ci|
  {
    var s := Searched(ci, i);
    TestCase(title, OrEmpty(LastField(s, Operation)), OrEmpty(LastField(s, Expected)))
  }

  // ---------------------------------------------------------------------
  // The pass over the lines (src/aiService.ts:357-446)
  // ---------------------------------------------------------------------

  /** The requirement the collected lines give when the test-case section
      starts: trimmed, without empty and `^[#*\-]+$` lines, joined by single
      spaces (src/aiService.ts:375-378). */
  function CleanLines(ls: seq<string>): (r: seq<string>)
    ensures |r| <= |ls|
    decreases |ls|
  {
    if ls == [] then []
    else
      var t := Trim(ls[0]);
      (if t != "" && !IsBareMarkerLine(t) then [t] else []) + CleanLines(ls[1..])
  }

  function JoinedRequirement(ls: seq<string>): string
  {
    Join(CleanLines(ls), " ")
  }

  /** The categories with the current one appended when it has a name and
      holds cases (src/aiService.ts:401-402, 449-450). */
  function Flush(s: Scan): seq<Category>
  {
    if s.currentCategory != "" && |s.currentCases| > 0
    then s.testCases + [Category(s.currentCategory, s.currentCases)]
    else s.testCases
  }

  /** One iteration of the loop, on line `i`. */
  function Step(ci: seq<LineInfo>, i: nat, s: Scan): Scan
    requires i < |ci|
  {
    var info := ci[i];
    if info.requirementStart then
      s.(mode := InRequirement, requirementLines := [])
    else if info.caseSectionStart then
      s.(mode := InTestCases,
         requirement := if |s.requirementLines| > 0 then JoinedRequirement(s.requirementLines) else s.requirement)
    else if s.mode == InRequirement && info.text != "" then
      if info.marker then s else s.(requirementLines := s.requirementLines + [info.text])
    else if s.mode == InTestCases then
      match info.category
      case Some(name) => s.(testCases := Flush(s), currentCategory := name, currentCases := [])
      case None =>
        match info.caseTitle
        case Some(title) => s.(currentCases := s.currentCases + [CaseAt(ci, i, title)])
        case None => s
    else s
  }

  /** The loop's variables after the first `n` lines. */
  function ScanLines(ci: seq<LineInfo>, n: nat): Scan
    requires n <= |ci|
    decreases n
  {
    if n == 0 then InitialScan else Step(ci, n - 1, ScanLines(ci, n - 1))
  }

  /** The result of `parseTestCases(response)`. */
  function Parse(response: string): ParseResult
  {
    var ci := Classified(Split(response, '\n'));
    var s := ScanLines(ci, |ci|);
    var req := FallbackRequirement(s.requirement, s.requirementLines, response);
    ParseResult(if req == "" then Placeholder else req, Flush(s), response)
  }

  // ---------------------------------------------------------------------
  // Well-formedness of the loop state
  // ---------------------------------------------------------------------

  /** A collected requirement line: trimmed, non-empty, not a marker line. */
  predicate IsRequirementLine(l: string)
  {
    l != "" && Trim(l) == l && !IsMarkerLine(l)
  }

  predicate CategoriesWellFormed(cs: seq<Category>)
  {
    forall k :: 0 <= k < |cs| ==> cs[k].category != "" && cs[k].cases != []
  }

  predicate WellFormed(s: Scan)
  {
    CategoriesWellFormed(s.testCases)
    && forall k :: 0 <= k < |s.requirementLines| ==> IsRequirementLine(s.requirementLines[k])
  }

  /** Every iteration keeps the loop state well formed: no empty category is
      ever stored, and only clean lines are collected. */
  lemma StepWellFormed(ci: seq<LineInfo>, i: nat, s: Scan)
    requires i < |ci| && Coherent(ci[i]) && WellFormed(s)
    ensures WellFormed(Step(ci, i, s))
  {
    var info := ci[i];
    if !info.requirementStart && !info.caseSectionStart && s.mode == InTestCases && info.category.Some? {
      assert CategoriesWellFormed(Flush(s));
    }
  }

  lemma {:induction false} ScanWellFormed(ci: seq<LineInfo>, n: nat)
    requires n <= |ci|
    requires forall k :: 0 <= k < |ci| ==> Coherent(ci[k])
    ensures WellFormed(ScanLines(ci, n))
    decreases n
  {
    if n > 0 {
      ScanWellFormed(ci, n - 1);
      StepWellFormed(ci, n - 1, ScanLines(ci, n - 1));
    }
  }

  /** The categories `parseTestCases` returns are all named and none is
      empty. */
  lemma ParseWellFormed(response: string)
    ensures CategoriesWellFormed(Parse(response).testCases)
  {
    var lines := Split(response, '\n');
    var ci := Classified(lines);
    ClassifiedCoherent(lines);
    ScanWellFormed(ci, |ci|);
  }

  // ---------------------------------------------------------------------
  // Properties of the pass
  // ---------------------------------------------------------------------

  /** `LastField` finds nothing exactly when no line carries the field, and
      otherwise the value of a line after which no line carries it. */
  lemma {:induction false} LastFieldSpec(ls: seq<LineInfo>, f: Field)
    ensures LastField(ls, f).None? <==> forall k :: 0 <= k < |ls| ==> FieldOf(ls[k], f).None?
    ensures LastField(ls, f).Some? ==>
              exists k :: 0 <= k < |ls| && FieldOf(ls[k], f) == LastField(ls, f)
                          && forall m :: k < m < |ls| ==> FieldOf(ls[m], f).None?
    decreases |ls|
  {
    if ls != [] {
      var init := ls[..|ls| - 1];
      LastFieldSpec(init, f);
      assert forall k :: 0 <= k < |init| ==> init[k] == ls[k];
      if FieldOf(ls[|ls| - 1], f).None? && LastField(init, f).Some? {
        var k :| 0 <= k < |init| && FieldOf(init[k], f) == LastField(init, f)
                 && forall m :: k < m < |init| ==> FieldOf(init[m], f).None?;
        assert FieldOf(ls[k], f) == LastField(ls, f);
      }
    }
  }

  /** The lookahead reads at most nine lines after the header, none of them
      a stop line, and ends early only at a stop line. */
  lemma SearchedSpec(ci: seq<LineInfo>, i: nat)
    requires i < |ci|
    ensures var s := Searched(ci, i);
            |s| <= 9 && i + 1 + |s| <= |ci| && s == ci[i + 1..i + 1 + |s|]
            && (forall k :: i + 1 <= k < i + 1 + |s| ==> !ci[k].stop)
            && (i + 1 + |s| < |ci| && |s| < 9 ==> ci[i + 1 + |s|].stop)
  {
    var w := Window(ci, i);
    var n := FirstStop(w);
    assert forall k :: i + 1 <= k < i + 1 + n ==> ci[k] == w[k - i - 1];
    if i + 1 + n < |ci| && n < 9 {
      assert ci[i + 1 + n] == w[n];
    }
  }

  function CaseField(c: TestCase, f: Field): string
  {
    match f
    case Operation => c.operation
    case Expected => c.expected
  }

  /** The fields of the case the header at line `i` produces: a field is
      `''` exactly when none of the lines the lookahead reads carries it, and
      otherwise it is the value of the last one that does. */
  lemma CaseLookahead(ci: seq<LineInfo>, i: nat, title: string, f: Field)
    requires i < |ci|
    requires forall k :: 0 <= k < |ci| ==> FieldOf(ci[k], f) != Some("")
    ensures var n := |Searched(ci, i)|;
            var v := CaseField(CaseAt(ci, i, title), f);
            (v == "" <==> forall k :: i + 1 <= k < i + 1 + n ==> FieldOf(ci[k], f).None?)
            && (v != "" ==>
                  exists k :: i + 1 <= k < i + 1 + n && FieldOf(ci[k], f) == Some(v)
                              && forall m :: k < m < i + 1 + n ==> FieldOf(ci[m], f).None?)
  {
    var s := Searched(ci, i);
    var n := |s|;
    SearchedSpec(ci, i);
    LastFieldSpec(s, f);
    assert forall k :: 0 <= k < n ==> s[k] == ci[i + 1 + k];
    if LastField(s, f).Some? {
      var k :| 0 <= k < n && FieldOf(s[k], f) == LastField(s, f)
               && forall m :: k < m < n ==> FieldOf(s[m], f).None?;
      assert FieldOf(ci[i + 1 + k], f) == LastField(s, f);
      assert forall m :: i + 1 + k < m < i + 1 + n ==> s[m - i - 1] == ci[m];
    }
  }

  /** The collected lines are already trimmed and free of marker lines, so
      the second filter when the test-case section starts keeps them all. */
  lemma {:induction false} CleanLinesKeepsCollected(ls: seq<string>)
    requires forall k :: 0 <= k < |ls| ==> IsRequirementLine(ls[k])
    ensures CleanLines(ls) == ls
    decreases |ls|
  {
    if ls != [] {
      CleanLinesKeepsCollected(ls[1..]);
      BareMarkerIsMarker(ls[0]);
      assert [ls[0]] + ls[1..] == ls;
    }
  }

  /** When the test-case section opens after requirement lines were
      collected, the requirement becomes those lines joined by single
      spaces, in the order they were read. */
  lemma RequirementIsJoinedLines(ci: seq<LineInfo>, i: nat, s: Scan)
    requires i < |ci| && WellFormed(s)
    requires ci[i].caseSectionStart && !ci[i].requirementStart && |s.requirementLines| > 0
    ensures Step(ci, i, s).requirement == Join(s.requirementLines, " ")
    ensures Step(ci, i, s).mode == InTestCases
  {
    CleanLinesKeepsCollected(s.requirementLines);
  }

  /** The lines a requirement section collects, in order: the text of
      every non-empty line that is not made of marker characters only. */
  function RequirementTexts(ls: seq<LineInfo>): seq<string>
    decreases |ls|
  {
    if ls == [] then []
    else
      var l := ls[|ls| - 1];
      RequirementTexts(ls[..|ls| - 1]) + (if l.text != "" && !l.marker then [l.text] else [])
  }

  /** From a requirement header at line `r` up to the next section header,
      the loop is in the requirement section and holds exactly the
      collected lines read since `r`: every earlier line is dropped. */
  lemma {:induction false} RequirementSection(ci: seq<LineInfo>, r: nat, i: nat)
    requires r < i <= |ci| && ci[r].requirementStart
    requires forall k :: r < k < i ==> !ci[k].requirementStart && !ci[k].caseSectionStart
    ensures ScanLines(ci, i).mode == InRequirement
    ensures ScanLines(ci, i).requirementLines == RequirementTexts(ci[r + 1..i])
    decreases i
  {
    if i == r + 1 {
      assert ci[r + 1..i] == [];
    } else {
      RequirementSection(ci, r, i - 1);
      assert ci[r + 1..i][..i - r - 2] == ci[r + 1..i - 1];
      assert ci[r + 1..i][i - r - 2] == ci[i - 1];
    }
  }

  /** The requirement the test-case header at line `i` sets, after a
      requirement header at line `r` and no section header in between:
      the collected lines of that section joined by single spaces. */
  lemma RequirementFromSection(ci: seq<LineInfo>, r: nat, i: nat)
    requires r < i < |ci| && ci[r].requirementStart
    requires forall k :: r < k < i ==> !ci[k].requirementStart && !ci[k].caseSectionStart
    requires ci[i].caseSectionStart && !ci[i].requirementStart
    requires forall k :: 0 <= k < |ci| ==> Coherent(ci[k])
    requires RequirementTexts(ci[r + 1..i]) != []
    ensures ScanLines(ci, i + 1).requirement == Join(RequirementTexts(ci[r + 1..i]), " ")
    ensures ScanLines(ci, i + 1).mode == InTestCases
  {
    RequirementSection(ci, r, i);
    ScanWellFormed(ci, i);
    RequirementIsJoinedLines(ci, i, ScanLines(ci, i));
  }

  /** Categories are only ever appended: what has been stored after `n`
      lines is a prefix of what is stored after `m >= n` lines. */
  lemma {:induction false} ScanExtends(ci: seq<LineInfo>, n: nat, m: nat)
    requires n <= m <= |ci|
    ensures ScanLines(ci, n).testCases <= ScanLines(ci, m).testCases
    decreases m
  {
    if n < m {
      ScanExtends(ci, n, m - 1);
    }
  }

  /** Every stored category, and the one being filled, is named by a
      category header among the lines read so far. */
  lemma {:induction false} CategoriesFromHeaders(ci: seq<LineInfo>, n: nat)
    requires n <= |ci|
    ensures var s := ScanLines(ci, n);
            (s.currentCategory != "" ==> exists j :: 0 <= j < n && ci[j].category == Some(s.currentCategory))
            && forall k :: 0 <= k < |s.testCases| ==>
                 exists j :: 0 <= j < n && ci[j].category == Some(s.testCases[k].category)
    decreases n
  {
    if n > 0 {
      CategoriesFromHeaders(ci, n - 1);
    }
  }

  /** The categories of the result come in document order: those stored
      after any prefix of the lines head the final list, and the category
      still open at the end is appended last. */
  lemma ParseKeepsOrder(response: string, n: nat)
    requires n <= |Split(response, '\n')|
    ensures var ci := Classified(Split(response, '\n'));
            var s := ScanLines(ci, |ci|);
            ScanLines(ci, n).testCases <= Parse(response).testCases
            && (s.currentCategory != "" && |s.currentCases| > 0 ==>
                  Parse(response).testCases[|Parse(response).testCases| - 1]
                  == Category(s.currentCategory, s.currentCases))
  {
    var ci := Classified(Split(response, '\n'));
    ScanExtends(ci, n, |ci|);
  }

  /** A reply in which no line other than a section header has the form of
      a category header yields no categories, even when it has case lines:
      the section headers (`### 需求`, `### 测试用例`) never open a
      category, and cases read while none is open are dropped. */
  lemma NoHeaderNoCategories(response: string)
    requires forall j :: 0 <= j < |Split(response, '\n')| ==>
               var t := Trim(Split(response, '\n')[j]);
               !IsRequirementStart(t) && !IsCaseSectionStart(t) ==> CategoryName(t).None?
    ensures Parse(response).testCases == []
  {
    var lines := Split(response, '\n');
    var ci := Classified(lines);
    ClassifiedFields(lines);
    NoHeaderScan(ci, |ci|);
  }

  lemma {:induction false} NoHeaderScan(ci: seq<LineInfo>, n: nat)
    requires n <= |ci|
    requires forall j :: 0 <= j < |ci| ==> !ci[j].requirementStart && !ci[j].caseSectionStart ==> ci[j].category.None?
    ensures ScanLines(ci, n).testCases == [] && ScanLines(ci, n).currentCategory == ""
    decreases n
  {
    if n > 0 {
      NoHeaderScan(ci, n - 1);
    }
  }

  /** Cases read while no category is open are dropped: the next category
      header stores nothing and starts an empty category, and at the end of
      the reply nothing is flushed for them. */
  lemma OrphanCasesDropped(ci: seq<LineInfo>, i: nat, s: Scan)
    requires i < |ci| && s.mode == InTestCases && s.currentCategory == ""
    requires !ci[i].requirementStart && !ci[i].caseSectionStart && ci[i].category.Some?
    ensures var next := Step(ci, i, s);
            next.testCases == s.testCases && next.currentCases == []
            && next.currentCategory == ci[i].category.value
    ensures Flush(s) == s.testCases
  {
  }

  /** A category header directly followed by another one contributes
      nothing: the first category holds no case when the second replaces
      it, so only what was stored before is kept. */
  lemma HeaderAfterHeader(ci: seq<LineInfo>, i: nat, s: Scan)
    requires i + 1 < |ci| && s.mode == InTestCases
    requires !ci[i].requirementStart && !ci[i].caseSectionStart && ci[i].category.Some?
    requires !ci[i + 1].requirementStart && !ci[i + 1].caseSectionStart && ci[i + 1].category.Some?
    ensures var after := Step(ci, i + 1, Step(ci, i, s));
            after.testCases == Flush(s)
            && after.currentCategory == ci[i + 1].category.value && after.currentCases == []
  {
  }

  /** A case header in the test-case section adds its case after those of
      the open category, and nothing else changes. */
  lemma CaseAppended(ci: seq<LineInfo>, i: nat, s: Scan)
    requires i < |ci| && s.mode == InTestCases
    requires !ci[i].requirementStart && !ci[i].caseSectionStart && ci[i].category.None? && ci[i].caseTitle.Some?
    ensures var next := Step(ci, i, s);
            next.currentCases == s.currentCases + [CaseAt(ci, i, ci[i].caseTitle.value)]
            && next.currentCases[..|s.currentCases|] == s.currentCases
            && next.(currentCases := s.currentCases) == s
  {
  }

  /** The order of the requirement fallbacks: the requirement set by the
      test-case header wins; the loose `需求：` match is consulted only when
      the requirement lines held at the end are none (every requirement
      header empties them, so only the last requirement section counts);
      then the meaningful lines; then the placeholder. */
  lemma RequirementFallbackOrder(response: string)
    ensures var ci := Classified(Split(response, '\n'));
            var s := ScanLines(ci, |ci|);
            var req := Parse(response).requirement;
            var smart := if SmartRequirement(response) != "" then SmartRequirement(response) else Placeholder;
            (s.requirement != "" ==> req == s.requirement)
            && (s.requirement == "" && |s.requirementLines| > 0 ==> req == smart)
            && (s.requirement == "" && |s.requirementLines| == 0 ==>
                  match LooseRequirement(response)
                  case Some(v) => req == if Trim(v) != "" then Trim(v) else smart
                  case None => req == smart)
  {
  }

  // ---------------------------------------------------------------------
  // The method
  // ---------------------------------------------------------------------

  /** Appending a line to the lookahead: a line carrying the field
      overrides what came before it. */
  lemma LastFieldSnoc(ls: seq<LineInfo>, x: LineInfo, f: Field)
    ensures LastField(ls + [x], f) == if FieldOf(x, f).Some? then FieldOf(x, f) else LastField(ls, f)
  {
    assert (ls + [x])[..|ls|] == ls;
  }

  /** No line from `from` up to `j` stops the lookahead. */
  predicate NoStop(ci: seq<LineInfo>, from: nat, j: nat)
    requires from <= j <= |ci|
  {
    forall k :: from <= k < j ==> !ci[k].stop
  }

  lemma NoStopStep(ci: seq<LineInfo>, from: nat, j: nat)
    requires from <= j < |ci| && NoStop(ci, from, j) && !ci[j].stop
    ensures NoStop(ci, from, j + 1)
  {
  }

  /** Extending a run of lines by the next line. */
  lemma LastFieldStep(ci: seq<LineInfo>, from: nat, j: nat, f: Field)
    requires from <= j < |ci|
    ensures LastField(ci[from..j + 1], f) == if FieldOf(ci[j], f).Some? then FieldOf(ci[j], f) else LastField(ci[from..j], f)
  {
    assert ci[from..j + 1] == ci[from..j] + [ci[j]];
    LastFieldSnoc(ci[from..j], ci[j], f);
  }

  /** The lookahead reads exactly the lines up to the window's end or its
      first stop line, whichever comes first. */
  lemma SearchedUpTo(ci: seq<LineInfo>, i: nat, j: nat)
    requires i + 1 <= j <= Min(|ci|, i + 10)
    requires forall k :: i + 1 <= k < j ==> !ci[k].stop
    requires j == Min(|ci|, i + 10) || ci[j].stop
    ensures Searched(ci, i) == ci[i + 1..j]
  {
    var w := Window(ci, i);
    assert forall k :: 0 <= k < j - i - 1 ==> !w[k].stop;
    assert j < Min(|ci|, i + 10) ==> w[j - i - 1].stop;
  }

  /** The inner lookahead loop for the case header at line `i`. */
  method ReadCase(lines: seq<string>, i: nat, title: string) returns (c: TestCase)
    requires i < |lines|
    ensures c == CaseAt(Classified(lines), i, title)
  {
    ghost var ci := Classified(lines);
    var operation := "";
    var expected := "";
    var j := i + 1;
    while j < |lines| && j < i + 10
      invariant i + 1 <= j <= Min(|lines|, i + 10)
      invariant NoStop(ci, i + 1, j)
      invariant operation == OrEmpty(LastField(ci[i + 1..j], Operation))
      invariant expected == OrEmpty(LastField(ci[i + 1..j], Expected))
    {
      var stop, op, exp := LookaheadLine(lines, j, operation, expected);
      if stop {
        break;
      }
      LookaheadStep(ci, i, j, operation, expected);
      operation, expected := op, exp;
      j := j + 1;
    }
    SearchedUpTo(ci, i, j);
    c := TestCase(title, operation, expected);
  }

  /** One step of the lookahead on line `j`: a stop line ends it, and
      otherwise a bullet field replaces the value found so far. */
  method LookaheadLine(lines: seq<string>, j: nat, operation: string, expected: string)
    returns (stop: bool, op: string, exp: string)
    requires j < |lines|
    ensures var info := Classified(lines)[j];
            stop == info.stop
            && (!stop ==> op == Override(info, Operation, operation) && exp == Override(info, Expected, expected))
  {
    var nextLine := Trim(lines[j]);
    ClassifiedAt(lines, j);
    if IsCaseStop(nextLine) {
      return true, operation, expected;
    }
    var opMatch := FieldValue(nextLine, Operation);
    op := if opMatch.Some? then opMatch.value else operation;
    var expMatch := FieldValue(nextLine, Expected);
    exp := if expMatch.Some? then expMatch.value else expected;
    stop := false;
  }

  /** The value of field `f` after a line that may carry it. */
  function Override(info: LineInfo, f: Field, current: string): string
  {
    if FieldOf(info, f).Some? then FieldOf(info, f).value else current
  }

  /** A lookahead step that does not stop keeps the loop's invariant. */
  lemma LookaheadStep(ci: seq<LineInfo>, i: nat, j: nat, operation: string, expected: string)
    requires i + 1 <= j < |ci| && !ci[j].stop
    requires NoStop(ci, i + 1, j)
    requires operation == OrEmpty(LastField(ci[i + 1..j], Operation))
    requires expected == OrEmpty(LastField(ci[i + 1..j], Expected))
    ensures NoStop(ci, i + 1, j + 1)
    ensures Override(ci[j], Operation, operation) == OrEmpty(LastField(ci[i + 1..j + 1], Operation))
    ensures Override(ci[j], Expected, expected) == OrEmpty(LastField(ci[i + 1..j + 1], Expected))
  {
    NoStopStep(ci, i + 1, j);
    LastFieldStep(ci, i + 1, j, Operation);
    LastFieldStep(ci, i + 1, j, Expected);
  }

  /** One iteration of the loop over the lines (src/aiService.ts:358-445):
      the loop's variables are carried in `s`, and each `continue` of the
      source ends the iteration with the state it has reached. */
  method ScanLine(lines: seq<string>, i: nat, s: Scan) returns (next: Scan)
    requires i < |lines|
    ensures next == Step(Classified(lines), i, s)
  {
    var line := Trim(lines[i]);
    ClassifiedAt(lines, i);

    if IsRequirementStart(line) {
      return s.(mode := InRequirement, requirementLines := []);
    }

    if IsCaseSectionStart(line) {
      next := s.(mode := InTestCases);
      if |s.requirementLines| > 0 {
        next := next.(requirement := JoinedRequirement(s.requirementLines));
      }
      return;
    }

    if s.mode == InRequirement && line != "" {
      if !IsMarkerLine(line) {
        return s.(requirementLines := s.requirementLines + [line]);
      }
      return s;
    }

    next := s;
    if s.mode == InTestCases {
      var categoryMatch := CategoryName(line);
      if categoryMatch.Some? {
        var testCases := s.testCases;
        if s.currentCategory != "" && |s.currentCases| > 0 {
          testCases := testCases + [Category(s.currentCategory, s.currentCases)];
        }
        return s.(testCases := testCases, currentCategory := categoryMatch.value, currentCases := []);
      }

      var caseMatch := CaseTitle(line);
      if caseMatch.Some? {
        var c := ReadCase(lines, i, caseMatch.value);
        next := s.(currentCases := s.currentCases + [c]);
      }
    }
  }

  /** `parseTestCases`: never fails; the result keeps the reply verbatim,
      always has a requirement, and holds only named, non-empty categories. */
  method ParseTestCases(response: string) returns (r: ParseResult)
    ensures r == Parse(response)
    ensures r.rawText == response
    ensures r.requirement != ""
    ensures CategoriesWellFormed(r.testCases)
  {
    var lines := Split(response, '\n');
    ghost var ci := Classified(lines);
    var s := InitialScan;
    for i := 0 to |lines|
      invariant s == ScanLines(ci, i)
    {
      s := ScanLine(lines, i, s);
    }

    var testCases := s.testCases;
    if s.currentCategory != "" && |s.currentCases| > 0 {
      testCases := testCases + [Category(s.currentCategory, s.currentCases)];
    }

    var requirement := s.requirement;
    if requirement == "" && |s.requirementLines| == 0 {
      var requirementMatch := LooseRequirement(response);
      if requirementMatch.Some? {
        requirement := Trim(requirementMatch.value);
      }
    }

    if requirement == "" {
      requirement := SmartRequirement(response);
    }

    r := ParseResult(if requirement != "" then requirement else Placeholder, testCases, response);
    ParseWellFormed(response);
  }
}
