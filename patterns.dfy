/** The regular expressions `parseTestCases` applies to each trimmed line of
    the model's reply (src/aiService.ts:362-440), each written as an explicit
    matcher. Where a pattern can backtrack, the matcher searches in the
    order a backtracking engine tries: greedy runs longest first. */
module Patterns {
  import opened Wrappers
  import opened Text

  predicate IsHash(c: char) { c == '#' }

  /** The class `[一二三四五六七八九十]` of Chinese numerals. */
  predicate IsCjkNumeral(c: char)
  {
    c == '一' || c == '二' || c == '三' || c == '四' || c == '五'
    || c == '六' || c == '七' || c == '八' || c == '九' || c == '十'
  }

  /** The class `[:：]`: an ASCII or a full-width colon. */
  predicate IsColon(c: char) { c == ':' || c == '：' }

  /** `(.+)$` matches exactly the rest `s` of the input. */
  predicate DotRest(s: string)
  {
    |s| > 0 && forall i :: 0 <= i < |s| ==> !IsLineTerminator(s[i])
  }

  /** `\s*(.+)$` on `s`, trying the whitespace run from length `m` down to 0:
      the result is the captured group, taken at the longest whitespace
      prefix (at most `m`) after which `(.+)$` matches. */
  function BacktrackRest(s: string, m: nat): (r: Option<string>)
    requires m <= PrefixRun(s, IsSpace)
    ensures r.Some? ==> DotRest(r.value) && EndsWith(s, r.value)
    decreases m
  {
    if DotRest(s[m..]) then Some(s[m..])
    else if m == 0 then None
    else BacktrackRest(s, m - 1)
  }

  /** `\s*(.+)$` on `s`; the group it captures. */
  function SpacedRest(s: string): (r: Option<string>)
    ensures r.Some? ==> DotRest(r.value) && EndsWith(s, r.value)
  {
    BacktrackRest(s, PrefixRun(s, IsSpace))
  }

  /** What `BacktrackRest` finds is the longest whitespace prefix, of at most
      `m` characters, after which `(.+)$` matches, and it fails only when no
      such prefix exists. */
  lemma {:induction false} BacktrackRestSpec(s: string, m: nat)
    requires m <= PrefixRun(s, IsSpace)
    ensures BacktrackRest(s, m).Some? <==> exists k :: 0 <= k <= m && DotRest(s[k..])
    ensures BacktrackRest(s, m).Some? ==>
              var v := BacktrackRest(s, m).value;
              |v| <= |s| && v == s[|s| - |v|..] && DotRest(v)
              && (forall k :: |s| - |v| < k <= m ==> !DotRest(s[k..]))
    decreases m
  {
    if !DotRest(s[m..]) && m > 0 {
      BacktrackRestSpec(s, m - 1);
    }
  }

  /** `^#{1,3}\s*(.+)$` with the hash run of length `k` tried first and
      shorter runs after it. */
  function HeadingFrom(line: string, k: nat): (r: Option<string>)
    requires k <= PrefixRun(line, IsHash)
    ensures r.Some? ==> DotRest(r.value) && EndsWith(line, r.value)
    decreases k
  {
    if k == 0 then None
    else match SpacedRest(line[k..])
      case Some(t) => EndsWithDrop(line, k, t); Some(t)
      case None => HeadingFrom(line, k - 1)
  }

  /** The group of `^#{1,3}\s*(.+)$`: the text of a level 1 to 3 heading. */
  function HeadingText(line: string): (r: Option<string>)
    ensures r.Some? ==> DotRest(r.value) && EndsWith(line, r.value)
  {
    var hashes := PrefixRun(line, IsHash);
    HeadingFrom(line, if hashes < 3 then hashes else 3)
  }

  /** `^#{1,3}\s*kw` for a keyword that starts with neither `#` nor
      whitespace: a shorter hash run leaves a `#` that neither `\s` nor the
      keyword matches, so only the full run of one to three hashes can
      succeed, followed by all the whitespace after it. */
  predicate HeadingStartsWith(line: string, kw: string)
  {
    var hashes := PrefixRun(line, IsHash);
    1 <= hashes <= 3
    && StartsWith(line[hashes + PrefixRun(line[hashes..], IsSpace)..], kw)
  }

  const RequirementWord: string := "需求"
  const TestCasesWord: string := "测试用例"
  const CaseWord: string := "用例"

  /** The start of the requirement section (src/aiService.ts:362). */
  predicate IsRequirementStart(line: string)
  {
    HeadingStartsWith(line, RequirementWord) || line == RequirementWord
    || StartsWith(line, "**" + RequirementWord + "**")
  }

  /** The start of the test-case section (src/aiService.ts:370). */
  predicate IsCaseSectionStart(line: string)
  {
    HeadingStartsWith(line, TestCasesWord) || line == TestCasesWord
    || StartsWith(line, "**" + TestCasesWord + "**")
  }

  /** `^[#*\-=]+$`: a line made only of markdown marker characters. */
  predicate IsMarkerLine(line: string)
  {
    |line| > 0 && forall i :: 0 <= i < |line| ==> line[i] in "#*-="
  }

  /** `^[#*\-]+$`, the variant without `=` (src/aiService.ts:377). */
  predicate IsBareMarkerLine(line: string)
  {
    |line| > 0 && forall i :: 0 <= i < |line| ==> line[i] in "#*-"
  }

  /** A line `^[#*\-]+$` accepts is one `^[#*\-=]+$` accepts too. */
  lemma BareMarkerIsMarker(line: string)
    ensures IsBareMarkerLine(line) ==> IsMarkerLine(line)
  {
  }

  /** The group of `^([一二三四五六七八九十]+)、(.+)$`: the numeral run is
      maximal, since `、` is not a numeral. */
  function NumeralHeading(line: string): (r: Option<string>)
    ensures r.Some? ==> DotRest(r.value) && EndsWith(line, r.value)
  {
    var n := PrefixRun(line, IsCjkNumeral);
    if 1 <= n < |line| && line[n] == '、' && DotRest(line[n + 1..]) then Some(line[n + 1..])
    else None
  }

  /** The second group of `^(\d+)\.\s*(.+)$`. */
  function NumberedHeading(line: string): (r: Option<string>)
    ensures r.Some? ==> DotRest(r.value) && EndsWith(line, r.value)
  {
    var d := PrefixRun(line, IsDigit);
    if 1 <= d < |line| && line[d] == '.' then
      var r := SpacedRest(line[d + 1..]);
      if r.Some? then EndsWithDrop(line, d + 1, r.value); r else r
    else None
  }

  /** The category a header line names, `categoryMatch[2] || categoryMatch[1]`
      over the three header patterns tried in order (src/aiService.ts:395-404).
      Every group `(.+)` is non-empty, so the `|| categoryMatch[1]` fallback
      only serves the heading pattern, whose one group is the name. The
      name is the text that ends the line. */
  function CategoryName(line: string): (r: Option<string>)
    ensures r.Some? ==> r.value != ""
    ensures r.Some? ==> DotRest(r.value) && EndsWith(line, r.value)
  {
    match NumeralHeading(line)
    case Some(name) => Some(name)
    case None =>
      match NumberedHeading(line)
      case Some(name) => Some(name)
      case None => HeadingText(line)
  }

  /** The title of a case header `^用例(\d+)[:：]\s*(.+)$` (src/aiService.ts:410). */
  function CaseTitle(line: string): (r: Option<string>)
    ensures r.Some? ==> r.value != ""
    ensures r.Some? ==> DotRest(r.value) && EndsWith(line, r.value)
  {
    if !StartsWith(line, CaseWord) then None
    else
      var d := PrefixRun(line[2..], IsDigit);
      if 1 <= d && 2 + d < |line| && IsColon(line[2 + d]) then
        var r := SpacedRest(line[3 + d..]);
        if r.Some? then EndsWithDrop(line, 3 + d, r.value); r else r
      else None
  }

  /** A line that ends the lookahead after a case header: another case
      header `^用例\d+[:：]`, or a numbered category `^[一二三四五六七八九十]+、`
      or `^\d+\.\s` (src/aiService.ts:421-428). */
  predicate IsCaseStop(line: string)
  {
    (StartsWith(line, CaseWord)
       && var d := PrefixRun(line[2..], IsDigit);
          1 <= d && 2 + d < |line| && IsColon(line[2 + d]))
    || (var n := PrefixRun(line, IsCjkNumeral); 1 <= n < |line| && line[n] == '、')
    || (var d := PrefixRun(line, IsDigit); 1 <= d && d + 1 < |line| && line[d] == '.' && IsSpace(line[d + 1]))
  }

  /** The two bullet fields a case may carry. */
  datatype Field = Operation | Expected

  function Keyword(f: Field): string
  {
    match f
    case Operation => "操作"
    case Expected => "期望"
  }

  /** The group of `^\*\s*操作[:：]\s*(.+)$` or `^\*\s*期望[:：]\s*(.+)$`
      (src/aiService.ts:431, 437). The keyword does not start with
      whitespace, so the first `\s*` runs to its greedy end. */
  function FieldValue(line: string, f: Field): (r: Option<string>)
    ensures r.Some? ==> r.value != ""
    ensures r.Some? ==> DotRest(r.value) && EndsWith(line, r.value)
  {
    if line == [] || line[0] != '*' then None
    else
      var rest := line[1..][PrefixRun(line[1..], IsSpace)..];
      var kw := Keyword(f);
      if StartsWith(rest, kw) && |kw| < |rest| && IsColon(rest[|kw|]) then
        var r := SpacedRest(rest[|kw| + 1..]);
        if r.Some? then
          EndsWithDrop(rest, |kw| + 1, r.value);
          EndsWithDrop(line[1..], PrefixRun(line[1..], IsSpace), r.value);
          EndsWithDrop(line, 1, r.value);
          r
        else r
      else None
  }

  /** Text that does not start with whitespace is captured whole by
      `\s*(.+)$`. */
  lemma SpacedRestWhole(x: string)
    requires DotRest(x) && !IsSpace(x[0])
    ensures SpacedRest(x) == Some(x)
  {
    assert x[0..] == x;
  }

  /** One space before such text is skipped. */
  lemma SpacedRestAfterSpace(x: string)
    requires DotRest(x) && !IsSpace(x[0])
    ensures SpacedRest(" " + x) == Some(x)
  {
    assert (" " + x)[1..] == x;
  }

  /** A header `<numerals>、<name>` names `name`. */
  lemma NumeralHeaderRoundTrip(n: string, x: string)
    requires |n| >= 1 && (forall i :: 0 <= i < |n| ==> IsCjkNumeral(n[i])) && DotRest(x)
    ensures CategoryName(n + "、" + x) == Some(x)
  {
    var line := n + "、" + x;
    assert line == n + ("、" + x);
    PrefixRunAppend(n, "、" + x, IsCjkNumeral);
    assert line[|n|] == '、';
    assert line[|n| + 1..] == x;
  }

  /** A header `<digits>. <name>` names `name`. */
  lemma NumberedHeaderRoundTrip(d: string, x: string)
    requires |d| >= 1 && (forall i :: 0 <= i < |d| ==> IsDigit(d[i]))
    requires DotRest(x) && !IsSpace(x[0])
    ensures CategoryName(d + ". " + x) == Some(x)
  {
    var line := d + ". " + x;
    assert line == d + (". " + x);
    assert NumeralHeading(line).None? by {
      assert line[0] == d[0];
      assert PrefixRun(line, IsCjkNumeral) == 0;
    }
    assert NumberedHeading(line) == Some(x) by {
      PrefixRunAppend(d, ". " + x, IsDigit);
      assert line[|d|] == '.';
      assert line[|d| + 1..] == " " + x;
      SpacedRestAfterSpace(x);
    }
  }

  /** A heading `#`, `##` or `###`, a space and `name` names `name`. */
  lemma HeadingRoundTrip(h: string, x: string)
    requires 1 <= |h| <= 3 && (forall i :: 0 <= i < |h| ==> h[i] == '#')
    requires DotRest(x) && !IsSpace(x[0]) && x[0] != '#'
    ensures CategoryName(h + " " + x) == Some(x)
  {
    var line := h + " " + x;
    assert line == h + (" " + x);
    assert line[0] == '#';
    assert NumeralHeading(line).None? by {
      assert PrefixRun(line, IsCjkNumeral) == 0;
    }
    assert NumberedHeading(line).None? by {
      assert PrefixRun(line, IsDigit) == 0;
    }
    assert HeadingText(line) == Some(x) by {
      PrefixRunAppend(h, " " + x, IsHash);
      assert line[|h|..] == " " + x;
      SpacedRestAfterSpace(x);
      assert HeadingFrom(line, |h|) == Some(x);
    }
  }

  /** A case header `用例<digits><colon><title>` has the title `title`. */
  lemma CaseTitleRoundTrip(d: string, c: char, x: string)
    requires |d| >= 1 && (forall i :: 0 <= i < |d| ==> IsDigit(d[i])) && IsColon(c)
    requires DotRest(x) && !IsSpace(x[0])
    ensures CaseTitle(CaseWord + d + [c] + x) == Some(x)
  {
    var line := CaseWord + d + [c] + x;
    assert line[2..] == d + ([c] + x);
    PrefixRunAppend(d, [c] + x, IsDigit);
    assert line[2 + |d|] == c;
    assert line[3 + |d|..] == x;
    SpacedRestWhole(x);
  }

  /** In a bullet `* <keyword>：<value>` the bullet patterns see the
      keyword, the colon and the value after the `*` and the space. */
  lemma BulletParts(kw: string, x: string, line: string)
    requires kw != [] && !IsSpace(kw[0]) && line == "* " + kw + "：" + x
    ensures |line| > 0 && line[0] == '*'
    ensures var rest := line[1..][PrefixRun(line[1..], IsSpace)..];
            |kw| < |rest| && rest[..|kw|] == kw && rest[|kw|] == '：' && rest[|kw| + 1..] == x
  {
    var rest := kw + "：" + x;
    assert line[1..] == " " + rest;
    PrefixRunAppend(" ", rest, IsSpace);
    assert rest[0] == kw[0];
    assert line[1..][1..] == rest;
  }

  /** A bullet `* <keyword>：<value>` carries `value` for its own field and
      nothing for the other one. */
  lemma FieldValueRoundTrip(f: Field, x: string)
    requires DotRest(x) && !IsSpace(x[0])
    ensures FieldValue("* " + Keyword(f) + "：" + x, f) == Some(x)
    ensures FieldValue("* " + Keyword(f) + "：" + x, if f == Operation then Expected else Operation).None?
  {
    var line := "* " + Keyword(f) + "：" + x;
    BulletParts(Keyword(f), x, line);
    SpacedRestWhole(x);
    var g := if f == Operation then Expected else Operation;
    assert Keyword(g)[0] != Keyword(f)[0];
  }

  /** Every case header also ends a lookahead; a markdown heading never
      does, although it opens a category. */
  lemma CaseHeaderStopsLookahead(line: string)
    ensures CaseTitle(line).Some? ==> IsCaseStop(line)
    ensures StartsWith(line, "#") ==> !IsCaseStop(line)
  {
    if StartsWith(line, "#") {
      assert PrefixRun(line, IsCjkNumeral) == 0;
      assert PrefixRun(line, IsDigit) == 0;
    }
  }
}
