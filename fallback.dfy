/** The fallbacks `parseTestCases` uses when the pass over the lines found
    no requirement (src/aiService.ts:453-473): a loose `需求：` match over
    the whole reply, then the first meaningful lines before the test cases. */
module Fallback {
  import opened Wrappers
  import opened Text
  import opened Patterns

  function Min(a: int, b: int): int { if a <= b then a else b }

  /** `[^\n]+` after `\s*`, with the whitespace run tried from length `m`
      down to 0; the group runs to the next line feed. */
  function LineAfterSpaces(t: string, m: nat): (r: Option<string>)
    requires m <= |t|
    ensures r.Some? ==> r.value != "" && '\n' !in r.value
    decreases m
  {
    if m < |t| && t[m] != '\n' then
      var v := Split(t[m..], '\n')[0];
      assert v != "" by {
        var p := Split(t[m..], '\n');
        assert t[m..] == [t[m]] + t[m..][1..];
      }
      Some(v)
    else if m == 0 then None
    else LineAfterSpaces(t, m - 1)
  }

  /** The group of the unanchored `需求[：:]\s*([^\n]+)`, searched for from
      position `p` on; the leftmost match wins. */
  function LooseFrom(s: string, p: nat): (r: Option<string>)
    requires p <= |s|
    ensures r.Some? ==> r.value != "" && '\n' !in r.value
    decreases |s| - p
  {
    if p + 3 > |s| then None
    else if s[p] == '需' && s[p + 1] == '求' && IsColon(s[p + 2]) then
      var t := s[p + 3..];
      match LineAfterSpaces(t, PrefixRun(t, IsSpace))
      case Some(v) => Some(v)
      case None => LooseFrom(s, p + 1)
    else LooseFrom(s, p + 1)
  }

  function LooseRequirement(response: string): Option<string>
  {
    LooseFrom(response, 0)
  }

  /** Whether `[^\n]+` can start at position `k` of `s`. */
  predicate LineStartsAt(s: string, k: nat)
  {
    k < |s| && s[k] != '\n'
  }

  /** `v` is what `[^\n]+` captures from position `k` of `s`: the non-empty
      text from `k` up to the next line feed or the end. */
  predicate LineFrom(s: string, k: nat, v: string)
  {
    v != "" && '\n' !in v && k + |v| <= |s| && s[k..k + |v|] == v
    && (k + |v| == |s| || s[k + |v|] == '\n')
  }

  /** What `LineAfterSpaces` finds in the text from position `o` of `s`
      on: the group starts at the last position, at most `o + m`, where a
      line can start, and it fails only when there is none. */
  lemma {:induction false} LineAfterSpacesSpec(s: string, o: nat, m: nat)
    requires o + m <= |s|
    ensures LineAfterSpaces(s[o..], m).Some? <==> exists k :: o <= k <= o + m && LineStartsAt(s, k)
    ensures LineAfterSpaces(s[o..], m).Some? ==>
              exists k :: o <= k <= o + m && LineStartsAt(s, k)
                          && (forall j :: k < j <= o + m ==> !LineStartsAt(s, j))
                          && LineFrom(s, k, LineAfterSpaces(s[o..], m).value)
    decreases m
  {
    var t := s[o..];
    if m < |t| && t[m] != '\n' {
      assert t[m..] == s[o + m..];
      var v := Split(s[o + m..], '\n')[0];
      assert LineAfterSpaces(t, m) == Some(v);
      LineFromStart(s, o + m);
      assert LineStartsAt(s, o + m) && LineFrom(s, o + m, v);
    } else if m > 0 {
      assert !LineStartsAt(s, o + m);
      assert LineAfterSpaces(t, m) == LineAfterSpaces(t, m - 1);
      LineAfterSpacesSpec(s, o, m - 1);
      var r := LineAfterSpaces(t, m);
      if r.Some? {
        var k :| o <= k <= o + m - 1 && LineStartsAt(s, k)
                 && (forall j :: k < j <= o + m - 1 ==> !LineStartsAt(s, j))
                 && LineFrom(s, k, r.value);
        assert forall j :: k < j <= o + m ==> !LineStartsAt(s, j);
        assert o <= k <= o + m && LineStartsAt(s, k) && LineFrom(s, k, r.value);
      }
    } else {
      assert !LineStartsAt(s, o);
    }
  }

  /** `[^\n]+` at a position where a line starts captures the text up to
      the next line feed, the first piece of splitting the rest. */
  lemma LineFromStart(s: string, k: nat)
    requires LineStartsAt(s, k)
    ensures LineFrom(s, k, Split(s[k..], '\n')[0])
  {
    SplitFirstPiece(s[k..], '\n');
    var v := Split(s[k..], '\n')[0];
    assert s[k..][..|v|] == s[k..k + |v|];
    assert s[k..][0] == s[k];
  }

  /** `需求` and a colon at position `q`. */
  predicate Keyed(s: string, q: nat)
  {
    q + 3 <= |s| && s[q] == '需' && s[q + 1] == '求' && IsColon(s[q + 2])
  }

  /** Where the whitespace run after the colon at `q` ends. */
  function SpacesEnd(s: string, q: nat): nat
    requires q + 3 <= |s|
  {
    q + 3 + PrefixRun(s[q + 3..], IsSpace)
  }

  /** Whether `需求[：:]\s*([^\n]+)` matches at position `q`: after the
      colon, a line can start somewhere within the whitespace run or right
      after it. */
  predicate LooseMatchAt(s: string, q: nat)
  {
    Keyed(s, q) && exists k :: q + 3 <= k <= SpacesEnd(s, q) && LineStartsAt(s, k)
  }

  /** `v` is what the match at `q` captures: the line starting at the last
      position the whitespace run allows. */
  predicate LooseCapture(s: string, q: nat, v: string)
  {
    Keyed(s, q)
    && exists k :: q + 3 <= k <= SpacesEnd(s, q) && LineStartsAt(s, k)
                   && (forall j :: k < j <= SpacesEnd(s, q) ==> !LineStartsAt(s, j))
                   && LineFrom(s, k, v)
  }

  /** The match at one position: what `LineAfterSpaces` finds after the
      colon. */
  lemma LooseAt(s: string, q: nat)
    requires Keyed(s, q)
    ensures var t := s[q + 3..];
            var r := LineAfterSpaces(t, PrefixRun(t, IsSpace));
            (r.Some? <==> LooseMatchAt(s, q)) && (r.Some? ==> LooseCapture(s, q, r.value))
  {
    LineAfterSpacesSpec(s, q + 3, PrefixRun(s[q + 3..], IsSpace));
  }

  /** `response.match(/需求[：:]\s*([^\n]+)/)`, searched from position `p`:
      it matches exactly when some position from `p` on matches, and then
      it captures what the leftmost matching position captures. */
  lemma {:induction false} LooseFromSpec(s: string, p: nat)
    requires p <= |s|
    ensures LooseFrom(s, p).Some? <==> exists q :: p <= q && LooseMatchAt(s, q)
    ensures LooseFrom(s, p).Some? ==>
              exists q :: p <= q && LooseCapture(s, q, LooseFrom(s, p).value)
                          && forall q' :: p <= q' < q ==> !LooseMatchAt(s, q')
    decreases |s| - p
  {
    if p + 3 > |s| {
      assert forall q :: p <= q ==> !Keyed(s, q);
    } else if LooseMatchAt(s, p) {
      LooseAt(s, p);
      var t := s[p + 3..];
      assert LooseFrom(s, p) == LineAfterSpaces(t, PrefixRun(t, IsSpace));
      assert LooseCapture(s, p, LooseFrom(s, p).value);
    } else {
      if Keyed(s, p) {
        LooseAt(s, p);
      }
      assert LooseFrom(s, p) == LooseFrom(s, p + 1);
      LooseFromSpec(s, p + 1);
      if LooseFrom(s, p).Some? {
        var q :| p + 1 <= q && LooseCapture(s, q, LooseFrom(s, p).value)
                 && forall q' :: p + 1 <= q' < q ==> !LooseMatchAt(s, q');
        assert forall q' :: p <= q' < q ==> !LooseMatchAt(s, q');
      }
    }
  }

  /** Whether `测试用例` or `用例\d+` matches at position `p`. */
  predicate CaseMarkerAt(s: string, p: nat)
    requires p <= |s|
  {
    StartsWith(s[p..], TestCasesWord)
    || (StartsWith(s[p..], CaseWord) && p + 2 < |s| && IsDigit(s[p + 2]))
  }

  /** The first position at or after `p` where a case marker matches, `|s|`
      when there is none. */
  function FirstCaseMarker(s: string, p: nat): (q: nat)
    requires p <= |s|
    ensures p <= q <= |s|
    ensures forall k :: p <= k < q ==> !CaseMarkerAt(s, k)
    ensures q < |s| ==> CaseMarkerAt(s, q)
    decreases |s| - p
  {
    if p == |s| || CaseMarkerAt(s, p) then p else FirstCaseMarker(s, p + 1)
  }

  /** `response.split(/测试用例|用例\d+/)[0]`: the text before the first case
      marker. */
  function BeforeCaseMarker(s: string): (b: string)
    ensures StartsWith(s, b)
    ensures forall k :: 0 <= k < |b| ==> !CaseMarkerAt(s, k)
    ensures |b| == |s| || CaseMarkerAt(s, |b|)
  {
    s[..FirstCaseMarker(s, 0)]
  }

  /** A line the last fallback accepts: not empty, not `^[#*\-=]+$`, not the
      bare word `需求`, longer than ten characters (src/aiService.ts:468). */
  predicate IsMeaningful(l: string)
  {
    l != "" && !IsMarkerLine(l) && l != RequirementWord && |l| > 10
  }

  /** The trimmed lines of `ls` that are meaningful, in order. */
  function MeaningfulLines(ls: seq<string>): (r: seq<string>)
    ensures forall k :: 0 <= k < |r| ==> IsMeaningful(r[k])
    ensures forall k :: 0 <= k < |ls| && IsMeaningful(Trim(ls[k])) ==> Trim(ls[k]) in r
    ensures forall x :: x in r ==> exists k :: 0 <= k < |ls| && Trim(ls[k]) == x
    decreases |ls|
  {
    if ls == [] then []
    else
      var t := Trim(ls[0]);
      var rest := MeaningfulLines(ls[1..]);
      assert forall k :: 1 <= k < |ls| ==> ls[k] == ls[1..][k - 1];
      (if IsMeaningful(t) then [t] else []) + rest
  }

  /** The filter works line by line: the meaningful lines of two runs of
      lines are those of the first followed by those of the second, so the
      order and the repetitions of the reply are kept. */
  lemma {:induction false} MeaningfulLinesAppend(a: seq<string>, b: seq<string>)
    ensures MeaningfulLines(a + b) == MeaningfulLines(a) + MeaningfulLines(b)
    decreases |a|
  {
    if a == [] {
      assert a + b == b;
    } else {
      assert (a + b)[0] == a[0];
      assert (a + b)[1..] == a[1..] + b;
      MeaningfulLinesAppend(a[1..], b);
    }
  }

  /** One line contributes itself trimmed exactly when it is meaningful. */
  lemma MeaningfulLine(l: string)
    ensures MeaningfulLines([l]) == if IsMeaningful(Trim(l)) then [Trim(l)] else []
  {
    assert [l][1..] == [];
  }

  lemma JoinStartsWithFirst(parts: seq<string>, sep: string)
    requires |parts| >= 1
    ensures StartsWith(Join(parts, sep), parts[0])
  {
  }

  /** The last fallback: the first three meaningful lines before the first
      case marker, joined by spaces and cut to 200 characters; `''` when no
      line qualifies. */
  function SmartRequirement(response: string): (r: string)
    ensures |r| <= 200
    ensures var ml := MeaningfulLines(Split(BeforeCaseMarker(response), '\n'));
            (r != "" <==> |ml| > 0)
            && (|ml| > 0 ==> StartsWith(Join(ml[..Min(3, |ml|)], " "), r))
            && (|ml| > 0 ==> |r| == Min(200, |Join(ml[..Min(3, |ml|)], " ")|))
            && (|ml| > 0 ==> r == Take(Join(ml[..Min(3, |ml|)], " "), 200))
  {
    var ml := MeaningfulLines(Split(BeforeCaseMarker(response), '\n'));
    if |ml| > 0 then
      var joined := Join(ml[..Min(3, |ml|)], " ");
      JoinStartsWithFirst(ml[..Min(3, |ml|)], " ");
      Take(joined, 200)
    else ""
  }

  /** The requirement after both fallbacks, before the placeholder: the loose
      `需求：` match is tried only when the requirement lines held at the end
      of the pass are none, and the meaningful lines whenever the
      requirement is still empty. */
  function FallbackRequirement(requirement: string, requirementLines: seq<string>, response: string): string
  {
    var r1 :=
      if requirement == "" && |requirementLines| == 0 then
        match LooseRequirement(response)
        case Some(v) => Trim(v)
        case None => requirement
      else requirement;
    if r1 == "" then SmartRequirement(response) else r1
  }
}
