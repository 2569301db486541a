/** The string processing of `GitService` (src/gitService.ts): reading the
    commits of the current branch from `git cherry -v`, the changed files
    from `git diff --name-only`, and assembling the diff information.

    The `git` commands themselves are a given `Workspace`: whether it is a
    repository, what `git branch --show-current` prints, and what the diff,
    name and cherry commands print against a base branch. */
module GitService {
  import opened Wrappers
  import opened Text

  /** `GitDiffInfo`. */
  datatype DiffInfo = DiffInfo(branch: string, diff: string, files: seq<string>, commits: seq<string>)

  /** What the `git` commands of one workspace print. `branchOutput` is
      `None` when `git branch --show-current` fails. The three others give
      the output of the command against the base branch after its own
      fallbacks. The diff and the name listing end with `git diff HEAD`,
      which is outside any `try` (src/gitService.ts:115-119, 144-148): when
      it fails too, the output is the error it throws. `getBranchCommits`
      catches its last failure and returns no commit, which an empty
      output gives as well. */
  datatype Workspace = Workspace(
    isGit: bool,
    branchOutput: Option<string>,
    diffOutput: string -> Result<string>,
    nameOutput: string -> Result<string>,
    cherryOutput: string -> string)

  const CommitMarker: string := "+ "
  const DefaultBase: string := "main"
  const NotRepositoryMessage: string := "当前目录不是 Git 仓库"
  const NoBranchMessage: string := "无法获取当前分支"

  /** The commit a line of `git cherry -v` contributes: a line starting with
      `+ ` loses that marker, and an empty remainder is dropped. */
  function CommitOf(line: string): (r: seq<string>)
    ensures |r| <= 1
    ensures r != [] <==> StartsWith(line, CommitMarker) && |line| > 2
    ensures r != [] ==> r[0] != "" && line == CommitMarker + r[0]
  {
    if StartsWith(line, CommitMarker) && line[2..] != "" then [line[2..]] else []
  }

  /** `lines.filter(l => l.startsWith('+ ')).map(l => l.substring(2)).filter(l => l)`. */
  function CommitLines(lines: seq<string>): (r: seq<string>)
    ensures forall k :: 0 <= k < |r| ==> r[k] != ""
    ensures |r| <= |lines|
    decreases |lines|
  {
    if lines == [] then [] else CommitOf(lines[0]) + CommitLines(lines[1..])
  }

  /** The commits of the current branch, from the output of
      `git cherry -v base branch` (src/gitService.ts:60-68, 80-84). */
  function ParseCommits(cherryOutput: string): seq<string>
  {
    CommitLines(Split(cherryOutput, '\n'))
  }

  /** The commits of a run of lines followed by another are the commits of
      each, in order: the filter keeps the order of the output. */
  lemma {:induction false} CommitLinesAppend(a: seq<string>, b: seq<string>)
    ensures CommitLines(a + b) == CommitLines(a) + CommitLines(b)
    decreases |a|
  {
    if a == [] {
      assert a + b == b;
    } else {
      assert (a + b)[0] == a[0];
      assert (a + b)[1..] == a[1..] + b;
      CommitLinesAppend(a[1..], b);
    }
  }

  /** Exactly the lines that start with `+ ` and hold more than the marker
      give a commit, and that commit is the line without its marker. */
  lemma CommitLine(line: string)
    ensures CommitLines([line]) == CommitOf(line)
    ensures StartsWith(line, CommitMarker) && |line| > 2 ==> CommitLines([line]) == [line[2..]]
    ensures !StartsWith(line, CommitMarker) ==> CommitLines([line]) == []
  {
    assert [line][1..] == [];
  }

  /** What `git cherry -v` prints for commits that are all new on the
      branch: one `+ ` line per commit, each ended by a newline. */
  function CherryListing(commits: seq<string>): string
    decreases |commits|
  {
    if commits == [] then "" else CommitMarker + commits[0] + "\n" + CherryListing(commits[1..])
  }

  /** Reading a listing of new commits gives the commits back, in order. */
  lemma {:induction false} ParseCommitsListing(commits: seq<string>)
    requires forall k :: 0 <= k < |commits| ==> commits[k] != "" && '\n' !in commits[k]
    ensures ParseCommits(CherryListing(commits)) == commits
    decreases |commits|
  {
    if commits != [] {
      var line := CommitMarker + commits[0];
      assert '\n' !in line by {
        forall i | 0 <= i < |line| ensures line[i] != '\n' {
          if i >= 2 { assert line[i] == commits[0][i - 2]; }
        }
      }
      ParseCommitsListing(commits[1..]);
      SplitAfterPiece(line, '\n', CherryListing(commits[1..]));
      var rest := Split(CherryListing(commits[1..]), '\n');
      assert Split(CherryListing(commits), '\n') == [line] + rest;
      CommitLinesAppend([line], rest);
      CommitLine(line);
      assert line[2..] == commits[0];
      assert [commits[0]] + commits[1..] == commits;
    }
  }

  /** A line that gives no commit, such as a `- ` line for a commit
      already upstream, can be removed without changing the commits. */
  lemma NoCommitLineIgnored(before: seq<string>, line: string, after: seq<string>)
    requires !StartsWith(line, CommitMarker) || |line| <= 2
    ensures CommitLines(before + [line] + after) == CommitLines(before + after)
  {
    CommitLinesAppend(before + [line], after);
    CommitLinesAppend(before, [line]);
    CommitLinesAppend(before, after);
    CommitLine(line);
    assert CommitLines(before) + [] == CommitLines(before);
  }

  /** `array.filter(line => line)`: the non-empty entries, in order. */
  function NonEmpty(ls: seq<string>): (r: seq<string>)
    ensures |r| <= |ls|
    ensures forall k :: 0 <= k < |r| ==> r[k] != ""
    decreases |ls|
  {
    if ls == [] then [] else (if ls[0] != "" then [ls[0]] else []) + NonEmpty(ls[1..])
  }

  /** The changed files from the output of `git diff --name-only`
      (src/gitService.ts:134, 142, 148). */
  function ParseChangedFiles(stdout: string): seq<string>
  {
    NonEmpty(Split(Trim(stdout), '\n'))
  }

  /** Output that is empty or only whitespace names no file. */
  lemma NoOutputNoFiles(stdout: string)
    requires Trim(stdout) == ""
    ensures ParseChangedFiles(stdout) == []
  {
    assert Split("", '\n') == [""];
    assert [""][1..] == [];
  }

  /** A list of non-empty entries is unchanged by the filter. */
  lemma {:induction false} NonEmptyKeeps(ls: seq<string>)
    requires forall k :: 0 <= k < |ls| ==> ls[k] != ""
    ensures NonEmpty(ls) == ls
    decreases |ls|
  {
    if ls != [] {
      NonEmptyKeeps(ls[1..]);
      assert [ls[0]] + ls[1..] == ls;
    }
  }

  /** Names printed one per line, with the trailing newline `git` adds, are
      read back as they are, when the first does not start and the last does
      not end with whitespace. */
  lemma ChangedFilesListing(files: seq<string>)
    requires |files| >= 1
    requires forall k :: 0 <= k < |files| ==> files[k] != "" && '\n' !in files[k]
    requires !IsSpace(files[0][0]) && !IsSpace(files[|files| - 1][|files[|files| - 1]| - 1])
    ensures ParseChangedFiles(Join(files, "\n") + "\n") == files
  {
    var listing := Join(files, "\n");
    JoinEnds(files, "\n");
    TrimKeeps(listing);
    TrimEndNewline(listing);
    SplitJoin(files, '\n');
    NonEmptyKeeps(files);
  }

  /** The join of non-empty parts starts with the first part's first
      character and ends with the last part's last character. */
  lemma {:induction false} JoinEnds(parts: seq<string>, sep: string)
    requires |parts| >= 1
    requires forall k :: 0 <= k < |parts| ==> parts[k] != ""
    ensures var j := Join(parts, sep);
            j != [] && j[0] == parts[0][0] && j[|j| - 1] == parts[|parts| - 1][|parts[|parts| - 1]| - 1]
    decreases |parts|
  {
    if |parts| > 1 {
      JoinEnds(parts[1..], sep);
      var rest := Join(parts[1..], sep);
      assert Join(parts, sep) == (parts[0] + sep) + rest;
    }
  }

  /** A trailing newline after a string that ends with a non-space is
      trimmed away. */
  lemma TrimEndNewline(s: string)
    requires s != [] && !IsSpace(s[0]) && !IsSpace(s[|s| - 1])
    ensures Trim(s + "\n") == s
  {
    var t := s + "\n";
    assert TrimStart(t) == t;
    assert t[..|t| - 1] == s;
    assert TrimEnd(t) == TrimEnd(s);
    TrimKeeps(s);
    assert TrimStart(s) == s;
  }

  /** `baseBranch || 'main'` (src/gitService.ts:163). */
  function BaseBranch(baseBranch: Option<string>): (r: string)
    ensures r != ""
    ensures r == DefaultBase <==> baseBranch.None? || baseBranch.value == "" || baseBranch.value == DefaultBase
    ensures baseBranch.Some? && baseBranch.value != "" ==> r == baseBranch.value
  {
    if baseBranch.None? || baseBranch.value == "" then DefaultBase else baseBranch.value
  }

  /** `getGitDiffInfo(baseBranch)` (src/gitService.ts:156-169): the
      repository check, then the current branch, and the diff, files and
      commits against the base branch; the first failure is the error. */
  function GetGitDiffInfo(ws: Workspace, baseBranch: Option<string>): Result<DiffInfo>
  {
    if !ws.isGit then Err(NotRepositoryMessage)
    else if ws.branchOutput.None? then Err(NoBranchMessage)
    else
      var base := BaseBranch(baseBranch);
      match ws.diffOutput(base)
      case Err(m) => Err(m)
      case Ok(diff) =>
        match ws.nameOutput(base)
        case Err(m) => Err(m)
        case Ok(names) =>
          Ok(DiffInfo(Trim(ws.branchOutput.value), diff, ParseChangedFiles(names), ParseCommits(ws.cherryOutput(base))))
  }

  /** The information is complete exactly for a repository whose branch can
      be read and whose diff and name listing succeed; otherwise the error is
      the first failure, in that order. Its lists hold no empty entry, and
      every command ran against the base branch, `main` unless another was
      given. */
  lemma DiffInfoSpec(ws: Workspace, baseBranch: Option<string>)
    ensures var base := if baseBranch.None? || baseBranch.value == "" then DefaultBase else baseBranch.value;
            GetGitDiffInfo(ws, baseBranch).Ok?
            <==> ws.isGit && ws.branchOutput.Some? && ws.diffOutput(base).Ok? && ws.nameOutput(base).Ok?
    ensures !ws.isGit ==> GetGitDiffInfo(ws, baseBranch) == Err(NotRepositoryMessage)
    ensures ws.isGit && ws.branchOutput.None? ==> GetGitDiffInfo(ws, baseBranch) == Err(NoBranchMessage)
    ensures var base := if baseBranch.None? || baseBranch.value == "" then DefaultBase else baseBranch.value;
            ws.isGit && ws.branchOutput.Some? && ws.diffOutput(base).Err? ==>
              GetGitDiffInfo(ws, baseBranch) == Err(ws.diffOutput(base).message)
    ensures var base := if baseBranch.None? || baseBranch.value == "" then DefaultBase else baseBranch.value;
            ws.isGit && ws.branchOutput.Some? && ws.diffOutput(base).Ok? && ws.nameOutput(base).Err? ==>
              GetGitDiffInfo(ws, baseBranch) == Err(ws.nameOutput(base).message)
    ensures GetGitDiffInfo(ws, baseBranch).Ok? ==>
              var info := GetGitDiffInfo(ws, baseBranch).value;
              var base := if baseBranch.None? || baseBranch.value == "" then DefaultBase else baseBranch.value;
              Ok(info.diff) == ws.diffOutput(base)
              && ws.nameOutput(base).Ok? && info.files == ParseChangedFiles(ws.nameOutput(base).value)
              && info.commits == ParseCommits(ws.cherryOutput(base))
              && Trim(info.branch) == info.branch
              && (forall k :: 0 <= k < |info.files| ==> info.files[k] != "")
              && (forall k :: 0 <= k < |info.commits| ==> info.commits[k] != "")
  {
    if ws.isGit && ws.branchOutput.Some? {
      TrimIdempotent(ws.branchOutput.value);
    }
  }
}
