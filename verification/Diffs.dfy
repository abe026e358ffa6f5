/** Line endings of diffs: normalizing them changes neither the lines that count as changed nor the
    files a diff names. */
module Diffs {
  import opened Text

  // ---- normalize_diff -----------------------------------------------------------------------

  /** diff.replace("\r\n", "\n") */
  function ReplaceCrLf(s: string): string {
    if |s| < 2 then s
    else if s[0] == '\r' && s[1] == '\n' then "\n" + ReplaceCrLf(s[2..])
    else [s[0]] + ReplaceCrLf(s[1..])
  }

  /** diff.replace("\r", "\n") */
  function ReplaceCr(s: string): string {
    if s == "" then "" else [if s[0] == '\r' then '\n' else s[0]] + ReplaceCr(s[1..])
  }

  function NormalizeDiff(s: string): string { ReplaceCr(ReplaceCrLf(s)) }

  /** Both replacements at once: every break by CR, LF or CRLF becomes one LF. */
  lemma {:induction false} NormalizeStep(s: string)
    requires s != ""
    ensures NormalizeDiff(s) ==
            if s[0] == '\r' then "\n" + NormalizeDiff(s[BreakLength(s)..]) else [s[0]] + NormalizeDiff(s[1..])
  {
    if |s| == 1 {
      assert s[1..] == "" && ReplaceCrLf(s) == s;
    } else {
      var rest := if s[0] == '\r' && s[1] == '\n' then s[2..] else s[1..];
      var first := if s[0] == '\r' && s[1] == '\n' then '\n' else s[0];
      assert ReplaceCrLf(s) == [first] + ReplaceCrLf(rest);
      assert ([first] + ReplaceCrLf(rest))[1..] == ReplaceCrLf(rest);
    }
  }

  lemma {:induction false} NormalizedHasNoCr(s: string)
    ensures '\r' !in NormalizeDiff(s)
    decreases |s|
  {
    if s != "" {
      NormalizeStep(s);
      NormalizedHasNoCr(if s[0] == '\r' then s[BreakLength(s)..] else s[1..]);
    }
  }

  lemma {:induction false} NormalizeWithoutCr(s: string)
    requires '\r' !in s
    ensures NormalizeDiff(s) == s
  {
    if s != "" {
      NormalizeStep(s);
      assert forall c :: c in s[1..] ==> c in s;
      NormalizeWithoutCr(s[1..]);
    }
  }

  lemma {:induction false} NormalizeIdempotent(s: string)
    ensures NormalizeDiff(NormalizeDiff(s)) == NormalizeDiff(s)
  {
    NormalizedHasNoCr(s);
    NormalizeWithoutCr(NormalizeDiff(s));
  }

  lemma {:induction false} SameLinesFrom(s: string, current: string)
    ensures SplitFrom(NormalizeDiff(s), current) == SplitFrom(s, current)
    decreases |s|
  {
    if s != "" {
      NormalizeStep(s);
      NormalizedHasNoCr(s);
      var n := NormalizeDiff(s);
      if s[0] == '\r' {
        var rest := s[BreakLength(s)..];
        SameLinesFrom(rest, "");
        assert n[1..] == NormalizeDiff(rest);
      } else {
        assert n[1..] == NormalizeDiff(s[1..]);
        SameLinesFrom(s[1..], if IsBreak(s[0]) then "" else current + [s[0]]);
      }
    }
  }

  /** Normalizing keeps every line of every string. */
  lemma {:induction false} SameLines(s: string)
    ensures SplitLines(NormalizeDiff(s)) == SplitLines(s)
  {
    SameLinesFrom(s, "");
  }

  // ---- count_diff_lines and extract_file_paths_from_diff ------------------------------------------

  /** A changed line, as the orchestrator and the executor both count them. */
  predicate IsChange(line: string) {
    (StartsWith(line, "+") || StartsWith(line, "-")) && !StartsWith(line, "+++") && !StartsWith(line, "---")
  }

  function Changes(lines: seq<string>): nat {
    if lines == [] then 0 else Changes(lines[..|lines| - 1]) + if IsChange(lines[|lines| - 1]) then 1 else 0
  }

  function CountDiffLines(diff: string): nat { Changes(SplitLines(diff)) }

  predicate NamesFile(line: string) { StartsWith(line, "+++ b/") }

  function PathsOf(lines: seq<string>): seq<string> {
    if lines == [] then []
    else
      var before, line := PathsOf(lines[..|lines| - 1]), lines[|lines| - 1];
      if NamesFile(line) then before + [Strip(line[6..])] else before
  }

  function FilePaths(diff: string): seq<string> { PathsOf(SplitLines(diff)) }

  /** The paths are, in order, the stripped rests of exactly the lines that begin with "+++ b/". */
  lemma {:induction false} PathsMeaning(lines: seq<string>) returns (at: seq<nat>)
    ensures forall i: nat :: i in at <==> i < |lines| && "+++ b/" <= lines[i]
    ensures forall a, b :: 0 <= a < b < |at| ==> at[a] < at[b]
    ensures |PathsOf(lines)| == |at|
    ensures forall k :: 0 <= k < |at| ==> at[k] < |lines| && |lines[at[k]]| >= 6 && PathsOf(lines)[k] == Strip(lines[at[k]][6..])
  {
    at := [];
    if lines != [] {
      var n := |lines| - 1;
      at := PathsMeaning(lines[..n]);
      forall a | 0 <= a < |at| ensures at[a] < n { assert at[a] in at; }
      if "+++ b/" <= lines[n] { at := at + [n]; }
    }
  }

  /** A line that begins with a plus or a minus, but not with three of them. */
  predicate Changed(line: string) {
    && line != "" && (line[0] == '+' || line[0] == '-')
    && !(|line| >= 3 && ((line[0] == '+' && line[1] == '+' && line[2] == '+') || (line[0] == '-' && line[1] == '-' && line[2] == '-')))
  }

  lemma {:induction false} ChangeMeaning(line: string)
    ensures IsChange(line) <==> Changed(line)
  {
    assert |line| >= 3 ==> (StartsWith(line, "+++") <==> line[0] == '+' && line[1] == '+' && line[2] == '+');
    assert |line| >= 3 ==> (StartsWith(line, "---") <==> line[0] == '-' && line[1] == '-' && line[2] == '-');
  }

  /** The positions of the changed lines. */
  function ChangedAt(lines: seq<string>): set<nat> {
    if lines == [] then {}
    else ChangedAt(lines[..|lines| - 1]) + if Changed(lines[|lines| - 1]) then {|lines| - 1} else {}
  }

  lemma {:induction false} ChangedAtMeaning(lines: seq<string>)
    ensures forall i: nat :: i in ChangedAt(lines) <==> i < |lines| && Changed(lines[i])
  {
    if lines != [] { ChangedAtMeaning(lines[..|lines| - 1]); }
  }

  /** The count is the number of positions with a changed line. */
  lemma {:induction false} ChangesMeaning(lines: seq<string>)
    ensures Changes(lines) == |ChangedAt(lines)|
    ensures forall i: nat :: i in ChangedAt(lines) <==> i < |lines| && Changed(lines[i])
  {
    if lines != [] {
      ChangesMeaning(lines[..|lines| - 1]);
      ChangeMeaning(lines[|lines| - 1]);
    }
    ChangedAtMeaning(lines);
  }

  method ExtractFilePaths(diff: string) returns (paths: seq<string>)
    ensures paths == FilePaths(diff)
  {
    paths := [];
    var lines := SplitLines(diff);
    for i := 0 to |lines|
      invariant paths == PathsOf(lines[..i])
    {
      assert lines[..i + 1][..i] == lines[..i];
      if StartsWith(lines[i], "+++ b/") { paths := paths + [Strip(lines[i][6..])]; }
    }
    assert lines[..|lines|] == lines;
  }

  /** The files hashed from the raw diff are those of the stored diff, and the changed-line limits of
      orchestrator and executor, which sees the stored diff, agree. */
  lemma {:induction false} NormalizingIsInvisible(diff: string)
    ensures CountDiffLines(NormalizeDiff(diff)) == CountDiffLines(diff)
    ensures FilePaths(NormalizeDiff(diff)) == FilePaths(diff)
  {
    SameLines(diff);
  }
}
