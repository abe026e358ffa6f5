/** The parts of Python's str that the repository relies on. */
module Text {

  /** The line boundaries of str.splitlines; "\r\n" counts as one. */
  predicate IsBreak(c: char) {
    c == '\n' || c == '\r' || c == '\U{B}' || c == '\U{C}' || c == '\U{1C}' || c == '\U{1D}' || c == '\U{1E}'
    || c == '\U{85}' || c == '\U{2028}' || c == '\U{2029}'
  }

  /** The characters str.strip removes. */
  predicate IsSpace(c: char) {
    IsBreak(c) || c == ' ' || c == '\t' || c == '\U{1F}' || c == '\U{A0}' || c == '\U{1680}'
    || '\U{2000}' <= c <= '\U{200A}' || c == '\U{202F}' || c == '\U{205F}' || c == '\U{3000}'
  }

  predicate Blank(s: string) { forall c <- s :: IsSpace(c) }

  /** How many characters the break at the start of `s` takes. */
  function BreakLength(s: string): nat
    requires s != ""
    ensures 1 <= BreakLength(s) <= |s|
  {
    if s[0] == '\r' && |s| > 1 && s[1] == '\n' then 2 else 1
  }

  /** str.splitlines, `current` being the part of the line already read. */
  function SplitFrom(s: string, current: string): seq<string>
    decreases |s|
  {
    if s == "" then if current == "" then [] else [current]
    else if IsBreak(s[0]) then [current] + SplitFrom(s[BreakLength(s)..], "")
    else SplitFrom(s[1..], current + [s[0]])
  }

  function SplitLines(s: string): seq<string> { SplitFrom(s, "") }

  /** str.splitlines(keepends=True). */
  function SplitKeepFrom(s: string, current: string): seq<string>
    decreases |s|
  {
    if s == "" then if current == "" then [] else [current]
    else if IsBreak(s[0]) then [current + s[..BreakLength(s)]] + SplitKeepFrom(s[BreakLength(s)..], "")
    else SplitKeepFrom(s[1..], current + [s[0]])
  }

  function SplitKeepEnds(s: string): seq<string> { SplitKeepFrom(s, "") }

  predicate NoBreak(s: string) { forall i :: 0 <= i < |s| ==> !IsBreak(s[i]) }

  /** One line break: a CR and an LF together, or a single character. */
  predicate IsLineEnd(s: string) { s == "\r\n" || (|s| == 1 && IsBreak(s[0])) }

  /** `line` is `kept` without its line break, which only the last line may lack. */
  predicate LineOf(line: string, kept: string, last: bool) {
    && |line| <= |kept| && line == kept[..|line|] && NoBreak(line)
    && (IsLineEnd(kept[|line|..]) || (last && line != "" && kept == line))
  }

  /** The lines with and without their ends: one for each break, and one for what follows the last. */
  lemma {:induction false} LinesMeaning(s: string, current: string, k: nat)
    requires NoBreak(current) && k < |SplitFrom(s, current)|
    ensures |SplitKeepFrom(s, current)| == |SplitFrom(s, current)|
    ensures LineOf(SplitFrom(s, current)[k], SplitKeepFrom(s, current)[k], k == |SplitFrom(s, current)| - 1)
    decreases |s|
  {
    SameNumber(s, current);
    if s != "" && IsBreak(s[0]) {
      var n := BreakLength(s);
      if k > 0 {
        LinesMeaning(s[n..], "", k - 1);
      } else {
        assert (current + s[..n])[..|current|] == current && (current + s[..n])[|current|..] == s[..n];
        assert IsLineEnd(s[..n]) by { if n == 2 { assert s[..2] == "\r\n"; } }
      }
    } else if s != "" {
      LinesMeaning(s[1..], current + [s[0]], k);
    }
  }

  lemma {:induction false} SameNumber(s: string, current: string)
    ensures |SplitKeepFrom(s, current)| == |SplitFrom(s, current)|
    decreases |s|
  {
    if s != "" { if IsBreak(s[0]) { SameNumber(s[BreakLength(s)..], ""); } else { SameNumber(s[1..], current + [s[0]]); } }
  }

  /** A CR and the LF after it are one break: no line ends in the CR with the LF beginning the next. */
  lemma {:induction false} CrLfTogether(s: string, current: string, k: nat)
    requires NoBreak(current) && k + 1 < |SplitKeepFrom(s, current)|
    ensures var a, b := SplitKeepFrom(s, current)[k], SplitKeepFrom(s, current)[k + 1];
            a != "" && b != "" && !(a[|a| - 1] == '\r' && b[0] == '\n')
    decreases |s|
  {
    if IsBreak(s[0]) {
      var n := BreakLength(s);
      if k > 0 { CrLfTogether(s[n..], "", k - 1); } else { FirstChar(s[n..], ""); }
    } else {
      CrLfTogether(s[1..], current + [s[0]], k);
    }
  }

  lemma {:induction false} FirstChar(s: string, current: string)
    ensures SplitKeepFrom(s, current) != [] ==> current + s != "" && SplitKeepFrom(s, current)[0] != "" && SplitKeepFrom(s, current)[0][0] == (current + s)[0]
    decreases |s|
  {
    if s != "" && !IsBreak(s[0]) {
      FirstChar(s[1..], current + [s[0]]);
      assert (current + [s[0]]) + s[1..] == current + s;
    }
  }

  /** "".join */
  function Join(parts: seq<string>): string {
    if parts == [] then "" else Join(parts[..|parts| - 1]) + parts[|parts| - 1]
  }

  lemma {:induction false} JoinConcat(a: seq<string>, b: seq<string>)
    ensures Join(a + b) == Join(a) + Join(b)
  {
    if b == [] {
      assert a + b == a;
    } else {
      JoinConcat(a, b[..|b| - 1]);
      assert (a + b)[..|a + b| - 1] == a + b[..|b| - 1];
    }
  }

  predicate StartsWith(s: string, prefix: string) { prefix <= s }

  function LStrip(s: string): string {
    if s != "" && IsSpace(s[0]) then LStrip(s[1..]) else s
  }

  function RStrip(s: string): string {
    if s != "" && IsSpace(s[|s| - 1]) then RStrip(s[..|s| - 1]) else s
  }

  function Strip(s: string): string { RStrip(LStrip(s)) }

  /** What strip leaves begins and ends with characters that are no spaces, and what it takes off is spaces. */
  lemma {:induction false} StripMeaning(s: string) returns (i: nat, j: nat)
    ensures i <= j <= |s| && Strip(s) == s[i..j]
    ensures forall k :: 0 <= k < i || j <= k < |s| ==> IsSpace(s[k])
    ensures Strip(s) != "" ==> !IsSpace(s[i]) && !IsSpace(s[j - 1])
  {
    i := LStripMeaning(s);
    j := RStripMeaning(s[i..]);
    assert forall k :: j <= k < |s[i..]| ==> IsSpace(s[i..][k]) && s[i..][k] == s[i + k];
    assert forall k :: i + j <= k < |s| ==> s[k] == s[i..][k - i];
    assert s[i..][..j] == s[i..i + j];
    j := i + j;
  }

  lemma {:induction false} LStripMeaning(s: string) returns (i: nat)
    ensures i <= |s| && LStrip(s) == s[i..] && (forall k :: 0 <= k < i ==> IsSpace(s[k])) && (i < |s| ==> !IsSpace(s[i]))
  {
    i := 0;
    if s != "" && IsSpace(s[0]) {
      var rest := LStripMeaning(s[1..]);
      assert forall k :: 1 <= k < rest + 1 ==> s[k] == s[1..][k - 1];
      i := rest + 1;
    }
  }

  lemma {:induction false} RStripMeaning(s: string) returns (j: nat)
    ensures j <= |s| && RStrip(s) == s[..j] && (forall k :: j <= k < |s| ==> IsSpace(s[k])) && (j > 0 ==> !IsSpace(s[j - 1]))
  {
    j := |s|;
    if s != "" && IsSpace(s[|s| - 1]) {
      j := RStripMeaning(s[..|s| - 1]);
      assert s[..|s| - 1][..j] == s[..j];
    }
  }
}
