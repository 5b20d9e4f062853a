/**
  The test helper `check_sudo` (brewblox_ctl/testing.py): it is installed as the
  side effect of a mocked `sh` and raises an AssertionError for any shell line in
  which `docker` is invoked directly, without the `optsudo` prefix in front of it.

  A line is rejected when Python's `re.match(r'(^|.*[;&\|])\s*docker', line)`
  succeeds. `PatternMatches` states that regular expression's meaning directly
  (an anchor, a run of whitespace, the word `docker`); `Rejects` is a scanner
  written as a recursive predicate, and `RejectsIffPattern` proves the two agree.
*/
module SudoCheck {

  /** The characters `\s` matches in a Python str pattern (those for which `str.isspace` holds). */
  predicate IsSpace(c: char) {
    || c == ' '
    || ('\t' <= c <= '\r')
    || ('\U{1c}' <= c <= '\U{1f}')
    || c == '\U{85}' || c == '\U{a0}' || c == '\U{1680}'
    || ('\U{2000}' <= c <= '\U{200a}')
    || c == '\U{2028}' || c == '\U{2029}' || c == '\U{202f}' || c == '\U{205f}' || c == '\U{3000}'
  }

  /** The character class `[;&\|]`: a shell command separator. */
  predicate IsSeparator(c: char) {
    c == ';' || c == '&' || c == '|'
  }

  const Docker: string := "docker"

  // ---------------------------------------------------------------------------
  // Reference semantics: what the regular expression matches

  /** `.` matches anything but a newline, so `.*` cannot run past the first line. */
  ghost predicate NoNewlineBefore(s: string, n: int)
    requires 0 <= n <= |s|
  {
    forall i :: 0 <= i < n ==> s[i] != '\n'
  }

  /** Position `k` is where `(^|.*[;&\|])` can end: the start, or just after a separator on the first line. */
  ghost predicate AnchorAt(s: string, k: int) {
    && 0 <= k <= |s|
    && (k == 0 || (IsSeparator(s[k - 1]) && NoNewlineBefore(s, k - 1)))
  }

  /** `\s*docker` matches from `k` to `j + 6`: whitespace in `s[k..j]`, then the word. */
  ghost predicate SpacedDockerAt(s: string, k: int, j: int) {
    && 0 <= k <= j
    && j + |Docker| <= |s|
    && (forall i :: k <= i < j ==> IsSpace(s[i]))
    && s[j..j + |Docker|] == Docker
  }

  /** `re.match(r'(^|.*[;&\|])\s*docker', s)` succeeds. */
  ghost predicate PatternMatches(s: string) {
    exists k, j :: AnchorAt(s, k) && SpacedDockerAt(s, k, j)
  }

  // ---------------------------------------------------------------------------
  // The scanner

  /** Number of whitespace characters at the start of `t`. */
  function LeadingSpaces(t: string): (n: nat)
    ensures n <= |t|
    ensures forall i :: 0 <= i < n ==> IsSpace(t[i])
    ensures n == |t| || !IsSpace(t[n])
  {
    if |t| > 0 && IsSpace(t[0]) then 1 + LeadingSpaces(t[1..]) else 0
  }

  /** `t`, after optional leading whitespace, starts with `docker`. */
  predicate DockerNext(t: string) {
    var n := LeadingSpaces(t);
    n + |Docker| <= |t| && t[n..n + |Docker|] == Docker
  }

  /** Some separator on the first line of `s` is followed by `\s*docker`. */
  predicate Scan(s: string)
    decreases |s|
  {
    && |s| > 0
    && s[0] != '\n'
    && ((IsSeparator(s[0]) && DockerNext(s[1..])) || Scan(s[1..]))
  }

  /** The line would make `check_sudo` raise. */
  predicate Rejects(s: string) {
    DockerNext(s) || Scan(s)
  }

  // ---------------------------------------------------------------------------
  // The scanner agrees with the regular expression

  lemma DockerNextIff(t: string)
    ensures DockerNext(t) <==> exists j :: SpacedDockerAt(t, 0, j)
  {
    var n := LeadingSpaces(t);
    if DockerNext(t) {
      assert SpacedDockerAt(t, 0, n);
    }
    if j :| SpacedDockerAt(t, 0, j) {
      assert t[j] == Docker[0];
      assert !IsSpace(t[j]);
      assert n == j;
    }
  }

  /** `\s*docker` at position `k` of `s` depends only on the suffix `s[k..]`. */
  lemma SpacedDockerShift(s: string, k: int)
    requires 0 <= k <= |s|
    ensures (exists j :: SpacedDockerAt(s, k, j)) <==> (exists j :: SpacedDockerAt(s[k..], 0, j))
  {
    if j :| SpacedDockerAt(s, k, j) {
      assert s[k..][j - k..j - k + |Docker|] == s[j..j + |Docker|];
      assert SpacedDockerAt(s[k..], 0, j - k);
    }
    if j :| SpacedDockerAt(s[k..], 0, j) {
      assert s[k..][j..j + |Docker|] == s[k + j..k + j + |Docker|];
      assert SpacedDockerAt(s, k, k + j);
    }
  }

  /** `Scan` finds exactly the anchors after a separator. */
  lemma ScanIff(s: string)
    ensures Scan(s) <==> exists k :: 0 < k && AnchorAt(s, k) && DockerNext(s[k..])
  {
    if Scan(s) {
      ScanFindsAnchor(s);
    }
    if k :| 0 < k && AnchorAt(s, k) && DockerNext(s[k..]) {
      AnchorIsScanned(s, k);
    }
  }

  lemma {:induction false} ScanFindsAnchor(s: string)
    requires Scan(s)
    ensures exists k :: 0 < k && AnchorAt(s, k) && DockerNext(s[k..])
    decreases |s|
  {
    var t := s[1..];
    if IsSeparator(s[0]) && DockerNext(t) {
      assert AnchorAt(s, 1);
    } else {
      ScanFindsAnchor(t);
      var k :| 0 < k && AnchorAt(t, k) && DockerNext(t[k..]);
      assert s[k + 1..] == t[k..];
      assert AnchorAt(s, k + 1);
    }
  }

  lemma {:induction false} AnchorIsScanned(s: string, k: int)
    requires 0 < k && AnchorAt(s, k) && DockerNext(s[k..])
    ensures Scan(s)
    decreases |s|
  {
    var t := s[1..];
    if k == 1 {
      assert s[1..] == t;
    } else {
      assert t[k - 1..] == s[k..];
      assert AnchorAt(t, k - 1);
      AnchorIsScanned(t, k - 1);
    }
  }

  /** The scanner rejects a line exactly when the regular expression of `check_sudo` matches it. */
  lemma RejectsIffPattern(s: string)
    ensures Rejects(s) <==> PatternMatches(s)
  {
    DockerNextIff(s);
    ScanIff(s);
    if Rejects(s) {
      if DockerNext(s) {
        var j :| SpacedDockerAt(s, 0, j);
        assert AnchorAt(s, 0);
      } else {
        var k :| 0 < k && AnchorAt(s, k) && DockerNext(s[k..]);
        DockerNextIff(s[k..]);
        SpacedDockerShift(s, k);
        var j :| SpacedDockerAt(s, k, j);
      }
    }
    if PatternMatches(s) {
      var k, j :| AnchorAt(s, k) && SpacedDockerAt(s, k, j);
      SpacedDockerShift(s, k);
      DockerNextIff(s[k..]);
      if k == 0 {
        assert s[0..] == s;
      }
    }
  }

  // ---------------------------------------------------------------------------
  // check_sudo over a line or a (nested) list of lines

  /** The argument `sh` receives: one command line, or a list, tuple or generator of arguments. */
  datatype ShellArg = Line(text: string) | Batch(items: seq<ShellArg>)

  /** What `check_sudo` does: return '' (a line), return None (a list), or raise for a line. */
  datatype Verdict = Blank | NoValue | Raised(offending: string)

  /** The command lines of an argument, depth first. */
  function LinesOf(a: ShellArg): seq<string>
    decreases a
  {
    match a
    case Line(t) => [t]
    case Batch(items) => LinesOfAll(items)
  }

  function LinesOfAll(items: seq<ShellArg>): seq<string>
    decreases items
  {
    if items == [] then [] else LinesOf(items[0]) + LinesOfAll(items[1..])
  }

  /** Some line of `lines` is rejected. */
  ghost predicate AnyRejected(lines: seq<string>) {
    exists i :: 0 <= i < |lines| && Rejects(lines[i])
  }

  lemma AnyRejectedAppend(a: seq<string>, b: seq<string>)
    ensures AnyRejected(a + b) <==> AnyRejected(a) || AnyRejected(b)
  {
    if AnyRejected(a) {
      var i :| 0 <= i < |a| && Rejects(a[i]);
      assert (a + b)[i] == a[i];
    }
    if AnyRejected(b) {
      var i :| 0 <= i < |b| && Rejects(b[i]);
      assert (a + b)[|a| + i] == b[i];
    }
    if AnyRejected(a + b) {
      var i :| 0 <= i < |a + b| && Rejects((a + b)[i]);
      if i < |a| {
        assert (a + b)[i] == a[i];
      } else {
        assert (a + b)[i] == b[i - |a|];
      }
    }
  }

  /** `i` is the first rejected line in `lines`. */
  ghost predicate FirstRejected(lines: seq<string>, i: int) {
    && 0 <= i < |lines|
    && Rejects(lines[i])
    && forall j :: 0 <= j < i ==> !Rejects(lines[j])
  }

  /** A first rejected line of `a` stays first when more lines follow. */
  lemma FirstRejectedBefore(a: seq<string>, b: seq<string>, x: string)
    requires exists k :: FirstRejected(a, k) && a[k] == x
    ensures exists i :: FirstRejected(a + b, i) && (a + b)[i] == x
  {
    var k :| FirstRejected(a, k) && a[k] == x;
    assert (a + b)[k] == a[k];
    assert FirstRejected(a + b, k);
  }

  /** A first rejected line of `b` stays first after a prefix `a` with no rejected line. */
  lemma FirstRejectedAfter(a: seq<string>, b: seq<string>, x: string)
    requires forall i :: 0 <= i < |a| ==> !Rejects(a[i])
    requires exists k :: FirstRejected(b, k) && b[k] == x
    ensures exists i :: FirstRejected(a + b, i) && (a + b)[i] == x
  {
    var k :| FirstRejected(b, k) && b[k] == x;
    assert FirstRejected(a + b, |a| + k);
  }

  /** testing.py `check_sudo`: every element is checked in order and the first rejected line raises. */
  function CheckSudo(a: ShellArg): (v: Verdict)
    ensures v.Raised? <==> AnyRejected(LinesOf(a))
    ensures v.Raised? ==> exists i :: FirstRejected(LinesOf(a), i) && LinesOf(a)[i] == v.offending
    ensures !v.Raised? ==> (v == Blank <==> a.Line?)
    decreases a
  {
    match a
    case Line(t) =>
      assert LinesOf(a)[0] == t;
      if Rejects(t) then Raised(t) else Blank
    case Batch(items) =>
      assert LinesOf(a) == LinesOfAll(items);
      CheckSudoAll(items)
  }

  function CheckSudoAll(items: seq<ShellArg>): (v: Verdict)
    ensures v.Raised? <==> AnyRejected(LinesOfAll(items))
    ensures v.Raised? ==> exists i :: FirstRejected(LinesOfAll(items), i) && LinesOfAll(items)[i] == v.offending
    ensures !v.Raised? ==> v == NoValue
    decreases items
  {
    if items == [] then NoValue
    else
      var head := CheckSudo(items[0]);
      var rest := CheckSudoAll(items[1..]);
      var lines := LinesOfAll(items);
      assert lines == LinesOf(items[0]) + LinesOfAll(items[1..]);
      AnyRejectedAppend(LinesOf(items[0]), LinesOfAll(items[1..]));
      if head.Raised? then
        FirstRejectedBefore(LinesOf(items[0]), LinesOfAll(items[1..]), head.offending);
        head
      else if rest.Raised? then
        FirstRejectedAfter(LinesOf(items[0]), LinesOfAll(items[1..]), rest.offending);
        rest
      else
        NoValue
  }
}
