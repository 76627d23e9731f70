/** String helpers shared by the models: the parts of JavaScript's string library the sources lean on. */
module Text {
  import opened Options

  /** The characters that `\s` and `trim` treat as blank (ASCII, no-break space, the Unicode separators, BOM). */
  predicate IsBlank(c: char) {
    || c == ' ' || ('\t' <= c <= '\r') || c == '\U{00A0}' || c == '\U{1680}' || ('\U{2000}' <= c <= '\U{200A}')
    || c == '\U{2028}' || c == '\U{2029}' || c == '\U{202F}' || c == '\U{205F}' || c == '\U{3000}' || c == '\U{FEFF}'
  }

  const BLANKS :=
    "\t\n\U{000B}\U{000C}\r \U{00A0}\U{1680}"
    + "\U{2000}\U{2001}\U{2002}\U{2003}\U{2004}\U{2005}\U{2006}\U{2007}\U{2008}\U{2009}\U{200A}"
    + "\U{2028}\U{2029}\U{202F}\U{205F}\U{3000}\U{FEFF}"

  /** White space and line terminators as sections 12.2 and 12.3 of ECMA-262 list them. */
  lemma BlankMeans(c: char)
    ensures IsBlank(c) <==> c in BLANKS
  {
  }

  function SkipBlanks(s: string): (r: string)
    ensures |r| <= |s|
    ensures r != [] ==> !IsBlank(r[0])
  {
    if s != [] && IsBlank(s[0]) then SkipBlanks(s[1..]) else s
  }

  function DropTrailingBlanks(s: string): (r: string)
    ensures r <= s
  {
    if s != [] && IsBlank(s[|s| - 1]) then DropTrailingBlanks(s[..|s| - 1]) else s
  }

  function Trim(s: string): string {
    DropTrailingBlanks(SkipBlanks(s))
  }

  predicate AllBlank(s: string) { forall i :: 0 <= i < |s| ==> IsBlank(s[i]) }

  lemma {:induction false} SkipsBlanksOnly(s: string) returns (blanks: string)
    ensures AllBlank(blanks) && s == blanks + SkipBlanks(s)
  {
    if s != [] && IsBlank(s[0]) {
      var more := SkipsBlanksOnly(s[1..]);
      blanks := [s[0]] + more;
    } else {
      blanks := [];
    }
  }

  lemma {:induction false} DropsBlanksOnly(s: string) returns (blanks: string)
    ensures AllBlank(blanks) && s == DropTrailingBlanks(s) + blanks
    ensures var r := DropTrailingBlanks(s); r != [] ==> !IsBlank(r[|r| - 1]) && r[0] == s[0]
  {
    if s != [] && IsBlank(s[|s| - 1]) {
      var more := DropsBlanksOnly(s[..|s| - 1]);
      blanks := more + [s[|s| - 1]];
    } else {
      blanks := [];
    }
  }

  /** Trimming takes blanks off both ends, and all of them: what is left neither begins nor ends with one. */
  lemma TrimMeans(s: string) returns (before: string, after: string)
    ensures s == before + Trim(s) + after && AllBlank(before) && AllBlank(after)
    ensures var t := Trim(s); t != [] ==> !IsBlank(t[0]) && !IsBlank(t[|t| - 1])
  {
    before := SkipsBlanksOnly(s);
    after := DropsBlanksOnly(SkipBlanks(s));
    assert s == before + (Trim(s) + after);
  }

  lemma {:induction false} SkipsAll(blanks: string, rest: string)
    requires AllBlank(blanks) && (rest != [] ==> !IsBlank(rest[0]))
    ensures SkipBlanks(blanks + rest) == rest
  {
    if blanks == [] {
      assert blanks + rest == rest;
    } else {
      assert (blanks + rest)[1..] == blanks[1..] + rest;
      SkipsAll(blanks[1..], rest);
    }
  }

  lemma {:induction false} DropsAll(rest: string, blanks: string)
    requires AllBlank(blanks) && (rest != [] ==> !IsBlank(rest[|rest| - 1]))
    ensures DropTrailingBlanks(rest + blanks) == rest
  {
    if blanks == [] {
      assert rest + blanks == rest;
    } else {
      var s := rest + blanks;
      assert s[..|s| - 1] == rest + blanks[..|blanks| - 1];
      DropsAll(rest, blanks[..|blanks| - 1]);
    }
  }

  lemma TrimsTo(before: string, s: string, after: string)
    requires AllBlank(before) && AllBlank(after) && s != [] && !IsBlank(s[0]) && !IsBlank(s[|s| - 1])
    ensures Trim(before + s + after) == s
  {
    assert before + s + after == before + (s + after);
    SkipsAll(before, s + after);
    DropsAll(s, after);
  }

  /** Nothing is left exactly when there is nothing but blanks. */
  lemma NothingLeftMeans(s: string)
    ensures Trim(s) == "" <==> forall c :: c in s ==> IsBlank(c)
  {
    var before, after := TrimMeans(s);
    var t := Trim(s);
    if t == "" {
      assert s == before + after;
    } else {
      assert t[0] in t && t[0] in s;
    }
  }

  predicate StartsWith(s: string, prefix: string) {
    prefix <= s
  }

  predicate EndsWith(s: string, suffix: string) {
    |suffix| <= |s| && s[|s| - |suffix|..] == suffix
  }

  predicate Includes(s: string, part: string) {
    part <= s || (s != [] && Includes(s[1..], part))
  }

  predicate IsAt(s: string, part: string, k: nat) {
    k + |part| <= |s| && s[k..k + |part|] == part
  }

  lemma {:induction false} IncludedIsAt(s: string, part: string) returns (k: nat)
    requires Includes(s, part)
    ensures IsAt(s, part, k)
  {
    k := 0;
    if !(part <= s) {
      k := IncludedIsAt(s[1..], part);
      assert s[1..][k..k + |part|] == s[k + 1..k + 1 + |part|];
      k := k + 1;
    }
  }

  lemma {:induction false} AtIsIncluded(s: string, part: string, k: nat)
    requires IsAt(s, part, k)
    ensures Includes(s, part)
  {
    if k == 0 {
      assert part <= s;
    } else {
      assert s[1..][k - 1..k - 1 + |part|] == s[k..k + |part|];
      AtIsIncluded(s[1..], part, k - 1);
    }
  }

  /** The text is somewhere in the other one. */
  lemma IncludesMeans(s: string, part: string)
    ensures Includes(s, part) <==> exists k: nat :: IsAt(s, part, k)
  {
    if Includes(s, part) { var k := IncludedIsAt(s, part); }
    if k: nat :| IsAt(s, part, k) { AtIsIncluded(s, part, k); }
  }

  /** `sha256:` and 64 lower-case hexadecimal digits. */
  predicate IsSha256(s: string) {
    |s| == 71 && s[..7] == "sha256:" && forall i :: 7 <= i < 71 ==> '0' <= s[i] <= '9' || 'a' <= s[i] <= 'f'
  }

  /** 40 lower-case hexadecimal digits. */
  predicate IsGitRevision(s: string) {
    |s| == 40 && forall i :: 0 <= i < 40 ==> '0' <= s[i] <= '9' || 'a' <= s[i] <= 'f'
  }

  predicate IsAlphanumeric(c: char) { '0' <= c <= '9' || 'A' <= c <= 'Z' || 'a' <= c <= 'z' }

  /** A letter or digit, then up to 127 letters, digits or `._:@/+-`. */
  predicate IsRuntimeRevision(s: string) {
    && 1 <= |s| <= 128 && IsAlphanumeric(s[0])
    && forall i :: 1 <= i < |s| ==> IsAlphanumeric(s[i]) || s[i] in "._:@/+-"
  }

  /** Splits at the first `=`: everything before it, and everything after it. */
  function SplitAssignment(s: string): Option<(string, string)> {
    if s == [] then None
    else if s[0] == '=' then Some(([], s[1..]))
    else
      var rest := SplitAssignment(s[1..]);
      if rest.None? then None else Some(([s[0]] + rest.value.0, rest.value.1))
  }

  lemma {:induction false} SplitJoinedAssignment(name: string, value: string)
    requires '=' !in name
    ensures SplitAssignment(name + "=" + value) == Some((name, value))
  {
    var s := name + "=" + value;
    if name == [] {
      assert s[1..] == value;
    } else {
      assert s[1..] == name[1..] + "=" + value && s[0] == name[0];
      SplitJoinedAssignment(name[1..], value);
      assert name == [name[0]] + name[1..];
    }
  }

  /** Lexicographic order by character code: that of `localeCompare` on the digit and hex strings compared here. */
  predicate Before(a: string, b: string) {
    b != [] && (a == [] || a[0] < b[0] || (a[0] == b[0] && Before(a[1..], b[1..])))
  }

  /** The two agree up to some point; there the first one ends and the second goes on, or has the smaller character. */
  predicate DifferAt(a: string, b: string, k: nat) {
    k <= |a| && k < |b| && a[..k] == b[..k] && (k == |a| || a[k] < b[k])
  }

  lemma {:induction false} BeforeMeans(a: string, b: string)
    ensures Before(a, b) <==> exists k: nat :: DifferAt(a, b, k)
  {
    if b != [] && (a == [] || a[0] < b[0]) {
      assert DifferAt(a, b, 0);
    } else if b != [] && a[0] == b[0] {
      BeforeMeans(a[1..], b[1..]);
      if Before(a, b) {
        var k: nat :| DifferAt(a[1..], b[1..], k);
        assert a[..k + 1] == [a[0]] + a[1..][..k] && b[..k + 1] == [b[0]] + b[1..][..k];
        assert DifferAt(a, b, k + 1);
      }
      if k: nat :| DifferAt(a, b, k) {
        assert a[1..][..k - 1] == a[..k][1..] && b[1..][..k - 1] == b[..k][1..];
        assert DifferAt(a[1..], b[1..], k - 1);
      }
    } else if b != [] {
      forall k: nat ensures !DifferAt(a, b, k) {
        if k > 0 && k <= |a| && k < |b| { assert a[..k][0] == a[0] && b[..k][0] == b[0]; }
      }
    }
  }

  lemma {:induction false} BeforeIsStrict(a: string, b: string)
    ensures !(Before(a, b) && Before(b, a))
    ensures a != b ==> Before(a, b) || Before(b, a)
    ensures !Before(a, a)
  {
    if a != [] && b != [] {
      BeforeIsStrict(a[1..], b[1..]);
      assert a == [a[0]] + a[1..] && b == [b[0]] + b[1..];
    }
    if a != [] {
      BeforeIsStrict(a[1..], a[1..]);
    }
  }

  lemma {:induction false} BeforeIsTransitive(a: string, b: string, c: string)
    requires Before(a, b) && Before(b, c)
    ensures Before(a, c)
  {
    if a != [] && a[0] == b[0] == c[0] {
      BeforeIsTransitive(a[1..], b[1..], c[1..]);
    }
  }

  /** Every carriage return followed by a line feed becomes the line feed alone. */
  function UnixLines(s: string): string {
    if s == [] then []
    else if |s| > 1 && s[0] == '\r' && s[1] == '\n' then ['\n'] + UnixLines(s[2..])
    else [s[0]] + UnixLines(s[1..])
  }

  predicate OneLine(s: string) { '\n' !in s }

  /** `split("\n")`: never empty, and no piece holds a line feed. */
  function Split(s: string): (lines: seq<string>)
    ensures lines != []
  {
    if s == [] then [[]]
    else if s[0] == '\n' then [[]] + Split(s[1..])
    else
      var rest := Split(s[1..]);
      [[s[0]] + rest[0]] + rest[1..]
  }

  /** `join("\n")` */
  function Join(lines: seq<string>): string {
    if lines == [] then [] else if |lines| == 1 then lines[0] else lines[0] + "\n" + Join(lines[1..])
  }

  ghost predicate OneLiners(lines: seq<string>) {
    forall i :: 0 <= i < |lines| ==> OneLine(lines[i])
  }

  lemma {:induction false} SplitGivesOneLiners(s: string)
    ensures OneLiners(Split(s))
  {
    if s != [] { SplitGivesOneLiners(s[1..]); }
  }

  lemma {:induction false} SplitAfterLine(a: string, rest: string)
    requires OneLine(a)
    ensures Split(a + "\n" + rest) == [a] + Split(rest)
  {
    var s := a + "\n" + rest;
    if a == [] {
      assert s[1..] == rest;
    } else {
      assert s[1..] == a[1..] + "\n" + rest && s[0] == a[0];
      SplitAfterLine(a[1..], rest);
      assert a == [a[0]] + a[1..];
    }
  }

  lemma {:induction false} SplitOneLine(a: string)
    requires OneLine(a)
    ensures Split(a) == [a]
  {
    if a != [] {
      SplitOneLine(a[1..]);
      assert a == [a[0]] + a[1..];
    }
  }

  lemma {:induction false} SplitJoined(lines: seq<string>)
    requires lines != [] && OneLiners(lines)
    ensures Split(Join(lines)) == lines
  {
    if |lines| == 1 {
      SplitOneLine(lines[0]);
    } else {
      SplitJoined(lines[1..]);
      SplitAfterLine(lines[0], Join(lines[1..]));
    }
  }

  function StripReturn(a: string): string {
    if EndsWith(a, "\r") then a[..|a| - 1] else a
  }

  lemma UnixStep(c: char, s: string)
    requires !(c == '\r' && s != [] && s[0] == '\n')
    ensures UnixLines([c] + s) == [c] + UnixLines(s)
  {
    assert ([c] + s)[1..] == s;
  }

  lemma UnixReturn(s: string)
    ensures UnixLines(['\r', '\n'] + s) == ['\n'] + UnixLines(s)
  {
    assert (['\r', '\n'] + s)[2..] == s;
  }

  lemma StripStep(c: char, s: string)
    requires s != []
    ensures StripReturn([c] + s) == [c] + StripReturn(s)
  {
  }

  /** What becomes of a line that is followed by another. */
  function UnixLine(a: string, after: string): string { StripReturn(a) + (['\n'] + after) }

  lemma UnixLineStep(c: char, a: string, after: string)
    requires a != []
    ensures UnixLine([c] + a, after) == [c] + UnixLine(a, after)
  {
    StripStep(c, a);
  }

  lemma UnixShortLine(a: string, rest: string)
    requires OneLine(a) && |a| <= 1
    ensures UnixLines(a + (['\n'] + rest)) == UnixLine(a, UnixLines(rest))
  {
    var after := ['\n'] + rest;
    UnixStep('\n', rest);
    if a == [] {
      assert a + after == after;
    } else if a[0] == '\r' {
      assert a + after == ['\r', '\n'] + rest;
      UnixReturn(rest);
    } else {
      assert a == [a[0]];
      UnixStep(a[0], after);
    }
  }

  lemma UnixLongerLine(c: char, a: string, after: string, next: string)
    requires a != [] && OneLine(a) && UnixLines(a + after) == UnixLine(a, next)
    ensures UnixLines(([c] + a) + after) == UnixLine([c] + a, next)
  {
    assert a[0] in a && (a + after)[0] == a[0];
    assert ([c] + a) + after == [c] + (a + after);
    UnixStep(c, a + after);
    UnixLineStep(c, a, next);
  }

  lemma {:induction false} UnixAfterLine(a: string, rest: string)
    requires OneLine(a)
    ensures UnixLines(a + (['\n'] + rest)) == UnixLine(a, UnixLines(rest))
  {
    if |a| <= 1 {
      UnixShortLine(a, rest);
    } else {
      var tail := a[1..];
      UnixAfterLine(tail, rest);
      UnixLongerLine(a[0], tail, ['\n'] + rest, UnixLines(rest));
      assert a == [a[0]] + tail;
    }
  }

  lemma {:induction false} UnixOneLine(a: string)
    requires OneLine(a)
    ensures UnixLines(a) == a
  {
    if a != [] {
      UnixOneLine(a[1..]);
      assert a == [a[0]] + a[1..];
    }
  }

  /** Every line but the last loses one carriage return at its end. */
  function Stripped(lines: seq<string>): seq<string> {
    if |lines| <= 1 then lines else [StripReturn(lines[0])] + Stripped(lines[1..])
  }

  lemma JoinStep(first: string, rest: seq<string>)
    requires rest != []
    ensures Join([first] + rest) == first + (['\n'] + Join(rest))
  {
    assert ([first] + rest)[1..] == rest;
  }

  lemma SplitUnixLine(a: string, after: string)
    requires OneLine(a)
    ensures Split(UnixLine(a, after)) == [StripReturn(a)] + Split(after)
  {
    assert UnixLine(a, after) == StripReturn(a) + "\n" + after;
    SplitAfterLine(StripReturn(a), after);
  }

  lemma {:induction false} UnixJoined(lines: seq<string>)
    requires lines != [] && OneLiners(lines)
    ensures Split(UnixLines(Join(lines))) == Stripped(lines)
  {
    if |lines| == 1 {
      UnixOneLine(lines[0]);
      SplitOneLine(lines[0]);
    } else {
      var first, rest := lines[0], lines[1..];
      assert lines == [first] + rest;
      JoinStep(first, rest);
      UnixAfterLine(first, Join(rest));
      UnixJoined(rest);
      SplitUnixLine(first, UnixLines(Join(rest)));
    }
  }
}
