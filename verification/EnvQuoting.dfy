/**
 The environment file a registered runner leaves behind: values are quoted by four replacements one after the other, and
 a shell that reads the file gets every value back (double-quotes, section 2.2.3 of the POSIX.1-2017 Shell Command
 Language).
 */
module EnvQuoting {
  import opened Options
  import opened Text

  /** `replace(/c/g, "\c")` */
  function Prefixed(s: string, c: char): string {
    if s == [] then [] else (if s[0] == c then ['\\', c] else [s[0]]) + Prefixed(s[1..], c)
  }

  /** `quoteEnvValue`: backslashes first, then double quotes, dollar signs and backquotes. */
  function Quote(value: string): string {
    "\"" + Prefixed(Prefixed(Prefixed(Prefixed(value, '\\'), '"'), '$'), '`') + "\""
  }

  predicate Special(c: char) { c == '\\' || c == '"' || c == '$' || c == '`' }

  /** All four at once. */
  function OnePass(s: string): string {
    if s == [] then [] else (if Special(s[0]) then ['\\', s[0]] else [s[0]]) + OnePass(s[1..])
  }

  lemma {:induction false} PrefixedConcat(a: string, b: string, c: char)
    ensures Prefixed(a + b, c) == Prefixed(a, c) + Prefixed(b, c)
  {
    if a == [] {
      assert a + b == b;
    } else {
      assert (a + b)[1..] == a[1..] + b;
      PrefixedConcat(a[1..], b, c);
    }
  }

  lemma PrefixedPair(x: char, y: char, c: char)
    ensures Prefixed([x], c) == if x == c then ['\\', c] else [x]
    ensures Prefixed([x, y], c) == Prefixed([x], c) + Prefixed([y], c)
  {
    assert [x][1..] == [] && [y][1..] == [] && [x, y][1..] == [y];
    assert Prefixed([], c) == [];
  }

  /** A later replacement leaves the backslashes of an earlier one alone: backslashes are replaced first. */
  lemma EscapedStays(x: char, c: char)
    requires c != '\\' && x != c
    ensures Prefixed(['\\', x], c) == ['\\', x]
  {
    PrefixedPair('\\', x, c);
    PrefixedPair(x, x, c);
  }

  function FourPasses(s: string): string {
    Prefixed(Prefixed(Prefixed(Prefixed(s, '\\'), '"'), '$'), '`')
  }

  lemma FourPassesOfOne(x: char)
    ensures FourPasses([x]) == if Special(x) then ['\\', x] else [x]
  {
    PrefixedPair(x, x, '\\');
    PrefixedPair(x, x, '"');
    PrefixedPair(x, x, '$');
    PrefixedPair(x, x, '`');
    if x == '\\' {
      EscapedStays('\\', '"');
      EscapedStays('\\', '$');
      EscapedStays('\\', '`');
    } else if x == '"' {
      EscapedStays('"', '$');
      EscapedStays('"', '`');
    } else if x == '$' {
      EscapedStays('$', '`');
    }
  }

  lemma FourPassesConcat(a: string, b: string)
    ensures FourPasses(a + b) == FourPasses(a) + FourPasses(b)
  {
    PrefixedConcat(a, b, '\\');
    var a1, b1 := Prefixed(a, '\\'), Prefixed(b, '\\');
    PrefixedConcat(a1, b1, '"');
    var a2, b2 := Prefixed(a1, '"'), Prefixed(b1, '"');
    PrefixedConcat(a2, b2, '$');
    PrefixedConcat(Prefixed(a2, '$'), Prefixed(b2, '$'), '`');
  }

  /** The four successive replacements are the single pass. */
  lemma {:induction false} FourPassesAreOne(s: string)
    ensures FourPasses(s) == OnePass(s)
  {
    if s != [] {
      assert s == [s[0]] + s[1..];
      FourPassesConcat([s[0]], s[1..]);
      FourPassesOfOne(s[0]);
      FourPassesAreOne(s[1..]);
    }
  }

  /** In another order they are not: quotes first and backslashes after them escape the quotes' own backslashes. */
  lemma {:induction false} OrderMatters(s: string)
    ensures Prefixed(Prefixed(s, '"'), '\\') == Prefixed(Prefixed(s, '\\'), '"') <==> '"' !in s
  {
    QuotesFirst(s);
    if '"' !in s {
      NothingToPrefix(s, '"');
      PrefixedKeepsOut(s);
      NothingToPrefix(Prefixed(s, '\\'), '"');
    }
  }

  lemma {:induction false} NothingToPrefix(s: string, c: char)
    requires c !in s
    ensures Prefixed(s, c) == s
  {
    if s != [] { NothingToPrefix(s[1..], c); }
  }

  lemma {:induction false} PrefixedKeepsOut(s: string)
    requires '"' !in s
    ensures '"' !in Prefixed(s, '\\')
  {
    if s != [] { PrefixedKeepsOut(s[1..]); }
  }

  function Count(s: string, c: char): nat {
    if s == [] then 0 else (if s[0] == c then 1 else 0) + Count(s[1..], c)
  }

  /** The wrong order makes the text longer by one backslash for every quote. */
  lemma {:induction false} QuotesFirst(s: string)
    ensures |Prefixed(Prefixed(s, '"'), '\\')| == |Prefixed(Prefixed(s, '\\'), '"')| + Count(s, '"')
    ensures Count(s, '"') == 0 <==> '"' !in s
  {
    if s != [] {
      QuotesFirst(s[1..]);
      var head, rest := [s[0]], s[1..];
      PrefixedPair(s[0], s[0], '"');
      PrefixedPair(s[0], s[0], '\\');
      PrefixedPair('\\', s[0], '\\');
      PrefixedPair('\\', s[0], '"');
      PrefixedPair(s[0], s[0], '"');
      PrefixedConcat(Prefixed(head, '"'), Prefixed(rest, '"'), '\\');
      PrefixedConcat(Prefixed(head, '\\'), Prefixed(rest, '\\'), '"');
    }
  }

  // ------------------------------------------------------------------------------------------------------ the shell

  /** What a backslash escapes inside double quotes. */
  predicate Escapable(c: char) { c == '$' || c == '`' || c == '"' || c == '\\' || c == '\n' }

  datatype Word = Word(text: string, rest: string)

  function Prepended(c: char, w: Option<Word>): Option<Word> {
    if w.None? then None else Some(Word([c] + w.value.text, w.value.rest))
  }

  /**
   The rest of a double-quoted word and what follows it. None when the word does not end, or when it holds an expansion
   or a command substitution: then its text is not literal.
   */
  function ReadQuoted(s: string): (w: Option<Word>)
    ensures w.Some? ==> |w.value.rest| < |s|
    decreases |s|
  {
    if s == [] then None
    else if s[0] == '"' then Some(Word([], s[1..]))
    else if s[0] == '$' || s[0] == '`' then None
    else if s[0] == '\\' && |s| > 1 && Escapable(s[1]) then
      if s[1] == '\n' then ReadQuoted(s[2..]) else Prepended(s[1], ReadQuoted(s[2..]))
    else Prepended(s[0], ReadQuoted(s[1..]))
  }

  lemma ReadEscaped(c: char, s: string)
    requires Special(c)
    ensures ReadQuoted(['\\', c] + s) == Prepended(c, ReadQuoted(s))
  {
    assert (['\\', c] + s)[2..] == s;
  }

  lemma ReadPlain(c: char, s: string)
    requires !Special(c)
    ensures ReadQuoted([c] + s) == Prepended(c, ReadQuoted(s))
  {
    assert ([c] + s)[1..] == s;
  }

  lemma ReadEnd(rest: string)
    ensures ReadQuoted("\"" + rest) == Some(Word("", rest))
  {
    assert ("\"" + rest)[1..] == rest;
  }

  lemma OnePassThen(value: string, after: string)
    requires value != []
    ensures OnePass(value) + after ==
            (if Special(value[0]) then ['\\', value[0]] else [value[0]]) + (OnePass(value[1..]) + after)
  {
  }

  /** Reading what was quoted gives the value back, whatever it holds and whatever follows. */
  lemma {:induction false} QuotedReadsBack(value: string, rest: string)
    ensures ReadQuoted(OnePass(value) + ("\"" + rest)) == Some(Word(value, rest))
  {
    if value == [] {
      assert OnePass(value) + ("\"" + rest) == "\"" + rest;
      ReadEnd(rest);
    } else {
      QuotedReadsBack(value[1..], rest);
      OnePassThen(value, "\"" + rest);
      var tail := OnePass(value[1..]) + ("\"" + rest);
      if Special(value[0]) { ReadEscaped(value[0], tail); } else { ReadPlain(value[0], tail); }
      assert value == [value[0]] + value[1..];
    }
  }

  // ------------------------------------------------------------------------------------------------------- the file

  datatype Setting = Setting(key: string, value: string)

  /** `envLine` */
  function Line(s: Setting): string { s.key + "=" + Quote(s.value) }

  function FileOf(settings: seq<Setting>): string {
    if settings == [] then "" else Line(settings[0]) + "\n" + FileOf(settings[1..])
  }

  /** Optional settings that are set to something other than blanks, trimmed. */
  function Present(optional: seq<(string, Option<string>)>): seq<Setting> {
    if optional == [] then []
    else
      var (key, value) := optional[|optional| - 1];
      Present(optional[..|optional| - 1])
      + if value.Some? && Trim(value.value) != "" then [Setting(key, Trim(value.value))] else []
  }

  /** `buildPersistedRunnerEnv`: the required lines, then one for every optional setting that is present. */
  method BuildPersistedEnv(required: seq<Setting>, optional: seq<(string, Option<string>)>) returns (content: string)
    requires required != []
    ensures content == FileOf(required + Present(optional))
  {
    var lines: seq<string> := [];
    for i := 0 to |required|
      invariant lines == LinesOf(required[..i])
    {
      assert required[..i + 1] == required[..i] + [required[i]];
      LinesConcat(required[..i], [required[i]]);
      LinesOfOne(required[i]);
      lines := lines + [Line(required[i])];
    }
    assert required[..|required|] == required && required + Present(optional[..0]) == required;
    for i := 0 to |optional|
      invariant lines == LinesOf(required + Present(optional[..i]))
    {
      assert optional[..i + 1][..i] == optional[..i];
      var value := if optional[i].1.Some? then Trim(optional[i].1.value) else "";
      if value != "" {
        var s := Setting(optional[i].0, value);
        assert required + Present(optional[..i + 1]) == (required + Present(optional[..i])) + [s];
        LinesConcat(required + Present(optional[..i]), [s]);
        LinesOfOne(s);
        lines := lines + [Line(s)];
      } else {
        assert Present(optional[..i + 1]) == Present(optional[..i]);
      }
    }
    assert optional[..|optional|] == optional;
    content := Join(lines) + "\n";
    JoinedIsFile(required + Present(optional));
  }

  function LinesOf(settings: seq<Setting>): seq<string> {
    if settings == [] then [] else [Line(settings[0])] + LinesOf(settings[1..])
  }

  lemma LinesOfOne(s: Setting)
    ensures LinesOf([s]) == [Line(s)]
  {
    assert LinesOf([s][1..]) == [];
  }

  lemma {:induction false} LinesConcat(a: seq<Setting>, b: seq<Setting>)
    ensures LinesOf(a + b) == LinesOf(a) + LinesOf(b)
  {
    if a == [] {
      assert a + b == b;
    } else {
      assert (a + b)[1..] == a[1..] + b;
      LinesConcat(a[1..], b);
    }
  }

  lemma {:induction false} JoinedIsFile(settings: seq<Setting>)
    requires settings != []
    ensures Join(LinesOf(settings)) + "\n" == FileOf(settings)
  {
    if |settings| == 1 {
      assert LinesOf(settings) == [Line(settings[0])];
      assert FileOf(settings[1..]) == "";
    } else {
      JoinedIsFile(settings[1..]);
      assert LinesOf(settings)[1..] == LinesOf(settings[1..]);
    }
  }

  /** The shell's reading of such a file: one assignment of a double-quoted word per line. */
  function ReadFile(s: string): Option<seq<Setting>>
    decreases |s|
  {
    if s == [] then Some([])
    else
      var split := SplitAssignment(s);
      if split.None? || split.value.1 == "" || split.value.1[0] != '"' || |split.value.1| > |s| then None
      else
        var word := ReadQuoted(split.value.1[1..]);
        if word.None? || word.value.rest == "" || word.value.rest[0] != '\n' then None
        else
          var more := ReadFile(word.value.rest[1..]);
          if more.None? then None else Some([Setting(split.value.0, word.value.text)] + more.value)
  }

  lemma LineReadsBack(s: Setting, rest: string)
    requires '=' !in s.key
    ensures ReadFile(Line(s) + "\n" + rest) ==
            if ReadFile(rest).None? then None else Some([s] + ReadFile(rest).value)
  {
    FourPassesAreOne(s.value);
    var body := OnePass(s.value) + ("\"" + ("\n" + rest));
    assert Line(s) + "\n" + rest == s.key + "=" + ("\"" + body);
    SplitJoinedAssignment(s.key, "\"" + body);
    assert ("\"" + body)[1..] == body;
    QuotedReadsBack(s.value, "\n" + rest);
    assert ("\n" + rest)[1..] == rest;
  }

  /** The file reads back: the same settings with the same values in the same order, line breaks in values included. */
  lemma {:induction false} FileReadsBack(settings: seq<Setting>)
    requires forall i :: 0 <= i < |settings| ==> '=' !in settings[i].key
    ensures ReadFile(FileOf(settings)) == Some(settings)
  {
    if settings != [] {
      assert forall i :: 0 <= i < |settings[1..]| ==> settings[1..][i] == settings[i + 1];
      FileReadsBack(settings[1..]);
      LineReadsBack(settings[0], FileOf(settings[1..]));
      assert settings == [settings[0]] + settings[1..];
    }
  }
}
