/** Two specs whose models differ, on an empty home: the second crashes, and the first one's marker stays behind. */
module ProjectionExample {
  import opened Options
  import opened Text
  import opened HermesProjection
  import C = ConfigTree
  import E = EnvFile
  import X = ConfigExample

  const ENV: E.EnvSpec := E.ManagedEnv(E.OpenAi("k"), "t", "u", "a")

  function SpecFor(model: string, marker: string): Spec { Spec(ENV, "openai", model, "prompt", marker) }

  lemma {:induction false} JoinedLength(lines: seq<string>, most: nat)
    requires forall i :: 0 <= i < |lines| ==> |lines[i]| <= most
    ensures |Join(lines)| <= |lines| * (most + 1)
  {
    if |lines| > 1 {
      JoinedLength(lines[1..], most);
    }
  }

  lemma ShortLine(p: E.Pair)
    requires |p.key| <= 40 && |p.text| <= 40
    ensures |E.LineOf(p)| <= 81
  {
  }

  lemma QuotedIsShort(s: string)
    requires |s| == 1
    ensures |E.Quoted(s)| <= 4
  {
    assert s[1..] == [] && E.Escaped(s[1..]) == [];
  }

  lemma PairsAreShort()
    ensures forall i :: 0 <= i < |E.RenderedPairs(ENV)| ==>
              |E.RenderedPairs(ENV)[i].key| <= 40 && |E.RenderedPairs(ENV)[i].text| <= 40
    ensures |E.RenderedPairs(ENV)| == 9
  {
    QuotedIsShort("k");
    QuotedIsShort("t");
    QuotedIsShort("u");
    QuotedIsShort("a");
  }

  lemma RenderedIsShort()
    ensures E.ValuesAllowed(ENV) && E.Utf8Size(E.Rendered(ENV)) <= E.MAX_ENV_BYTES
  {
    var pairs := E.RenderedPairs(ENV);
    var lines := E.LinesOf(pairs);
    PairsAreShort();
    E.RenderedIsGood(ENV);
    E.RenderedLines(pairs, E.Owned(ENV));
    forall i | 0 <= i < |lines + [""]| ensures |(lines + [""])[i]| <= 81 {
      if i < |lines| { ShortLine(pairs[i]); }
    }
    JoinedLength(lines + [""], 81);
    E.SizeIsBounded(E.Rendered(ENV));
  }

  lemma EnvMerges()
    ensures E.Merge("", ENV).Ok? && E.Utf8Size(E.Merge("", ENV).value) <= E.MAX_ENV_BYTES
    ensures E.Merge(E.Merge("", ENV).value, ENV).Ok?
  {
    RenderedIsShort();
    EmptyMerges(ENV);
  }

  lemma EmptyMerges(env: E.EnvSpec)
    requires E.ValuesAllowed(env) && E.Utf8Size(E.Rendered(env)) <= E.MAX_ENV_BYTES
    ensures E.Merge("", env) == Ok(E.Rendered(env)) && E.Merge(E.Rendered(env), env).Ok?
  {
    NothingPreserved(env);
    assert "" + E.Rendered(env) == E.Rendered(env);
    assert E.Merge("", env) == Ok(E.Rendered(env));
    E.CleanFilesAbsorb("", env, env);
  }

  lemma NothingPreserved(env: E.EnvSpec)
    ensures E.FitsFile("") && E.AllAcceptable(E.FileLines("")) && E.Preserved("", env) == []
  {
    E.ReturningLine();
    assert E.FileLines("") == [""];
    E.KeptOne("", E.Owned(env));
    assert [""][..0] == [] && E.Preserved("", env) == [];
  }

  lemma FirstContents(lib: Library)
    requires lib.codec.size("") == 0 && C.RenderConfig("", "openai", "m1", lib.codec, lib.patterns).Ok?
    ensures var n := Contents(map[], SpecFor("m1", "r1"), lib);
            && n.Ok? && n.value.env == E.Merge("", ENV).value && n.value.revision == "r1"
            && Ok(n.value.config) == C.RenderConfig("", "openai", "m1", lib.codec, lib.patterns)
  {
    EnvMerges();
  }

  /** The file for the first model can be read, and rendered for the second. */
  lemma ConfigRendersAgain(codec: C.Codec, text: string, first: Spec, second: Spec)
    requires C.UndoesItself(codec) && C.RenderConfig("", first.provider, first.model, codec, X.PATTERNS) == Ok(text)
    requires C.RenderConfig("", second.provider, second.model, codec, X.PATTERNS).Ok?
    requires !X.PATTERNS.keyShaped(Trim(first.provider)) && !X.PATTERNS.keyShaped(Trim(first.model))
    ensures codec.size(text) <= C.MAX_BYTES
    ensures C.RenderConfig(text, second.provider, second.model, codec, X.PATTERNS).Ok?
  {
    X.PatternsArePlain(first.provider, first.model);
    C.RenderAbsorbs("", first.provider, first.model, second.provider, second.model, codec, X.PATTERNS);
    C.RenderedIsReadable("", first.provider, first.model, codec, X.PATTERNS);
  }

  lemma SecondContents(lib: Library, home: Home, config: string, env: string, second: Spec)
    requires Existing(home, Config) == config && Existing(home, Env) == env
    requires second.env.ManagedEnv? && lib.codec.size(config) <= C.MAX_BYTES
    requires C.RenderConfig(config, second.provider, second.model, lib.codec, lib.patterns).Ok?
    requires E.Merge(env, second.env).Ok?
    ensures Contents(home, second, lib).Ok?
  {
  }

  /** Before the last rename the marker is still the first one. */
  lemma OldMarker(a: NewFiles, second: Spec, k: nat, lib: Library)
    requires k <= 3
    ensures var now := AfterAttempt(Exactly(a), Attempt(second, k), lib);
            Revision in now && now[Revision] == a.revision
  {
    var b := Contents(Exactly(a), second, lib);
    if b.Ok? {
      WrittenFiles(Exactly(a), b.value, k);
      assert ORDER[3] in Exactly(a);
    }
  }

  const FIRST: Spec := SpecFor("m1", "r1")
  const SECOND: Spec := SpecFor("m2", "r2")

  lemma HoldsItsFiles(a: NewFiles)
    ensures Existing(Exactly(a), Config) == a.config && Existing(Exactly(a), Env) == a.env
  {
  }

  lemma FirstIsPlain()
    ensures !X.PATTERNS.keyShaped(Trim(FIRST.provider)) && !X.PATTERNS.keyShaped(Trim(FIRST.model))
  {
    X.StartsOtherwise("openai");
    X.StartsOtherwise("m1");
  }

  /** Facts about both specs, for a library that renders both models. */
  lemma BothContents(lib: Library, first: Spec, second: Spec)
    requires C.UndoesItself(lib.codec) && lib.patterns == X.PATTERNS && second.env.ManagedEnv?
    requires Contents(map[], first, lib).Ok? && first.env.ManagedEnv?
    requires C.RenderConfig("", second.provider, second.model, lib.codec, X.PATTERNS).Ok?
    requires !X.PATTERNS.keyShaped(Trim(first.provider)) && !X.PATTERNS.keyShaped(Trim(first.model))
    requires E.Merge(Contents(map[], first, lib).value.env, second.env).Ok?
    ensures Contents(Exactly(Contents(map[], first, lib).value), second, lib).Ok?
  {
    var a := Contents(map[], first, lib).value;
    ConfigRendersAgain(lib.codec, a.config, first, second);
    HoldsItsFiles(a);
    SecondContents(lib, Exactly(a), a.config, a.env, second);
  }

  /** A library with which both specs can be projected. */
  lemma BothProject() returns (lib: Library)
    ensures C.UndoesItself(lib.codec) && Contents(map[], FIRST, lib).Ok?
    ensures Contents(Exactly(Contents(map[], FIRST, lib).value), SECOND, lib).Ok?
  {
    var codec := X.ModelLibrary("openai", "m1", "m2");
    lib := Library(codec, X.PATTERNS);
    FirstContents(lib);
    FirstIsPlain();
    EnvMerges();
    BothContents(lib, FIRST, SECOND);
  }

  lemma LagsBetween(first: Spec, second: Spec, k: nat, lib: Library)
    requires 1 <= k <= 3 && first.marker != second.marker && first.model != second.model
    requires C.UndoesItself(lib.codec) && first.env.ManagedEnv? && second.env.ManagedEnv?
    requires Contents(map[], first, lib).Ok?
    requires Contents(Exactly(Contents(map[], first, lib).value), second, lib).Ok?
    ensures var before := Uninterrupted(map[], first, lib);
            && Contents(before, second, lib).Ok?
            && var now := AfterAttempt(before, Attempt(second, k), lib);
               && Revision in now && now[Revision] == first.marker
               && !MarkerTells(now, Contents(map[], first, lib).value, Contents(before, second, lib).value)
  {
    var a := Contents(map[], first, lib).value;
    AllWritten(map[], a);
    assert Uninterrupted(map[], first, lib) == Exactly(a);
    OldMarker(a, second, k, lib);
    OtherModelLags(map[], first, second, k, lib);
  }

  /** Whenever the second attempt gets past its first rename and not to its last, the marker does not tell. */
  lemma MarkerLags(k: nat) returns (lib: Library)
    requires 1 <= k <= 3
    ensures C.UndoesItself(lib.codec) && Contents(map[], FIRST, lib).Ok?
    ensures var before := Uninterrupted(map[], FIRST, lib);
            && Contents(before, SECOND, lib).Ok?
            && var now := AfterAttempt(before, Attempt(SECOND, k), lib);
               && Revision in now && now[Revision] == FIRST.marker
               && !MarkerTells(now, Contents(map[], FIRST, lib).value, Contents(before, SECOND, lib).value)
  {
    lib := BothProject();
    assert FIRST.model[1] != SECOND.model[1] && FIRST.marker[1] != SECOND.marker[1];
    LagsBetween(FIRST, SECOND, k, lib);
  }
}
