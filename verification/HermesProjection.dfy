/**
 Writing an agent's home: four files are computed from what is on disk, staged next to their targets and renamed into
 place, the revision marker last. The process may crash at any step; the next attempt starts from what is then on disk.
 */
module HermesProjection {
  import opened Options
  import opened Text
  import StringSets
  import C = ConfigTree
  import E = EnvFile

  datatype File = Config | Env | Soul | Revision

  type Home = map<File, string>

  /** The launch spec, as far as the files depend on it; `marker` is the text of the revision file. */
  datatype Spec = Spec(env: E.EnvSpec, provider: string, model: string, prompt: string, marker: string)

  datatype Library = Library(codec: C.Codec, patterns: C.Patterns)

  datatype NewFiles = NewFiles(config: string, env: string, soul: string, revision: string)

  datatype ProjectionError = SetupRequired | ConfigTooLarge | BadConfig(config: C.ConfigError) | BadEnv(env: E.EnvError)

  function Existing(home: Home, file: File): string { if file in home then home[file] else "" }

  function ConfigFor(existing: string, spec: Spec, lib: Library): Result<string, C.ConfigError> {
    if spec.env.ManagedEnv? then C.RenderConfig(existing, spec.provider, spec.model, lib.codec, lib.patterns)
    else Ok(existing)
  }

  /** What the projection writes: everything is computed before anything is staged. */
  function Contents(home: Home, spec: Spec, lib: Library): Result<NewFiles, ProjectionError> {
    var config, env := Existing(home, Config), Existing(home, Env);
    if lib.codec.size(config) > C.MAX_BYTES then Err(ConfigTooLarge)
    else if spec.env.NativeEnv? && Trim(config) == "" then Err(SetupRequired)
    else Assembled(ConfigFor(config, spec, lib), E.Merge(env, spec.env), spec)
  }

  /** The config comes first, and its error too. */
  function Assembled(config: Result<string, C.ConfigError>, env: Result<string, E.EnvError>, spec: Spec)
    : Result<NewFiles, ProjectionError>
  {
    if config.Err? then Err(BadConfig(config.error))
    else if env.Err? then Err(BadEnv(env.error))
    else Ok(NewFiles(config.value, env.value, Trim(spec.prompt) + "\n", spec.marker))
  }

  const ORDER: seq<File> := [Config, Env, Soul, Revision]

  function ContentOf(n: NewFiles, file: File): string {
    match file
    case Config => n.config
    case Env => n.env
    case Soul => n.soul
    case Revision => n.revision
  }

  /** The disk after the first k renames. */
  function Written(home: Home, n: NewFiles, k: nat): Home
    requires k <= |ORDER|
  {
    if k == 0 then home else Written(home, n, k - 1)[ORDER[k - 1] := ContentOf(n, ORDER[k - 1])]
  }

  lemma WrittenHolds(home: Home, n: NewFiles, k: nat)
    requires k <= |ORDER|
    ensures Existing(Written(home, n, k), Config) == if k >= 1 then n.config else Existing(home, Config)
    ensures Existing(Written(home, n, k), Env) == if k >= 2 then n.env else Existing(home, Env)
    ensures Existing(Written(home, n, k), Soul) == if k >= 3 then n.soul else Existing(home, Soul)
    ensures Existing(Written(home, n, k), Revision) == if k >= 4 then n.revision else Existing(home, Revision)
  {
    if k > 0 { WrittenHolds(home, n, k - 1); }
  }

  function Exactly(n: NewFiles): Home {
    map[Config := n.config, Env := n.env, Soul := n.soul, Revision := n.revision]
  }

  /** After all four renames nothing of the old disk is left. */
  lemma AllWritten(home: Home, n: NewFiles)
    ensures Written(home, n, 4) == Exactly(n)
  {
    assert Written(home, n, 0) == home;
    assert Written(home, n, 1) == home[Config := n.config];
    assert Written(home, n, 2) == home[Config := n.config][Env := n.env];
    assert Written(home, n, 3) == home[Config := n.config][Env := n.env][Soul := n.soul];
    forall file: File ensures file in Exactly(n) {
      match file { case Config => case Env => case Soul => case Revision => }
    }
  }

  /** What is written, file by file. */
  lemma ProjectedFiles(home: Home, spec: Spec, lib: Library)
    requires Contents(home, spec, lib).Ok?
    ensures var files := Written(home, Contents(home, spec, lib).value, 4);
            && files.Keys == {Config, Env, Soul, Revision}
            && Ok(files[Config]) == ConfigFor(Existing(home, Config), spec, lib)
            && Ok(files[Env]) == E.Merge(Existing(home, Env), spec.env)
            && files[Soul] == Trim(spec.prompt) + "\n" && files[Revision] == spec.marker
  {
    AllWritten(home, Contents(home, spec, lib).value);
  }

  /** The projection refuses exactly an oversized config, a native spec without one, or what its parts refuse. */
  lemma ContentsExactly(home: Home, spec: Spec, lib: Library)
    ensures Contents(home, spec, lib).Ok?
       <==> (&& lib.codec.size(Existing(home, Config)) <= C.MAX_BYTES
             && (spec.env.NativeEnv? ==> exists c :: c in Existing(home, Config) && !IsBlank(c))
             && ConfigFor(Existing(home, Config), spec, lib).Ok? && E.Merge(Existing(home, Env), spec.env).Ok?)
  {
    NothingLeftMeans(Existing(home, Config));
  }

  // ---------------------------------------------------------------------------------------------- attempts and crashes

  /** One attempt: for which spec, and how many renames it got to before it crashed, failed or finished. */
  datatype Attempt = Attempt(spec: Spec, renames: nat)

  function AfterAttempt(home: Home, a: Attempt, lib: Library): Home {
    var n := Contents(home, a.spec, lib);
    if n.Err? then home else Written(home, n.value, if a.renames <= 4 then a.renames else 4)
  }

  function AfterAll(home: Home, attempts: seq<Attempt>, after: (Home, Attempt) -> Home): Home {
    if attempts == [] then home
    else after(AfterAll(home, attempts[..|attempts| - 1], after), attempts[|attempts| - 1])
  }

  function AfterAttempts(home: Home, attempts: seq<Attempt>, lib: Library): Home {
    AfterAll(home, attempts, (h, a) => AfterAttempt(h, a, lib))
  }

  /** What every attempt keeps holds after all of them. */
  lemma {:induction false} AllKeep(home: Home, attempts: seq<Attempt>, after: (Home, Attempt) -> Home,
                                   follows: (Home, Attempt) -> bool, good: Home -> bool)
    requires good(home)
    requires forall h, a :: good(h) && follows(h, a) ==> good(after(h, a))
    requires forall i :: 0 <= i < |attempts| ==> follows(AfterAll(home, attempts[..i], after), attempts[i])
    ensures good(AfterAll(home, attempts, after))
  {
    if attempts != [] {
      var earlier := attempts[..|attempts| - 1];
      assert forall i :: 0 <= i < |earlier| ==> earlier[..i] == attempts[..i] && earlier[i] == attempts[i];
      AllKeep(home, earlier, after, follows, good);
    }
  }

  function Uninterrupted(home: Home, spec: Spec, lib: Library): Home {
    AfterAttempt(home, Attempt(spec, 4), lib)
  }

  /** The model name of a managed spec does not look like a key, and its own key names do not look like secrets. */
  ghost predicate PlainModel(spec: Spec, lib: Library) {
    spec.env.ManagedEnv? ==>
      && C.OwnNamesArePlain(lib.patterns, spec.provider, spec.model)
      && !lib.patterns.keyShaped(Trim(spec.provider)) && !lib.patterns.keyShaped(Trim(spec.model))
  }

  /** What this attempt writes can be read again: the merged env file stays within the service's own limit. */
  ghost predicate EnvFits(home: Home, spec: Spec, lib: Library) {
    var n := Contents(home, spec, lib);
    n.Ok? ==> E.Utf8Size(n.value.env) <= E.MAX_ENV_BYTES
  }

  /** An attempt that a later projection for `spec` can follow. */
  ghost predicate Follows(home: Home, a: Attempt, spec: Spec, lib: Library) {
    E.Covers(spec.env, a.spec.env) && PlainModel(a.spec, lib) && EnvFits(home, a.spec, lib)
  }

  ghost predicate AllFollow(home: Home, attempts: seq<Attempt>, spec: Spec, lib: Library) {
    forall i :: 0 <= i < |attempts| ==> Follows(AfterAttempts(home, attempts[..i], lib), attempts[i], spec, lib)
  }

  ghost predicate CleanEnv(home: Home) { E.NoLoneReturn(Existing(home, Env)) }

  /** Reading back a config this service rendered gives what reading the original would have given. */
  lemma ConfigAbsorbs(existing: string, first: Spec, second: Spec, lib: Library)
    requires C.UndoesItself(lib.codec) && PlainModel(first, lib) && E.Covers(second.env, first.env)
    requires ConfigFor(existing, first, lib).Ok?
    ensures ConfigFor(ConfigFor(existing, first, lib).value, second, lib) == ConfigFor(existing, second, lib)
  {
    if first.env.ManagedEnv? {
      C.RenderAbsorbs(existing, first.provider, first.model, second.provider, second.model, lib.codec, lib.patterns);
    }
  }

  lemma NewConfigIsReadable(existing: string, spec: Spec, lib: Library)
    requires C.UndoesItself(lib.codec) && ConfigFor(existing, spec, lib).Ok?
    requires lib.codec.size(existing) <= C.MAX_BYTES && (spec.env.NativeEnv? ==> Trim(existing) != "")
    ensures lib.codec.size(ConfigFor(existing, spec, lib).value) <= C.MAX_BYTES
    ensures Trim(ConfigFor(existing, spec, lib).value) != ""
  {
    if spec.env.ManagedEnv? {
      C.RenderedIsReadable(existing, spec.provider, spec.model, lib.codec, lib.patterns);
    }
  }

  predicate Legible(config: string, spec: Spec, lib: Library) {
    lib.codec.size(config) <= C.MAX_BYTES && (spec.env.NativeEnv? ==> Trim(config) != "")
  }

  lemma ContentsLegible(home: Home, spec: Spec, lib: Library)
    requires Contents(home, spec, lib).Ok?
    ensures Legible(Existing(home, Config), spec, lib)
    ensures Contents(home, spec, lib)
         == Assembled(ConfigFor(Existing(home, Config), spec, lib), E.Merge(Existing(home, Env), spec.env), spec)
  {
  }

  lemma ContentsFrom(home: Home, spec: Spec, lib: Library)
    requires Legible(Existing(home, Config), spec, lib)
    ensures Contents(home, spec, lib)
         == Assembled(ConfigFor(Existing(home, Config), spec, lib), E.Merge(Existing(home, Env), spec.env), spec)
  {
  }

  /** The config found after an attempt gives what the one before it would have given. */
  lemma ConfigInvisible(home: Home, a: Attempt, spec: Spec, lib: Library)
    requires C.UndoesItself(lib.codec) && PlainModel(a.spec, lib) && E.Covers(spec.env, a.spec.env)
    requires Contents(home, a.spec, lib).Ok? && Legible(Existing(home, Config), spec, lib)
    ensures var config := Contents(home, a.spec, lib).value.config;
            && Legible(config, spec, lib)
            && ConfigFor(config, spec, lib) == ConfigFor(Existing(home, Config), spec, lib)
  {
    ContentsLegible(home, a.spec, lib);
    NewConfigIsReadable(Existing(home, Config), a.spec, lib);
    ConfigAbsorbs(Existing(home, Config), a.spec, spec, lib);
  }

  lemma EnvInvisible(home: Home, a: Attempt, spec: Spec, lib: Library)
    requires E.Covers(spec.env, a.spec.env) && EnvFits(home, a.spec, lib) && CleanEnv(home)
    requires Contents(home, a.spec, lib).Ok?
    ensures var env := Contents(home, a.spec, lib).value.env;
            E.Merge(env, spec.env) == E.Merge(Existing(home, Env), spec.env) && E.NoLoneReturn(env)
  {
    ContentsLegible(home, a.spec, lib);
    E.CleanFilesAbsorb(Existing(home, Env), a.spec.env, spec.env);
    E.MergedStaysClean(Existing(home, Env), a.spec.env);
  }

  /** One attempt, however far it got, changes nothing about what a later projection writes. */
  lemma AttemptIsInvisible(home: Home, a: Attempt, spec: Spec, lib: Library)
    requires C.UndoesItself(lib.codec) && Follows(home, a, spec, lib) && CleanEnv(home)
    requires Contents(home, spec, lib).Ok?
    ensures Contents(AfterAttempt(home, a, lib), spec, lib) == Contents(home, spec, lib)
    ensures CleanEnv(AfterAttempt(home, a, lib))
  {
    if Contents(home, a.spec, lib).Ok? {
      var n, k := Contents(home, a.spec, lib).value, if a.renames <= 4 then a.renames else 4;
      ContentsLegible(home, spec, lib);
      ConfigInvisible(home, a, spec, lib);
      EnvInvisible(home, a, spec, lib);
      WrittenIsInvisible(home, n, k, spec, lib);
    }
  }

  lemma WrittenIsInvisible(home: Home, n: NewFiles, k: nat, spec: Spec, lib: Library)
    requires k <= 4 && CleanEnv(home) && E.NoLoneReturn(n.env)
    requires Legible(Existing(home, Config), spec, lib) && Legible(n.config, spec, lib)
    requires ConfigFor(n.config, spec, lib) == ConfigFor(Existing(home, Config), spec, lib)
    requires E.Merge(n.env, spec.env) == E.Merge(Existing(home, Env), spec.env)
    ensures Contents(Written(home, n, k), spec, lib)
         == Assembled(ConfigFor(Existing(home, Config), spec, lib), E.Merge(Existing(home, Env), spec.env), spec)
    ensures CleanEnv(Written(home, n, k))
  {
    WrittenHolds(home, n, k);
    ContentsFrom(Written(home, n, k), spec, lib);
  }

  /** Where the same contents are to be written, the same disk results. */
  lemma SameEnd(home: Home, now: Home, spec: Spec, lib: Library)
    requires Contents(home, spec, lib).Ok? && Contents(now, spec, lib) == Contents(home, spec, lib)
    ensures Uninterrupted(now, spec, lib) == Uninterrupted(home, spec, lib)
  {
    AllWritten(home, Contents(home, spec, lib).value);
    AllWritten(now, Contents(home, spec, lib).value);
  }

  /** A projection of this spec finds what it would have found before. */
  ghost predicate FindsTheSame(home: Home, now: Home, spec: Spec, lib: Library) {
    Contents(now, spec, lib) == Contents(home, spec, lib) && CleanEnv(now)
  }

  lemma OneMoreAttempt(home: Home, now: Home, a: Attempt, spec: Spec, lib: Library)
    requires C.UndoesItself(lib.codec) && Contents(home, spec, lib).Ok?
    requires FindsTheSame(home, now, spec, lib) && Follows(now, a, spec, lib)
    ensures FindsTheSame(home, AfterAttempt(now, a, lib), spec, lib)
  {
    AttemptIsInvisible(now, a, spec, lib);
  }

  lemma AttemptsFindTheSame(home: Home, attempts: seq<Attempt>, spec: Spec, lib: Library)
    requires C.UndoesItself(lib.codec) && Contents(home, spec, lib).Ok?
    requires FindsTheSame(home, home, spec, lib) && AllFollow(home, attempts, spec, lib)
    ensures FindsTheSame(home, AfterAttempts(home, attempts, lib), spec, lib)
  {
    var after := (h, a) => AfterAttempt(h, a, lib);
    var follows := (h, a) => Follows(h, a, spec, lib);
    var good := h => FindsTheSame(home, h, spec, lib);
    forall h, a | good(h) && follows(h, a) ensures good(after(h, a)) {
      OneMoreAttempt(home, h, a, spec, lib);
    }
    AllKeep(home, attempts, after, follows, good);
  }

  /**
   History does not matter. After any number of earlier attempts, each cut short after any number of renames and each
   for a spec whose environment keys this one covers, projecting ends with the same four files as on the first disk.
   */
  lemma HistoryDoesNotMatter(home: Home, attempts: seq<Attempt>, spec: Spec, lib: Library)
    requires C.UndoesItself(lib.codec) && AllFollow(home, attempts, spec, lib) && CleanEnv(home)
    requires Contents(home, spec, lib).Ok?
    ensures Contents(AfterAttempts(home, attempts, lib), spec, lib) == Contents(home, spec, lib)
    ensures CleanEnv(AfterAttempts(home, attempts, lib))
    ensures Uninterrupted(AfterAttempts(home, attempts, lib), spec, lib) == Uninterrupted(home, spec, lib)
  {
    AttemptsFindTheSame(home, attempts, spec, lib);
    SameEnd(home, AfterAttempts(home, attempts, lib), spec, lib);
  }

  /** The disk after attempts for one and the same spec, each cut short somewhere. */
  function AfterRetries(home: Home, spec: Spec, renames: seq<nat>, lib: Library): Home {
    if renames == [] then home
    else
      var n := |renames| - 1;
      AfterAttempt(AfterRetries(home, spec, renames[..n], lib), Attempt(spec, renames[n]), lib)
  }

  lemma {:induction false} RetriesAreInvisible(home: Home, spec: Spec, renames: seq<nat>, lib: Library)
    requires C.UndoesItself(lib.codec) && PlainModel(spec, lib) && CleanEnv(home)
    requires Contents(home, spec, lib).Ok? && EnvFits(home, spec, lib)
    ensures Contents(AfterRetries(home, spec, renames, lib), spec, lib) == Contents(home, spec, lib)
    ensures CleanEnv(AfterRetries(home, spec, renames, lib))
  {
    if renames != [] {
      var n := |renames| - 1;
      RetriesAreInvisible(home, spec, renames[..n], lib);
      AttemptIsInvisible(AfterRetries(home, spec, renames[..n], lib), Attempt(spec, renames[n]), spec, lib);
    }
  }

  /**
   Retrying after crashes: whatever the crash points, the next complete projection of the same spec ends with the same
   four files as an uninterrupted one.
   */
  lemma RetryAfterCrashes(home: Home, spec: Spec, renames: seq<nat>, lib: Library)
    requires C.UndoesItself(lib.codec) && PlainModel(spec, lib) && CleanEnv(home)
    requires Contents(home, spec, lib).Ok? && EnvFits(home, spec, lib)
    ensures Uninterrupted(AfterRetries(home, spec, renames, lib), spec, lib) == Uninterrupted(home, spec, lib)
  {
    RetriesAreInvisible(home, spec, renames, lib);
    SameEnd(home, AfterRetries(home, spec, renames, lib), spec, lib);
  }

  // ------------------------------------------------------------------------------------------------ when a retry works

  /** The config this spec writes is one that it can be rendered from again: the names do not look like keys. */
  predicate RewritesItself(spec: Spec, lib: Library) {
    spec.env.ManagedEnv? ==>
      !lib.patterns.keyShaped(Trim(spec.provider)) && !lib.patterns.keyShaped(Trim(spec.model))
  }

  /** The environment it writes can be read again, and no line it keeps ends in a carriage return of its own. */
  ghost predicate MergesItself(home: Home, spec: Spec, n: NewFiles) {
    E.Utf8Size(n.env) <= E.MAX_ENV_BYTES && E.NoReturns(E.Preserved(Existing(home, Env), spec.env))
  }

  ghost predicate OwnNames(spec: Spec, lib: Library) {
    spec.env.ManagedEnv? ==> C.OwnNamesArePlain(lib.patterns, spec.provider, spec.model)
  }

  lemma ConfigAgain(existing: string, spec: Spec, lib: Library)
    requires C.UndoesItself(lib.codec) && OwnNames(spec, lib) && ConfigFor(existing, spec, lib).Ok?
    ensures var text := ConfigFor(existing, spec, lib).value;
            ConfigFor(text, spec, lib) == Ok(text) <==> RewritesItself(spec, lib)
  {
    if spec.env.ManagedEnv? {
      C.RenderIsIdempotent(existing, spec.provider, spec.model, lib.codec, lib.patterns);
    }
  }

  lemma EnvAgain(existing: string, spec: E.EnvSpec)
    requires E.Merge(existing, spec).Ok?
    ensures var text := E.Merge(existing, spec).value;
            (E.Merge(text, spec) == Ok(text)
             <==> E.Utf8Size(text) <= E.MAX_ENV_BYTES && E.NoReturns(E.Preserved(existing, spec)))
  {
    var text := E.Merge(existing, spec).value;
    if E.Utf8Size(text) <= E.MAX_ENV_BYTES { E.MergeAbsorbs(existing, spec, spec); }
  }

  /** What the contents are made of, and how the renames change it. */
  lemma ContentsAgain(home: Home, now: Home, spec: Spec, lib: Library)
    requires Contents(home, spec, lib).Ok?
    requires lib.codec.size(Existing(now, Config)) <= C.MAX_BYTES
    requires spec.env.NativeEnv? ==> Trim(Existing(now, Config)) != ""
    ensures var n := Contents(home, spec, lib).value;
            (Contents(now, spec, lib) == Ok(n)
             <==> && ConfigFor(Existing(now, Config), spec, lib) == Ok(n.config)
                  && E.Merge(Existing(now, Env), spec.env) == Ok(n.env))
  {
  }

  /**
   Exactly when a retry works. After a crash behind k renames, the same spec finds what it found at first if and only if
   what has been renamed can be read again: the config, unless its names look like keys, and the environment, unless a
   line in it ends in a carriage return of its own or the file has grown too large.
   */
  lemma RetryWorksExactly(home: Home, spec: Spec, k: nat, lib: Library)
    requires C.UndoesItself(lib.codec) && OwnNames(spec, lib) && Contents(home, spec, lib).Ok?
    ensures var n := Contents(home, spec, lib).value;
            (Contents(AfterAttempt(home, Attempt(spec, k), lib), spec, lib) == Ok(n)
             <==> (k >= 1 ==> RewritesItself(spec, lib)) && (k >= 2 ==> MergesItself(home, spec, n)))
  {
    var n, j := Contents(home, spec, lib).value, if k <= 4 then k else 4;
    var now := Written(home, n, j);
    var config := Existing(home, Config);
    WrittenHolds(home, n, j);
    NewConfigIsReadable(config, spec, lib);
    ContentsAgain(home, now, spec, lib);
    ConfigAgain(config, spec, lib);
    EnvAgain(Existing(home, Env), spec.env);
  }

  /** Then, and for every crash point, the retry ends with the files of an uninterrupted run. */
  lemma WorkingRetryEndsTheSame(home: Home, spec: Spec, k: nat, lib: Library)
    requires C.UndoesItself(lib.codec) && OwnNames(spec, lib) && Contents(home, spec, lib).Ok?
    requires k >= 1 ==> RewritesItself(spec, lib)
    requires k >= 2 ==> MergesItself(home, spec, Contents(home, spec, lib).value)
    ensures var now := AfterAttempt(home, Attempt(spec, k), lib);
            Uninterrupted(now, spec, lib) == Uninterrupted(home, spec, lib)
  {
    RetryWorksExactly(home, spec, k, lib);
    SameEnd(home, AfterAttempt(home, Attempt(spec, k), lib), spec, lib);
  }

  // ------------------------------------------------------------------------------------------------ the marker is last

  /** Every file is still as it was, or already as it will be; a file is new only if all files before it are. */
  ghost predicate PrefixIsNew(home: Home, now: Home, n: NewFiles) {
    exists k: nat :: k <= 4 && now == Written(home, n, k)
  }

  lemma WrittenTwice(home: Home, n: NewFiles, j: nat, k: nat)
    requires j <= 4 && k <= 4
    ensures Written(Written(home, n, j), n, k) == Written(home, n, if j <= k then k else j)
  {
    Unfolded(home, n);
    Unfolded(Written(home, n, j), n);
  }

  lemma Unfolded(home: Home, n: NewFiles)
    ensures Written(home, n, 0) == home
    ensures Written(home, n, 1) == home[Config := n.config]
    ensures Written(home, n, 2) == home[Config := n.config][Env := n.env]
    ensures Written(home, n, 3) == home[Config := n.config][Env := n.env][Soul := n.soul]
    ensures Written(home, n, 4) == home[Config := n.config][Env := n.env][Soul := n.soul][Revision := n.revision]
  {
  }

  lemma {:induction false} RetriesArePrefixes(home: Home, spec: Spec, renames: seq<nat>, lib: Library)
    requires C.UndoesItself(lib.codec) && PlainModel(spec, lib) && CleanEnv(home)
    requires Contents(home, spec, lib).Ok? && EnvFits(home, spec, lib)
    ensures PrefixIsNew(home, AfterRetries(home, spec, renames, lib), Contents(home, spec, lib).value)
  {
    var n := Contents(home, spec, lib).value;
    if renames == [] {
      assert Written(home, n, 0) == home;
    } else {
      var last := |renames| - 1;
      RetriesArePrefixes(home, spec, renames[..last], lib);
      RetriesAreInvisible(home, spec, renames[..last], lib);
      PrefixGoesOn(home, AfterRetries(home, spec, renames[..last], lib), spec, renames[last], lib, n);
    }
  }

  lemma PrefixGoesOn(home: Home, now: Home, spec: Spec, k: nat, lib: Library, n: NewFiles)
    requires PrefixIsNew(home, now, n) && Contents(now, spec, lib) == Ok(n)
    ensures PrefixIsNew(home, AfterAttempt(now, Attempt(spec, k), lib), n)
  {
    var j: nat :| j <= 4 && now == Written(home, n, j);
    WrittenTwice(home, n, j, if k <= 4 then k else 4);
  }

  /**
   One attempt, from any disk and cut short anywhere: when the revision file then holds the new marker, the other three
   files hold exactly the new contents, provided the marker was another one to begin with.
   */
  lemma MarkerLastOnce(home: Home, a: Attempt, lib: Library)
    requires Contents(home, a.spec, lib).Ok?
    requires Revision in home ==> home[Revision] != a.spec.marker
    ensures var now := AfterAttempt(home, a, lib);
            Revision in now && now[Revision] == a.spec.marker ==> now == Exactly(Contents(home, a.spec, lib).value)
  {
    var n := Contents(home, a.spec, lib).value;
    assert PrefixIsNew(home, AfterAttempt(home, a, lib), n);
    PrefixWithMarker(home, AfterAttempt(home, a, lib), n);
  }

  /**
   And after any number of retries, where each attempt computes the same contents from what the last one left: when the
   revision file already holds the new marker, the other three files hold exactly the new contents.
   */
  lemma MarkerLast(home: Home, spec: Spec, renames: seq<nat>, lib: Library)
    requires C.UndoesItself(lib.codec) && PlainModel(spec, lib) && CleanEnv(home)
    requires Contents(home, spec, lib).Ok? && EnvFits(home, spec, lib)
    requires Revision in home ==> home[Revision] != spec.marker
    ensures var now := AfterRetries(home, spec, renames, lib);
            Revision in now && now[Revision] == spec.marker ==> now == Exactly(Contents(home, spec, lib).value)
  {
    RetriesArePrefixes(home, spec, renames, lib);
    PrefixWithMarker(home, AfterRetries(home, spec, renames, lib), Contents(home, spec, lib).value);
  }

  lemma PrefixWithMarker(home: Home, now: Home, n: NewFiles)
    requires PrefixIsNew(home, now, n) && (Revision in home ==> home[Revision] != n.revision)
    ensures Revision in now && now[Revision] == n.revision ==> now == Exactly(n)
  {
    Unfolded(home, n);
    AllWritten(home, n);
  }

  /** The revision file names one of these, and the other three files are exactly what it stands for. */
  ghost predicate MarkerTells(now: Home, first: NewFiles, second: NewFiles) {
    && Revision in now
    && ((now[Revision] == first.revision && now == Exactly(first))
        || (now[Revision] == second.revision && now == Exactly(second)))
  }

  predicate SameFile(a: NewFiles, b: NewFiles, file: File) { ContentOf(a, file) == ContentOf(b, file) }

  /** Nothing would be seen of the first k renames. */
  ghost predicate SameFirst(a: NewFiles, b: NewFiles, k: nat) {
    forall i :: 0 <= i < 4 && i < k ==> SameFile(a, b, ORDER[i])
  }

  /** Nothing would be seen of the renames after the first k. */
  ghost predicate SameRest(a: NewFiles, b: NewFiles, k: nat) {
    forall i :: k <= i < 4 ==> SameFile(a, b, ORDER[i])
  }

  lemma {:induction false} WrittenFiles(home: Home, n: NewFiles, k: nat)
    requires k <= 4
    ensures forall i :: 0 <= i < k ==>
              ORDER[i] in Written(home, n, k) && Written(home, n, k)[ORDER[i]] == ContentOf(n, ORDER[i])
    ensures forall i :: k <= i < 4 && ORDER[i] in home ==>
              ORDER[i] in Written(home, n, k) && Written(home, n, k)[ORDER[i]] == home[ORDER[i]]
    ensures home.Keys <= Written(home, n, k).Keys
  {
    if k > 0 { WrittenFiles(home, n, k - 1); }
  }

  lemma OrderIsComplete(file: File) returns (i: nat)
    ensures i < 4 && ORDER[i] == file
  {
    i := match file case Config => 0 case Env => 1 case Soul => 2 case Revision => 3;
  }

  lemma BetweenFiles(a: NewFiles, b: NewFiles, k: nat, file: File)
    requires k <= 4
    ensures var now := Written(Exactly(a), b, k);
            file in now && (now[file] == ContentOf(a, file) || now[file] == ContentOf(b, file))
  {
    WrittenFiles(Exactly(a), b, k);
    var i := OrderIsComplete(file);
    assert ORDER[i] in Exactly(a);
  }

  lemma StillFirst(a: NewFiles, b: NewFiles, k: nat)
    requires k <= 4
    ensures Written(Exactly(a), b, k) == Exactly(a) <==> SameFirst(a, b, k)
  {
    var now := Written(Exactly(a), b, k);
    WrittenFiles(Exactly(a), b, k);
    if SameFirst(a, b, k) {
      forall file: File ensures file in now && file in Exactly(a) && now[file] == Exactly(a)[file] {
        BetweenFiles(a, b, k, file);
        var i := OrderIsComplete(file);
        if i < k { assert SameFile(a, b, ORDER[i]); }
      }
      assert now == Exactly(a);
    } else {
      var i :| 0 <= i < 4 && i < k && !SameFile(a, b, ORDER[i]);
      assert now[ORDER[i]] == ContentOf(b, ORDER[i]) && Exactly(a)[ORDER[i]] == ContentOf(a, ORDER[i]);
    }
  }

  lemma AlreadySecond(a: NewFiles, b: NewFiles, k: nat)
    requires k <= 4
    ensures Written(Exactly(a), b, k) == Exactly(b) <==> SameRest(a, b, k)
  {
    var now := Written(Exactly(a), b, k);
    WrittenFiles(Exactly(a), b, k);
    if SameRest(a, b, k) {
      forall file: File ensures file in now && file in Exactly(b) && now[file] == Exactly(b)[file] {
        BetweenFiles(a, b, k, file);
        var i := OrderIsComplete(file);
        if i >= k { assert SameFile(a, b, ORDER[i]) && ORDER[i] in Exactly(a); }
      }
      assert now == Exactly(b);
    } else {
      var i :| k <= i < 4 && !SameFile(a, b, ORDER[i]);
      assert ORDER[i] in Exactly(a);
      assert now[ORDER[i]] == ContentOf(a, ORDER[i]) && Exactly(b)[ORDER[i]] == ContentOf(b, ORDER[i]);
    }
  }

  /** The disk in between is the one or the other exactly when no difference shows on one side of the crash. */
  lemma BetweenTwo(a: NewFiles, b: NewFiles, k: nat)
    requires k <= 4
    ensures Written(Exactly(a), b, k) == Exactly(a) <==> SameFirst(a, b, k)
    ensures Written(Exactly(a), b, k) == Exactly(b) <==> SameRest(a, b, k)
  {
    StillFirst(a, b, k);
    AlreadySecond(a, b, k);
  }

  /**
   A complete projection of one spec, then one of another that crashes after k renames. The marker on disk belongs to
   the files on disk exactly when the k files renamed are the same for both, or all the others are, the marker included.
   */
  lemma MarkerTellsExactly(home: Home, first: Spec, second: Spec, k: nat, lib: Library)
    requires Contents(home, first, lib).Ok? && Contents(Uninterrupted(home, first, lib), second, lib).Ok?
    ensures var before := Uninterrupted(home, first, lib);
            var a, b := Contents(home, first, lib).value, Contents(before, second, lib).value;
            var now := AfterAttempt(before, Attempt(second, k), lib);
            MarkerTells(now, a, b) <==> SameFirst(a, b, k) || SameRest(a, b, k)
  {
    WholeIs(home, first, lib);
    TellsBetween(Contents(home, first, lib).value, second, k, lib);
  }

  lemma WholeIs(home: Home, spec: Spec, lib: Library)
    requires Contents(home, spec, lib).Ok?
    ensures Uninterrupted(home, spec, lib) == Exactly(Contents(home, spec, lib).value)
  {
    AllWritten(home, Contents(home, spec, lib).value);
  }

  lemma TellsBetween(a: NewFiles, second: Spec, k: nat, lib: Library)
    requires Contents(Exactly(a), second, lib).Ok?
    ensures var b := Contents(Exactly(a), second, lib).value;
            var now := AfterAttempt(Exactly(a), Attempt(second, k), lib);
            MarkerTells(now, a, b) <==> SameFirst(a, b, k) || SameRest(a, b, k)
  {
    BetweenTwo(a, Contents(Exactly(a), second, lib).value, if k <= 4 then k else 4);
  }

  /** The first k of the other three files are the same for both. */
  predicate SameFiles(a: NewFiles, b: NewFiles, k: nat) {
    && (k >= 1 ==> a.config == b.config)
    && (k >= 2 ==> a.env == b.env)
    && (k >= 3 ==> a.soul == b.soul)
  }

  lemma OwnMarkers(a: NewFiles, b: NewFiles, k: nat)
    requires a.revision != b.revision
    ensures SameFirst(a, b, k) || SameRest(a, b, k) <==> k >= 4 || SameFiles(a, b, k)
  {
    assert !SameFile(a, b, ORDER[3]);
    assert SameFile(a, b, ORDER[0]) == (a.config == b.config);
    assert SameFile(a, b, ORDER[1]) == (a.env == b.env);
    assert SameFile(a, b, ORDER[2]) == (a.soul == b.soul);
    if k < 4 && SameFiles(a, b, k) {
      forall i | 0 <= i < 4 && i < k ensures SameFile(a, b, ORDER[i]) {
        if i == 1 { assert a.env == b.env; }
      }
    }
  }

  /** For specs with markers of their own: before the first rename, after the last, or when the files are the same. */
  lemma OwnMarkersTellExactly(home: Home, first: Spec, second: Spec, k: nat, lib: Library)
    requires Contents(home, first, lib).Ok? && Contents(Uninterrupted(home, first, lib), second, lib).Ok?
    requires first.marker != second.marker
    ensures var before := Uninterrupted(home, first, lib);
            var a, b := Contents(home, first, lib).value, Contents(before, second, lib).value;
            MarkerTells(AfterAttempt(before, Attempt(second, k), lib), a, b) <==> k >= 4 || SameFiles(a, b, k)
  {
    MarkerTellsExactly(home, first, second, k, lib);
    OwnMarkers(Contents(home, first, lib).value, Contents(Uninterrupted(home, first, lib), second, lib).value, k);
  }

  /** Two models are two config files, so that the marker lags as soon as the config has been renamed. */
  lemma OtherModelLags(home: Home, first: Spec, second: Spec, k: nat, lib: Library)
    requires C.UndoesItself(lib.codec) && first.env.ManagedEnv? && second.env.ManagedEnv?
    requires Contents(home, first, lib).Ok? && Contents(Uninterrupted(home, first, lib), second, lib).Ok?
    requires first.marker != second.marker && first.model != second.model && 1 <= k <= 3
    ensures var before := Uninterrupted(home, first, lib);
            var a, b := Contents(home, first, lib).value, Contents(before, second, lib).value;
            !MarkerTells(AfterAttempt(before, Attempt(second, k), lib), a, b)
  {
    var before := Uninterrupted(home, first, lib);
    var a, b := Contents(home, first, lib).value, Contents(before, second, lib).value;
    C.RenderedReadsBack(Existing(home, Config), first.provider, first.model, lib.codec, lib.patterns);
    C.RenderedReadsBack(Existing(before, Config), second.provider, second.model, lib.codec, lib.patterns);
    DefaultModel(C.ParseConfig(Existing(home, Config), lib.codec).value, first.provider, first.model);
    DefaultModel(C.ParseConfig(Existing(before, Config), lib.codec).value, second.provider, second.model);
    OwnMarkersTellExactly(home, first, second, k, lib);
  }

  lemma DefaultModel(m: C.Fields, provider: string, model: string)
    ensures C.Get(C.Rewritten(m, provider, model), ["model", "default"]) == Some(C.Str(model))
  {
    C.RewriteReaches(m, provider, model);
    C.ModelEditsAreManaged(provider, model);
    var e := C.Set(["model", "default"], C.Str(model));
    assert e in C.AllEdits(provider, model);
  }

  // ---------------------------------------------------------------------------------------------- the file protocol

  /** One file operation: it takes effect, it throws, or the process dies in it, with or without its effect. */
  datatype StepResult = Done | Threw | Crash

  datatype Stage = Stage(file: File, temp: string)

  datatype StageResult = Staged(temp: string) | NotStaged | StageCrash

  datatype Outcome = Projected | Failed | Crashed

  /** The names the pruning step knows. */
  const OBSOLETE: set<string> := {"config.yaml.tmp", ".env.tmp", "SOUL.md.tmp", "bruno-config-revision.json.tmp"}

  function NameOf(file: File): string {
    match file
    case Config => "config.yaml"
    case Env => ".env"
    case Soul => "SOUL.md"
    case Revision => "bruno-config-revision.json"
  }

  /** Twelve random bytes in hexadecimal. */
  predicate IsSuffix(s: string) { |s| == 24 && forall c :: c in s ==> '0' <= c <= '9' || 'a' <= c <= 'f' }

  function StagedName(file: File, suffix: string): string { "." + NameOf(file) + ".tmp-" + suffix }

  /** Staged files are never among the names the pruning step knows: those end in a `p`. */
  lemma StagedIsNotObsolete(file: File, suffix: string)
    requires IsSuffix(suffix)
    ensures StagedName(file, suffix) !in OBSOLETE
  {
    var name := StagedName(file, suffix);
    assert name[|name| - 1] == suffix[23] && suffix[23] in suffix;
    forall o | o in OBSOLETE ensures o[|o| - 1] == 'p' {
    }
  }

  lemma StagedNamesDiffer(a: File, b: File, s: string, t: string)
    requires a != b && IsSuffix(s) && IsSuffix(t)
    ensures StagedName(a, s) != StagedName(b, t)
  {
    assert |NameOf(Config)| == 11 && |NameOf(Env)| == 4 && |NameOf(Soul)| == 7 && |NameOf(Revision)| == 26;
    assert |StagedName(a, s)| == |NameOf(a)| + 30 && |StagedName(b, t)| == |NameOf(b)| + 30;
  }

  /**
   What becomes of one file operation: whether it takes effect, how much of a content is written if not all of it,
   whether the clearing up after a failure works, and whether the process dies in it.
   */
  datatype Fate = Fate(suffix: string, created: bool, effect: bool, written: nat, removed: bool, died: bool)

  function SuffixOf(f: Fate): string { if IsSuffix(f.suffix) then f.suffix else StringSets.Strokes(24, '0') }

  lemma SuffixIsOne(f: Fate)
    ensures IsSuffix(SuffixOf(f))
  {
  }

  predicate Works(f: Fate) { f.created && f.effect && !f.died }

  /** The process dies when the file has been staged. */
  predicate DiesStaged(f: Fate) { f.created && f.effect && f.died }

  /** The names of the four files of an attempt that begins with this operation are free. */
  ghost predicate NamesFree(temps: map<string, string>, fates: nat -> Fate, from: nat) {
    forall i :: 0 <= i < 4 ==> StagedName(ORDER[i], SuffixOf(fates(from + i))) !in temps
  }

  /** From this operation on, whatever has to be cleared up after a failure is. */
  ghost predicate ClearsUp(fates: nat -> Fate, from: nat) { forall n: nat :: n >= from ==> fates(n).removed }

  ghost predicate AllWork(fates: nat -> Fate, from: nat) { forall i :: i >= from ==> Works(fates(i)) }

  class HermesHome {
    /** What becomes of every operation, in their order. */
    const fates: nat -> Fate
    var steps: nat
    var files: Home
    var temps: map<string, string>

    constructor (files: Home, fates: nat -> Fate)
      ensures this.files == files && this.fates == fates && temps == map[] && steps == 0
    {
      this.files, this.fates := files, fates;
      temps, steps := map[], 0;
    }

    method Next() returns (f: Fate)
      modifies `steps
      ensures f == fates(old(steps)) && steps == old(steps) + 1
    {
      f := fates(steps);
      steps := steps + 1;
    }

    /** `stageAtomicWrite`: a new file with a random name; after a failure its removal may fail as well. */
    method StageAtomicWrite(file: File, content: string) returns (r: StageResult)
      modifies `temps, `steps
      ensures steps == old(steps) + 1
      ensures r.Staged? ==>
                && r.temp == StagedName(file, SuffixOf(fates(old(steps)))) && r.temp !in OBSOLETE
                && r.temp !in old(temps) && temps == old(temps)[r.temp := content]
      ensures !r.Staged? ==>
                temps == old(temps) || OneMore(old(temps), temps)
      ensures r.NotStaged? && fates(old(steps)).removed ==> temps == old(temps)
      ensures var f := fates(old(steps));
              var name := StagedName(file, SuffixOf(f));
              name !in old(temps) ==>
                && (Works(f) ==> r.Staged?)
                && (DiesStaged(f) ==> r.StageCrash? && temps == old(temps)[name := content])
    {
      var f := Next();
      var name := StagedName(file, SuffixOf(f));
      SuffixIsOne(f);
      StagedIsNotObsolete(file, SuffixOf(f));
      if !f.created || name in temps { return if f.died then StageCrash else NotStaged; }
      temps := temps[name := if f.effect || f.written > |content| then content else content[..f.written]];
      assert temps - {name} == old(temps);
      if f.died { return StageCrash; }
      if !f.effect {
        if f.removed { temps := temps - {name}; }
        return NotStaged;
      }
      return Staged(name);
    }

    method Rename(temp: string, file: File) returns (r: StepResult)
      requires temp in temps
      modifies `files, `temps, `steps
      ensures r.Done? ==> files == old(files)[file := old(temps)[temp]] && temps == old(temps) - {temp}
      ensures r.Threw? ==> files == old(files) && temps == old(temps)
      ensures r.Crash? ==>
                || (files == old(files) && temps == old(temps))
                || (files == old(files)[file := old(temps)[temp]] && temps == old(temps) - {temp})
      ensures steps == old(steps) + 1 && (Works(fates(old(steps))) ==> r.Done?)
    {
      var f := Next();
      if f.effect {
        files := files[file := temps[temp]];
        temps := temps - {temp};
      }
      r := if f.died then Crash else if f.effect then Done else Threw;
    }

    /** `rm --force` for every staged file, each of which may fail unnoticed. */
    method RemoveStaged(staged: seq<Stage>)
      modifies `temps, `steps
      ensures temps.Keys <= old(temps).Keys
      ensures forall t :: t in old(temps) && (forall s :: s in staged ==> s.temp != t) ==> t in temps
      ensures forall t :: t in temps ==> temps[t] == old(temps)[t]
      ensures ClearsUp(fates, old(steps)) ==> forall s :: s in staged ==> s.temp !in temps
    {
      for i := 0 to |staged|
        invariant steps == old(steps) + i
        invariant ClearsUp(fates, old(steps)) ==> forall j :: 0 <= j < i ==> staged[j].temp !in temps
        invariant temps.Keys <= old(temps).Keys
        invariant forall t :: t in old(temps) && (forall s :: s in staged ==> s.temp != t) ==> t in temps
        invariant forall t :: t in temps ==> temps[t] == old(temps)[t]
      {
        var f := Next();
        if f.removed {
          assert staged[i] in staged;
          temps := temps - {staged[i].temp};
        }
      }
    }

    /** Staging: config, env, soul and then the marker, until one of them fails. */
    method StageAll(n: NewFiles) returns (staged: seq<Stage>, r: StepResult)
      modifies `temps, `steps
      ensures IsStaged(staged, old(temps), n)
      ensures r.Done? ==> |staged| == 4
      ensures forall s :: s in staged ==> s.temp in temps && temps[s.temp] == ContentOf(n, s.file)
      ensures Keeps(old(temps), temps)
      ensures r.Done? ==> OnlyStagedFrom(staged, 0, old(temps), temps) && steps == old(steps) + 4
      ensures steps >= old(steps)
      ensures r.Threw? && ClearsUp(fates, old(steps)) ==> OnlyStagedFrom(staged, 0, old(temps), temps)
      ensures AllWork(fates, old(steps)) && NamesFree(old(temps), fates, old(steps)) ==> r.Done?
      ensures var name := StagedName(Config, SuffixOf(fates(old(steps))));
              DiesStaged(fates(old(steps))) && name !in old(temps) ==>
                r.Crash? && temps == old(temps)[name := n.config] && steps == old(steps) + 1
    {
      staged, r := [], Done;
      ghost var start := temps;
      for i := 0 to 4
        invariant |staged| == i && r.Done? && steps == old(steps) + i && (i == 0 ==> temps == start)
        invariant i > 0 && DiesStaged(fates(old(steps))) ==> StagedName(Config, SuffixOf(fates(old(steps)))) in start
        invariant IsStaged(staged, start, n)
        invariant forall s :: s in staged ==> s.temp in temps && temps[s.temp] == ContentOf(n, s.file)
        invariant Keeps(start, temps) && OnlyStagedFrom(staged, 0, start, temps)
        invariant forall j :: 0 <= j < i ==> NamedFor(staged[j].temp, ORDER[j])
      {
        ghost var before, earlier := temps, staged;
        ghost var name := StagedName(ORDER[i], SuffixOf(fates(steps)));
        SuffixIsOne(fates(steps));
        if name !in start { StillFree(start, before, staged, i, name, SuffixOf(fates(steps))); }
        var stage := StageAtomicWrite(ORDER[i], ContentOf(n, ORDER[i]));
        if !stage.Staged? {
          if temps != before { OneMoreKeeps(start, before, temps); }
          assert forall s :: s in staged ==> s.temp in before;
          return staged, if stage.StageCrash? then Crash else Threw;
        }
        staged := staged + [Stage(ORDER[i], stage.temp)];
        NamedNow(ORDER[i], SuffixOf(fates(old(steps) + i)));
        OneMoreStaged(start, before, temps, earlier, stage.temp, n);
      }
    }

    /** The renames, in order; the marker's comes last. */
    method RenameAll(staged: seq<Stage>, n: NewFiles, ghost start: map<string, string>) returns (r: StepResult)
      requires |staged| == 4 && IsStaged(staged, start, n) && Keeps(start, temps)
      requires OnlyStagedFrom(staged, 0, start, temps)
      requires forall s :: s in staged ==> s.temp in temps && temps[s.temp] == ContentOf(n, s.file)
      modifies `files, `temps, `steps
      ensures PrefixIsNew(old(files), files, n)
      ensures r.Done? ==> files == Written(old(files), n, 4) && temps.Keys <= start.Keys
      ensures Keeps(start, temps) && OnlyStagedFrom(staged, 0, start, temps) && steps >= old(steps)
      ensures AllWork(fates, old(steps)) ==> r.Done?
    {
      r := Done;
      for k := 0 to 4
        invariant files == Written(old(files), n, k) && r.Done? && steps == old(steps) + k
        invariant StillStaged(staged, k, temps, n) && Keeps(start, temps) && OnlyStagedFrom(staged, k, start, temps)
      {
        r := RenameNext(staged, k, n, start);
        assert files == Written(old(files), n, k) || files == Written(old(files), n, k + 1);
        if !r.Done? { return r; }
      }
    }

    /** The k-th rename, after those before it. */
    method RenameNext(staged: seq<Stage>, k: nat, ghost n: NewFiles, ghost start: map<string, string>)
      returns (r: StepResult)
      requires k < 4 == |staged| && IsStaged(staged, start, n) && StillStaged(staged, k, temps, n)
      requires Keeps(start, temps) && OnlyStagedFrom(staged, k, start, temps)
      modifies `files, `temps, `steps
      ensures files == old(files)[ORDER[k] := ContentOf(n, ORDER[k])] || (!r.Done? && files == old(files))
      ensures Keeps(start, temps) && OnlyStagedFrom(staged, if r.Done? then k + 1 else k, start, temps)
      ensures r.Done? ==> StillStaged(staged, k + 1, temps, n)
      ensures steps == old(steps) + 1 && (Works(fates(old(steps))) ==> r.Done?)
    {
      ghost var before := temps;
      r := Rename(staged[k].temp, staged[k].file);
      if temps != before { OneLess(staged, k, start, before, temps); }
    }

    /**
     `projectHermesHome`: compute, stage, rename in order with the marker last, prune. Whatever happens, the disk is
     as after some number of renames; a file staged by an earlier, crashed attempt stays where it is.
     */
    method Project(spec: Spec, lib: Library) returns (outcome: Outcome)
      modifies `files, `temps, `steps
      ensures exists k: nat :: k <= 4 && files == AfterAttempt(old(files), Attempt(spec, k), lib)
      ensures outcome.Projected? ==>
                Contents(old(files), spec, lib).Ok? && files == Uninterrupted(old(files), spec, lib)
      ensures outcome.Projected? ==>
                && files.Keys == {Config, Env, Soul, Revision}
                && files[Soul] == Trim(spec.prompt) + "\n" && files[Revision] == spec.marker
      ensures outcome.Projected? ==> temps == old(temps) - OBSOLETE
      ensures outcome.Failed? && ClearsUp(fates, old(steps)) ==> temps.Keys <= old(temps).Keys
      ensures Contents(old(files), spec, lib).Err? ==> outcome.Failed? && temps == old(temps)
      ensures Keeps(old(temps), temps)
      ensures (&& Contents(old(files), spec, lib).Ok? && AllWork(fates, old(steps))
               && NamesFree(old(temps), fates, old(steps)))
              ==> outcome.Projected?
      ensures var name := StagedName(Config, SuffixOf(fates(old(steps))));
              Contents(old(files), spec, lib).Ok? && DiesStaged(fates(old(steps))) && name !in old(temps) ==>
                && outcome.Crashed? && files == old(files) && steps == old(steps) + 1
                && temps == old(temps)[name := Contents(old(files), spec, lib).value.config]
    {
      ghost var before := files;
      var contents := Contents(files, spec, lib);
      if contents.Err? {
        assert files == AfterAttempt(before, Attempt(spec, 0), lib);
        return Failed;
      }
      outcome := WriteAll(contents.value);
      ProjectedFiles(before, spec, lib);
      ghost var k: nat :| k <= 4 && files == Written(before, contents.value, k);
      assert files == AfterAttempt(before, Attempt(spec, k), lib);
    }

    /** The part behind the computation: stage, rename, make it durable, prune. */
    method WriteAll(n: NewFiles) returns (outcome: Outcome)
      modifies `files, `temps, `steps
      ensures PrefixIsNew(old(files), files, n)
      ensures outcome.Projected? ==> files == Written(old(files), n, 4)
      ensures outcome.Projected? ==> temps == old(temps) - OBSOLETE
      ensures outcome.Failed? && ClearsUp(fates, old(steps)) ==> temps.Keys <= old(temps).Keys
      ensures Keeps(old(temps), temps)
      ensures AllWork(fates, old(steps)) && NamesFree(old(temps), fates, old(steps)) ==> outcome.Projected?
      ensures var name := StagedName(Config, SuffixOf(fates(old(steps))));
              DiesStaged(fates(old(steps))) && name !in old(temps) ==>
                && outcome.Crashed? && files == old(files) && steps == old(steps) + 1
                && temps == old(temps)[name := n.config]
    {
      ghost var before, start := files, temps;
      var staged, r := StageAll(n);
      if r.Done? { r := RenameAll(staged, n, start); } else { assert files == Written(before, n, 0); }
      if r.Done? {
        r := SyncDirectory();
        if r.Done? {
          temps := temps - OBSOLETE;
          assert temps == start - OBSOLETE;
          return Projected;
        }
      }
      if r.Threw? { RemoveStaged(staged); }
      return if r.Crash? then Crashed else Failed;
    }

    method SyncDirectory() returns (r: StepResult)
      modifies `steps
      ensures steps == old(steps) + 1
      ensures Works(fates(old(steps))) ==> r.Done?
    {
      var f := Next();
      r := if f.died then Crash else if f.effect then Done else Threw;
    }
  }

  /** The name is one that staging gives to this file. */
  ghost predicate NamedFor(name: string, file: File) {
    exists suffix :: IsSuffix(suffix) && name == StagedName(file, suffix)
  }

  lemma NamedForOne(name: string, file: File, other: File, suffix: string)
    requires NamedFor(name, file) && file != other && IsSuffix(suffix)
    ensures name != StagedName(other, suffix)
  {
    var s :| IsSuffix(s) && name == StagedName(file, s);
    StagedNamesDiffer(file, other, s, suffix);
  }

  lemma NamedNow(file: File, suffix: string)
    requires IsSuffix(suffix)
    ensures NamedFor(StagedName(file, suffix), file)
  {
  }

  /** What holds of the staged files holds with one more. */
  lemma OneMoreStaged(start: map<string, string>, before: map<string, string>, now: map<string, string>,
                      staged: seq<Stage>, temp: string, n: NewFiles)
    requires |staged| < 4 && IsStaged(staged, start, n) && Keeps(start, before)
    requires OnlyStagedFrom(staged, 0, start, before)
    requires forall s :: s in staged ==> s.temp in before && before[s.temp] == ContentOf(n, s.file)
    requires temp !in before && temp !in OBSOLETE && now == before[temp := ContentOf(n, ORDER[|staged|])]
    ensures var more := staged + [Stage(ORDER[|staged|], temp)];
            && IsStaged(more, start, n) && Keeps(start, now) && OnlyStagedFrom(more, 0, start, now)
            && forall s :: s in more ==> s.temp in now && now[s.temp] == ContentOf(n, s.file)
  {
    StagedInOrder(start, before, staged, temp, ORDER[|staged|], n);
    StagedOnly(start, before, now, staged, Stage(ORDER[|staged|], temp));
  }

  lemma StagedInOrder(start: map<string, string>, before: map<string, string>, staged: seq<Stage>, temp: string,
                      file: File, n: NewFiles)
    requires |staged| < 4 && IsStaged(staged, start, n) && Keeps(start, before) && file == ORDER[|staged|]
    requires forall s :: s in staged ==> s.temp in before
    requires temp !in before && temp !in OBSOLETE
    ensures IsStaged(staged + [Stage(file, temp)], start, n)
  {
    assert forall i :: 0 <= i < |staged| ==> staged[i] in staged;
  }

  lemma StagedOnly(start: map<string, string>, before: map<string, string>, now: map<string, string>,
                   staged: seq<Stage>, stage: Stage)
    requires OnlyStagedFrom(staged, 0, start, before) && now.Keys == before.Keys + {stage.temp}
    ensures OnlyStagedFrom(staged + [stage], 0, start, now)
  {
    var more := staged + [stage];
    forall t | t in now && t !in start ensures exists i :: 0 <= i < |more| && more[i].temp == t {
      if t == stage.temp {
        assert more[|staged|].temp == t;
      } else {
        var i :| 0 <= i < |staged| && staged[i].temp == t;
        assert more[i].temp == t;
      }
    }
  }

  /** A name that was free at first is free still: all names staged since are of other files. */
  lemma StillFree(start: map<string, string>, now: map<string, string>, staged: seq<Stage>, i: nat, name: string,
                  suffix: string)
    requires |staged| == i < 4 && OnlyStagedFrom(staged, 0, start, now)
    requires forall j :: 0 <= j < i ==> NamedFor(staged[j].temp, ORDER[j])
    requires name !in start && IsSuffix(suffix) && name == StagedName(ORDER[i], suffix)
    ensures name !in now
  {
    if name in now {
      var j :| 0 <= j < |staged| && staged[j].temp == name;
      EarlierFile(j, i);
      NamedForOne(name, ORDER[j], ORDER[i], suffix);
    }
  }

  lemma EarlierFile(j: nat, i: nat)
    requires j < i < 4
    ensures ORDER[j] != ORDER[i]
  {
  }

  const ZEROS: string := StringSets.Strokes(24, '0')
  const ONES: string := StringSets.Strokes(24, '1')

  /** The process dies in its first operation, when that has taken effect; from then on everything works. */
  function DiesOnce(i: nat): Fate {
    if i == 0 then Fate(ZEROS, true, true, 0, false, true) else Fate(ONES, true, true, 0, true, false)
  }

  lemma DyingLeaves()
    ensures DiesStaged(DiesOnce(0)) && SuffixOf(DiesOnce(0)) == ZEROS && AllWork(DiesOnce, 1)
    ensures StagedName(Config, ZEROS) !in OBSOLETE
  {
    StagedIsNotObsolete(Config, ZEROS);
  }

  /** The name under which the config has been staged then. */
  function LeftName(): string { StagedName(Config, ZEROS) }

  lemma LeftIsUnknown()
    ensures LeftName() !in OBSOLETE
  {
    DyingLeaves();
  }

  method DieStaged(home: Home, spec: Spec, lib: Library) returns (disk: HermesHome)
    requires Contents(home, spec, lib).Ok?
    ensures fresh(disk) && disk.fates == DiesOnce && disk.steps == 1 && disk.files == home
    ensures disk.temps == map[LeftName() := Contents(home, spec, lib).value.config]
  {
    disk := new HermesHome(home, DiesOnce);
    DyingLeaves();
    var outcome := disk.Project(spec, lib);
  }

  /** A second projection, in which everything works. */
  method ProjectAgain(disk: HermesHome, spec: Spec, lib: Library) returns (outcome: Outcome)
    requires Contents(disk.files, spec, lib).Ok? && disk.fates == DiesOnce && disk.steps == 1
    requires disk.temps.Keys == {LeftName()}
    modifies disk
    ensures outcome.Projected? && LeftName() in disk.temps && disk.temps[LeftName()] == old(disk.temps)[LeftName()]
  {
    DyingLeaves();
    OnesAreFree(disk.temps, DiesOnce);
    outcome := disk.Project(spec, lib);
  }

  /**
   A run that leaves a file behind: the first projection dies when it has staged the config, and the second one succeeds
   and prunes; the staged file is still there, under a name that the pruning step does not know.
   */
  method LeftBehind(home: Home, spec: Spec, lib: Library) returns (outcome: Outcome, temps: map<string, string>)
    requires Contents(home, spec, lib).Ok?
    ensures outcome.Projected? && LeftName() !in OBSOLETE
    ensures LeftName() in temps && temps[LeftName()] == Contents(home, spec, lib).value.config
  {
    var disk := DieStaged(home, spec, lib);
    outcome := ProjectAgain(disk, spec, lib);
    temps := disk.temps;
    LeftIsUnknown();
  }

  lemma OnesAreFree(temps: map<string, string>, fates: nat -> Fate)
    requires temps.Keys == {StagedName(Config, ZEROS)} && forall i: nat :: i >= 1 ==> fates(i).suffix == ONES
    ensures NamesFree(temps, fates, 1)
  {
    var name := StagedName(Config, ZEROS);
    forall i | 0 <= i < 4 ensures StagedName(ORDER[i], SuffixOf(fates(1 + i))) != name {
      assert SuffixOf(fates(1 + i)) == ONES;
      var other := StagedName(ORDER[i], ONES);
      assert other[|other| - 1] == '1' && name[|name| - 1] == '0';
    }
  }

  /** Stages of the first files in order, with distinct new temporary names. */
  ghost predicate IsStaged(staged: seq<Stage>, before: map<string, string>, n: NewFiles) {
    && |staged| <= 4
    && (forall i :: 0 <= i < |staged| ==>
          staged[i].file == ORDER[i] && staged[i].temp !in before && staged[i].temp !in OBSOLETE)
    && (forall i, j :: 0 <= i < j < |staged| ==> staged[i].temp != staged[j].temp)
  }

  ghost predicate OneMore(before: map<string, string>, now: map<string, string>) {
    exists t :: t in now && t !in before && t !in OBSOLETE && now - {t} == before
  }

  lemma OneMoreKeeps(start: map<string, string>, before: map<string, string>, now: map<string, string>)
    requires Keeps(start, before) && OneMore(before, now)
    ensures Keeps(start, now)
  {
    var t :| t in now && t !in before && t !in OBSOLETE && now - {t} == before;
    forall u | u in start && u !in OBSOLETE ensures u in now && now[u] == start[u] {
      assert u in now - {t};
    }
  }

  /** The temporary files are those from before and the ones staged from index k on. */
  ghost predicate OnlyStagedFrom(staged: seq<Stage>, k: nat, before: map<string, string>, now: map<string, string>) {
    forall t :: t in now && t !in before ==> exists i :: k <= i < |staged| && staged[i].temp == t
  }

  /** The staged files from the k-th on are there, with their contents. */
  ghost predicate StillStaged(staged: seq<Stage>, k: nat, now: map<string, string>, n: NewFiles) {
    && |staged| == 4
    && forall i :: k <= i < 4 ==> staged[i].temp in now && now[staged[i].temp] == ContentOf(n, ORDER[i])
  }

  /** Every temporary file from before is still there, except those the pruning step knows by name. */
  ghost predicate Keeps(before: map<string, string>, now: map<string, string>) {
    forall t :: t in before && t !in OBSOLETE ==> t in now && now[t] == before[t]
  }

  /** Renaming the k-th staged file away takes nothing else from the directory. */
  lemma OneLess(staged: seq<Stage>, k: nat, start: map<string, string>, before: map<string, string>,
                now: map<string, string>)
    requires k < |staged| && staged[k].temp !in start && now == before - {staged[k].temp}
    requires Keeps(start, before) && OnlyStagedFrom(staged, k, start, before)
    ensures Keeps(start, now) && OnlyStagedFrom(staged, k + 1, start, now)
  {
    forall t | t in now && t !in start ensures exists i :: k + 1 <= i < |staged| && staged[i].temp == t {
      var i :| k <= i < |staged| && staged[i].temp == t;
    }
  }
}
