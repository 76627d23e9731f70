/**
 From the command line to the judge: what Docker reports of a container that was made from the service's own
 `docker run` line, and exactly when the launch judge accepts it.
 */
module CreatedContainers {
  import opened Options
  import opened StringSets
  import opened Text
  import opened Judges

  // --------------------------------------------------------------------------------------------------- the options

  /** Options up to the first word that is not one, with their values; `--detach` stands alone. */
  function OptionsFrom(words: seq<string>): seq<(string, string)>
    decreases |words|
  {
    if words == [] || !StartsWith(words[0], "--") then []
    else if words[0] == "--detach" || |words| == 1 then OptionsFrom(words[1..])
    else [(words[0], words[1])] + OptionsFrom(words[2..])
  }

  /** The first word that is no option and no value of one. */
  function ImageFrom(words: seq<string>): Option<string>
    decreases |words|
  {
    if words == [] then None
    else if !StartsWith(words[0], "--") then Some(words[0])
    else if words[0] == "--detach" || |words| == 1 then ImageFrom(words[1..])
    else ImageFrom(words[2..])
  }

  function OptionsGiven(args: seq<string>): seq<(string, string)> {
    if args == [] || args[0] != "run" then [] else OptionsFrom(args[1..])
  }

  function ImageGiven(args: seq<string>): Option<string> {
    if args == [] || args[0] != "run" then None else ImageFrom(args[1..])
  }

  lemma {:induction false} OptionsAreRead(options: seq<(string, string)>, rest: seq<string>)
    requires ValuedOptions(options)
    ensures OptionsFrom(Words(options) + rest) == options + OptionsFrom(rest)
    ensures ImageFrom(Words(options) + rest) == ImageFrom(rest)
  {
    if options == [] {
      assert Words(options) + rest == rest;
    } else {
      var words := Words(options) + rest;
      assert words[2..] == Words(options[1..]) + rest;
      assert options[0] in options && options == [options[0]] + options[1..];
      OptionsAreRead(options[1..], rest);
    }
  }

  lemma LineRead(options: seq<(string, string)>, imageId: string)
    requires ValuedOptions(options) && !StartsWith(imageId, "--")
    ensures var args := ["run", "--detach"] + Words(options) + [imageId, "gateway", "run"];
            OptionsGiven(args) == options && ImageGiven(args) == Some(imageId)
  {
    var tail := [imageId, "gateway", "run"];
    var args := ["run", "--detach"] + Words(options) + tail;
    assert args[1..][0] == "--detach" && args[1..][1..] == Words(options) + tail;
    OptionsAreRead(options, tail);
    assert options + [] == options;
  }

  function LabelPart(agentId: string, spec: Spec, op: Operation, extra: seq<(string, string)>): seq<(string, string)> {
    LabelOptions(FixedLabels(agentId, spec, op)) + LabelOptions(extra)
  }

  /** Docker reads the options just as they were put together. */
  lemma RunArgsRead(agentId: string, name: string, spec: Spec, op: Operation, projection: Projection, runtime: Runtime,
                    imageId: string, extra: seq<(string, string)>)
    requires !StartsWith(imageId, "--")
    ensures var args := RunArgs(agentId, name, spec, op, projection, runtime, imageId, extra);
            && OptionsGiven(args)
               == NamingOptions(name) + LabelPart(agentId, spec, op, extra) + SandboxOptions(projection, runtime)
            && ImageGiven(args) == Some(imageId)
  {
    var labels := LabelPart(agentId, spec, op, extra);
    var options := NamingOptions(name) + LabelOptions(FixedLabels(agentId, spec, op)) + LabelOptions(extra)
                   + SandboxOptions(projection, runtime);
    assert options == NamingOptions(name) + labels + SandboxOptions(projection, runtime);
    SandboxIsPlain(name, projection, runtime);
    assert StartsWith("--label", "--") && "--label" != "--detach";
    LineRead(options, imageId);
  }

  // ----------------------------------------------------------------------------------------------- what Docker makes

  /** All values given for one option, in order. */
  function ValuesOf(options: seq<(string, string)>, name: string): seq<string> {
    if options == [] then []
    else (if options[0].0 == name then [options[0].1] else []) + ValuesOf(options[1..], name)
  }

  lemma {:induction false} ValuesConcat(a: seq<(string, string)>, b: seq<(string, string)>, name: string)
    ensures ValuesOf(a + b, name) == ValuesOf(a, name) + ValuesOf(b, name)
  {
    if a == [] {
      assert a + b == b;
    } else {
      assert (a + b)[1..] == a[1..] + b;
      ValuesConcat(a[1..], b, name);
    }
  }

  lemma {:induction false} NoValues(options: seq<(string, string)>, name: string)
    requires forall o :: o in options ==> o.0 != name
    ensures ValuesOf(options, name) == []
  {
    if options != [] {
      assert options[0] in options;
      NoValues(options[1..], name);
    }
  }

  function Last(values: seq<string>): Option<string> { if values == [] then None else Some(values[|values| - 1]) }

  /** A text split at its commas. */
  function Commas(s: string): seq<string>
    ensures Commas(s) != []
  {
    if s == [] then [[]]
    else if s[0] == ',' then [[]] + Commas(s[1..])
    else
      var rest := Commas(s[1..]);
      [[s[0]] + rest[0]] + rest[1..]
  }

  lemma {:induction false} CommaSplits(a: string, rest: string)
    requires ',' !in a
    ensures Commas(a + "," + rest) == [a] + Commas(rest)
  {
    var s := a + "," + rest;
    if a == [] {
      assert s[1..] == rest;
    } else {
      assert s[1..] == a[1..] + "," + rest && s[0] == a[0];
      CommaSplits(a[1..], rest);
      assert a == [a[0]] + a[1..];
    }
  }

  lemma {:induction false} NoComma(a: string)
    requires ',' !in a
    ensures Commas(a) == [a]
  {
    if a != [] {
      NoComma(a[1..]);
      assert a == [a[0]] + a[1..];
    }
  }

  function Assigned(field: string, name: string): Option<string> {
    match SplitAssignment(field)
    case Some((key, value)) => if key == name then Some(value) else None
    case None => None
  }

  /** The value of a `--mount` option: its fields in the order in which the service writes them. */
  function MountOf(text: string): Option<Mount> {
    var fields := Commas(text);
    if |fields| != 3 then None
    else
      var kind, source := Assigned(fields[0], "type"), Assigned(fields[1], "source");
      var target := Assigned(fields[2], "target");
      if kind.Some? && source.Some? && target.Some? then Some(Mount(kind.value, source.value, target.value)) else None
  }

  function MountsOf(texts: seq<string>): seq<Mount> {
    if texts == [] then []
    else
      var first := MountOf(texts[0]);
      (if first.Some? then [first.value] else []) + MountsOf(texts[1..])
  }

  lemma ThreeFields(a: string, b: string, c: string)
    requires ',' !in a && ',' !in b && ',' !in c
    ensures Commas(a + "," + (b + "," + c)) == [a, b, c]
  {
    CommaSplits(a, b + "," + c);
    CommaSplits(b, c);
    NoComma(c);
  }

  lemma AssignedIs(name: string, value: string)
    requires '=' !in name
    ensures Assigned(name + "=" + value, name) == Some(value)
  {
    SplitJoinedAssignment(name, value);
  }

  lemma FieldsAreRead(text: string, kind: string, source: string, target: string)
    requires ',' !in kind && ',' !in source && ',' !in target
    requires text == ("type" + "=" + kind) + "," + (("source" + "=" + source) + "," + ("target" + "=" + target))
    ensures MountOf(text) == Some(Mount(kind, source, target))
  {
    AssignedIs("type", kind);
    AssignedIs("source", source);
    AssignedIs("target", target);
    ThreeFields("type" + "=" + kind, "source" + "=" + source, "target" + "=" + target);
  }

  lemma MountIsRead(source: string, target: string, end: string)
    requires ',' !in source && ',' !in target && end == ",target=" + target
    ensures MountOf("type=bind,source=" + source + end) == Some(Mount("bind", source, target))
  {
    var text := ("type" + "=" + "bind") + "," + (("source" + "=" + source) + "," + ("target" + "=" + target));
    assert ("type" + "=" + "bind") + "," + ("source" + "=") == "type=bind,source=";
    assert "," + ("target" + "=" + target) == end;
    Regroup("type" + "=" + "bind", ",", "source" + "=", source, ",", "target" + "=" + target);
    FieldsAreRead(text, "bind", source, target);
  }

  lemma Regroup(a: string, b: string, c: string, d: string, e: string, f: string)
    ensures a + b + ((c + d) + e + f) == (a + b + c) + d + (e + f)
  {
  }

  /** How Docker reads its limits. */
  datatype Units = Units(cpus: string -> int, memory: string -> int, pids: string -> int)

  function Read(text: Option<string>, unit: string -> int): Option<int> {
    if text.Some? then Some(unit(text.value)) else None
  }

  function HostOf(options: seq<(string, string)>, units: Units): HostConfig {
    HostConfig(
      Last(ValuesOf(options, "--network")),
      Last(ValuesOf(options, "--restart")),
      Some(0),
      map p | p in ValuesOf(options, "--publish") :: [p],
      ValuesOf(options, "--security-opt"),
      ValuesOf(options, "--cap-drop"),
      ValuesOf(options, "--cap-add"),
      Read(Last(ValuesOf(options, "--pids-limit")), units.pids),
      Read(Last(ValuesOf(options, "--cpus")), units.cpus),
      Read(Last(ValuesOf(options, "--memory")), units.memory),
      ValuesOf(options, "--volume"))
  }

  /** What `docker inspect` reports of a container made from these arguments; `surface` is all its text. */
  function InspectOf(args: seq<string>, units: Units, surface: seq<string>): Inspect {
    var options := OptionsGiven(args);
    var network := Last(ValuesOf(options, "--network"));
    Inspect(
      ImageGiven(args), ImageGiven(args), LabelsGiven(args), MountsOf(ValuesOf(options, "--mount")),
      Some(HostOf(options, units)),
      Some(if network.Some? then {network.value} else {}),
      map p | p in ValuesOf(options, "--publish") :: [p],
      surface)
  }

  // ------------------------------------------------------------------------------------------ the values in the line

  function Hit(option: (string, string), name: string): seq<string> { if option.0 == name then [option.1] else [] }

  lemma TwoValues(a: (string, string), b: (string, string), name: string)
    ensures ValuesOf([a, b], name) == Hit(a, name) + Hit(b, name)
  {
    assert [a, b][1..] == [b] && [b][1..] == [];
    assert ValuesOf([b], name) == Hit(b, name) + ValuesOf([], name);
  }

  lemma ThreeValues(a: (string, string), b: (string, string), c: (string, string), name: string)
    ensures ValuesOf([a, b, c], name) == Hit(a, name) + Hit(b, name) + Hit(c, name)
  {
    assert [a, b, c][1..] == [b, c];
    TwoValues(b, c, name);
  }

  lemma NamingValues(name: string)
    ensures var o := NamingOptions(name);
            && ValuesOf(o, "--restart") == ["unless-stopped"]
            && forall n :: n !in {"--pull", "--restart", "--name"} ==> ValuesOf(o, n) == []
  {
    var o := NamingOptions(name);
    assert "--pull"[2] == 'p' && "--restart"[2] == 'r' && "--name"[2] == 'n';
    ThreeValues(o[0], o[1], o[2], "--restart");
    assert Hit(o[0], "--restart") == [] && Hit(o[2], "--restart") == [];
    forall n | n !in {"--pull", "--restart", "--name"} ensures ValuesOf(o, n) == [] { NoValues(o, n); }
  }

  lemma LabelValues(agentId: string, spec: Spec, op: Operation, extra: seq<(string, string)>, name: string)
    requires name != "--label"
    ensures ValuesOf(LabelPart(agentId, spec, op, extra), name) == []
  {
    NoValues(LabelPart(agentId, spec, op, extra), name);
  }

  function PlacePart(projection: Projection, runtime: Runtime): seq<(string, string)> {
    [("--network", runtime.network),
     ("--mount", "type=bind,source=" + projection.hermesHome + ",target=/opt/data"),
     ("--mount", "type=bind,source=" + projection.workspace + ",target=/workspace")]
  }

  function LimitPart(runtime: Runtime): seq<(string, string)> {
    [("--cpus", runtime.cpus), ("--memory", runtime.memory), ("--pids-limit", runtime.pids)]
  }

  const SECURITY_PART: seq<(string, string)> := [("--security-opt", "no-new-privileges"), ("--cap-drop", "ALL")]

  function Added(capabilities: seq<string>): seq<(string, string)> {
    seq(|capabilities|, i requires 0 <= i < |capabilities| => ("--cap-add", capabilities[i]))
  }

  lemma SandboxParts(projection: Projection, runtime: Runtime)
    ensures SandboxOptions(projection, runtime)
         == PlacePart(projection, runtime) + LimitPart(runtime) + SECURITY_PART + Added(CAPABILITIES)
  {
  }

  lemma {:induction false} AddedValues(capabilities: seq<string>, name: string)
    ensures ValuesOf(Added(capabilities), name) == if name == "--cap-add" then capabilities else []
  {
    if capabilities != [] {
      assert Added(capabilities)[1..] == Added(capabilities[1..]);
      AddedValues(capabilities[1..], name);
    }
  }

  lemma PlaceValues(projection: Projection, runtime: Runtime)
    ensures var o := PlacePart(projection, runtime);
            && ValuesOf(o, "--network") == [runtime.network]
            && ValuesOf(o, "--mount") == [o[1].1, o[2].1]
            && forall n :: n !in {"--network", "--mount"} ==> ValuesOf(o, n) == []
  {
    var o := PlacePart(projection, runtime);
    assert "--network"[2] != "--mount"[2];
    ThreeValues(o[0], o[1], o[2], "--network");
    ThreeValues(o[0], o[1], o[2], "--mount");
    assert Hit(o[1], "--network") == [] && Hit(o[2], "--network") == [] && Hit(o[0], "--mount") == [];
    assert [o[1].1] + [o[2].1] == [o[1].1, o[2].1];
    forall n | n !in {"--network", "--mount"} ensures ValuesOf(o, n) == [] { NoValues(o, n); }
  }

  lemma LimitValues(runtime: Runtime)
    ensures var o := LimitPart(runtime);
            && ValuesOf(o, "--cpus") == [runtime.cpus] && ValuesOf(o, "--memory") == [runtime.memory]
            && ValuesOf(o, "--pids-limit") == [runtime.pids]
            && forall n :: n !in {"--cpus", "--memory", "--pids-limit"} ==> ValuesOf(o, n) == []
  {
    var o := LimitPart(runtime);
    assert "--cpus"[2] == 'c' && "--memory"[2] == 'm' && "--pids-limit"[2] == 'p';
    ThreeValues(o[0], o[1], o[2], "--cpus");
    ThreeValues(o[0], o[1], o[2], "--memory");
    ThreeValues(o[0], o[1], o[2], "--pids-limit");
    assert Hit(o[1], "--cpus") == [] && Hit(o[2], "--cpus") == [];
    assert Hit(o[0], "--memory") == [] && Hit(o[2], "--memory") == [];
    assert Hit(o[0], "--pids-limit") == [] && Hit(o[1], "--pids-limit") == [];
    forall n | n !in {"--cpus", "--memory", "--pids-limit"} ensures ValuesOf(o, n) == [] { NoValues(o, n); }
  }

  lemma SecurityValues()
    ensures var o := SECURITY_PART;
            && ValuesOf(o, "--security-opt") == ["no-new-privileges"] && ValuesOf(o, "--cap-drop") == ["ALL"]
            && forall n :: n !in {"--security-opt", "--cap-drop"} ==> ValuesOf(o, n) == []
  {
    var o := SECURITY_PART;
    assert "--security-opt"[2] != "--cap-drop"[2];
    TwoValues(o[0], o[1], "--security-opt");
    TwoValues(o[0], o[1], "--cap-drop");
    assert Hit(o[1], "--security-opt") == [] && Hit(o[0], "--cap-drop") == [];
    forall n | n !in {"--security-opt", "--cap-drop"} ensures ValuesOf(o, n) == [] { NoValues(o, n); }
  }

  /** The values of one option in the whole line are those of its parts. */
  lemma LineValues(agentId: string, name: string, spec: Spec, op: Operation, projection: Projection, runtime: Runtime,
                   extra: seq<(string, string)>, option: string)
    requires option != "--label"
    ensures ValuesOf(NamingOptions(name) + LabelPart(agentId, spec, op, extra) + SandboxOptions(projection, runtime),
                     option)
         == ValuesOf(NamingOptions(name), option)
            + (ValuesOf(PlacePart(projection, runtime), option) + ValuesOf(LimitPart(runtime), option)
               + ValuesOf(SECURITY_PART, option) + ValuesOf(Added(CAPABILITIES), option))
  {
    var place, limits := PlacePart(projection, runtime), LimitPart(runtime);
    var labels := LabelPart(agentId, spec, op, extra);
    ValuesConcat(NamingOptions(name) + labels, SandboxOptions(projection, runtime), option);
    ValuesConcat(NamingOptions(name), labels, option);
    LabelValues(agentId, spec, op, extra, option);
    SandboxParts(projection, runtime);
    ValuesConcat(place + limits + SECURITY_PART, Added(CAPABILITIES), option);
    ValuesConcat(place + limits, SECURITY_PART, option);
    ValuesConcat(place, limits, option);
  }

  // ----------------------------------------------------------------------------------------------- what is reported

  function Line(agentId: string, name: string, spec: Spec, op: Operation, projection: Projection, runtime: Runtime,
                extra: seq<(string, string)>): seq<(string, string)> {
    NamingOptions(name) + LabelPart(agentId, spec, op, extra) + SandboxOptions(projection, runtime)
  }

  /** Tells the options apart: by their third character, or by their length. */
  lemma OptionNames()
    ensures "--pull"[2] == 'p' && "--restart"[2] == 'r' && "--name"[2] == 'n' && "--label"[2] == 'l'
    ensures "--network"[2] == 'n' && "--mount"[2] == 'm' && "--publish"[2] == 'p' && "--volume"[2] == 'v'
    ensures "--cpus"[2] == 'c' && "--memory"[2] == 'm' && "--pids-limit"[2] == 'p'
    ensures "--security-opt"[2] == 's' && "--cap-drop"[2] == 'c' && "--cap-add"[2] == 'c'
    ensures |"--pull"| == 6 && |"--restart"| == 9 && |"--name"| == 6 && |"--network"| == 9 && |"--mount"| == 7
    ensures |"--publish"| == 9 && |"--volume"| == 8 && |"--cpus"| == 6 && |"--memory"| == 8
    ensures |"--pids-limit"| == 12 && |"--security-opt"| == 14 && |"--cap-drop"| == 10 && |"--cap-add"| == 9
  {
  }

  lemma InNaming(agentId: string, name: string, spec: Spec, op: Operation, projection: Projection, runtime: Runtime,
                 extra: seq<(string, string)>, option: string)
    requires option == "--restart"
    ensures ValuesOf(Line(agentId, name, spec, op, projection, runtime, extra), option) == ["unless-stopped"]
  {
    OptionNames();
    NamingValues(name);
    PlaceValues(projection, runtime);
    LimitValues(runtime);
    SecurityValues();
    AddedValues(CAPABILITIES, option);
    LineValues(agentId, name, spec, op, projection, runtime, extra, option);
  }

  lemma InPlace(agentId: string, name: string, spec: Spec, op: Operation, projection: Projection, runtime: Runtime,
                extra: seq<(string, string)>, option: string)
    requires option == "--network" || option == "--mount"
    ensures ValuesOf(Line(agentId, name, spec, op, projection, runtime, extra), option)
         == ValuesOf(PlacePart(projection, runtime), option)
  {
    OptionNames();
    NamingValues(name);
    LimitValues(runtime);
    SecurityValues();
    AddedValues(CAPABILITIES, option);
    LineValues(agentId, name, spec, op, projection, runtime, extra, option);
  }

  lemma InLimits(agentId: string, name: string, spec: Spec, op: Operation, projection: Projection, runtime: Runtime,
                 extra: seq<(string, string)>, option: string)
    requires option == "--cpus" || option == "--memory" || option == "--pids-limit"
    ensures ValuesOf(Line(agentId, name, spec, op, projection, runtime, extra), option)
         == ValuesOf(LimitPart(runtime), option)
  {
    OptionNames();
    NamingValues(name);
    PlaceValues(projection, runtime);
    SecurityValues();
    AddedValues(CAPABILITIES, option);
    LineValues(agentId, name, spec, op, projection, runtime, extra, option);
  }

  lemma InSecurity(agentId: string, name: string, spec: Spec, op: Operation, projection: Projection, runtime: Runtime,
                   extra: seq<(string, string)>)
    ensures ValuesOf(Line(agentId, name, spec, op, projection, runtime, extra), "--security-opt")
         == ["no-new-privileges"]
  {
    OptionNames();
    NamingValues(name);
    PlaceValues(projection, runtime);
    LimitValues(runtime);
    AddedValues(CAPABILITIES, "--security-opt");
    SecurityValues();
    LineValues(agentId, name, spec, op, projection, runtime, extra, "--security-opt");
  }

  lemma InDropped(agentId: string, name: string, spec: Spec, op: Operation, projection: Projection, runtime: Runtime,
                  extra: seq<(string, string)>)
    ensures ValuesOf(Line(agentId, name, spec, op, projection, runtime, extra), "--cap-drop") == ["ALL"]
  {
    OptionNames();
    NamingValues(name);
    PlaceValues(projection, runtime);
    LimitValues(runtime);
    AddedValues(CAPABILITIES, "--cap-drop");
    SecurityValues();
    LineValues(agentId, name, spec, op, projection, runtime, extra, "--cap-drop");
  }

  lemma InAdded(agentId: string, name: string, spec: Spec, op: Operation, projection: Projection, runtime: Runtime,
                extra: seq<(string, string)>, option: string)
    requires option == "--cap-add"
    ensures ValuesOf(Line(agentId, name, spec, op, projection, runtime, extra), option) == CAPABILITIES
  {
    OptionNames();
    NamingValues(name);
    PlaceValues(projection, runtime);
    LimitValues(runtime);
    SecurityValues();
    AddedValues(CAPABILITIES, option);
    LineValues(agentId, name, spec, op, projection, runtime, extra, option);
  }

  lemma InNone(agentId: string, name: string, spec: Spec, op: Operation, projection: Projection, runtime: Runtime,
               extra: seq<(string, string)>, option: string)
    requires option == "--publish" || option == "--volume"
    ensures ValuesOf(Line(agentId, name, spec, op, projection, runtime, extra), option) == []
  {
    OptionNames();
    NamingValues(name);
    PlaceValues(projection, runtime);
    LimitValues(runtime);
    SecurityValues();
    AddedValues(CAPABILITIES, option);
    LineValues(agentId, name, spec, op, projection, runtime, extra, option);
  }

  /** The service's own reading of the limits is Docker's. */
  predicate LimitsAgree(runtime: Runtime, units: Units) {
    && units.cpus(runtime.cpus) == runtime.nanoCpus
    && units.memory(runtime.memory) == runtime.memoryBytes
    && units.pids(runtime.pids) == runtime.pidsLimit
  }

  // ---------------------------------------------------------------------------------------------- the sandbox holds

  lemma SameSetExactly(values: seq<string>)
    requires |SetOf(Normals(values))| == |values|
    ensures HasExactStringSet(values, values)
  {
  }

  lemma OneValueExactly(value: string)
    ensures HasExactStringSet([value], [value])
  {
    assert Normals([value]) == [Normal(value)];
    assert SetOf([Normal(value)]) == {Normal(value)};
    SameSetExactly([value]);
  }

  /** A plain capability is its own normal form. */
  lemma NormalIsItself(s: string)
    requires |s| >= 4 && s[..3] != "CAP"
    requires forall c :: c in s ==> !IsBlank(c) && !('a' <= c <= 'z')
    ensures Normal(s) == s
  {
    assert s[0] in s && s[|s| - 1] in s;
    assert SkipBlanks(s) == s && DropTrailingBlanks(s) == s;
    assert forall i :: 0 <= i < |s| ==> s[i] in s;
    assert Upper(s) == s;
    assert Upper(s[..4]) == s[..4] && s[..4][..3] == s[..3];
    assert "CAP_"[..3] == "CAP";
  }

  /** In capitals, without blanks, and not beginning as the prefix does. */
  predicate IsPlain(s: string) {
    |s| >= 4 && (s[0] != 'C' || s[1] != 'A') && forall c :: c in s ==> 'A' <= c <= 'Z' || c == '_'
  }

  lemma PlainIsNormal(s: string)
    requires IsPlain(s)
    ensures Normal(s) == s
  {
    assert s[..3][0] == s[0] && s[..3][1] == s[1] && "CAP"[0] == 'C' && "CAP"[1] == 'A';
    NormalIsItself(s);
  }

  lemma CapabilitiesArePlain()
    ensures forall i :: 0 <= i < 5 ==> IsPlain(CAPABILITIES[i])
  {
  }

  lemma CapabilitiesDiffer()
    ensures NoneTwice(CAPABILITIES)
  {
    assert |CAPABILITIES[0]| == 5 && |CAPABILITIES[1]| == 12;
    assert CAPABILITIES[2][0] == 'F' && CAPABILITIES[3][0] == 'S' && CAPABILITIES[4][0] == 'S';
    assert CAPABILITIES[3][3] == 'G' && CAPABILITIES[4][3] == 'U';
    assert |CAPABILITIES[2]| == 6 && |CAPABILITIES[3]| == 6 && |CAPABILITIES[4]| == 6;
  }

  lemma NormalSetExactly(values: seq<string>)
    requires NoneTwice(values) && forall i :: 0 <= i < |values| ==> Normal(values[i]) == values[i]
    ensures HasExactStringSet(values, values)
  {
    assert Normals(values) == values;
    SizeMeansNoneTwice(values);
    SameSetExactly(values);
  }

  lemma PlainSetExactly(values: seq<string>)
    requires NoneTwice(values) && forall i :: 0 <= i < |values| ==> IsPlain(values[i])
    ensures HasExactStringSet(values, values)
  {
    forall i | 0 <= i < |values| ensures Normal(values[i]) == values[i] { PlainIsNormal(values[i]); }
    NormalSetExactly(values);
  }

  lemma CapabilitiesExactly()
    ensures HasExactStringSet(CAPABILITIES, CAPABILITIES)
  {
    CapabilitiesArePlain();
    CapabilitiesDiffer();
    PlainSetExactly(CAPABILITIES);
  }

  lemma {:induction false} IncludedIsShorter(s: string, part: string)
    requires Includes(s, part)
    ensures |part| <= |s|
  {
    if !(part <= s) { IncludedIsShorter(s[1..], part); }
  }

  /** The paths of the service's own mounts can be written in a mount option. */
  predicate PlainPaths(projection: Projection) { ',' !in projection.hermesHome && ',' !in projection.workspace }

  function OwnMounts(projection: Projection): seq<Mount> {
    [Mount("bind", projection.hermesHome, "/opt/data"), Mount("bind", projection.workspace, "/workspace")]
  }

  lemma MountsAreRead(projection: Projection, runtime: Runtime)
    requires PlainPaths(projection)
    ensures var place := PlacePart(projection, runtime);
            MountsOf([place[1].1, place[2].1]) == OwnMounts(projection)
  {
    MountIsRead(projection.hermesHome, "/opt/data", ",target=/opt/data");
    MountIsRead(projection.workspace, "/workspace", ",target=/workspace");
    var texts := [PlacePart(projection, runtime)[1].1, PlacePart(projection, runtime)[2].1];
    assert texts[1..] == [texts[1]] && texts[1..][1..] == [];
    assert MountsOf(texts[1..]) == [Mount("bind", projection.workspace, "/workspace")];
  }

  /** Neither path goes through the Docker socket. */
  predicate NoSocket(projection: Projection) {
    !Includes(projection.hermesHome, DOCKER_SOCKET) && !Includes(projection.workspace, DOCKER_SOCKET)
  }

  lemma TargetsAreNoSocket()
    ensures !Includes("/opt/data", DOCKER_SOCKET) && !Includes("/workspace", DOCKER_SOCKET)
  {
    if Includes("/opt/data", DOCKER_SOCKET) { IncludedIsShorter("/opt/data", DOCKER_SOCKET); }
    if Includes("/workspace", DOCKER_SOCKET) { IncludedIsShorter("/workspace", DOCKER_SOCKET); }
  }

  lemma SocketAmong(inspect: Inspect, a: Mount, b: Mount)
    requires inspect.mounts == [a, b] && inspect.host.Some? && inspect.host.value.binds == []
    requires !Includes(a.destination, DOCKER_SOCKET) && !Includes(b.destination, DOCKER_SOCKET)
    ensures MountsDockerSocket(inspect) <==> Includes(a.source, DOCKER_SOCKET) || Includes(b.source, DOCKER_SOCKET)
  {
    assert a in inspect.mounts && b in inspect.mounts && forall m :: m in inspect.mounts ==> m == a || m == b;
  }

  lemma SocketInMounts(inspect: Inspect, projection: Projection)
    requires inspect.mounts == OwnMounts(projection) && inspect.host.Some? && inspect.host.value.binds == []
    ensures MountsDockerSocket(inspect) <==> !NoSocket(projection)
  {
    TargetsAreNoSocket();
    SocketAmong(inspect, OwnMounts(projection)[0], OwnMounts(projection)[1]);
  }

  // ---------------------------------------------------------------------------------------- the judge and the line

  /** What Docker reports of a container made by the service's own line. */
  function Made(agentId: string, name: string, spec: Spec, op: Operation, projection: Projection, runtime: Runtime,
                imageId: string, extra: seq<(string, string)>, units: Units, surface: seq<string>): Inspect {
    InspectOf(RunArgs(agentId, name, spec, op, projection, runtime, imageId, extra), units, surface)
  }

  /** The host configuration that the line asks for. */
  function OwnHost(runtime: Runtime): HostConfig {
    HostConfig(Some(runtime.network), Some("unless-stopped"), Some(0), map[], ["no-new-privileges"], ["ALL"],
               CAPABILITIES, Some(runtime.pidsLimit), Some(runtime.nanoCpus), Some(runtime.memoryBytes), [])
  }

  lemma HostIsOwn(agentId: string, name: string, spec: Spec, op: Operation, projection: Projection, runtime: Runtime,
                  extra: seq<(string, string)>, units: Units)
    requires LimitsAgree(runtime, units)
    ensures HostOf(Line(agentId, name, spec, op, projection, runtime, extra), units) == OwnHost(runtime)
  {
    PlaceValues(projection, runtime);
    LimitValues(runtime);
    InNaming(agentId, name, spec, op, projection, runtime, extra, "--restart");
    InPlace(agentId, name, spec, op, projection, runtime, extra, "--network");
    InLimits(agentId, name, spec, op, projection, runtime, extra, "--cpus");
    InLimits(agentId, name, spec, op, projection, runtime, extra, "--memory");
    InLimits(agentId, name, spec, op, projection, runtime, extra, "--pids-limit");
    InSecurity(agentId, name, spec, op, projection, runtime, extra);
    InDropped(agentId, name, spec, op, projection, runtime, extra);
    InAdded(agentId, name, spec, op, projection, runtime, extra, "--cap-add");
    InNone(agentId, name, spec, op, projection, runtime, extra, "--publish");
    InNone(agentId, name, spec, op, projection, runtime, extra, "--volume");
  }

  lemma MadeIsOwn(agentId: string, name: string, spec: Spec, op: Operation, projection: Projection, runtime: Runtime,
                  imageId: string, extra: seq<(string, string)>, units: Units, surface: seq<string>)
    requires LimitsAgree(runtime, units) && PlainPaths(projection) && !StartsWith(imageId, "--")
    ensures var i := Made(agentId, name, spec, op, projection, runtime, imageId, extra, units, surface);
            && i.image == i.configImage == Some(imageId) && i.host == Some(OwnHost(runtime))
            && i.mounts == OwnMounts(projection) && i.networks == Some({runtime.network}) && i.networkPorts == map[]
            && i.surface == surface
            && i.labels == LabelsGiven(RunArgs(agentId, name, spec, op, projection, runtime, imageId, extra))
  {
    RunArgsRead(agentId, name, spec, op, projection, runtime, imageId, extra);
    HostIsOwn(agentId, name, spec, op, projection, runtime, extra, units);
    PlaceValues(projection, runtime);
    InPlace(agentId, name, spec, op, projection, runtime, extra, "--network");
    InPlace(agentId, name, spec, op, projection, runtime, extra, "--mount");
    InNone(agentId, name, spec, op, projection, runtime, extra, "--publish");
    MountsAreRead(projection, runtime);
  }

  lemma OwnSandboxHolds(inspect: Inspect, projection: Projection, runtime: Runtime)
    requires inspect.host == Some(OwnHost(runtime)) && inspect.mounts == OwnMounts(projection)
    requires inspect.networks == Some({runtime.network}) && inspect.networkPorts == map[]
    ensures LaunchSandbox(inspect, runtime) <==> NoSocket(projection)
  {
    OneValueExactly("no-new-privileges");
    OneValueExactly("ALL");
    CapabilitiesExactly();
    SocketInMounts(inspect, projection);
  }

  /** The extra labels leave alone what the launch judge reads. */
  predicate JudgedLabelsLeftAlone(extra: seq<(string, string)>, spec: Spec) {
    && LeavesAlone(extra, IMAGE_REFERENCE, spec.image) && LeavesAlone(extra, CONFIG_REVISION, spec.configRevision)
    && LeavesAlone(extra, SPEC_VERSION, spec.version)
  }

  lemma JudgedLabels(agentId: string, name: string, spec: Spec, op: Operation, projection: Projection,
                     runtime: Runtime, imageId: string, extra: seq<(string, string)>)
    requires op.target == TargetOf(spec)
    requires !StartsWith(imageId, "--") && forall p :: p in extra ==> '=' !in p.0
    ensures var labels := LabelsGiven(RunArgs(agentId, name, spec, op, projection, runtime, imageId, extra));
            && (IMAGE_REFERENCE in labels && CONFIG_REVISION in labels && SPEC_VERSION in labels)
            && ((labels[IMAGE_REFERENCE] == spec.image && labels[CONFIG_REVISION] == spec.configRevision
                 && labels[SPEC_VERSION] == spec.version)
                <==> JudgedLabelsLeftAlone(extra, spec))
  {
    var fixed := FixedLabels(agentId, spec, op);
    RunArgsLabels(agentId, name, spec, op, projection, runtime, imageId, extra);
    CollectConcat(fixed, extra, map[]);
    FixedLabelValue(agentId, spec, op, 1);
    FixedLabelValue(agentId, spec, op, 2);
    FixedLabelValue(agentId, spec, op, 6);
    forall n | n == IMAGE_REFERENCE || n == CONFIG_REVISION || n == SPEC_VERSION
      ensures LastValue(fixed, n).Some? && n in Collect(fixed + extra, map[])
      ensures Collect(fixed + extra, map[])[n]
           == if LastValue(extra, n).Some? then LastValue(extra, n).value else LastValue(fixed, n).value
    {
      CollectKeepsLast(fixed, map[], n);
      CollectKeepsLast(extra, Collect(fixed, map[]), n);
    }
  }

  lemma JudgedByRest(i: Inspect, spec: Spec, projection: Projection, runtime: Runtime, imageId: string,
                     marker: Option<Marker>, leaks: string -> bool)
    requires i.image == i.configImage == Some(imageId) && i.mounts == OwnMounts(projection)
    requires IMAGE_REFERENCE in i.labels && CONFIG_REVISION in i.labels && SPEC_VERSION in i.labels
    ensures LaunchAccepts(i, spec, projection, runtime, imageId, marker, leaks)
      <==> (&& i.labels[IMAGE_REFERENCE] == spec.image && i.labels[CONFIG_REVISION] == spec.configRevision
            && i.labels[SPEC_VERSION] == spec.version
            && marker == Some(OwnMarker(spec)) && LaunchSandbox(i, runtime) && !Leaks(i, leaks))
  {
    assert i.mounts[0] in i.mounts && i.mounts[1] in i.mounts;
  }

  function OwnMarker(spec: Spec): Marker {
    Marker(Some(spec.version), Some(spec.agentId), Some(spec.configRevision), Some(spec.image))
  }

  /**
   The line meets the judge. What Docker reports of a container made by the service's own line is accepted at launch if
   and only if the extra labels leave the judged ones alone, the marker is the spec's, no mounted path goes through the
   Docker socket, and no secret shows.
   */
  lemma MadePassesExactly(agentId: string, name: string, spec: Spec, op: Operation, projection: Projection,
                          runtime: Runtime, imageId: string, extra: seq<(string, string)>, units: Units,
                          surface: seq<string>, marker: Option<Marker>, leaks: string -> bool)
    requires op.target == TargetOf(spec) && LimitsAgree(runtime, units) && PlainPaths(projection)
    requires !StartsWith(imageId, "--") && forall p :: p in extra ==> '=' !in p.0
    ensures var i := Made(agentId, name, spec, op, projection, runtime, imageId, extra, units, surface);
            LaunchAccepts(i, spec, projection, runtime, imageId, marker, leaks)
            <==> (&& JudgedLabelsLeftAlone(extra, spec) && marker == Some(OwnMarker(spec))
                  && NoSocket(projection) && forall s :: s in surface ==> !leaks(s))
  {
    var i := Made(agentId, name, spec, op, projection, runtime, imageId, extra, units, surface);
    MadeIsOwn(agentId, name, spec, op, projection, runtime, imageId, extra, units, surface);
    OwnSandboxHolds(i, projection, runtime);
    JudgedLabels(agentId, name, spec, op, projection, runtime, imageId, extra);
    JudgedByRest(i, spec, projection, runtime, imageId, marker, leaks);
  }
}
