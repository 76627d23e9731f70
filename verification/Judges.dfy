/**
 The two judges of a managed container. One decides at launch whether a container may be reused or accepted; the
 other decides, at every status request, whether the observed container is still exactly what was asked for. They
 share no code path: one reads the launch spec, the other the labels that the `docker run` command line wrote.
 */
module Judges {
  import opened Options
  import opened StringSets
  import opened Text

  // ------------------------------------------------------------------------------------------- what Docker reports

  datatype Mount = Mount(kind: string, source: string, destination: string)

  /** Published ports: container port to the host ports bound to it. */
  type Ports = map<string, seq<string>>

  datatype HostConfig = HostConfig(
    networkMode: Option<string>,
    restartPolicy: Option<string>,
    maximumRetryCount: Option<int>,
    portBindings: Ports,
    securityOpt: seq<string>,
    capDrop: seq<string>,
    capAdd: seq<string>,
    pidsLimit: Option<int>,
    nanoCpus: Option<int>,
    memory: Option<int>,
    binds: seq<string>)

  /** One `docker inspect` record. `surface` is every string of the command line, environment, labels and name. */
  datatype Inspect = Inspect(
    image: Option<string>,
    configImage: Option<string>,
    labels: map<string, string>,
    mounts: seq<Mount>,
    host: Option<HostConfig>,
    networks: Option<set<string>>,
    networkPorts: Ports,
    surface: seq<string>)

  // ------------------------------------------------------------------------------------------------ what was asked for

  datatype Action = StartAction | RestartAction

  datatype Target = Target(image: string, launchSpecVersion: string, configRevision: string)

  datatype Operation = Operation(id: string, action: Action, target: Target, acceptedAt: string)

  datatype Spec = Spec(agentId: string, image: string, version: string, configRevision: string)

  /** The limits after parsing; `network` is the private network's name. */
  datatype Runtime = Runtime(network: string, cpus: string, memory: string, pids: string,
                             nanoCpus: int, memoryBytes: int, pidsLimit: int)

  datatype Projection = Projection(hermesHome: string, workspace: string)

  function TargetOf(spec: Spec): Target {
    Target(spec.image, spec.version, spec.configRevision)
  }

  const AGENT_ID := "bruno.agent_id"
  const CONFIG_REVISION := "bruno.config_revision"
  const SPEC_VERSION := "bruno.launch_spec_version"
  const OPERATION_ID := "bruno.operation_id"
  const OPERATION_ACTION := "bruno.operation_action"
  const ACCEPTED_AT := "bruno.operation_accepted_at"
  const IMAGE_REFERENCE := "bruno.image_reference"

  function ActionText(a: Action): string {
    match a
    case StartAction => "start"
    case RestartAction => "restart"
  }

  // ------------------------------------------------------------------------------------------ printing: docker run

  function FixedLabels(agentId: string, spec: Spec, op: Operation): seq<(string, string)> {
    [(AGENT_ID, agentId),
     (CONFIG_REVISION, spec.configRevision),
     (SPEC_VERSION, spec.version),
     (OPERATION_ID, op.id),
     (OPERATION_ACTION, ActionText(op.action)),
     (ACCEPTED_AT, op.acceptedAt),
     (IMAGE_REFERENCE, spec.image)]
  }

  function LabelOptions(labels: seq<(string, string)>): seq<(string, string)> {
    seq(|labels|, i requires 0 <= i < |labels| => ("--label", labels[i].0 + "=" + labels[i].1))
  }

  /** The words of a list of options that take a value. */
  function Words(options: seq<(string, string)>): seq<string> {
    if options == [] then [] else [options[0].0, options[0].1] + Words(options[1..])
  }

  function NamingOptions(name: string): seq<(string, string)> {
    [("--pull", "never"), ("--restart", "unless-stopped"), ("--name", name)]
  }

  function SandboxOptions(projection: Projection, runtime: Runtime): seq<(string, string)> {
    [("--network", runtime.network),
     ("--mount", "type=bind,source=" + projection.hermesHome + ",target=/opt/data"),
     ("--mount", "type=bind,source=" + projection.workspace + ",target=/workspace"),
     ("--cpus", runtime.cpus),
     ("--memory", runtime.memory),
     ("--pids-limit", runtime.pids),
     ("--security-opt", "no-new-privileges"),
     ("--cap-drop", "ALL"),
     ("--cap-add", "CHOWN"), ("--cap-add", "DAC_OVERRIDE"), ("--cap-add", "FOWNER"),
     ("--cap-add", "SETGID"), ("--cap-add", "SETUID")]
  }

  /** The whole `docker run` command line. */
  function RunArgs(agentId: string, name: string, spec: Spec, op: Operation, projection: Projection, runtime: Runtime,
                   imageId: string, extra: seq<(string, string)>): seq<string> {
    ["run", "--detach"]
    + Words(NamingOptions(name) + LabelOptions(FixedLabels(agentId, spec, op)) + LabelOptions(extra)
            + SandboxOptions(projection, runtime))
    + [imageId, "gateway", "run"]
  }

  // ------------------------------------------------------------------------- reading the command line as Docker does

  function AddLabel(labels: map<string, string>, text: string): map<string, string> {
    match SplitAssignment(text)
    case None => labels[text := ""]
    case Some((name, value)) => labels[name := value]
  }

  /** Options up to the first word that is not one; `--detach` stands alone, every other option takes a value. */
  function LabelsFrom(words: seq<string>, labels: map<string, string>): map<string, string>
    decreases |words|
  {
    if words == [] || !StartsWith(words[0], "--") then labels
    else if words[0] == "--detach" || |words| == 1 then LabelsFrom(words[1..], labels)
    else LabelsFrom(words[2..], if words[0] == "--label" then AddLabel(labels, words[1]) else labels)
  }

  function LabelsGiven(args: seq<string>): map<string, string> {
    if args == [] || args[0] != "run" then map[] else LabelsFrom(args[1..], map[])
  }

  /** The labels of a list of name/value pairs when a later one replaces an earlier one. */
  function Collect(pairs: seq<(string, string)>, labels: map<string, string>): map<string, string> {
    if pairs == [] then labels else Collect(pairs[1..], labels[pairs[0].0 := pairs[0].1])
  }

  // ------------------------------------------------------------------------------------------ reading: the operation

  predicate IsHex(c: char) { '0' <= c <= '9' || 'a' <= c <= 'f' || 'A' <= c <= 'F' }

  /** 8-4-4-4-12 hexadecimal digits, version 1 to 5, variant 8, 9, a or b. */
  predicate IsUuid(s: string) {
    && |s| == 36
    && s[8] == '-' && s[13] == '-' && s[18] == '-' && s[23] == '-'
    && (forall i :: 0 <= i < 36 && i != 8 && i != 13 && i != 18 && i != 23 ==> IsHex(s[i]))
    && '1' <= s[14] <= '5'
    && s[19] in ['8', '9', 'a', 'b', 'A', 'B']
  }

  /** A label that is present and not empty. */
  function LabelText(labels: map<string, string>, name: string): Option<string> {
    if name in labels && labels[name] != "" then Some(labels[name]) else None
  }

  function ReadAction(s: string): Option<Action> {
    if s == "start" then Some(StartAction) else if s == "restart" then Some(RestartAction) else None
  }

  /** `exactInstant` stands for the date library: the text is its own ISO form. */
  function ReadOperation(labels: map<string, string>, exactInstant: string -> bool): Option<Operation> {
    var id, action := LabelText(labels, OPERATION_ID), LabelText(labels, OPERATION_ACTION);
    var at := LabelText(labels, ACCEPTED_AT);
    var image, version := LabelText(labels, IMAGE_REFERENCE), LabelText(labels, SPEC_VERSION);
    var revision := LabelText(labels, CONFIG_REVISION);
    if id.None? || !IsUuid(id.value) || action.None? || ReadAction(action.value).None? || at.None?
       || !exactInstant(at.value) || image.None? || version.None? || revision.None?
    then None
    else Some(Operation(id.value, ReadAction(action.value).value,
                        Target(image.value, version.value, revision.value), at.value))
  }

  // ---------------------------------------------------------------------- what is printed is what is read (operation)

  /** Every option is one Docker reads with a value. */
  predicate ValuedOptions(options: seq<(string, string)>) {
    forall o :: o in options ==> StartsWith(o.0, "--") && o.0 != "--detach"
  }

  function LabelsOf(options: seq<(string, string)>, labels: map<string, string>): map<string, string> {
    if options == [] then labels
    else LabelsOf(options[1..], if options[0].0 == "--label" then AddLabel(labels, options[0].1) else labels)
  }

  lemma {:induction false} WordsAreRead(options: seq<(string, string)>, rest: seq<string>, labels: map<string, string>)
    requires ValuedOptions(options)
    ensures LabelsFrom(Words(options) + rest, labels) == LabelsFrom(rest, LabelsOf(options, labels))
  {
    if options == [] {
      assert Words(options) + rest == rest;
    } else {
      var words := Words(options) + rest;
      assert words[2..] == Words(options[1..]) + rest;
      assert options[0] in options;
      WordsAreRead(options[1..], rest, if options[0].0 == "--label" then AddLabel(labels, options[0].1) else labels);
    }
  }

  lemma {:induction false} LabelsOfConcat(a: seq<(string, string)>, b: seq<(string, string)>,
                                          labels: map<string, string>)
    ensures LabelsOf(a + b, labels) == LabelsOf(b, LabelsOf(a, labels))
  {
    if a == [] {
      assert a + b == b;
    } else {
      assert (a + b)[1..] == a[1..] + b;
      LabelsOfConcat(a[1..], b, if a[0].0 == "--label" then AddLabel(labels, a[0].1) else labels);
    }
  }

  lemma {:induction false} LabelOptionsCollect(pairs: seq<(string, string)>, labels: map<string, string>)
    requires forall p :: p in pairs ==> '=' !in p.0
    ensures LabelsOf(LabelOptions(pairs), labels) == Collect(pairs, labels)
  {
    if pairs != [] {
      assert pairs[0] in pairs;
      SplitJoinedAssignment(pairs[0].0, pairs[0].1);
      assert LabelOptions(pairs)[1..] == LabelOptions(pairs[1..]);
      LabelOptionsCollect(pairs[1..], labels[pairs[0].0 := pairs[0].1]);
    }
  }

  lemma {:induction false} NoLabelsAmong(options: seq<(string, string)>, labels: map<string, string>)
    requires forall o :: o in options ==> o.0 != "--label"
    ensures LabelsOf(options, labels) == labels
  {
    if options != [] {
      assert options[0] in options;
      NoLabelsAmong(options[1..], labels);
    }
  }

  lemma {:induction false} CollectConcat(a: seq<(string, string)>, b: seq<(string, string)>,
                                         labels: map<string, string>)
    ensures Collect(a + b, labels) == Collect(b, Collect(a, labels))
  {
    if a == [] {
      assert a + b == b;
    } else {
      assert (a + b)[1..] == a[1..] + b;
      CollectConcat(a[1..], b, labels[a[0].0 := a[0].1]);
    }
  }

  lemma OptionsCollect(a: seq<(string, string)>, fixed: seq<(string, string)>, extra: seq<(string, string)>,
                       b: seq<(string, string)>)
    requires forall o :: o in a || o in b ==> o.0 != "--label"
    requires forall p :: p in fixed || p in extra ==> '=' !in p.0
    ensures LabelsOf(a + LabelOptions(fixed) + LabelOptions(extra) + b, map[]) == Collect(fixed + extra, map[])
  {
    LabelsOfConcat(a + LabelOptions(fixed) + LabelOptions(extra), b, map[]);
    LabelsOfConcat(a + LabelOptions(fixed), LabelOptions(extra), map[]);
    LabelsOfConcat(a, LabelOptions(fixed), map[]);
    NoLabelsAmong(a, map[]);
    LabelOptionsCollect(fixed, map[]);
    LabelOptionsCollect(extra, Collect(fixed, map[]));
    NoLabelsAmong(b, Collect(extra, Collect(fixed, map[])));
    CollectConcat(fixed, extra, map[]);
  }

  lemma SandboxIsPlain(name: string, projection: Projection, runtime: Runtime)
    ensures forall o :: o in NamingOptions(name) || o in SandboxOptions(projection, runtime) ==>
              StartsWith(o.0, "--") && o.0 != "--detach" && o.0 != "--label"
  {
  }

  lemma FixedNamesArePlain(agentId: string, spec: Spec, op: Operation)
    ensures forall p :: p in FixedLabels(agentId, spec, op) ==> '=' !in p.0
  {
  }

  lemma RunLineRead(options: seq<(string, string)>, imageId: string)
    requires ValuedOptions(options) && !StartsWith(imageId, "--")
    ensures LabelsGiven(["run", "--detach"] + Words(options) + [imageId, "gateway", "run"]) == LabelsOf(options, map[])
  {
    var tail := [imageId, "gateway", "run"];
    var args := ["run", "--detach"] + Words(options) + tail;
    assert args[1..][0] == "--detach" && args[1..][1..] == Words(options) + tail;
    WordsAreRead(options, tail, map[]);
  }

  lemma RunLineCollects(a: seq<(string, string)>, fixed: seq<(string, string)>, extra: seq<(string, string)>,
                        b: seq<(string, string)>, imageId: string)
    requires forall o :: o in a || o in b ==> StartsWith(o.0, "--") && o.0 != "--detach" && o.0 != "--label"
    requires forall p :: p in fixed || p in extra ==> '=' !in p.0
    requires !StartsWith(imageId, "--")
    ensures LabelsGiven(["run", "--detach"] + Words(a + LabelOptions(fixed) + LabelOptions(extra) + b)
                        + [imageId, "gateway", "run"])
         == Collect(fixed + extra, map[])
  {
    OptionsCollect(a, fixed, extra, b);
    RunLineRead(a + LabelOptions(fixed) + LabelOptions(extra) + b, imageId);
  }

  /** The labels Docker reads from the command line are the fixed labels with the extra ones laid over them. */
  lemma RunArgsLabels(agentId: string, name: string, spec: Spec, op: Operation, projection: Projection,
                      runtime: Runtime, imageId: string, extra: seq<(string, string)>)
    requires !StartsWith(imageId, "--") && forall p :: p in extra ==> '=' !in p.0
    ensures LabelsGiven(RunArgs(agentId, name, spec, op, projection, runtime, imageId, extra))
         == Collect(FixedLabels(agentId, spec, op) + extra, map[])
  {
    SandboxIsPlain(name, projection, runtime);
    FixedNamesArePlain(agentId, spec, op);
    RunLineCollects(NamingOptions(name), FixedLabels(agentId, spec, op), extra, SandboxOptions(projection, runtime),
                    imageId);
  }

  const OPERATION_LABELS := {
    OPERATION_ID, OPERATION_ACTION, ACCEPTED_AT, IMAGE_REFERENCE, SPEC_VERSION, CONFIG_REVISION
  }

  /** The value the last pair with this name carries, if any. */
  function LastValue(pairs: seq<(string, string)>, name: string): Option<string> {
    if pairs == [] then None
    else
      var later := LastValue(pairs[1..], name);
      if later.Some? then later else if pairs[0].0 == name then Some(pairs[0].1) else None
  }

  lemma {:induction false} CollectKeepsLast(pairs: seq<(string, string)>, labels: map<string, string>, name: string)
    ensures var r := Collect(pairs, labels);
            (name in r <==> name in labels || LastValue(pairs, name).Some?)
            && (LastValue(pairs, name).Some? ==> r[name] == LastValue(pairs, name).value)
            && (LastValue(pairs, name).None? && name in labels ==> r[name] == labels[name])
  {
    if pairs != [] {
      CollectKeepsLast(pairs[1..], labels[pairs[0].0 := pairs[0].1], name);
    }
  }

  /** The value the fixed part of the command line gives to a label that carries the operation. */
  function OperationLabel(op: Operation, name: string): string
    requires name in OPERATION_LABELS
  {
    if name == OPERATION_ID then op.id
    else if name == OPERATION_ACTION then ActionText(op.action)
    else if name == ACCEPTED_AT then op.acceptedAt
    else if name == IMAGE_REFERENCE then op.target.image
    else if name == SPEC_VERSION then op.target.launchSpecVersion
    else op.target.configRevision
  }

  predicate WellFormedOperation(op: Operation, exactInstant: string -> bool) {
    && IsUuid(op.id) && op.acceptedAt != "" && exactInstant(op.acceptedAt)
    && op.target.image != "" && op.target.launchSpecVersion != "" && op.target.configRevision != ""
  }

  /** An operation is read back exactly when each of its six labels is there with its value. */
  lemma ReadBackExactly(labels: map<string, string>, op: Operation, exactInstant: string -> bool)
    requires WellFormedOperation(op, exactInstant)
    ensures ReadOperation(labels, exactInstant) == Some(op) <==>
            forall name :: name in OPERATION_LABELS ==> name in labels && labels[name] == OperationLabel(op, name)
  {
    assert OPERATION_ID in OPERATION_LABELS && OPERATION_ACTION in OPERATION_LABELS;
    assert ACCEPTED_AT in OPERATION_LABELS && IMAGE_REFERENCE in OPERATION_LABELS;
    assert SPEC_VERSION in OPERATION_LABELS && CONFIG_REVISION in OPERATION_LABELS;
  }

  lemma {:induction false} DistinctNamesKeepTheirValue(pairs: seq<(string, string)>, i: nat)
    requires i < |pairs| && forall j, k :: 0 <= j < k < |pairs| ==> pairs[j].0 != pairs[k].0
    ensures LastValue(pairs, pairs[i].0) == Some(pairs[i].1)
  {
    if i > 0 {
      DistinctNamesKeepTheirValue(pairs[1..], i - 1);
    } else {
      UnnamedHasNoValue(pairs[1..], pairs[0].0);
    }
  }

  lemma {:induction false} UnnamedHasNoValue(pairs: seq<(string, string)>, name: string)
    requires forall p :: p in pairs ==> p.0 != name
    ensures LastValue(pairs, name).None?
  {
    if pairs != [] {
      assert pairs[0] in pairs;
      UnnamedHasNoValue(pairs[1..], name);
    }
  }

  lemma FixedNamesAreDistinct(agentId: string, spec: Spec, op: Operation)
    ensures var l := FixedLabels(agentId, spec, op); forall j, k :: 0 <= j < k < |l| ==> l[j].0 != l[k].0
  {
    var l := FixedLabels(agentId, spec, op);
    assert l[0].0[6] == 'a' && l[1].0[6] == 'c' && l[2].0[6] == 'l' && l[6].0[6] == 'i';
    assert |l[3].0| == 18 && |l[4].0| == 22 && |l[5].0| == 27;
    assert l[3].0[6] == 'o' && l[4].0[6] == 'o' && l[5].0[6] == 'o';
  }

  lemma FixedLabelValue(agentId: string, spec: Spec, op: Operation, i: nat)
    requires i < 7
    ensures var l := FixedLabels(agentId, spec, op); LastValue(l, l[i].0) == Some(l[i].1)
  {
    FixedNamesAreDistinct(agentId, spec, op);
    DistinctNamesKeepTheirValue(FixedLabels(agentId, spec, op), i);
  }

  lemma FixedLabelValues(agentId: string, spec: Spec, op: Operation, name: string)
    requires op.target == TargetOf(spec) && (name in OPERATION_LABELS || name == AGENT_ID)
    ensures name in OPERATION_LABELS ==>
              LastValue(FixedLabels(agentId, spec, op), name) == Some(OperationLabel(op, name))
    ensures name == AGENT_ID ==> LastValue(FixedLabels(agentId, spec, op), name) == Some(agentId)
  {
    if name == AGENT_ID {
      FixedLabelValue(agentId, spec, op, 0);
      FixedNamesAreDistinct(agentId, spec, op);
      assert name !in OPERATION_LABELS by {
        var l := FixedLabels(agentId, spec, op);
        assert l[0].0 != l[1].0 && l[0].0 != l[2].0 && l[0].0 != l[3].0;
        assert l[0].0 != l[4].0 && l[0].0 != l[5].0 && l[0].0 != l[6].0;
      }
    } else if name == OPERATION_ID {
      FixedLabelValue(agentId, spec, op, 3);
    } else if name == OPERATION_ACTION {
      FixedLabelValue(agentId, spec, op, 4);
    } else if name == ACCEPTED_AT {
      FixedLabelValue(agentId, spec, op, 5);
    } else if name == IMAGE_REFERENCE {
      FixedLabelValue(agentId, spec, op, 6);
    } else if name == SPEC_VERSION {
      FixedLabelValue(agentId, spec, op, 2);
    } else {
      FixedLabelValue(agentId, spec, op, 1);
    }
  }

  /** An extra label leaves a name alone when its last occurrence, if any, repeats the fixed value. */
  predicate LeavesAlone(extra: seq<(string, string)>, name: string, value: string) {
    LastValue(extra, name).None? || LastValue(extra, name).value == value
  }

  /**
   An operation written by the command line is read back from the labels if and only if no extra label changes one
   of the six labels that carry it.
   */
  lemma OperationRoundTrip(agentId: string, name: string, spec: Spec, op: Operation, projection: Projection,
                           runtime: Runtime, imageId: string, extra: seq<(string, string)>,
                           exactInstant: string -> bool)
    requires WellFormedOperation(op, exactInstant) && op.target == TargetOf(spec)
    requires !StartsWith(imageId, "--") && forall p :: p in extra ==> '=' !in p.0
    ensures var labels := LabelsGiven(RunArgs(agentId, name, spec, op, projection, runtime, imageId, extra));
            && (ReadOperation(labels, exactInstant) == Some(op) <==>
                  forall n :: n in OPERATION_LABELS ==> LeavesAlone(extra, n, OperationLabel(op, n)))
            && AGENT_ID in labels
            && (labels[AGENT_ID] == agentId <==> LeavesAlone(extra, AGENT_ID, agentId))
  {
    var fixed := FixedLabels(agentId, spec, op);
    var labels := LabelsGiven(RunArgs(agentId, name, spec, op, projection, runtime, imageId, extra));
    RunArgsLabels(agentId, name, spec, op, projection, runtime, imageId, extra);
    CollectConcat(fixed, extra, map[]);
    forall n | n in OPERATION_LABELS || n == AGENT_ID
      ensures n in labels
      ensures n in OPERATION_LABELS && n != AGENT_ID ==>
                (labels[n] == OperationLabel(op, n) <==> LeavesAlone(extra, n, OperationLabel(op, n)))
      ensures n == AGENT_ID ==> (labels[n] == agentId <==> LeavesAlone(extra, n, agentId))
    {
      FixedLabelValues(agentId, spec, op, n);
      CollectKeepsLast(fixed, map[], n);
      CollectKeepsLast(extra, Collect(fixed, map[]), n);
    }
    assert AGENT_ID !in OPERATION_LABELS;
    ReadBackExactly(labels, op, exactInstant);
  }

  /** The condition the options check by hand: extra labels that reuse no bruno name never disturb the operation. */
  lemma {:induction false} FreshNamesLeaveAlone(extra: seq<(string, string)>, name: string, value: string)
    requires forall p :: p in extra ==> p.0 != name
    ensures LeavesAlone(extra, name, value)
  {
    if extra != [] {
      assert extra[0] in extra;
      FreshNamesLeaveAlone(extra[1..], name, value);
    }
  }

  // ------------------------------------------------------------------------------------------------ string sets

  function Upper(s: string): string {
    seq(|s|, i requires 0 <= i < |s| => if 'a' <= s[i] <= 'z' then ((s[i] as int - 32) as char) else s[i])
  }

  /** Trimmed, without a leading `CAP_` in any case, in upper case. */
  function Normal(s: string): string {
    var t := Trim(s);
    if |t| >= 4 && Upper(t[..4]) == "CAP_" then Upper(t[4..]) else Upper(t)
  }

  function Normals(values: seq<string>): seq<string> {
    seq(|values|, i requires 0 <= i < |values| => Normal(values[i]))
  }

  /** `hasExactDockerStringSet`: sizes first, then membership of every expected value. */
  predicate HasExactStringSet(actual: seq<string>, expected: seq<string>) {
    var have, want := SetOf(Normals(actual)), SetOf(Normals(expected));
    |have| == |want| && |want| == |expected| && |actual| == |have| && forall v :: v in want ==> v in have
  }

  /**
   The size-and-membership test accepts exactly the reorderings of the expected values: nothing missing, nothing
   extra, nothing twice.
   */
  lemma ExactStringSetIsReordering(actual: seq<string>, expected: seq<string>)
    requires |SetOf(Normals(expected))| == |expected|
    ensures HasExactStringSet(actual, expected) <==> multiset(Normals(actual)) == multiset(Normals(expected))
  {
    var a, e := Normals(actual), Normals(expected);
    SetOfSize(a);
    SetOfSize(e);
    if HasExactStringSet(actual, expected) {
      SubsetOfSameSize(SetOf(e), SetOf(a));
      forall v ensures multiset(a)[v] == multiset(e)[v] {
        assert v in a <==> v in SetOf(a);
        assert v in e <==> v in SetOf(e);
      }
    }
    if multiset(a) == multiset(e) {
      assert SetOf(a) == SetOf(e) by {
        assert forall v :: v in a <==> v in multiset(a);
        assert forall v :: v in e <==> v in multiset(e);
      }
      assert |a| == |multiset(a)| && |e| == |multiset(e)|;
    }
  }

  // ----------------------------------------------------------------------------------------- shared pieces of evidence

  function NormalImageId(v: Option<string>): Option<string> {
    if v.Some? && IsSha256(v.value) then v else None
  }

  predicate HasMount(inspect: Inspect, source: string, destination: string) {
    Mount("bind", source, destination) in inspect.mounts
  }

  predicate HasPublishedPort(ports: Ports) {
    exists p :: p in ports && exists h :: h in ports[p] && Trim(h) != ""
  }

  const DOCKER_SOCKET := "/var/run/docker.sock"

  predicate MountsDockerSocket(inspect: Inspect) {
    || (exists m :: m in inspect.mounts
          && (Includes(m.source, DOCKER_SOCKET) || Includes(m.destination, DOCKER_SOCKET)))
    || (inspect.host.Some? && exists b :: b in inspect.host.value.binds && Includes(b, DOCKER_SOCKET))
  }

  /** A restart count outside the accepted range makes the policy unknown. */
  predicate HasManagedRestartPolicy(host: HostConfig) {
    host.restartPolicy == Some("unless-stopped") && host.maximumRetryCount == Some(0)
  }

  const CAPABILITIES := ["CHOWN", "DAC_OVERRIDE", "FOWNER", "SETGID", "SETUID"]

  function Label(inspect: Inspect, name: string): Option<string> {
    if name in inspect.labels then Some(inspect.labels[name]) else None
  }

  /** The revision marker file: every field may be missing or of another type. */
  datatype Marker = Marker(version: Option<string>, agentId: Option<string>, configRevision: Option<string>,
                           image: Option<string>)

  // ----------------------------------------------------------------------------------------------- the launch judge

  /**
   `assertHermesInspectMatchesRuntime`, clause by clause. `leaks` stands for the search of one inspect string for
   the spec's secrets; an unreadable marker is None.
   */
  predicate LaunchAccepts(inspect: Inspect, spec: Spec, projection: Projection, runtime: Runtime, imageId: string,
                          marker: Option<Marker>, leaks: string -> bool) {
    && inspect.configImage == Some(imageId)
    && inspect.image == Some(imageId)
    && Label(inspect, IMAGE_REFERENCE) == Some(spec.image)
    && Label(inspect, CONFIG_REVISION) == Some(spec.configRevision)
    && Label(inspect, SPEC_VERSION) == Some(spec.version)
    && HasMount(inspect, projection.hermesHome, "/opt/data")
    && HasMount(inspect, projection.workspace, "/workspace")
    && marker == Some(Marker(Some(spec.version), Some(spec.agentId), Some(spec.configRevision), Some(spec.image)))
    && LaunchSandbox(inspect, runtime)
    && !Leaks(inspect, leaks)
  }

  /** The launch judge's checks of the sandbox, in its order. */
  predicate LaunchSandbox(inspect: Inspect, runtime: Runtime) {
    && inspect.host.Some? && inspect.host.value.networkMode == Some(runtime.network)
    && HasManagedRestartPolicy(inspect.host.value)
    && inspect.networks.Some? && runtime.network in inspect.networks.value
    && !HasPublishedPort(inspect.host.value.portBindings)
    && !HasPublishedPort(inspect.networkPorts)
    && HasExactStringSet(inspect.host.value.securityOpt, ["no-new-privileges"])
    && HasExactStringSet(inspect.host.value.capDrop, ["ALL"])
    && HasExactStringSet(inspect.host.value.capAdd, CAPABILITIES)
    && inspect.host.value.pidsLimit == Some(runtime.pidsLimit)
    && inspect.host.value.nanoCpus == Some(runtime.nanoCpus)
    && inspect.host.value.memory == Some(runtime.memoryBytes)
    && !MountsDockerSocket(inspect)
  }

  predicate Leaks(inspect: Inspect, leaks: string -> bool) {
    exists s :: s in inspect.surface && leaks(s)
  }

  // ----------------------------------------------------------------------------------------------- the status judge

  datatype RevisionState = Matching | Mismatching | MissingRevision | Unreadable

  /** What the status judge observes besides the container: marker file, image tables, both names of the state root. */
  datatype Observation = Observation(
    marker: Option<Marker>,
    markerMissing: bool,
    identityOf: map<string, string>,
    localImage: map<string, string>,
    configuredRoot: string,
    realRoot: string)

  function NonEmpty(v: Option<string>): Option<string> {
    if v.Some? && v.value != "" then v else None
  }

  function ClassifyRevision(requested: Option<string>, carried: Option<string>, seen: Observation): RevisionState {
    if seen.marker.None? then (if seen.markerMissing then MissingRevision else Unreadable)
    else if NonEmpty(requested).None? || NonEmpty(carried).None? || NonEmpty(seen.marker.value.configRevision).None?
    then MissingRevision
    else if requested == carried && requested == seen.marker.value.configRevision then Matching
    else Mismatching
  }

  function Join(root: string, parts: seq<string>): string
    decreases |parts|
  {
    if parts == [] then root else Join(root + "/" + parts[0], parts[1..])
  }

  predicate MountedFromSomeRoot(inspect: Inspect, agentId: string, seen: Observation, leaf: string,
                                destination: string) {
    || HasMount(inspect, Join(seen.configuredRoot, [agentId, leaf]), destination)
    || HasMount(inspect, Join(seen.realRoot, [agentId, leaf]), destination)
  }

  /** `hasExactStatusRuntimeEvidence`, clause by clause. */
  predicate HasStatusEvidence(inspect: Inspect, agentId: string, op: Operation, runtime: Runtime, seen: Observation) {
    var imageId := NormalImageId(inspect.image);
    var identity := if imageId.Some? && imageId.value in seen.identityOf then Some(seen.identityOf[imageId.value])
                    else None;
    var referenced := if op.target.image in seen.localImage then NormalImageId(Some(seen.localImage[op.target.image]))
                      else None;
    && Label(inspect, IMAGE_REFERENCE) == Some(op.target.image)
    && NormalImageId(inspect.configImage) == imageId
    && referenced == imageId
    && imageId.Some? && identity == imageId
    && Label(inspect, AGENT_ID) == Some(agentId)
    && Label(inspect, SPEC_VERSION) == Some(op.target.launchSpecVersion)
    && Label(inspect, CONFIG_REVISION) == Some(op.target.configRevision)
    && seen.marker.Some?
    && seen.marker.value.agentId == Some(agentId)
    && seen.marker.value.configRevision == Some(op.target.configRevision)
    && seen.marker.value.image == Some(op.target.image)
    && seen.marker.value.version == Some(op.target.launchSpecVersion)
    && MountedFromSomeRoot(inspect, agentId, seen, "hermes", "/opt/data")
    && MountedFromSomeRoot(inspect, agentId, seen, "workspace", "/workspace")
    && StatusSandbox(inspect, runtime)
  }

  /** The status judge's checks of the sandbox, in its order. */
  predicate StatusSandbox(inspect: Inspect, runtime: Runtime) {
    && inspect.host.Some? && inspect.host.value.networkMode == Some(runtime.network)
    && inspect.networks.Some? && runtime.network in inspect.networks.value
    && !HasPublishedPort(inspect.host.value.portBindings)
    && !HasPublishedPort(inspect.networkPorts)
    && HasManagedRestartPolicy(inspect.host.value)
    && HasExactStringSet(inspect.host.value.securityOpt, ["no-new-privileges"])
    && HasExactStringSet(inspect.host.value.capDrop, ["ALL"])
    && HasExactStringSet(inspect.host.value.capAdd, CAPABILITIES)
    && inspect.host.value.pidsLimit == Some(runtime.pidsLimit)
    && inspect.host.value.nanoCpus == Some(runtime.nanoCpus)
    && inspect.host.value.memory == Some(runtime.memoryBytes)
    && !MountsDockerSocket(inspect)
  }

  datatype Verdict = RevisionMissing | RevisionMismatch | Evident(op: Operation)

  /** `observeStatus` up to the point where it looks at the container's state and probes its health. */
  function StatusVerdict(inspect: Inspect, agentId: string, runtime: Runtime, seen: Observation,
                         exactInstant: string -> bool): Verdict {
    var op := ReadOperation(inspect.labels, exactInstant);
    if op.None? then RevisionMissing
    else if ClassifyRevision(Some(op.value.target.configRevision), Label(inspect, CONFIG_REVISION), seen) != Matching
    then RevisionMismatch
    else if !HasStatusEvidence(inspect, agentId, op.value, runtime, seen) then RevisionMismatch
    else Evident(op.value)
  }

  // ------------------------------------------------------------------------------------------- the two judges agree

  /**
   What ties the two observations together: the projection lies under the real state root, the marker the launch
   judge read is the one the status judge reads, and the image it resolved is still there under that reference.
   */
  predicate SameWorld(spec: Spec, projection: Projection, imageId: string, marker: Option<Marker>, seen: Observation) {
    && projection == Projection(Join(seen.realRoot, [spec.agentId, "hermes"]),
                                Join(seen.realRoot, [spec.agentId, "workspace"]))
    && marker == seen.marker
    && IsSha256(imageId)
    && spec.image in seen.localImage && seen.localImage[spec.image] == imageId
    && imageId in seen.identityOf && seen.identityOf[imageId] == imageId
  }

  lemma SandboxesAgree(inspect: Inspect, runtime: Runtime)
    ensures LaunchSandbox(inspect, runtime) <==> StatusSandbox(inspect, runtime)
  {
  }

  /** What is read comes from the labels, and none of it is empty. */
  lemma ReadOperationLabels(labels: map<string, string>, exactInstant: string -> bool)
    requires ReadOperation(labels, exactInstant).Some?
    ensures var t := ReadOperation(labels, exactInstant).value.target;
            && IMAGE_REFERENCE in labels && t.image == labels[IMAGE_REFERENCE] != ""
            && SPEC_VERSION in labels && t.launchSpecVersion == labels[SPEC_VERSION] != ""
            && CONFIG_REVISION in labels && t.configRevision == labels[CONFIG_REVISION] != ""
  {
  }

  /** With the marker the spec asks for, the revision classifies as matching. */
  lemma MarkerMatches(spec: Spec, op: Operation, inspect: Inspect, seen: Observation)
    requires op.target == TargetOf(spec) && spec.configRevision != ""
    requires Label(inspect, CONFIG_REVISION) == Some(spec.configRevision)
    requires seen.marker.Some? && seen.marker.value.configRevision == Some(spec.configRevision)
    ensures ClassifyRevision(Some(op.target.configRevision), Label(inspect, CONFIG_REVISION), seen) == Matching
  {
  }

  lemma LaunchImpliesEvidence(inspect: Inspect, spec: Spec, projection: Projection, runtime: Runtime, imageId: string,
                              marker: Option<Marker>, leaks: string -> bool, seen: Observation, op: Operation)
    requires SameWorld(spec, projection, imageId, marker, seen) && op.target == TargetOf(spec)
    requires LaunchAccepts(inspect, spec, projection, runtime, imageId, marker, leaks)
    requires Label(inspect, AGENT_ID) == Some(spec.agentId)
    ensures HasStatusEvidence(inspect, spec.agentId, op, runtime, seen)
  {
    SandboxesAgree(inspect, runtime);
  }

  lemma EvidenceImpliesLaunch(inspect: Inspect, spec: Spec, projection: Projection, runtime: Runtime, imageId: string,
                              marker: Option<Marker>, leaks: string -> bool, seen: Observation, op: Operation)
    requires SameWorld(spec, projection, imageId, marker, seen) && op.target == TargetOf(spec)
    requires seen.configuredRoot == seen.realRoot && !Leaks(inspect, leaks)
    requires HasStatusEvidence(inspect, spec.agentId, op, runtime, seen)
    ensures LaunchAccepts(inspect, spec, projection, runtime, imageId, marker, leaks)
  {
    SandboxesAgree(inspect, runtime);
  }

  /** A container that the launch judge accepts, and that carries the agent's label, satisfies the status judge. */
  lemma LaunchAcceptsThenStatusAccepts(inspect: Inspect, spec: Spec, projection: Projection, runtime: Runtime,
                                       imageId: string, marker: Option<Marker>, leaks: string -> bool,
                                       seen: Observation, exactInstant: string -> bool)
    requires SameWorld(spec, projection, imageId, marker, seen)
    requires LaunchAccepts(inspect, spec, projection, runtime, imageId, marker, leaks)
    requires Label(inspect, AGENT_ID) == Some(spec.agentId) && ReadOperation(inspect.labels, exactInstant).Some?
    ensures var op := ReadOperation(inspect.labels, exactInstant).value;
            && op.target == TargetOf(spec)
            && StatusVerdict(inspect, spec.agentId, runtime, seen, exactInstant) == Evident(op)
  {
    var op := ReadOperation(inspect.labels, exactInstant).value;
    ReadOperationLabels(inspect.labels, exactInstant);
    MarkerMatches(spec, op, inspect, seen);
    LaunchImpliesEvidence(inspect, spec, projection, runtime, imageId, marker, leaks, seen, op);
  }

  /**
   Both directions. When the state root has one name, the launch judge accepts a container exactly when the status
   judge finds it evident for an operation whose target is this spec, and no launch secret shows in its inspect record.
   */
  lemma JudgesAgree(inspect: Inspect, spec: Spec, projection: Projection, runtime: Runtime, imageId: string,
                    marker: Option<Marker>, leaks: string -> bool, seen: Observation, exactInstant: string -> bool)
    requires SameWorld(spec, projection, imageId, marker, seen) && seen.configuredRoot == seen.realRoot
    requires Label(inspect, AGENT_ID) == Some(spec.agentId) && ReadOperation(inspect.labels, exactInstant).Some?
    ensures LaunchAccepts(inspect, spec, projection, runtime, imageId, marker, leaks) <==>
            (&& StatusVerdict(inspect, spec.agentId, runtime, seen, exactInstant)
                == Evident(ReadOperation(inspect.labels, exactInstant).value)
             && ReadOperation(inspect.labels, exactInstant).value.target == TargetOf(spec)
             && !Leaks(inspect, leaks))
  {
    var op := ReadOperation(inspect.labels, exactInstant).value;
    if LaunchAccepts(inspect, spec, projection, runtime, imageId, marker, leaks) {
      LaunchAcceptsThenStatusAccepts(inspect, spec, projection, runtime, imageId, marker, leaks, seen, exactInstant);
    } else if StatusVerdict(inspect, spec.agentId, runtime, seen, exactInstant) == Evident(op)
              && op.target == TargetOf(spec) && !Leaks(inspect, leaks) {
      EvidenceImpliesLaunch(inspect, spec, projection, runtime, imageId, marker, leaks, seen, op);
    }
  }
}
