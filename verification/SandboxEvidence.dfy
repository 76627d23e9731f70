/**
 What the two judges of a container demand, said of the inspect record's own fields and without the judges' helpers:
 which containers pass, and that a published port or the Docker socket never does.
 */
module SandboxEvidence {
  import opened CreatedContainers
  import opened Judges
  import opened Options
  import opened StringSets
  import opened Text

  /** No port is published: every host port there is holds nothing but blanks. */
  predicate OnlyBlankHosts(ports: Ports) {
    forall p :: p in ports ==> forall h :: h in ports[p] ==> forall c :: c in h ==> IsBlank(c)
  }

  lemma PublishedMeans(ports: Ports)
    ensures HasPublishedPort(ports) <==> !OnlyBlankHosts(ports)
  {
    forall p, h | p in ports && h in ports[p] ensures Trim(h) == "" <==> forall c :: c in h ==> IsBlank(c) {
      NothingLeftMeans(h);
    }
  }

  /** The text holds the path of the Docker socket. */
  ghost predicate HoldsSocket(s: string) {
    exists k: nat :: IsAt(s, "/var/run/docker.sock", k)
  }

  ghost predicate NamesSocket(inspect: Inspect) {
    || (exists m :: m in inspect.mounts && (HoldsSocket(m.source) || HoldsSocket(m.destination)))
    || (inspect.host.Some? && exists b :: b in inspect.host.value.binds && HoldsSocket(b))
  }

  lemma SocketMeans(inspect: Inspect)
    ensures MountsDockerSocket(inspect) <==> NamesSocket(inspect)
  {
    forall s: string ensures Includes(s, DOCKER_SOCKET) <==> HoldsSocket(s) {
      IncludesMeans(s, DOCKER_SOCKET);
    }
  }

  // ------------------------------------------------------------------------------------------------- string values

  /** A value stands for a name in upper case: blanks around it, its case and one leading `CAP_` do not matter. */
  predicate StandsFor(value: string, name: string) {
    var t := Upper(Trim(value));
    t == "CAP_" + name || (t == name && !StartsWith(name, "CAP_"))
  }

  lemma NormalMeans(value: string, name: string)
    ensures Normal(value) == name <==> StandsFor(value, name)
  {
    var t := Trim(value);
    if |t| >= 4 {
      assert Upper(t) == Upper(t[..4]) + Upper(t[4..]);
    }
    assert Upper(t) == "CAP_" + name ==> Upper(t)[..4] == "CAP_" && Upper(t)[4..] == name;
    assert |t| >= 4 ==> Upper(t)[..4] == Upper(t[..4]);
  }

  /** As many values as names, and for every name a value that stands for it. */
  ghost predicate StandForAll(values: seq<string>, names: seq<string>) {
    |values| == |names| && forall n :: n in names ==> exists v :: v in values && StandsFor(v, n)
  }

  lemma SetMeans(actual: seq<string>, expected: seq<string>, names: seq<string>)
    requires Normals(expected) == names && NoneTwice(names)
    ensures HasExactStringSet(actual, expected) <==> StandForAll(actual, names)
  {
    var normals := Normals(actual);
    SizeMeansNoneTwice(names);
    SetOfSize(normals);
    forall n ensures n in normals <==> exists v :: v in actual && StandsFor(v, n) {
      if n in normals {
        var i :| 0 <= i < |normals| && normals[i] == n;
        NormalMeans(actual[i], n);
      }
      if v :| v in actual && StandsFor(v, n) {
        var i :| 0 <= i < |actual| && actual[i] == v;
        NormalMeans(v, n);
        assert normals[i] == n;
      }
    }
    assert forall n :: n in names <==> n in SetOf(names);
    assert forall n :: n in normals <==> n in SetOf(normals);
    if StandForAll(actual, names) {
      SubsetOfSize(SetOf(names), SetOf(normals));
    }
  }

  const NO_NEW_PRIVILEGES := "NO-NEW-PRIVILEGES"

  lemma ExpectedNames()
    ensures Normals(["no-new-privileges"]) == [NO_NEW_PRIVILEGES] && Normals(["ALL"]) == ["ALL"]
    ensures Normals(CAPABILITIES) == ["CHOWN", "DAC_OVERRIDE", "FOWNER", "SETGID", "SETUID"]
    ensures NoneTwice(["CHOWN", "DAC_OVERRIDE", "FOWNER", "SETGID", "SETUID"])
  {
    NoNewPrivileges("no-new-privileges");
    assert Upper("ALL") == "ALL" && Trim("ALL") == "ALL";
    CapabilitiesArePlain();
    CapabilitiesDiffer();
    forall i | 0 <= i < 5 ensures Normal(CAPABILITIES[i]) == CAPABILITIES[i] { PlainIsNormal(CAPABILITIES[i]); }
    assert Normals(CAPABILITIES) == CAPABILITIES;
  }

  lemma NoNewPrivileges(s: string)
    requires s == "no-new-privileges"
    ensures Normal(s) == NO_NEW_PRIVILEGES
  {
    assert Trim(s) == s;
    assert Upper(s) == NO_NEW_PRIVILEGES;
    assert Upper(s[..4])[0] == 'N';
  }

  // -------------------------------------------------------------------------------------------------- the sandbox

  /** A container without a way out: every field of the host configuration, the networks, the ports and the mounts. */
  ghost predicate Contained(inspect: Inspect, runtime: Runtime) {
    && inspect.host.Some?
    && inspect.host.value.networkMode == Some(runtime.network)
    && inspect.networks.Some? && runtime.network in inspect.networks.value
    && inspect.host.value.restartPolicy == Some("unless-stopped") && inspect.host.value.maximumRetryCount == Some(0)
    && OnlyBlankHosts(inspect.host.value.portBindings) && OnlyBlankHosts(inspect.networkPorts)
    && StandForAll(inspect.host.value.securityOpt, [NO_NEW_PRIVILEGES])
    && StandForAll(inspect.host.value.capDrop, ["ALL"])
    && StandForAll(inspect.host.value.capAdd, ["CHOWN", "DAC_OVERRIDE", "FOWNER", "SETGID", "SETUID"])
    && inspect.host.value.pidsLimit == Some(runtime.pidsLimit)
    && inspect.host.value.nanoCpus == Some(runtime.nanoCpus)
    && inspect.host.value.memory == Some(runtime.memoryBytes)
    && !NamesSocket(inspect)
  }

  lemma OptionsMean(host: HostConfig)
    ensures HasExactStringSet(host.securityOpt, ["no-new-privileges"])
       <==> StandForAll(host.securityOpt, [NO_NEW_PRIVILEGES])
    ensures HasExactStringSet(host.capDrop, ["ALL"]) <==> StandForAll(host.capDrop, ["ALL"])
    ensures HasExactStringSet(host.capAdd, CAPABILITIES)
       <==> StandForAll(host.capAdd, ["CHOWN", "DAC_OVERRIDE", "FOWNER", "SETGID", "SETUID"])
  {
    ExpectedNames();
    SetMeans(host.securityOpt, ["no-new-privileges"], [NO_NEW_PRIVILEGES]);
    SetMeans(host.capDrop, ["ALL"], ["ALL"]);
    SetMeans(host.capAdd, CAPABILITIES, ["CHOWN", "DAC_OVERRIDE", "FOWNER", "SETGID", "SETUID"]);
  }

  /** Both judges let exactly the contained ones pass their checks of the sandbox. */
  lemma SandboxExactly(inspect: Inspect, runtime: Runtime)
    ensures LaunchSandbox(inspect, runtime) <==> Contained(inspect, runtime)
    ensures StatusSandbox(inspect, runtime) <==> Contained(inspect, runtime)
  {
    PublishedMeans(inspect.networkPorts);
    SocketMeans(inspect);
    if inspect.host.Some? {
      PublishedMeans(inspect.host.value.portBindings);
      OptionsMean(inspect.host.value);
    }
  }

  // ------------------------------------------------------------------------------------------------ what is refused

  /** Neither judge lets the container pass, whatever else is asked for and observed. */
  ghost predicate RefusedByBoth(inspect: Inspect, runtime: Runtime) {
    && (forall spec, projection, imageId, marker, leaks ::
          !LaunchAccepts(inspect, spec, projection, runtime, imageId, marker, leaks))
    && (forall agentId, op, seen :: !HasStatusEvidence(inspect, agentId, op, runtime, seen))
  }

  lemma NotContainedIsRefused(inspect: Inspect, runtime: Runtime)
    requires !Contained(inspect, runtime)
    ensures RefusedByBoth(inspect, runtime)
  {
    SandboxExactly(inspect, runtime);
  }

  /** One published port, in the host configuration or on the network, is enough to be refused. */
  lemma PublishedPortIsRefused(inspect: Inspect, runtime: Runtime, port: string, host: string, c: char)
    requires || (port in inspect.networkPorts && host in inspect.networkPorts[port])
             || (&& inspect.host.Some? && port in inspect.host.value.portBindings
                 && host in inspect.host.value.portBindings[port])
    requires c in host && !IsBlank(c)
    ensures RefusedByBoth(inspect, runtime)
  {
    NotContainedIsRefused(inspect, runtime);
  }

  /** So is one path through the Docker socket, in a bind or on either side of a mount. */
  lemma SocketIsRefused(inspect: Inspect, runtime: Runtime, path: string, k: nat)
    requires || (exists m :: m in inspect.mounts && (m.source == path || m.destination == path))
             || (inspect.host.Some? && path in inspect.host.value.binds)
    requires IsAt(path, "/var/run/docker.sock", k)
    ensures RefusedByBoth(inspect, runtime)
  {
    assert HoldsSocket(path);
    NotContainedIsRefused(inspect, runtime);
  }

  /** Blank host ports and other binds do no harm: the service's own sandbox passes with them. */
  lemma BlankPortsPass(inspect: Inspect, runtime: Runtime, ports: Ports, binds: seq<string>)
    requires inspect.host == Some(OwnHost(runtime).(portBindings := ports, binds := binds))
    requires inspect.networks.Some? && runtime.network in inspect.networks.value
    requires OnlyBlankHosts(ports) && OnlyBlankHosts(inspect.networkPorts) && !NamesSocket(inspect)
    ensures LaunchSandbox(inspect, runtime) && StatusSandbox(inspect, runtime)
  {
    OptionsMean(OwnHost(runtime));
    OneValueExactly("no-new-privileges");
    OneValueExactly("ALL");
    CapabilitiesExactly();
    SandboxExactly(inspect, runtime);
  }

  // --------------------------------------------------------------------------------------------- all of the evidence

  /** What the labels of the record say. */
  predicate Labels(inspect: Inspect, name: string, value: string) {
    name in inspect.labels && inspect.labels[name] == value
  }

  predicate BindsTo(inspect: Inspect, source: string, destination: string) {
    exists m :: m in inspect.mounts && m.kind == "bind" && m.source == source && m.destination == destination
  }

  lemma MountMeans(inspect: Inspect, source: string, destination: string)
    ensures HasMount(inspect, source, destination) <==> BindsTo(inspect, source, destination)
  {
    assert forall m :: m in inspect.mounts && m.kind == "bind" && m.source == source && m.destination == destination ==>
        m == Mount("bind", source, destination);
  }

  /** The container is of that image, names that spec, and has the projection's directories. */
  predicate AsAsked(inspect: Inspect, spec: Spec, projection: Projection, imageId: string) {
    && inspect.configImage == Some(imageId) && inspect.image == Some(imageId)
    && Labels(inspect, IMAGE_REFERENCE, spec.image) && Labels(inspect, CONFIG_REVISION, spec.configRevision)
    && Labels(inspect, SPEC_VERSION, spec.version)
    && BindsTo(inspect, projection.hermesHome, "/opt/data") && BindsTo(inspect, projection.workspace, "/workspace")
  }

  /** The marker file is there and names the spec and its agent. */
  predicate Vouches(marker: Option<Marker>, spec: Spec) {
    && marker.Some? && marker.value.version == Some(spec.version) && marker.value.agentId == Some(spec.agentId)
    && marker.value.configRevision == Some(spec.configRevision) && marker.value.image == Some(spec.image)
  }

  lemma AcceptedIsAsAsked(inspect: Inspect, spec: Spec, projection: Projection, runtime: Runtime, imageId: string,
                          marker: Option<Marker>, leaks: string -> bool)
    requires LaunchAccepts(inspect, spec, projection, runtime, imageId, marker, leaks)
    ensures AsAsked(inspect, spec, projection, imageId) && Vouches(marker, spec)
    ensures LaunchSandbox(inspect, runtime) && forall s :: s in inspect.surface ==> !leaks(s)
  {
    MountMeans(inspect, projection.hermesHome, "/opt/data");
    MountMeans(inspect, projection.workspace, "/workspace");
  }

  lemma AsAskedIsAccepted(inspect: Inspect, spec: Spec, projection: Projection, runtime: Runtime, imageId: string,
                          marker: Option<Marker>, leaks: string -> bool)
    requires AsAsked(inspect, spec, projection, imageId) && Vouches(marker, spec)
    requires LaunchSandbox(inspect, runtime) && forall s :: s in inspect.surface ==> !leaks(s)
    ensures LaunchAccepts(inspect, spec, projection, runtime, imageId, marker, leaks)
  {
    MountMeans(inspect, projection.hermesHome, "/opt/data");
    MountMeans(inspect, projection.workspace, "/workspace");
  }

  /** The launch judge accepts exactly the container that was asked for, contained and without a secret in sight. */
  lemma AcceptedExactly(inspect: Inspect, spec: Spec, projection: Projection, runtime: Runtime, imageId: string,
                        marker: Option<Marker>, leaks: string -> bool)
    ensures LaunchAccepts(inspect, spec, projection, runtime, imageId, marker, leaks)
       <==> (&& AsAsked(inspect, spec, projection, imageId) && Vouches(marker, spec) && Contained(inspect, runtime)
             && forall s :: s in inspect.surface ==> !leaks(s))
  {
    SandboxExactly(inspect, runtime);
    if LaunchAccepts(inspect, spec, projection, runtime, imageId, marker, leaks) {
      AcceptedIsAsAsked(inspect, spec, projection, runtime, imageId, marker, leaks);
    }
    if && AsAsked(inspect, spec, projection, imageId) && Vouches(marker, spec) && LaunchSandbox(inspect, runtime)
       && forall s :: s in inspect.surface ==> !leaks(s)
    {
      AsAskedIsAccepted(inspect, spec, projection, runtime, imageId, marker, leaks);
    }
  }

  /** The image the container runs: still there under its id and under the reference that the operation names. */
  predicate RunsImage(inspect: Inspect, reference: string, seen: Observation) {
    && inspect.image.Some? && inspect.configImage == inspect.image && IsSha256(inspect.image.value)
    && reference in seen.localImage && seen.localImage[reference] == inspect.image.value
    && inspect.image.value in seen.identityOf && seen.identityOf[inspect.image.value] == inspect.image.value
  }

  /** One of the agent's directories, under either name of the state root. */
  predicate BindsAgentDirectory(inspect: Inspect, agentId: string, seen: Observation, leaf: string,
                                destination: string) {
    || BindsTo(inspect, seen.configuredRoot + "/" + agentId + "/" + leaf, destination)
    || BindsTo(inspect, seen.realRoot + "/" + agentId + "/" + leaf, destination)
  }

  lemma DirectoryMeans(inspect: Inspect, agentId: string, seen: Observation, leaf: string, destination: string)
    ensures MountedFromSomeRoot(inspect, agentId, seen, leaf, destination)
       <==> BindsAgentDirectory(inspect, agentId, seen, leaf, destination)
  {
    forall root: string ensures Judges.Join(root, [agentId, leaf]) == root + "/" + agentId + "/" + leaf {
      assert [agentId, leaf][1..] == [leaf] && [leaf][1..] == [];
      assert Judges.Join(root, [agentId, leaf]) == Judges.Join(Judges.Join(root, [agentId]), [leaf]);
    }
    MountMeans(inspect, seen.configuredRoot + "/" + agentId + "/" + leaf, destination);
    MountMeans(inspect, seen.realRoot + "/" + agentId + "/" + leaf, destination);
  }

  /**
   A status request finds a container evident for an operation exactly when its labels name that operation and the
   agent, the marker file says the same, the image is the one the reference still means, the agent's own directories
   are mounted, and the container is contained.
   */
  lemma EvidentExactly(inspect: Inspect, agentId: string, runtime: Runtime, seen: Observation, op: Operation,
                       exactInstant: string -> bool)
    requires ReadOperation(inspect.labels, exactInstant) == Some(op)
    ensures StatusVerdict(inspect, agentId, runtime, seen, exactInstant) == Evident(op)
       <==> (&& Labels(inspect, AGENT_ID, agentId)
             && seen.marker.Some?
             && seen.marker.value.version == Some(op.target.launchSpecVersion)
             && seen.marker.value.agentId == Some(agentId)
             && seen.marker.value.configRevision == Some(op.target.configRevision)
             && seen.marker.value.image == Some(op.target.image)
             && RunsImage(inspect, op.target.image, seen)
             && BindsAgentDirectory(inspect, agentId, seen, "hermes", "/opt/data")
             && BindsAgentDirectory(inspect, agentId, seen, "workspace", "/workspace")
             && Contained(inspect, runtime))
  {
    ReadOperationLabels(inspect.labels, exactInstant);
    DirectoryMeans(inspect, agentId, seen, "hermes", "/opt/data");
    DirectoryMeans(inspect, agentId, seen, "workspace", "/workspace");
    SandboxExactly(inspect, runtime);
  }

  // ---------------------------------------------------------------------------------------- the state of the revision

  predicate Given(v: Option<string>) { v.Some? && v.value != "" }

  /** The revision matches exactly when marker, request and container all give one, and the same. */
  lemma ClassifyMeans(requested: Option<string>, carried: Option<string>, seen: Observation)
    ensures var state := ClassifyRevision(requested, carried, seen);
            && (state == Unreadable <==> seen.marker.None? && !seen.markerMissing)
            && (state == Matching <==>
                  && seen.marker.Some? && requested == carried == seen.marker.value.configRevision && Given(requested))
            && (state == Mismatching <==>
                  && seen.marker.Some? && Given(requested) && Given(carried) && Given(seen.marker.value.configRevision)
                  && !(requested == carried == seen.marker.value.configRevision))
  {
  }

  function ProjectionUnder(root: string, agentId: string): Projection {
    Projection(Judges.Join(root, [agentId, "hermes"]), Judges.Join(root, [agentId, "workspace"]))
  }

  /** For every spec and every image id there are observations that belong to the same world. */
  lemma WorldsExist(spec: Spec, imageId: string, marker: Option<Marker>, configuredRoot: string, realRoot: string)
    requires IsSha256(imageId)
    ensures SameWorld(spec, ProjectionUnder(realRoot, spec.agentId), imageId, marker,
                      Observation(marker, marker.None?, map[imageId := imageId], map[spec.image := imageId],
                                  configuredRoot, realRoot))
  {
  }

  const LOWER := "abcdefghijklmnopqrstuvwxyz"
  const UPPER := "ABCDEFGHIJKLMNOPQRSTUVWXYZ"

  /** In upper case a small letter is the one at its place in the large alphabet; the rest is the same. */
  lemma UpperMeans(s: string, i: nat)
    requires i < |s|
    ensures |Upper(s)| == |s|
    ensures forall k :: 0 <= k < 26 && LOWER[k] == s[i] ==> Upper(s)[i] == UPPER[k]
    ensures s[i] !in LOWER ==> Upper(s)[i] == s[i]
  {
    AlphabetIsInOrder();
  }

  lemma AlphabetIsInOrder()
    ensures |LOWER| == |UPPER| == 26
    ensures forall k :: 0 <= k < 26 ==> LOWER[k] as int == 'a' as int + k && UPPER[k] as int == 'A' as int + k
    ensures forall c :: 'a' <= c <= 'z' ==> c in LOWER
  {
    forall c | 'a' <= c <= 'z' ensures c in LOWER { assert LOWER[c as int - 'a' as int] == c; }
  }
}
