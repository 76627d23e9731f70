/** The service's own launches can succeed: what their command line makes is what the launch judge accepts. */
module LaunchSuccess {
  import opened CreatedContainers
  import opened Judges
  import opened LaunchAcceptance
  import opened Options
  import opened Text

  /** Where the service itself has set things up: its own marker and labels, no socket, no secret in sight. */
  predicate SetUp(c: Context, marker: Option<Marker>, surface: seq<string>, leaks: string -> bool) {
    && JudgedLabelsLeftAlone(c.extra, c.spec) && marker == Some(OwnMarker(c.spec)) && NoSocket(c.projection)
    && forall s :: s in surface ==> !leaks(s)
  }

  /** What Docker reports of a container of that name made by the service's own line. */
  function Reported(c: Context, own: Operation, imageId: string, name: string, units: Units, surface: seq<string>)
    : Inspect
  {
    CreatedContainers.Made(c.agentId, name, c.spec, own, c.projection, c.runtime, imageId, c.extra, units, surface)
  }

  /**
   When Docker reports what the command line asks for, whatever name the launch draws, the container it makes is
   accepted, and so a launch that nothing disturbs and that finds its image succeeds.
   */
  lemma OwnLaunchCanAccept(m: Containers, c: Context, own: Operation, name: string, units: Units, surface: seq<string>,
                           marker: Option<Marker>, leaks: string -> bool)
    requires UsesLaunchJudge(c, marker, leaks) && SetUp(c, marker, surface, leaks)
    requires own.target == TargetOf(c.spec) && LimitsAgree(c.runtime, units) && PlainPaths(c.projection)
    requires ImageIsThere(c) && forall p :: p in c.extra ==> '=' !in p.0
    ensures CanAccept(m, c, own, Reported(c, own, c.images[c.spec.image], name, units, surface))
  {
    var imageId := c.images[c.spec.image];
    assert !StartsWith(imageId, "--") by { assert imageId[..7][0] == 's'; }
    var anInspect := Reported(c, own, imageId, name, units, surface);
    forall drawn: string ensures c.judge(MadeInspect(c, own, imageId, drawn, anInspect), imageId) {
      NameDoesNotMatter(c, own, imageId, name, drawn, units, surface);
      MadePassesExactly(c.agentId, drawn, c.spec, own, c.projection, c.runtime, imageId, c.extra, units, surface,
                        marker, leaks);
    }
  }

  lemma NameDoesNotMatter(c: Context, own: Operation, imageId: string, name: string, drawn: string, units: Units,
                          surface: seq<string>)
    requires own.target == TargetOf(c.spec) && LimitsAgree(c.runtime, units) && PlainPaths(c.projection)
    requires !StartsWith(imageId, "--")
    ensures MadeInspect(c, own, imageId, drawn, Reported(c, own, imageId, name, units, surface))
         == Reported(c, own, imageId, drawn, units, surface)
  {
    MadeIsOwn(c.agentId, name, c.spec, own, c.projection, c.runtime, imageId, c.extra, units, surface);
    MadeIsOwn(c.agentId, drawn, c.spec, own, c.projection, c.runtime, imageId, c.extra, units, surface);
  }
}
