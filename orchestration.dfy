/**
 * The database orchestration of actions/orchestration.go: create a cluster and/or an instance with
 * defaults filled in and a compensating cluster delete; modify a cluster or an instance, default its
 * parameter group and re-tag every resource carrying the name; delete an instance and its parent
 * cluster, or a cluster directly, with optional final snapshots named "final-<id>".
 *
 * Each operation's sequence of provider calls is given by a step function (`CreateSteps`,
 * `ModifySteps`, `DeleteSteps`) over the provider's answers; the legacy handlers of
 * actions/databases.go issue the same calls and differ only in how they report the stopping error.
 */
module Orchestration {
  import opened Wrappers
  import opened ErrorValues
  import opened Provider
  import opened OwnerTags
  import opened DatabaseInputs
  import Errors
  import RdsParameterGroups
  import RdsTags

  // ---------------------------------------------------------------- create

  /** Calls made while filling in defaults, the filled-in input, and the family lookup's error if it failed. */
  datatype Prepared<S> = Prepared(calls: seq<Call>, spec: S, familyErr: Option<Error>)

  /**
   * Defaults for a new cluster: the client's subnet group when none is given; when no parameter group
   * is given, the configured default for the engine's family (if the family has one); then the
   * normalised tags. A failed family lookup stops before the tags.
   */
  function PrepareCluster(s: ClusterSpec, client: Client, org: string): Prepared<ClusterSpec> {
    var s1 := if s.subnetGroup.None? then s.(subnetGroup := Some(client.defaultSubnetGroup)) else s;
    if s1.parameterGroup.Some? then Prepared([], s1.(tags := NormalizedRds(s1.tags, org)), None)
    else
      var c := RdsParameterGroups.FamilyRequest(s1.engine, s1.engineVersion);
      match RdsParameterGroups.FamilyFrom(client.service.Answer(c))
      case Failure(e) => Prepared([c], s1, Some(e))
      case Success(family) =>
        var s2 := if family in client.defaultClusterParameterGroups
                  then s1.(parameterGroup := Some(client.defaultClusterParameterGroups[family])) else s1;
        Prepared([c], s2.(tags := NormalizedRds(s2.tags, org)), None)
  }

  /** The same defaults for a new instance, with the instance parameter-group table. */
  function PrepareInstance(s: InstanceSpec, client: Client, org: string): Prepared<InstanceSpec> {
    var s1 := if s.subnetGroup.None? then s.(subnetGroup := Some(client.defaultSubnetGroup)) else s;
    if s1.parameterGroup.Some? then Prepared([], s1.(tags := NormalizedRds(s1.tags, org)), None)
    else
      var c := RdsParameterGroups.FamilyRequest(s1.engine, s1.engineVersion);
      match RdsParameterGroups.FamilyFrom(client.service.Answer(c))
      case Failure(e) => Prepared([c], s1, Some(e))
      case Success(family) =>
        var s2 := if family in client.defaultParameterGroups
                  then s1.(parameterGroup := Some(client.defaultParameterGroups[family])) else s1;
        Prepared([c], s2.(tags := NormalizedRds(s2.tags, org)), None)
  }

  /**
   * The cluster defaults: identifier, engine and version are kept; the subnet group defaults to the
   * client's; a given parameter group is kept without any call, otherwise exactly the family lookup
   * for the engine and version is issued, and its failure is reported, or its family's configured
   * default is used (none when the family has no entry); the tags end with exactly one owner tag,
   * for `org`.
   */
  lemma ClusterDefaults(s: ClusterSpec, client: Client, org: string)
    ensures var p := PrepareCluster(s, client, org);
      p.spec.identifier == s.identifier && p.spec.engine == s.engine && p.spec.engineVersion == s.engineVersion &&
      p.spec.subnetGroup == (if s.subnetGroup.None? then Some(client.defaultSubnetGroup) else s.subnetGroup)
    ensures var p := PrepareCluster(s, client, org);
      s.parameterGroup.Some? ==> p.calls == [] && p.familyErr.None? && p.spec.parameterGroup == s.parameterGroup
    ensures var p := PrepareCluster(s, client, org);
      var c := RdsParameterGroups.FamilyRequest(s.engine, s.engineVersion);
      var f := RdsParameterGroups.FamilyFrom(client.service.Answer(c));
      s.parameterGroup.None? ==>
        p.calls == [c] && (f.Failure? ==> p.familyErr == Some(f.error)) &&
        (f.Success? ==> (p.familyErr.None? &&
          p.spec.parameterGroup == if f.value in client.defaultClusterParameterGroups
                                   then Some(client.defaultClusterParameterGroups[f.value]) else None))
    ensures var p := PrepareCluster(s, client, org);
      p.familyErr.None? ==> (p.spec.tags == NormalizedRds(s.tags, org) &&
        p.spec.tags[|p.spec.tags| - 1] == RdsOwnerTag(org) &&
        forall i :: 0 <= i < |p.spec.tags| - 1 ==> !IsOwnerRdsTag(p.spec.tags[i]))
  {
    var p := PrepareCluster(s, client, org);
    if p.familyErr.None? {
      KeptHasNoReserved(s.tags, IsOwnerRdsTag);
    }
  }

  /** The instance defaults, with the instance parameter-group table. */
  lemma InstanceDefaults(s: InstanceSpec, client: Client, org: string)
    ensures var p := PrepareInstance(s, client, org);
      p.spec.identifier == s.identifier && p.spec.clusterId == s.clusterId &&
      p.spec.engine == s.engine && p.spec.engineVersion == s.engineVersion &&
      p.spec.subnetGroup == (if s.subnetGroup.None? then Some(client.defaultSubnetGroup) else s.subnetGroup)
    ensures var p := PrepareInstance(s, client, org);
      s.parameterGroup.Some? ==> p.calls == [] && p.familyErr.None? && p.spec.parameterGroup == s.parameterGroup
    ensures var p := PrepareInstance(s, client, org);
      var c := RdsParameterGroups.FamilyRequest(s.engine, s.engineVersion);
      var f := RdsParameterGroups.FamilyFrom(client.service.Answer(c));
      s.parameterGroup.None? ==>
        p.calls == [c] && (f.Failure? ==> p.familyErr == Some(f.error)) &&
        (f.Success? ==> (p.familyErr.None? &&
          p.spec.parameterGroup == if f.value in client.defaultParameterGroups
                                   then Some(client.defaultParameterGroups[f.value]) else None))
    ensures var p := PrepareInstance(s, client, org);
      p.familyErr.None? ==> (p.spec.tags == NormalizedRds(s.tags, org) &&
        p.spec.tags[|p.spec.tags| - 1] == RdsOwnerTag(org) &&
        forall i :: 0 <= i < |p.spec.tags| - 1 ==> !IsOwnerRdsTag(p.spec.tags[i]))
  {
    var p := PrepareInstance(s, client, org);
    if p.familyErr.None? {
      KeptHasNoReserved(s.tags, IsOwnerRdsTag);
    }
  }

  /** Why a create stopped early; the error is the one the failing step reported. */
  datatype CreateStop = FamilyFailed(familyError: Error) | ClusterCreateFailed(clusterError: Error)
                      | InstanceCreateFailed(instanceError: Error)

  /** A create run: the calls issued, the inputs as filled in, why it stopped (if it did), and the create outputs. */
  datatype CreateRun = CreateRun(
    calls: seq<Call>, cluster: Option<ClusterSpec>, instance: Option<InstanceSpec>,
    stop: Option<CreateStop>, clusterOutput: Option<Reply>, instanceOutput: Option<Reply>)

  /** The cluster half of a create: its calls, the filled-in spec, why it stopped, and the create output. */
  datatype ClusterHalf = ClusterHalf(calls: seq<Call>, spec: ClusterSpec, stop: Option<CreateStop>, output: Option<Reply>)

  /** The cluster half of a create: defaults, then the create call unless the family lookup failed. */
  function ClusterSteps(s: ClusterSpec, client: Client, org: string): ClusterHalf {
    var p := PrepareCluster(s, client, org);
    if p.familyErr.Some? then ClusterHalf(p.calls, p.spec, Some(FamilyFailed(p.familyErr.value)), None)
    else
      var a := client.service.Answer(CreateDBCluster(p.spec));
      if a.err.Some? then ClusterHalf(p.calls + [CreateDBCluster(p.spec)], p.spec, Some(ClusterCreateFailed(a.err.value)), None)
      else ClusterHalf(p.calls + [CreateDBCluster(p.spec)], p.spec, None, Some(a))
  }

  /** The instance half of a create (its own calls only), after the cluster half. */
  function InstanceSteps(cluster: Option<ClusterSpec>, instance: Option<InstanceSpec>,
                         clusterOutput: Option<Reply>, client: Client, org: string): (run: CreateRun)
    ensures run.cluster == cluster
  {
    if instance.None? then CreateRun([], cluster, None, None, clusterOutput, None)
    else
      var q := PrepareInstance(instance.value, client, org);
      if q.familyErr.Some? then
        CreateRun(q.calls, cluster, Some(q.spec), Some(FamilyFailed(q.familyErr.value)), clusterOutput, None)
      else
        var ci := CreateDBInstance(q.spec);
        var a := client.service.Answer(ci);
        if a.err.None? then CreateRun(q.calls + [ci], cluster, Some(q.spec), None, clusterOutput, Some(a))
        else
          var compensation := if cluster.Some? then [DeleteDBCluster(cluster.value.identifier, true, None)] else [];
          CreateRun(q.calls + [ci] + compensation, cluster, Some(q.spec),
                    Some(InstanceCreateFailed(a.err.value)), clusterOutput, None)
  }

  /** `databaseCreate`'s steps: the cluster first (when given), then the instance (when given). */
  function CreateSteps(cluster: Option<ClusterSpec>, instance: Option<InstanceSpec>, client: Client, org: string)
    : CreateRun
  {
    if cluster.None? then InstanceSteps(None, instance, None, client, org)
    else
      var h := ClusterSteps(cluster.value, client, org);
      if h.stop.Some? then CreateRun(h.calls, Some(h.spec), instance, h.stop, None, None)
      else
        var i := InstanceSteps(Some(h.spec), instance, h.output, client, org);
        i.(calls := h.calls + i.calls)
  }

  /** The error a create returns when it stops: classified create errors, the family error unchanged. */
  function CreateError(stop: CreateStop): (e: Error)
    ensures stop.FamilyFailed? ==> e == stop.familyError
    ensures stop.ClusterCreateFailed? ==> e == Errors.ErrCode("failed to create database cluster", stop.clusterError)
    ensures stop.InstanceCreateFailed? ==> e == Errors.ErrCode("failed to create database instance", stop.instanceError)
  {
    match stop
    case FamilyFailed(e) => e
    case ClusterCreateFailed(e) => Errors.ErrCode("failed to create database cluster", e)
    case InstanceCreateFailed(e) => Errors.ErrCode("failed to create database instance", e)
  }

  datatype CreateOutput = CreateOutput(cluster: Option<Reply>, instance: Option<Reply>)

  /** What `databaseCreate` returns for a run. */
  function CreateResult(run: CreateRun): Result<CreateOutput, Error> {
    if run.stop.Some? then Failure(CreateError(run.stop.value))
    else Success(CreateOutput(run.clusterOutput, run.instanceOutput))
  }

  /** Appending calls to the log in two steps appends them in one. */
  lemma AppendAssociates(a: seq<Call>, b: seq<Call>, c: seq<Call>)
    ensures (a + b) + c == a + (b + c)
  {
  }

  predicate IsCreateInstance(c: Call) { c.CreateDBInstance? }
  predicate IsDeleteCluster(c: Call) { c.DeleteDBCluster? }

  /** The defaults only ever issue the engine-version describe. */
  lemma PreparedCallsDescribe(s: ClusterSpec, t: InstanceSpec, client: Client, org: string)
    ensures forall c :: c in PrepareCluster(s, client, org).calls ==> c.DescribeDBEngineVersions?
    ensures forall c :: c in PrepareInstance(t, client, org).calls ==> c.DescribeDBEngineVersions?
  {
  }

  /**
   * The cluster is created before any instance: when a cluster is given and its family lookup
   * succeeds, the run begins with that lookup (if any) and the cluster create.
   */
  lemma ClusterBeforeInstance(cluster: ClusterSpec, instance: Option<InstanceSpec>, client: Client, org: string)
    ensures var run := CreateSteps(Some(cluster), instance, client, org);
      var p := PrepareCluster(cluster, client, org);
      p.familyErr.None? ==> run.calls[..|p.calls| + 1] == p.calls + [CreateDBCluster(p.spec)]
  {
    var run := CreateSteps(Some(cluster), instance, client, org);
    var p := PrepareCluster(cluster, client, org);
    var h := ClusterSteps(cluster, client, org);
    if p.familyErr.None? {
      if client.service.Answer(CreateDBCluster(p.spec)).err.None? {
        var i := InstanceSteps(Some(h.spec), instance, h.output, client, org);
        assert run.calls == (p.calls + [CreateDBCluster(p.spec)]) + i.calls;
      }
    }
  }

  /** A failed cluster create ends the run: nothing follows it, no instance is created, and the error is the classified cluster error. */
  lemma ClusterCreateFailureStops(cluster: ClusterSpec, instance: Option<InstanceSpec>, client: Client, org: string)
    ensures var run := CreateSteps(Some(cluster), instance, client, org);
      var p := PrepareCluster(cluster, client, org);
      var a := client.service.Answer(CreateDBCluster(p.spec));
      p.familyErr.None? && a.err.Some? ==>
        run.calls == p.calls + [CreateDBCluster(p.spec)] &&
        (forall c :: c in run.calls ==> !IsCreateInstance(c)) &&
        CreateResult(run) == Failure(Errors.ErrCode("failed to create database cluster", a.err.value))
  {
    var run := CreateSteps(Some(cluster), instance, client, org);
    var p := PrepareCluster(cluster, client, org);
    var a := client.service.Answer(CreateDBCluster(p.spec));
    PreparedCallsDescribe(cluster, InstanceSpec(None, None, None, None, None, None, []), client, org);
    if p.familyErr.None? && a.err.Some? {
      assert run == CreateRun(p.calls + [CreateDBCluster(p.spec)], Some(p.spec), instance, Some(ClusterCreateFailed(a.err.value)), None, None);
      assert CreateResult(run) == Failure(CreateError(ClusterCreateFailed(a.err.value)));
    }
  }

  /** A failed family lookup for the cluster ends the run before any create, with the lookup's error. */
  lemma ClusterFamilyFailureStops(cluster: ClusterSpec, instance: Option<InstanceSpec>, client: Client, org: string)
    ensures var run := CreateSteps(Some(cluster), instance, client, org);
      var p := PrepareCluster(cluster, client, org);
      p.familyErr.Some? ==>
        run.calls == p.calls && (forall c :: c in run.calls ==> !c.CreateDBCluster? && !IsCreateInstance(c)) &&
        CreateResult(run) == Failure(p.familyErr.value)
  {
    PreparedCallsDescribe(cluster, InstanceSpec(None, None, None, None, None, None, []), client, org);
  }

  /**
   * The compensation, for the instance half: when the instance create fails after a created cluster,
   * the half ends with the instance create followed by exactly one cluster delete, for the given
   * cluster identifier and without a final snapshot; the delete's own outcome is ignored and the
   * run stops with the instance error (which `CreateError` classifies). Without a cluster nothing is
   * deleted.
   */
  lemma CompensatingDelete(cluster: Option<ClusterSpec>, instance: InstanceSpec,
                           clusterOutput: Option<Reply>, client: Client, org: string)
    ensures var run := InstanceSteps(cluster, Some(instance), clusterOutput, client, org);
      var q := PrepareInstance(instance, client, org);
      var e := client.service.Answer(CreateDBInstance(q.spec)).err;
      run.stop.Some? && run.stop.value.InstanceCreateFailed? ==>
        e.Some? && run.stop == Some(InstanceCreateFailed(e.value)) &&
        run.calls == q.calls + [CreateDBInstance(q.spec)] +
                     (if cluster.Some? then [DeleteDBCluster(cluster.value.identifier, true, None)] else [])
    ensures var run := InstanceSteps(cluster, Some(instance), clusterOutput, client, org);
      forall i :: 0 <= i < |run.calls| && IsDeleteCluster(run.calls[i]) ==>
        i == |run.calls| - 1 && cluster.Some? && run.stop.Some? && run.stop.value.InstanceCreateFailed?
  {
    var run := InstanceSteps(cluster, Some(instance), clusterOutput, client, org);
    var q := PrepareInstance(instance, client, org);
    PreparedCallsDescribe(ClusterSpec(None, None, None, None, None, []), instance, client, org);
    assert forall i :: 0 <= i < |q.calls| && i < |run.calls| ==> run.calls[i] in q.calls;
  }

  /**
   * In a whole create, a cluster is deleted only to undo the cluster the same run created: the
   * cluster create succeeded, the instance create failed, and the delete is the last call.
   */
  lemma DeleteOnlyAfterClusterCreate(cluster: Option<ClusterSpec>, instance: Option<InstanceSpec>, client: Client, org: string)
    ensures var run := CreateSteps(cluster, instance, client, org);
      forall i :: 0 <= i < |run.calls| && IsDeleteCluster(run.calls[i]) ==>
        i == |run.calls| - 1 && cluster.Some? && run.stop.Some? && run.stop.value.InstanceCreateFailed? &&
        ClusterSteps(cluster.value, client, org).stop.None?
  {
    var run := CreateSteps(cluster, instance, client, org);
    if cluster.Some? {
      var h := ClusterSteps(cluster.value, client, org);
      var p := PrepareCluster(cluster.value, client, org);
      PreparedCallsDescribe(cluster.value, InstanceSpec(None, None, None, None, None, None, []), client, org);
      assert forall i :: 0 <= i < |h.calls| ==> !IsDeleteCluster(h.calls[i]) by {
        forall i | 0 <= i < |h.calls|
          ensures !IsDeleteCluster(h.calls[i])
        {
          if i < |p.calls| { assert h.calls[i] in p.calls; }
        }
      }
      if h.stop.None? && instance.Some? {
        CompensatingDelete(Some(h.spec), instance.value, h.output, client, org);
        var i := InstanceSteps(Some(h.spec), instance, h.output, client, org);
        forall j | |h.calls| <= j < |run.calls|
          ensures run.calls[j] == i.calls[j - |h.calls|]
        {
        }
      }
    } else if instance.Some? {
      CompensatingDelete(None, instance.value, None, client, org);
    }
  }

  // ---------------------------------------------------------------- modify

  /** Calls made while filling in a change, the change as filled in, and why the preparation stopped, if it did. */
  datatype ChangePrepared = ChangePrepared(calls: seq<Call>, spec: Change, stop: Option<ModifyStop>)

  /** Whether a modify looks up a default parameter group: defaults apply, none is given and an engine version is. */
  predicate DefaultsApply(ch: Change, withDefaults: bool) {
    withDefaults && ch.parameterGroup.None? && ch.engineVersion.Some?
  }

  /**
   * A modify's defaults for a cluster: the identifier is set to `id`; when defaults apply, the engine
   * of the first cluster of an unfiltered describe picks the family and its configured default. A
   * failed describe skips this; a describe listing no cluster makes Go's `[0]` index panic.
   */
  function PrepareClusterChange(ch: Change, id: string, client: Client, withDefaults: bool): ChangePrepared {
    var c1 := ch.(identifier := Some(id));
    if DefaultsApply(c1, withDefaults) then
      var d := DescribeDBClusters(None);
      var a := client.service.Answer(d);
      if a.err.Some? then ChangePrepared([d], c1, None)
      else if a.clusters == [] then ChangePrepared([d], c1, Some(EngineIndexPanicked))
      else
        var fr := RdsParameterGroups.FamilyRequest(a.clusters[0].engine, c1.engineVersion);
        match RdsParameterGroups.FamilyFrom(client.service.Answer(fr))
        case Failure(e) => ChangePrepared([d, fr], c1, Some(ChangeFamilyFailed(e)))
        case Success(family) =>
          ChangePrepared([d, fr], if family in client.defaultClusterParameterGroups
                                  then c1.(parameterGroup := Some(client.defaultClusterParameterGroups[family])) else c1, None)
    else ChangePrepared([], c1, None)
  }

  /** The same for an instance, with the instance parameter-group table. */
  function PrepareInstanceChange(ch: Change, id: string, client: Client, withDefaults: bool): ChangePrepared {
    var c1 := ch.(identifier := Some(id));
    if DefaultsApply(c1, withDefaults) then
      var d := DescribeDBInstances(None);
      var a := client.service.Answer(d);
      if a.err.Some? then ChangePrepared([d], c1, None)
      else if a.instances == [] then ChangePrepared([d], c1, Some(EngineIndexPanicked))
      else
        var fr := RdsParameterGroups.FamilyRequest(a.instances[0].engine, c1.engineVersion);
        match RdsParameterGroups.FamilyFrom(client.service.Answer(fr))
        case Failure(e) => ChangePrepared([d, fr], c1, Some(ChangeFamilyFailed(e)))
        case Success(family) =>
          ChangePrepared([d, fr], if family in client.defaultParameterGroups
                                  then c1.(parameterGroup := Some(client.defaultParameterGroups[family])) else c1, None)
    else ChangePrepared([], c1, None)
  }

  /**
   * The modify defaults for a cluster: the change always names `id` and keeps its engine version;
   * nothing is looked up (and nothing else changes) unless defaults apply; a parameter group that
   * changed is a configured default; a describe that fails leaves the change as it was, without a
   * stop; the preparation panics exactly when defaults apply, the describe succeeds and the account
   * has no cluster; and it stops otherwise only on a failed family lookup.
   */
  lemma ChangeDefaults(ch: Change, id: string, client: Client, withDefaults: bool)
    ensures var p := PrepareClusterChange(ch, id, client, withDefaults);
      p.spec.identifier == Some(id) && p.spec.engineVersion == ch.engineVersion &&
      (!DefaultsApply(ch, withDefaults) ==> p == ChangePrepared([], ch.(identifier := Some(id)), None)) &&
      (p.spec.parameterGroup != ch.parameterGroup ==>
        p.spec.parameterGroup.Some? && p.spec.parameterGroup.value in client.defaultClusterParameterGroups.Values) &&
      (p.calls != [] ==> p.calls[0] == DescribeDBClusters(None)) &&
      (client.service.fault(DescribeDBClusters(None)).Some? ==> p.stop.None? && |p.calls| <= 1) &&
      (p.stop == Some(EngineIndexPanicked) <==>
        DefaultsApply(ch, withDefaults) && client.service.fault(DescribeDBClusters(None)).None? && client.service.clusters == []) &&
      (p.stop.Some? ==> p.stop.value.EngineIndexPanicked? || p.stop.value.ChangeFamilyFailed?)
  {
    var d := DescribeDBClusters(None);
    var a := client.service.Answer(d);
    if client.service.fault(d).None? && client.service.clusters != [] {
      assert client.service.clusters[0] in a.clusters;
    }
  }

  /** The same for an instance change, with the instance describe and the instance table. */
  lemma InstanceChangeDefaults(ch: Change, id: string, client: Client, withDefaults: bool)
    ensures var p := PrepareInstanceChange(ch, id, client, withDefaults);
      p.spec.identifier == Some(id) && p.spec.engineVersion == ch.engineVersion &&
      (!DefaultsApply(ch, withDefaults) ==> p == ChangePrepared([], ch.(identifier := Some(id)), None)) &&
      (p.spec.parameterGroup != ch.parameterGroup ==>
        p.spec.parameterGroup.Some? && p.spec.parameterGroup.value in client.defaultParameterGroups.Values) &&
      (p.calls != [] ==> p.calls[0] == DescribeDBInstances(None)) &&
      (client.service.fault(DescribeDBInstances(None)).Some? ==> p.stop.None? && |p.calls| <= 1) &&
      (p.stop == Some(EngineIndexPanicked) <==>
        DefaultsApply(ch, withDefaults) && client.service.fault(DescribeDBInstances(None)).None? && client.service.instances == []) &&
      (p.stop.Some? ==> p.stop.value.EngineIndexPanicked? || p.stop.value.ChangeFamilyFailed?)
  {
    var d := DescribeDBInstances(None);
    var a := client.service.Answer(d);
    if client.service.fault(d).None? && client.service.instances != [] {
      assert client.service.instances[0] in a.instances;
    }
  }

  /**
   * As written, the engine that picks a modified cluster's family is that of the first cluster the
   * unfiltered describe lists, whatever its name: with another cluster listed before the one named
   * `id`, the family is looked up for the other cluster's engine.
   */
  lemma ModifyEngineFromFirstCluster(ch: Change, id: string, client: Client, other: Cluster, target: Cluster)
    requires DefaultsApply(ch, true) && client.service.fault(DescribeDBClusters(None)).None?
    requires client.service.clusters == [other, target] && other.id != id && target.id == id
    ensures var p := PrepareClusterChange(ch, id, client, true);
      |p.calls| == 2 && p.calls[1] == RdsParameterGroups.FamilyRequest(other.engine, ch.engineVersion) &&
      (other.engine != target.engine ==> p.calls[1] != RdsParameterGroups.FamilyRequest(target.engine, ch.engineVersion))
  {
    var a := client.service.Answer(DescribeDBClusters(None));
    var all := (x: Cluster) => Matches(None, x.id);
    assert [other, target][1..] == [target] && [target][1..] == [];
    assert Filter([target], all) == [target];
    assert Filter([other, target], all) == [other, target];
    assert a.clusters == Filter(client.service.clusters, all);
  }

  /**
   * The evident intent: describe the cluster being modified (the describe filtered by `id`) and take
   * its engine; when no cluster has that name, no default is looked up.
   */
  function PrepareClusterChangeIntended(ch: Change, id: string, client: Client, withDefaults: bool): ChangePrepared {
    var c1 := ch.(identifier := Some(id));
    if DefaultsApply(c1, withDefaults) then
      var d := DescribeDBClusters(Some(id));
      var a := client.service.Answer(d);
      if a.err.Some? || a.clusters == [] then ChangePrepared([d], c1, None)
      else
        var fr := RdsParameterGroups.FamilyRequest(a.clusters[0].engine, c1.engineVersion);
        match RdsParameterGroups.FamilyFrom(client.service.Answer(fr))
        case Failure(e) => ChangePrepared([d, fr], c1, Some(ChangeFamilyFailed(e)))
        case Success(family) =>
          ChangePrepared([d, fr], if family in client.defaultClusterParameterGroups
                                  then c1.(parameterGroup := Some(client.defaultClusterParameterGroups[family])) else c1, None)
    else ChangePrepared([], c1, None)
  }

  /**
   * The intended defaults look the family up only for the engine of a cluster named `id`, never
   * panic, and otherwise behave as written: the change names `id` and a changed parameter group is a
   * configured default.
   */
  lemma IntendedEngineIsTheDatabases(ch: Change, id: string, client: Client, withDefaults: bool)
    ensures var p := PrepareClusterChangeIntended(ch, id, client, withDefaults);
      p.spec.identifier == Some(id) && (p.stop.None? || p.stop.value.ChangeFamilyFailed?) &&
      (|p.calls| == 2 ==>
        exists k :: k in client.service.clusters && k.id == id &&
          p.calls[1] == RdsParameterGroups.FamilyRequest(k.engine, ch.engineVersion)) &&
      (p.spec.parameterGroup != ch.parameterGroup ==>
        p.spec.parameterGroup.Some? && p.spec.parameterGroup.value in client.defaultClusterParameterGroups.Values)
  {
    var p := PrepareClusterChangeIntended(ch, id, client, withDefaults);
    if |p.calls| == 2 {
      var a := client.service.Answer(DescribeDBClusters(Some(id)));
      assert a.clusters[0] in a.clusters;
    }
  }

  /** A half of a modify: its calls, the change as filled in, why it stopped, and the modify output. */
  datatype ChangeHalf = ChangeHalf(calls: seq<Call>, spec: Option<Change>, stop: Option<ModifyStop>, output: Option<Reply>)

  datatype ModifyStop =
    | EngineIndexPanicked
    | ChangeFamilyFailed(changeFamilyError: Error)
    | ClusterModifyFailed(clusterModifyError: Error)
    | InstanceModifyFailed(instanceModifyError: Error)
    | ArnLookupFailed(arnError: Error)
    | TaggingFailed(tagError: Error)

  /** The cluster half of a modify (nothing when no cluster change is given). */
  function ClusterChangeSteps(cluster: Option<Change>, id: string, client: Client, withDefaults: bool): ChangeHalf
  {
    if cluster.None? then ChangeHalf([], None, None, None)
    else
      var p := PrepareClusterChange(cluster.value, id, client, withDefaults);
      if p.stop.Some? then ChangeHalf(p.calls, Some(p.spec), p.stop, None)
      else
        var m := ModifyDBCluster(p.spec);
        var a := client.service.Answer(m);
        if a.err.Some? then ChangeHalf(p.calls + [m], Some(p.spec), Some(ClusterModifyFailed(a.err.value)), None)
        else ChangeHalf(p.calls + [m], Some(p.spec), None, Some(a))
  }

  /** The instance half of a modify (nothing when no instance change is given). */
  function InstanceChangeSteps(instance: Option<Change>, id: string, client: Client, withDefaults: bool): ChangeHalf
  {
    if instance.None? then ChangeHalf([], None, None, None)
    else
      var p := PrepareInstanceChange(instance.value, id, client, withDefaults);
      if p.stop.Some? then ChangeHalf(p.calls, Some(p.spec), p.stop, None)
      else
        var m := ModifyDBInstance(p.spec);
        var a := client.service.Answer(m);
        if a.err.Some? then ChangeHalf(p.calls + [m], Some(p.spec), Some(InstanceModifyFailed(a.err.value)), None)
        else ChangeHalf(p.calls + [m], Some(p.spec), None, Some(a))
  }

  /** The add-tags calls for `arns`, in order, stopping at the first failure (whose error is returned). */
  function TagSteps(arns: seq<string>, tags: seq<RdsTag>, rds: Rds): (seq<Call>, Option<Error>) {
    if arns == [] then ([], None)
    else
      var c := AddTagsToResource(arns[0], tags);
      var a := rds.Answer(c);
      if a.err.Some? then ([c], a.err)
      else var rest := TagSteps(arns[1..], tags, rds); ([c] + rest.0, rest.1)
  }

  /**
   * The tagging loop tags the ARNs in order with the same tag list and stops at the first failure:
   * every call but the last succeeded, the error is the last call's, and without an error every ARN
   * was tagged.
   */
  lemma {:induction false} TagStepsInOrder(arns: seq<string>, tags: seq<RdsTag>, rds: Rds)
    ensures var r := TagSteps(arns, tags, rds);
      |r.0| <= |arns| &&
      (forall j :: 0 <= j < |r.0| ==> r.0[j] == AddTagsToResource(arns[j], tags)) &&
      (forall j :: 0 <= j < |r.0| - 1 ==> rds.fault(r.0[j]).None?) &&
      (r.1.Some? ==> |r.0| > 0 && r.1 == rds.fault(r.0[|r.0| - 1])) &&
      (r.1.None? ==> |r.0| == |arns| && forall j :: 0 <= j < |arns| ==> rds.fault(AddTagsToResource(arns[j], tags)).None?)
  {
    if arns != [] {
      TagStepsInOrder(arns[1..], tags, rds);
    }
  }

  /** Tagging one more ARN after a run without failure appends its call and reports its error. */
  lemma {:induction false} TagStepsSnoc(arns: seq<string>, arn: string, tags: seq<RdsTag>, rds: Rds)
    requires TagSteps(arns, tags, rds).1.None?
    ensures var c := AddTagsToResource(arn, tags);
      TagSteps(arns + [arn], tags, rds) == (TagSteps(arns, tags, rds).0 + [c], rds.Answer(c).err)
  {
    var c := AddTagsToResource(arn, tags);
    if arns == [] {
      assert arns + [arn] == [arn];
      assert TagSteps([], tags, rds) == ([], None);
      assert [arn][1..] == [];
      assert TagSteps(arns, tags, rds).0 + [c] == [c];
      if rds.Answer(c).err.Some? {
        assert TagSteps([arn], tags, rds) == ([c], rds.Answer(c).err);
      } else {
        assert TagSteps([arn], tags, rds).1 == None;
        assert TagSteps([arn], tags, rds).0 == [c];
      }
    } else {
      var c0 := AddTagsToResource(arns[0], tags);
      assert (arns + [arn])[0] == arns[0];
      assert (arns + [arn])[1..] == arns[1..] + [arn];
      TagStepsSnoc(arns[1..], arn, tags, rds);
      var rest := TagSteps(arns[1..], tags, rds).0;
      assert TagSteps(arns, tags, rds).0 == [c0] + rest;
      assert [c0] + (rest + [c]) == [c0] + rest + [c];
    }
  }

  /** Once a tagging run has failed, further ARNs are not tagged. */
  lemma {:induction false} TagStepsStops(arns: seq<string>, rest: seq<string>, tags: seq<RdsTag>, rds: Rds)
    requires TagSteps(arns, tags, rds).1.Some?
    ensures TagSteps(arns + rest, tags, rds) == TagSteps(arns, tags, rds)
  {
    assert (arns + rest)[0] == arns[0];
    if rds.Answer(AddTagsToResource(arns[0], tags)).err.None? {
      assert (arns + rest)[1..] == arns[1..] + rest;
      TagStepsStops(arns[1..], rest, tags, rds);
    }
  }

  /** The tag part of a modify: its calls and why it stopped. */
  datatype TagHalf = TagHalf(calls: seq<Call>, stop: Option<ModifyStop>)

  /** The calls that resolve the ARNs of `id`: a cluster describe, then an instance describe. */
  function ArnLookup(id: string): seq<Call> {
    [DescribeDBClusters(Some(id)), DescribeDBInstances(Some(id))]
  }

  /** The tag part of a modify: resolve the ARNs of `id`, then tag each with the normalised tags. */
  function TagPart(id: string, tags: Option<seq<RdsTag>>, client: Client, org: string): TagHalf {
    if tags.None? then TagHalf([], None)
    else
      var arns := RdsTags.ArnsFor(id, client.service.Answer(ArnLookup(id)[0]), client.service.Answer(ArnLookup(id)[1]));
      TagArns(id, arns, NormalizedRds(tags.value, org), client.service)
  }

  /** The tag part once the ARN lookup gave `arns`: a failed lookup stops it, otherwise every ARN is tagged in turn. */
  function TagArns(id: string, arns: Result<seq<string>, Error>, tags: seq<RdsTag>, rds: Rds): TagHalf {
    match arns
    case Failure(e) => TagHalf(ArnLookup(id), Some(ArnLookupFailed(e)))
    case Success(a) =>
      var t := TagSteps(a, tags, rds);
      TagHalf(ArnLookup(id) + t.0, if t.1.Some? then Some(TaggingFailed(t.1.value)) else None)
  }

  /** A modify run: the calls, the changes as filled in, why it stopped, and the modify outputs. */
  datatype ModifyRun = ModifyRun(
    calls: seq<Call>, cluster: Option<Change>, instance: Option<Change>,
    stop: Option<ModifyStop>, clusterOutput: Option<Reply>, instanceOutput: Option<Reply>)

  /**
   * A modify's steps: the cluster change (when given), the instance change (when given), the tags
   * (when given), each only if everything before it succeeded. `withDefaults` is whether parameter
   * groups are defaulted (the orchestrated modify) or not (the legacy handler).
   */
  function ModifySteps(id: string, cluster: Option<Change>, instance: Option<Change>, tags: Option<seq<RdsTag>>,
                       client: Client, org: string, withDefaults: bool): ModifyRun
  {
    var hc := ClusterChangeSteps(cluster, id, client, withDefaults);
    if hc.stop.Some? then ModifyRun(hc.calls, hc.spec, instance, hc.stop, None, None)
    else
      var hi := InstanceChangeSteps(instance, id, client, withDefaults);
      if hi.stop.Some? then ModifyRun(hc.calls + hi.calls, hc.spec, hi.spec, hi.stop, hc.output, None)
      else
        var t := TagPart(id, tags, client, org);
        ModifyRun(hc.calls + hi.calls + t.calls, hc.spec, hi.spec, t.stop, hc.output, hi.output)
  }

  /**
   * The runtime error of Go's `[0]` index on an empty list. The panic ends the request; the web
   * framework recovers it and answers it like any error that is not an api error.
   */
  const IndexOutOfRange: Error := Plain("runtime error: index out of range [0] with length 0")

  /** The error a modify returns when it stops: modify and tagging errors classified, the others unchanged. */
  function ModifyError(stop: ModifyStop): (e: Error)
    ensures stop.EngineIndexPanicked? ==> e == IndexOutOfRange
    ensures stop.ChangeFamilyFailed? ==> e == stop.changeFamilyError
    ensures stop.ClusterModifyFailed? ==> e == Errors.ErrCode("failed to modify database cluster", stop.clusterModifyError)
    ensures stop.InstanceModifyFailed? ==> e == Errors.ErrCode("failed to modify database instance", stop.instanceModifyError)
    ensures stop.ArnLookupFailed? ==> e == stop.arnError
    ensures stop.TaggingFailed? ==> e == Errors.ErrCode("failed to add tags to database", stop.tagError)
  {
    match stop
    case EngineIndexPanicked => IndexOutOfRange
    case ChangeFamilyFailed(e) => e
    case ClusterModifyFailed(e) => Errors.ErrCode("failed to modify database cluster", e)
    case InstanceModifyFailed(e) => Errors.ErrCode("failed to modify database instance", e)
    case ArnLookupFailed(e) => e
    case TaggingFailed(e) => Errors.ErrCode("failed to add tags to database", e)
  }

  datatype ModifyOutput = ModifyOutput(cluster: Option<Reply>, instance: Option<Reply>)

  /** What `databaseModify` returns for a run. */
  function ModifyResult(run: ModifyRun): Result<ModifyOutput, Error> {
    if run.stop.Some? then Failure(ModifyError(run.stop.value))
    else Success(ModifyOutput(run.clusterOutput, run.instanceOutput))
  }

  /**
   * Tagging after a modify: the tag part begins with the ARN lookup for `id`; a failed lookup is the
   * whole part and is reported unchanged; otherwise the add-tags calls follow, each with the
   * normalised tag list, in ARN order, and every ARN is tagged when none fails.
   */
  lemma ModifyTagsEveryArn(id: string, arns: Result<seq<string>, Error>, tags: seq<RdsTag>, rds: Rds)
    ensures var t := TagArns(id, arns, tags, rds);
      var n := |ArnLookup(id)|;
      t.calls[..n] == ArnLookup(id) &&
      (arns.Failure? ==> t == TagHalf(ArnLookup(id), Some(ArnLookupFailed(arns.error)))) &&
      (arns.Success? ==>
        |t.calls| - n <= |arns.value| &&
        (forall j :: n <= j < |t.calls| ==> t.calls[j] == AddTagsToResource(arns.value[j - n], tags)) &&
        (t.stop.None? ==> |t.calls| - n == |arns.value|))
  {
    var t := TagArns(id, arns, tags, rds);
    var look := ArnLookup(id);
    assert |look| == 2;
    if arns.Success? {
      var ts := TagSteps(arns.value, tags, rds);
      TagStepsInOrder(arns.value, tags, rds);
      assert t.calls == look + ts.0;
      assert t.calls[..2] == look;
      assert t.stop.None? ==> ts.1.None?;
      forall j | 2 <= j < |t.calls|
        ensures t.calls[j] == AddTagsToResource(arns.value[j - 2], tags)
      {
        assert t.calls[j] == ts.0[j - 2];
      }
    }
  }

  /** The calls of a cluster half: describes, and modifies that name `id`; a failed modify is the last call. */
  lemma ClusterChangeCalls(cluster: Option<Change>, id: string, client: Client, withDefaults: bool)
    ensures var h := ClusterChangeSteps(cluster, id, client, withDefaults);
      (forall c :: c in h.calls ==>
        c.DescribeDBClusters? || c.DescribeDBEngineVersions? || (c.ModifyDBCluster? && c.clusterChange.identifier == Some(id))) &&
      (h.spec.Some? ==> h.spec.value.identifier == Some(id)) &&
      (h.stop.Some? && h.stop.value.ClusterModifyFailed? ==> |h.calls| > 0 && h.calls[|h.calls| - 1].ModifyDBCluster?)
  {
    if cluster.Some? {
      PrepareClusterCalls(cluster.value, id, client, withDefaults);
      var p := PrepareClusterChange(cluster.value, id, client, withDefaults);
      var h := ClusterChangeSteps(cluster, id, client, withDefaults);
      forall c | c in h.calls
        ensures c.DescribeDBClusters? || c.DescribeDBEngineVersions? || (c.ModifyDBCluster? && c.clusterChange.identifier == Some(id))
      {
        assert c in p.calls || c == ModifyDBCluster(p.spec);
      }
    }
  }

  /** The preparation of a cluster change only describes, and names the change after `id`. */
  lemma PrepareClusterCalls(ch: Change, id: string, client: Client, withDefaults: bool)
    ensures var p := PrepareClusterChange(ch, id, client, withDefaults);
      p.spec.identifier == Some(id) && forall c :: c in p.calls ==> c.DescribeDBClusters? || c.DescribeDBEngineVersions?
  {
  }

  /** The preparation of an instance change only describes, and names the change after `id`. */
  lemma PrepareInstanceCalls(ch: Change, id: string, client: Client, withDefaults: bool)
    ensures var p := PrepareInstanceChange(ch, id, client, withDefaults);
      p.spec.identifier == Some(id) && forall c :: c in p.calls ==> c.DescribeDBInstances? || c.DescribeDBEngineVersions?
  {
  }

  /** The calls of an instance half: describes, and modifies that name `id`. */
  lemma InstanceChangeCalls(instance: Option<Change>, id: string, client: Client, withDefaults: bool)
    ensures var h := InstanceChangeSteps(instance, id, client, withDefaults);
      (forall c :: c in h.calls ==>
        c.DescribeDBInstances? || c.DescribeDBEngineVersions? || (c.ModifyDBInstance? && c.instanceChange.identifier == Some(id))) &&
      (h.spec.Some? ==> h.spec.value.identifier == Some(id))
  {
    if instance.Some? {
      PrepareInstanceCalls(instance.value, id, client, withDefaults);
      var p := PrepareInstanceChange(instance.value, id, client, withDefaults);
      var h := InstanceChangeSteps(instance, id, client, withDefaults);
      forall c | c in h.calls
        ensures c.DescribeDBInstances? || c.DescribeDBEngineVersions? || (c.ModifyDBInstance? && c.instanceChange.identifier == Some(id))
      {
        assert c in p.calls || c == ModifyDBInstance(p.spec);
      }
    }
  }

  /** The tag part stops only on a failed ARN lookup or a failed tagging call. */
  lemma TagPartStops(id: string, tags: Option<seq<RdsTag>>, client: Client, org: string)
    ensures var t := TagPart(id, tags, client, org);
      t.stop.None? || t.stop.value.ArnLookupFailed? || t.stop.value.TaggingFailed?
  {
    if tags.Some? {
      var arns := RdsTags.ArnsFor(id, client.service.Answer(ArnLookup(id)[0]), client.service.Answer(ArnLookup(id)[1]));
      assert TagPart(id, tags, client, org) == TagArns(id, arns, NormalizedRds(tags.value, org), client.service);
    }
  }

  /** The calls of the tag part: the two describes and add-tags calls. */
  lemma TagPartCalls(id: string, tags: Option<seq<RdsTag>>, client: Client, org: string)
    ensures forall c :: c in TagPart(id, tags, client, org).calls ==>
      c.DescribeDBClusters? || c.DescribeDBInstances? || c.AddTagsToResource?
  {
    if tags.Some? {
      var arns := RdsTags.ArnsFor(id, client.service.Answer(ArnLookup(id)[0]), client.service.Answer(ArnLookup(id)[1]));
      TagArnsCalls(id, arns, NormalizedRds(tags.value, org), client.service);
    }
  }

  lemma TagArnsCalls(id: string, arns: Result<seq<string>, Error>, tags: seq<RdsTag>, rds: Rds)
    ensures forall c :: c in TagArns(id, arns, tags, rds).calls ==>
      c.DescribeDBClusters? || c.DescribeDBInstances? || c.AddTagsToResource?
  {
    if arns.Success? {
      TagStepsInOrder(arns.value, tags, rds);
      var ts := TagSteps(arns.value, tags, rds).0;
      forall c | c in TagArns(id, arns, tags, rds).calls
        ensures c.DescribeDBClusters? || c.DescribeDBInstances? || c.AddTagsToResource?
      {
        assert c in ArnLookup(id) || c in ts;
      }
    }
  }

  /** The resource with ARN `arn` is a cluster or an instance named `id`. */
  predicate BelongsTo(arn: string, id: string, rds: Rds) {
    (exists k :: k in rds.clusters && k.id == id && StringValue(k.arn) == arn) ||
    (exists k :: k in rds.instances && k.id == id && StringValue(k.arn) == arn)
  }

  /**
   * Every call among `calls` concerns the database `id`: modifies name it, filtered describes ask for
   * it, and every tagged ARN is that of a cluster or an instance named `id`.
   */
  predicate NamesDatabase(calls: seq<Call>, id: string, rds: Rds) {
    forall c :: c in calls ==>
      (c.ModifyDBCluster? ==> c.clusterChange.identifier == Some(id)) &&
      (c.ModifyDBInstance? ==> c.instanceChange.identifier == Some(id)) &&
      (c.DescribeDBClusters? && c.clusterId.Some? ==> c.clusterId == Some(id)) &&
      (c.DescribeDBInstances? && c.instanceId.Some? ==> c.instanceId == Some(id)) &&
      (c.AddTagsToResource? ==> BelongsTo(c.resource, id, rds))
  }

  lemma NamesDatabaseConcat(a: seq<Call>, b: seq<Call>, id: string, rds: Rds)
    requires NamesDatabase(a, id, rds) && NamesDatabase(b, id, rds)
    ensures NamesDatabase(a + b, id, rds)
  {
    forall c | c in a + b
      ensures c in a || c in b
    {
    }
  }

  lemma NamesDatabaseOfHalves(calls: seq<Call>, hc: seq<Call>, hi: seq<Call>, t: seq<Call>, id: string, rds: Rds)
    requires calls == hc || calls == hc + hi || calls == hc + hi + t
    requires NamesDatabase(hc, id, rds) && NamesDatabase(hi, id, rds) && NamesDatabase(t, id, rds)
    ensures NamesDatabase(calls, id, rds)
  {
    NamesDatabaseConcat(hc, hi, id, rds);
    NamesDatabaseConcat(hc + hi, t, id, rds);
  }

  /** A modify run's calls are its halves' calls, as far as it got. */
  lemma ModifyCallsSplit(id: string, cluster: Option<Change>, instance: Option<Change>, tags: Option<seq<RdsTag>>,
                         client: Client, org: string, withDefaults: bool)
    ensures var hc := ClusterChangeSteps(cluster, id, client, withDefaults);
      var hi := InstanceChangeSteps(instance, id, client, withDefaults);
      var calls := ModifySteps(id, cluster, instance, tags, client, org, withDefaults).calls;
      calls == hc.calls || calls == hc.calls + hi.calls || calls == hc.calls + hi.calls + TagPart(id, tags, client, org).calls
  {
  }

  /** Every call of a modify run concerns the database `id`, the tagged resources included. */
  lemma ModifyNamesDatabase(id: string, cluster: Option<Change>, instance: Option<Change>, tags: Option<seq<RdsTag>>,
                            client: Client, org: string, withDefaults: bool)
    ensures NamesDatabase(ModifySteps(id, cluster, instance, tags, client, org, withDefaults).calls, id, client.service)
  {
    var hc := ClusterChangeSteps(cluster, id, client, withDefaults).calls;
    var hi := InstanceChangeSteps(instance, id, client, withDefaults).calls;
    var t := TagPart(id, tags, client, org).calls;
    ClusterHalfNamesDatabase(cluster, id, client, withDefaults);
    InstanceHalfNamesDatabase(instance, id, client, withDefaults);
    TagPartNamesDatabase(id, tags, client, org);
    ModifyCallsSplit(id, cluster, instance, tags, client, org, withDefaults);
    NamesDatabaseOfHalves(ModifySteps(id, cluster, instance, tags, client, org, withDefaults).calls, hc, hi, t, id, client.service);
  }

  lemma ClusterHalfNamesDatabase(cluster: Option<Change>, id: string, client: Client, withDefaults: bool)
    ensures NamesDatabase(ClusterChangeSteps(cluster, id, client, withDefaults).calls, id, client.service)
  {
    ClusterChangeCalls(cluster, id, client, withDefaults);
  }

  lemma InstanceHalfNamesDatabase(instance: Option<Change>, id: string, client: Client, withDefaults: bool)
    ensures NamesDatabase(InstanceChangeSteps(instance, id, client, withDefaults).calls, id, client.service)
  {
    InstanceChangeCalls(instance, id, client, withDefaults);
  }

  /**
   * The tag part's ARN lookup asks for `id`, and every resource it tags is a cluster or an instance
   * named `id` in the provider's inventory.
   */
  lemma TagPartNamesDatabase(id: string, tags: Option<seq<RdsTag>>, client: Client, org: string)
    ensures NamesDatabase(TagPart(id, tags, client, org).calls, id, client.service)
  {
    if tags.Some? {
      var rds := client.service;
      var arns := RdsTags.ArnsFor(id, rds.Answer(ArnLookup(id)[0]), rds.Answer(ArnLookup(id)[1]));
      RdsTags.ArnsBelongToDatabase(rds, id);
      TagArnsNamesDatabase(id, arns, NormalizedRds(tags.value, org), rds);
    }
  }

  /** Once the ARNs found all belong to `id`, the tag part's calls concern `id` only. */
  lemma TagArnsNamesDatabase(id: string, arns: Result<seq<string>, Error>, tags: seq<RdsTag>, rds: Rds)
    requires arns.Success? ==> forall a :: a in arns.value ==> BelongsTo(a, id, rds)
    ensures NamesDatabase(TagArns(id, arns, tags, rds).calls, id, rds)
  {
    if arns.Success? {
      var ts := TagSteps(arns.value, tags, rds).0;
      TagStepsInOrder(arns.value, tags, rds);
      forall c | c in TagArns(id, arns, tags, rds).calls
        ensures c.AddTagsToResource? ==> BelongsTo(c.resource, id, rds)
      {
        if c in ts {
          var j :| 0 <= j < |ts| && ts[j] == c;
          assert arns.value[j] in arns.value;
        }
      }
    }
  }

  /** The changes a modify run fills in name the database `id`; a change it did not reach stays as given. */
  lemma ModifyChangesNameDatabase(id: string, cluster: Option<Change>, instance: Option<Change>, tags: Option<seq<RdsTag>>,
                                  client: Client, org: string, withDefaults: bool)
    ensures var run := ModifySteps(id, cluster, instance, tags, client, org, withDefaults);
      (run.cluster.Some? ==> run.cluster.value.identifier == Some(id)) &&
      (run.instance != instance ==> run.instance.Some? && run.instance.value.identifier == Some(id))
  {
    ClusterChangeCalls(cluster, id, client, withDefaults);
    InstanceChangeCalls(instance, id, client, withDefaults);
  }

  /** A failed cluster modify ends the run, before any instance or tag call and with the instance change untouched. */
  lemma ClusterModifyFailureStops(id: string, cluster: Option<Change>, instance: Option<Change>, tags: Option<seq<RdsTag>>,
                                  client: Client, org: string, withDefaults: bool)
    ensures var run := ModifySteps(id, cluster, instance, tags, client, org, withDefaults);
      run.stop.Some? && run.stop.value.ClusterModifyFailed? ==>
        run.instance == instance && |run.calls| > 0 && run.calls[|run.calls| - 1].ModifyDBCluster? &&
        forall c :: c in run.calls ==> !c.ModifyDBInstance? && !c.AddTagsToResource?
  {
    ClusterChangeCalls(cluster, id, client, withDefaults);
    var run := ModifySteps(id, cluster, instance, tags, client, org, withDefaults);
    var hc := ClusterChangeSteps(cluster, id, client, withDefaults);
    if hc.stop.None? {
      var hi := InstanceChangeSteps(instance, id, client, withDefaults);
      if hi.stop.None? {
        TagPartStops(id, tags, client, org);
        assert run.stop == TagPart(id, tags, client, org).stop;
      }
    } else {
      assert run.calls == hc.calls && run.stop == hc.stop && run.instance == instance;
    }
  }

  // ---------------------------------------------------------------- delete

  /** The name of the final snapshot taken of the resource `id`. */
  function FinalSnapshotName(id: string): string {
    "final-" + id
  }

  datatype DeleteStop =
    | DescribeFailed(describeError: Error)
    | UnexpectedInstanceCount
    | NoInstanceFound
    | InstanceDeleteFailed(instanceDeleteError: Error)
    | ClusterDeleteFailed(clusterDeleteError: Error)

  /** A delete run: the calls, why it stopped, and the delete outputs. */
  datatype DeleteRun = DeleteRun(calls: seq<Call>, stop: Option<DeleteStop>, clusterOutput: Option<Reply>, instanceOutput: Option<Reply>)

  /** The cluster delete for `name`: a final snapshot "final-<name>" exactly when `snapshot`. */
  function ClusterDelete(name: string, snapshot: bool): (c: Call)
    ensures c.DeleteDBCluster? && c.clusterName == Some(name) && c.skipFinalSnapshot == !snapshot
    ensures c.finalSnapshot == if snapshot then Some("final-" + name) else None
  {
    DeleteDBCluster(Some(name), !snapshot, if snapshot then Some(FinalSnapshotName(name)) else None)
  }

  /** The instance delete for `id`: a final snapshot "final-<id>" exactly when `snapshot`. */
  function InstanceDelete(id: string, snapshot: bool): (c: Call)
    ensures c.DeleteDBInstance? && c.instanceName == id && c.skipFinalSnapshot == !snapshot
    ensures c.finalSnapshot == if snapshot then Some("final-" + id) else None
  {
    DeleteDBInstance(id, !snapshot, if snapshot then Some(FinalSnapshotName(id)) else None)
  }

  /** The cluster delete and its outcome, after the calls `before`. */
  function ClusterDeleteSteps(before: seq<Call>, name: string, snapshot: bool, instanceOutput: Option<Reply>, rds: Rds)
    : DeleteRun
  {
    var dc := ClusterDelete(name, snapshot);
    var b := rds.Answer(dc);
    DeleteRun(before + [dc], if b.err.Some? then Some(ClusterDeleteFailed(b.err.value)) else None, Some(b), instanceOutput)
  }

  /**
   * `databaseDelete`'s steps for the database `id`: describe the instance `id`; if the provider says
   * it does not exist, delete the cluster `id`; if exactly one instance is listed, delete it (with a
   * final snapshot only when it has no cluster) and then its parent cluster, if any.
   */
  function DeleteSteps(id: string, snapshot: bool, rds: Rds): DeleteRun {
    DeleteAfterDescribe(id, snapshot, rds.Answer(DescribeDBInstances(Some(id))), rds)
  }

  /** The rest of a delete, once the describe of the instance `id` answered `a`. */
  function DeleteAfterDescribe(id: string, snapshot: bool, a: Reply, rds: Rds): DeleteRun {
    var d := DescribeDBInstances(Some(id));
    var instanceNotFound := a.err.Some? && IsProviderCode(a.err.value, DBInstanceNotFoundCode);
    if a.err.Some? && a.err.value.Provider? && !instanceNotFound then DeleteRun([d], Some(DescribeFailed(a.err.value)), None, None)
    else if instanceNotFound then ClusterDeleteSteps([d], id, snapshot, None, rds)
    else if |a.instances| > 1 then DeleteRun([d], Some(UnexpectedInstanceCount), None, None)
    else if |a.instances| < 1 then DeleteRun([d], Some(NoInstanceFound), None, None)
    else
      var parent := a.instances[0].clusterId;
      var di := InstanceDelete(id, snapshot && parent.None?);
      var bi := rds.Answer(di);
      if bi.err.Some? then DeleteRun([d, di], Some(InstanceDeleteFailed(bi.err.value)), None, None)
      else if parent.None? then DeleteRun([d, di], None, None, Some(bi))
      else ClusterDeleteSteps([d, di], parent.value, snapshot, Some(bi), rds)
  }

  const UnexpectedCountMessage: string := "Unexpected number of DBInstances"
  const NoInstancesMessage: string := "No DBInstances found"

  /** The error a delete returns when it stops: provider failures classified, the two count errors plain. */
  function DeleteError(stop: DeleteStop): (e: Error)
    ensures stop.DescribeFailed? ==> e == Errors.ErrCode("failed to describe database instance", stop.describeError)
    ensures stop.UnexpectedInstanceCount? ==> e == Plain(UnexpectedCountMessage)
    ensures stop.NoInstanceFound? ==> e == Plain(NoInstancesMessage)
    ensures stop.InstanceDeleteFailed? ==> e == Errors.ErrCode("failed to delete database instance", stop.instanceDeleteError)
    ensures stop.ClusterDeleteFailed? ==> e == Errors.ErrCode("failed to delete database cluster", stop.clusterDeleteError)
  {
    match stop
    case DescribeFailed(e) => Errors.ErrCode("failed to describe database instance", e)
    case UnexpectedInstanceCount => Plain(UnexpectedCountMessage)
    case NoInstanceFound => Plain(NoInstancesMessage)
    case InstanceDeleteFailed(e) => Errors.ErrCode("failed to delete database instance", e)
    case ClusterDeleteFailed(e) => Errors.ErrCode("failed to delete database cluster", e)
  }

  datatype DeleteOutput = DeleteOutput(cluster: Option<Reply>, instance: Option<Reply>)

  /** What `databaseDelete` returns for a run. */
  function DeleteResult(run: DeleteRun): Result<DeleteOutput, Error> {
    if run.stop.Some? then Failure(DeleteError(run.stop.value))
    else Success(DeleteOutput(run.clusterOutput, run.instanceOutput))
  }

  /**
   * The delete branch machine, against the provider: "instance not found" → delete the cluster `id`;
   * any other provider error → stop after the describe; zero or several instances → stop before any
   * delete; exactly one → delete it, then its parent cluster exactly when it has one and its delete
   * succeeded. Nothing is ever created.
   */
  lemma DeleteBranches(id: string, snapshot: bool, a: Reply, rds: Rds)
    requires a.err.Some? ==> a.instances == []
    ensures var run := DeleteAfterDescribe(id, snapshot, a, rds);
      run.calls[0] == DescribeDBInstances(Some(id)) &&
      (a.err.Some? && IsProviderCode(a.err.value, DBInstanceNotFoundCode) ==>
        run.calls == [DescribeDBInstances(Some(id)), ClusterDelete(id, snapshot)]) &&
      (a.err.Some? && a.err.value.Provider? && a.err.value.code != DBInstanceNotFoundCode ==>
        run.calls == [DescribeDBInstances(Some(id))] && run.stop == Some(DescribeFailed(a.err.value))) &&
      (a.err.None? && |a.instances| != 1 ==>
        run.calls == [DescribeDBInstances(Some(id))] && run.stop.Some? &&
        (run.stop.value == UnexpectedInstanceCount || run.stop.value == NoInstanceFound))
    ensures var run := DeleteAfterDescribe(id, snapshot, a, rds);
      a.err.None? && |a.instances| == 1 ==>
        |run.calls| >= 2 && run.calls[1].DeleteDBInstance? && run.calls[1].instanceName == id &&
        (|run.calls| == 3 <==> a.instances[0].clusterId.Some? && rds.fault(run.calls[1]).None?) &&
        (|run.calls| == 3 ==> run.calls[2] == ClusterDelete(a.instances[0].clusterId.value, snapshot))
    ensures forall c :: c in DeleteAfterDescribe(id, snapshot, a, rds).calls ==> !c.CreateDBCluster? && !c.CreateDBInstance?
  {
  }

  /** A cluster delete is the last step of a delete run: once one is issued, the run stops only if it fails. */
  lemma ClusterDeleteIsLast(id: string, snapshot: bool, a: Reply, rds: Rds)
    requires a.err.Some? ==> a.instances == []
    ensures var run := DeleteAfterDescribe(id, snapshot, a, rds);
      forall i :: 0 <= i < |run.calls| && run.calls[i].DeleteDBCluster? ==>
        i == |run.calls| - 1 && (run.stop.None? || run.stop.value.ClusterDeleteFailed?)
  {
    var run := DeleteAfterDescribe(id, snapshot, a, rds);
    var d := DescribeDBInstances(Some(id));
    if a.err.None? && |a.instances| == 1 {
      var parent := a.instances[0].clusterId;
      var di := InstanceDelete(id, snapshot && parent.None?);
      assert run.calls == [d, di] ||
        (parent.Some? && run == ClusterDeleteSteps([d, di], parent.value, snapshot, Some(rds.Answer(di)), rds));
    }
  }

  /**
   * Final-snapshot naming: the instance gets "final-<id>" (and does not skip its snapshot) exactly
   * when a snapshot is asked for and the instance has no parent cluster; every cluster delete takes a
   * final snapshot named after the cluster exactly when a snapshot is asked for.
   */
  lemma FinalSnapshotNaming(id: string, snapshot: bool, a: Reply, rds: Rds)
    requires a.err.Some? ==> a.instances == []
    ensures var run := DeleteAfterDescribe(id, snapshot, a, rds);
      forall c :: c in run.calls && c.DeleteDBInstance? ==>
        a.err.None? && |a.instances| == 1 &&
        (c.skipFinalSnapshot <==> !(snapshot && a.instances[0].clusterId.None?)) &&
        c.finalSnapshot == (if snapshot && a.instances[0].clusterId.None? then Some("final-" + id) else None)
    ensures var run := DeleteAfterDescribe(id, snapshot, a, rds);
      forall c :: c in run.calls && c.DeleteDBCluster? ==>
        c.clusterName.Some? && c.skipFinalSnapshot == !snapshot &&
        c.finalSnapshot == (if snapshot then Some("final-" + c.clusterName.value) else None)
  {
    var run := DeleteAfterDescribe(id, snapshot, a, rds);
    var d := DescribeDBInstances(Some(id));
    if a.err.None? && |a.instances| == 1 {
      var parent := a.instances[0].clusterId;
      var di := InstanceDelete(id, snapshot && parent.None?);
      if rds.Answer(di).err.Some? || parent.None? {
        assert run.calls == [d, di];
      } else {
        var dc := ClusterDelete(parent.value, snapshot);
        assert run.calls == [d, di, dc];
        forall c | c in run.calls && c.DeleteDBCluster?
          ensures c == dc
        {
        }
      }
    } else if a.err.Some? && IsProviderCode(a.err.value, DBInstanceNotFoundCode) {
      assert run.calls == [d, ClusterDelete(id, snapshot)];
    } else {
      assert run.calls == [d];
    }
  }

  // ---------------------------------------------------------------- delete, imperatively

  /** The cluster delete of `name`, reporting its outcome. */
  method DeleteCluster(client: Client, name: string, snapshot: bool) returns (stop: Option<DeleteStop>, output: Reply)
    modifies client.service
    ensures var r := ClusterDeleteSteps([], name, snapshot, None, client.service);
      stop == r.stop && Some(output) == r.clusterOutput &&
      client.service.log == old(client.service.log) + [ClusterDelete(name, snapshot)]
  {
    var skip, finalSnapshot := true, None;
    if snapshot {
      skip, finalSnapshot := false, Some(FinalSnapshotName(name));
    }
    output := client.service.Issue(DeleteDBCluster(Some(name), skip, finalSnapshot));
    stop := if output.err.Some? then Some(ClusterDeleteFailed(output.err.value)) else None;
  }

  /** The steps of a delete, shared by the orchestrated delete and the legacy handler. */
  method Delete(client: Client, id: string, snapshot: bool)
    returns (stop: Option<DeleteStop>, clusterOutput: Option<Reply>, instanceOutput: Option<Reply>)
    modifies client.service
    ensures var run := DeleteSteps(id, snapshot, client.service);
      stop == run.stop && clusterOutput == run.clusterOutput && instanceOutput == run.instanceOutput &&
      client.service.log == old(client.service.log) + run.calls
  {
    stop, clusterOutput, instanceOutput := None, None, None;
    var clusterName: Option<string> := None;
    var instanceNotFound := false;
    ghost var start := client.service.log;
    var describe := DescribeDBInstances(Some(id));
    var described := client.service.Issue(describe);
    // the calls issued so far: `client.service.log == start + issued`
    ghost var issued := [describe];
    if described.err.Some? && described.err.value.Provider? {
      if described.err.value.code == DBInstanceNotFoundCode {
        instanceNotFound := true;
      } else {
        return Some(DescribeFailed(described.err.value)), None, None;
      }
    }
    if !instanceNotFound {
      if |described.instances| > 1 {
        return Some(UnexpectedInstanceCount), None, None;
      }
      if |described.instances| < 1 {
        return Some(NoInstanceFound), None, None;
      }
      clusterName := described.instances[0].clusterId;
      var skip, finalSnapshot := true, None;
      if snapshot && clusterName.None? {
        skip, finalSnapshot := false, Some(FinalSnapshotName(id));
      }
      var delete := DeleteDBInstance(id, skip, finalSnapshot);
      var reply := client.service.Issue(delete);
      AppendAssociates(start, issued, [delete]);
      issued := issued + [delete];
      if reply.err.Some? {
        return Some(InstanceDeleteFailed(reply.err.value)), None, None;
      }
      instanceOutput := Some(reply);
    }
    if clusterName.Some? && !instanceNotFound {
      var reply;
      stop, reply := DeleteCluster(client, clusterName.value, snapshot);
      AppendAssociates(start, issued, [ClusterDelete(clusterName.value, snapshot)]);
      clusterOutput := Some(reply);
    }
    if instanceNotFound {
      var reply;
      stop, reply := DeleteCluster(client, id, snapshot);
      AppendAssociates(start, issued, [ClusterDelete(id, snapshot)]);
      clusterOutput := Some(reply);
    }
  }

  // ---------------------------------------------------------------- create, imperatively

  /** `normalizeTags`: drops every owner tag, then appends the owner tag for `org`. */
  method NormalizeTags(tags: seq<RdsTag>, org: string) returns (r: seq<RdsTag>)
    ensures r == NormalizedRds(tags, org)
  {
    r := [];
    for i := 0 to |tags|
      invariant r == Kept(tags[..i], IsOwnerRdsTag)
    {
      assert tags[..i + 1][..i] == tags[..i];
      if IsOwnerRdsTag(tags[i]) {
        continue;
      }
      r := r + [tags[i]];
    }
    assert tags[..|tags|] == tags;
    r := r + [RdsOwnerTag(org)];
  }

  /** The cluster defaults of a create, issuing the family lookup when one is needed. */
  method FillCluster(client: Client, org: string, s: ClusterSpec) returns (spec: ClusterSpec, err: Option<Error>)
    modifies client.service
    ensures var p := PrepareCluster(s, client, org);
      spec == p.spec && err == p.familyErr && client.service.log == old(client.service.log) + p.calls
  {
    spec := s;
    err := None;
    if spec.subnetGroup.None? {
      spec := spec.(subnetGroup := Some(client.defaultSubnetGroup));
    }
    if spec.parameterGroup.None? {
      var family := RdsParameterGroups.DetermineParameterGroupFamily(client, spec.engine, spec.engineVersion);
      if family.Failure? {
        return spec, Some(family.error);
      }
      if family.value in client.defaultClusterParameterGroups {
        spec := spec.(parameterGroup := Some(client.defaultClusterParameterGroups[family.value]));
      }
    }
    var tags := NormalizeTags(spec.tags, org);
    spec := spec.(tags := tags);
  }

  /** The instance defaults of a create. */
  method FillInstance(client: Client, org: string, s: InstanceSpec) returns (spec: InstanceSpec, err: Option<Error>)
    modifies client.service
    ensures var p := PrepareInstance(s, client, org);
      spec == p.spec && err == p.familyErr && client.service.log == old(client.service.log) + p.calls
  {
    spec := s;
    err := None;
    if spec.subnetGroup.None? {
      spec := spec.(subnetGroup := Some(client.defaultSubnetGroup));
    }
    if spec.parameterGroup.None? {
      var family := RdsParameterGroups.DetermineParameterGroupFamily(client, spec.engine, spec.engineVersion);
      if family.Failure? {
        return spec, Some(family.error);
      }
      if family.value in client.defaultParameterGroups {
        spec := spec.(parameterGroup := Some(client.defaultParameterGroups[family.value]));
      }
    }
    var tags := NormalizeTags(spec.tags, org);
    spec := spec.(tags := tags);
  }

  /** The cluster half of a create. */
  method CreateCluster(client: Client, org: string, s: ClusterSpec)
    returns (spec: ClusterSpec, stop: Option<CreateStop>, output: Option<Reply>)
    modifies client.service
    ensures var h := ClusterSteps(s, client, org);
      spec == h.spec && stop == h.stop && output == h.output &&
      client.service.log == old(client.service.log) + h.calls
  {
    ghost var start := client.service.log;
    var err;
    spec, err := FillCluster(client, org, s);
    if err.Some? {
      return spec, Some(FamilyFailed(err.value)), None;
    }
    ghost var prepared := client.service.log[|start|..];
    var reply := client.service.Issue(CreateDBCluster(spec));
    AppendAssociates(start, prepared, [CreateDBCluster(spec)]);
    if reply.err.Some? {
      return spec, Some(ClusterCreateFailed(reply.err.value)), None;
    }
    return spec, None, Some(reply);
  }

  /** The instance half of a create, with the compensating cluster delete. */
  method CreateInstance(client: Client, org: string, input: DatabaseCreateInput, clusterOutput: Option<Reply>)
    returns (stop: Option<CreateStop>, output: Option<Reply>)
    modifies input, client.service
    ensures var run := InstanceSteps(old(input.cluster), old(input.instance), clusterOutput, client, org);
      stop == run.stop && output == run.instanceOutput &&
      client.service.log == old(client.service.log) + run.calls &&
      input.cluster == old(input.cluster) && input.instance == run.instance
  {
    if input.instance.None? {
      return None, None;
    }
    ghost var start := client.service.log;
    var spec, err := FillInstance(client, org, input.instance.value);
    input.instance := Some(spec);
    if err.Some? {
      return Some(FamilyFailed(err.value)), None;
    }
    ghost var prepared := client.service.log[|start|..];
    var reply := client.service.Issue(CreateDBInstance(spec));
    AppendAssociates(start, prepared, [CreateDBInstance(spec)]);
    if reply.err.Some? {
      if input.cluster.Some? {
        var del := DeleteDBCluster(input.cluster.value.identifier, true, None);
        var _ := client.service.Issue(del);
        AppendAssociates(start, prepared + [CreateDBInstance(spec)], [del]);
      }
      return Some(InstanceCreateFailed(reply.err.value)), None;
    }
    return None, Some(reply);
  }

  /**
   * The steps of a create, filling in `input` in place and reporting why they stopped; shared by the
   * orchestrated create and the legacy handler.
   */
  method Create(client: Client, org: string, input: DatabaseCreateInput)
    returns (stop: Option<CreateStop>, clusterOutput: Option<Reply>, instanceOutput: Option<Reply>)
    modifies input, client.service
    ensures var run := CreateSteps(old(input.cluster), old(input.instance), client, org);
      stop == run.stop && clusterOutput == run.clusterOutput && instanceOutput == run.instanceOutput &&
      client.service.log == old(client.service.log) + run.calls &&
      input.cluster == run.cluster && input.instance == run.instance
  {
    clusterOutput := None;
    ghost var start := client.service.log;
    if input.cluster.Some? {
      var spec;
      spec, stop, clusterOutput := CreateCluster(client, org, input.cluster.value);
      input.cluster := Some(spec);
      if stop.Some? {
        return stop, None, None;
      }
    }
    ghost var middle := client.service.log;
    stop, instanceOutput := CreateInstance(client, org, input, clusterOutput);
    AppendAssociates(start, middle[|start|..], client.service.log[|middle|..]);
  }

  // ---------------------------------------------------------------- modify, imperatively

  /** The cluster half of a modify, setting the identifier and (when `withDefaults`) the parameter group in place. */
  method ChangeCluster(client: Client, id: string, input: DatabaseModifyInput, withDefaults: bool)
    returns (stop: Option<ModifyStop>, output: Option<Reply>)
    modifies input, client.service
    ensures var h := ClusterChangeSteps(old(input.cluster), id, client, withDefaults);
      stop == h.stop && output == h.output && input.cluster == h.spec &&
      client.service.log == old(client.service.log) + h.calls
    ensures input.instance == old(input.instance) && input.tags == old(input.tags)
  {
    if input.cluster.None? {
      return None, None;
    }
    ghost var start := client.service.log;
    var change;
    change, stop := PrepareClusterModify(client, id, input.cluster.value, withDefaults);
    input.cluster := Some(change);
    if stop.Some? {
      return stop, None;
    }
    ghost var prepared := client.service.log[|start|..];
    var reply := client.service.Issue(ModifyDBCluster(change));
    AppendAssociates(start, prepared, [ModifyDBCluster(change)]);
    if reply.err.Some? {
      return Some(ClusterModifyFailed(reply.err.value)), None;
    }
    return None, Some(reply);
  }

  /** The preparation of a cluster change: the identifier, and the default parameter group of the version's family. */
  method PrepareClusterModify(client: Client, id: string, ch: Change, withDefaults: bool) returns (change: Change, stop: Option<ModifyStop>)
    modifies client.service
    ensures var p := PrepareClusterChange(ch, id, client, withDefaults);
      change == p.spec && stop == p.stop && client.service.log == old(client.service.log) + p.calls
  {
    change, stop := ch.(identifier := Some(id)), None;
    if withDefaults && change.parameterGroup.None? && change.engineVersion.Some? {
      var described := client.service.Issue(DescribeDBClusters(None));
      if described.err.None? {
        if |described.clusters| == 0 {
          return change, Some(EngineIndexPanicked);
        }
        var family := RdsParameterGroups.DetermineParameterGroupFamily(client, described.clusters[0].engine, change.engineVersion);
        if family.Failure? {
          return change, Some(ChangeFamilyFailed(family.error));
        }
        if family.value in client.defaultClusterParameterGroups {
          change := change.(parameterGroup := Some(client.defaultClusterParameterGroups[family.value]));
        }
      }
    }
  }

  /** The instance half of a modify. */
  method ChangeInstance(client: Client, id: string, input: DatabaseModifyInput, withDefaults: bool)
    returns (stop: Option<ModifyStop>, output: Option<Reply>)
    modifies input, client.service
    ensures var h := InstanceChangeSteps(old(input.instance), id, client, withDefaults);
      stop == h.stop && output == h.output && input.instance == h.spec &&
      client.service.log == old(client.service.log) + h.calls
    ensures input.cluster == old(input.cluster) && input.tags == old(input.tags)
  {
    if input.instance.None? {
      return None, None;
    }
    ghost var start := client.service.log;
    var change;
    change, stop := PrepareInstanceModify(client, id, input.instance.value, withDefaults);
    input.instance := Some(change);
    if stop.Some? {
      return stop, None;
    }
    ghost var prepared := client.service.log[|start|..];
    var reply := client.service.Issue(ModifyDBInstance(change));
    AppendAssociates(start, prepared, [ModifyDBInstance(change)]);
    if reply.err.Some? {
      return Some(InstanceModifyFailed(reply.err.value)), None;
    }
    return None, Some(reply);
  }

  /** The preparation of an instance change: the identifier, and the default parameter group of the version's family. */
  method PrepareInstanceModify(client: Client, id: string, ch: Change, withDefaults: bool) returns (change: Change, stop: Option<ModifyStop>)
    modifies client.service
    ensures var p := PrepareInstanceChange(ch, id, client, withDefaults);
      change == p.spec && stop == p.stop && client.service.log == old(client.service.log) + p.calls
  {
    change, stop := ch.(identifier := Some(id)), None;
    if withDefaults && change.parameterGroup.None? && change.engineVersion.Some? {
      var described := client.service.Issue(DescribeDBInstances(None));
      if described.err.None? {
        if |described.instances| == 0 {
          return change, Some(EngineIndexPanicked);
        }
        var family := RdsParameterGroups.DetermineParameterGroupFamily(client, described.instances[0].engine, change.engineVersion);
        if family.Failure? {
          return change, Some(ChangeFamilyFailed(family.error));
        }
        if family.value in client.defaultParameterGroups {
          change := change.(parameterGroup := Some(client.defaultParameterGroups[family.value]));
        }
      }
    }
  }

  /** The tag part of a modify: `DetermineArn`, then one add-tags call per ARN until one fails. */
  method TagDatabase(client: Client, org: string, id: string, tags: Option<seq<RdsTag>>) returns (stop: Option<ModifyStop>)
    modifies client.service
    ensures var t := TagPart(id, tags, client, org);
      stop == t.stop && client.service.log == old(client.service.log) + t.calls
  {
    if tags.None? {
      return None;
    }
    var arns := RdsTags.DetermineArn(client, id);
    if arns.Failure? {
      return Some(ArnLookupFailed(arns.error));
    }
    var normalized := NormalizeTags(tags.value, org);
    var err := TagEach(client.service, arns.value, normalized);
    AppendAssociates(old(client.service.log), ArnLookup(id), TagSteps(arns.value, normalized, client.service).0);
    return if err.Some? then Some(TaggingFailed(err.value)) else None;
  }

  /** The add-tags loop: one call per ARN, in order, stopping at the first error. */
  method TagEach(rds: Rds, arns: seq<string>, tags: seq<RdsTag>) returns (err: Option<Error>)
    modifies rds
    ensures err == TagSteps(arns, tags, rds).1
    ensures rds.log == old(rds.log) + TagSteps(arns, tags, rds).0
  {
    ghost var start := rds.log;
    for i := 0 to |arns|
      invariant TagSteps(arns[..i], tags, rds).1.None?
      invariant rds.log == start + TagSteps(arns[..i], tags, rds).0
    {
      var c := AddTagsToResource(arns[i], tags);
      var reply := rds.Issue(c);
      TagStepsSnoc(arns[..i], arns[i], tags, rds);
      assert arns[..i + 1] == arns[..i] + [arns[i]];
      AppendAssociates(start, TagSteps(arns[..i], tags, rds).0, [c]);
      if reply.err.Some? {
        TagStepsStops(arns[..i + 1], arns[i + 1..], tags, rds);
        assert arns[..i + 1] + arns[i + 1..] == arns;
        return reply.err;
      }
    }
    assert arns[..|arns|] == arns;
    return None;
  }


  /** The steps of a modify, shared by the orchestrated modify and the legacy handler. */
  method Modify(client: Client, org: string, id: string, input: DatabaseModifyInput, withDefaults: bool)
    returns (stop: Option<ModifyStop>, clusterOutput: Option<Reply>, instanceOutput: Option<Reply>)
    modifies input, client.service
    ensures var run := ModifySteps(id, old(input.cluster), old(input.instance), old(input.tags), client, org, withDefaults);
      stop == run.stop && clusterOutput == run.clusterOutput && instanceOutput == run.instanceOutput &&
      client.service.log == old(client.service.log) + run.calls &&
      input.cluster == run.cluster && input.instance == run.instance && input.tags == old(input.tags)
  {
    ghost var start := client.service.log;
    stop, clusterOutput := ChangeCluster(client, id, input, withDefaults);
    if stop.Some? {
      return stop, None, None;
    }
    ghost var afterCluster := client.service.log;
    stop, instanceOutput := ChangeInstance(client, id, input, withDefaults);
    AppendAssociates(start, afterCluster[|start|..], client.service.log[|afterCluster|..]);
    if stop.Some? {
      return stop, clusterOutput, None;
    }
    ghost var afterInstance := client.service.log;
    stop := TagDatabase(client, org, id, input.tags);
    AppendAssociates(start, afterInstance[|start|..], client.service.log[|afterInstance|..]);
  }

  // ---------------------------------------------------------------- the orchestrator

  /** `rdsOrchestrator`: a provider client, and the organisation stamped on every created resource. */
  class RdsOrchestrator {
    const client: Client
    const org: string

    constructor (client: Client, org: string)
      ensures this.client == client && this.org == org
    {
      this.client := client;
      this.org := org;
    }

    /** `databaseCreate`: fills in `input` in place and issues the calls of `CreateSteps`. */
    method DatabaseCreate(input: DatabaseCreateInput) returns (r: Result<CreateOutput, Error>)
      modifies input, client.service
      ensures var run := CreateSteps(old(input.cluster), old(input.instance), client, org);
        r == CreateResult(run) && client.service.log == old(client.service.log) + run.calls &&
        input.cluster == run.cluster && input.instance == run.instance
    {
      var stop, clusterOutput, instanceOutput := Create(client, org, input);
      if stop.Some? {
        return Failure(CreateError(stop.value));
      }
      return Success(CreateOutput(clusterOutput, instanceOutput));
    }

    /** `databaseModify`: fills in `input` in place and issues the calls of `ModifySteps`. */
    method DatabaseModify(id: string, input: DatabaseModifyInput) returns (r: Result<ModifyOutput, Error>)
      modifies input, client.service
      ensures var run := ModifySteps(id, old(input.cluster), old(input.instance), old(input.tags), client, org, true);
        r == ModifyResult(run) && client.service.log == old(client.service.log) + run.calls &&
        input.cluster == run.cluster && input.instance == run.instance
    {
      var stop, clusterOutput, instanceOutput := Modify(client, org, id, input, true);
      if stop.Some? {
        return Failure(ModifyError(stop.value));
      }
      return Success(ModifyOutput(clusterOutput, instanceOutput));
    }

    /** `databaseDelete`: issues the calls of `DeleteSteps`. */
    method DatabaseDelete(id: string, snapshot: bool) returns (r: Result<DeleteOutput, Error>)
      modifies client.service
      ensures var run := DeleteSteps(id, snapshot, client.service);
        r == DeleteResult(run) && client.service.log == old(client.service.log) + run.calls
    {
      var stop, clusterOutput, instanceOutput := Delete(client, id, snapshot);
      if stop.Some? {
        return Failure(DeleteError(stop.value));
      }
      return Success(DeleteOutput(clusterOutput, instanceOutput));
    }
  }
}
