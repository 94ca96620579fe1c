/**
 * `DetermineParameterGroupFamily` of pkg/rds/parameter_groups.go: the parameter-group family of the
 * first engine version the provider lists for an engine and engine version.
 */
module RdsParameterGroups {
  import opened Wrappers
  import opened ErrorValues
  import opened Provider

  const NoEngineVersionMessage: string := "Unable to find any matching database engine/version"

  /** The request the function sends: engine and engine version passed through unchanged. */
  function FamilyRequest(engine: Option<string>, engineVersion: Option<string>): (c: Call)
    ensures c.DescribeDBEngineVersions? && c.engine == engine && c.version == engineVersion
  {
    DescribeDBEngineVersions(engine, engineVersion)
  }

  /** The family the function returns for the provider's reply to that request. */
  function FamilyFrom(reply: Reply): (r: Result<string, Error>)
    ensures reply.err.Some? ==> r == Failure(reply.err.value)
    ensures reply.err.None? && reply.engineVersions == [] ==> r == Failure(Plain(NoEngineVersionMessage))
    ensures reply.err.None? && reply.engineVersions != [] ==> r == Success(reply.engineVersions[0].family)
  {
    if reply.err.Some? then Failure(reply.err.value)
    else if |reply.engineVersions| == 0 then Failure(Plain(NoEngineVersionMessage))
    else Success(reply.engineVersions[0].family)
  }

  /** An engine version the request matches. */
  predicate Requested(v: EngineVersion, engine: Option<string>, engineVersion: Option<string>) {
    Matches(engine, v.engine) && Matches(engineVersion, v.version)
  }

  /**
   * A family the provider answers with belongs to one of its engine versions matching the requested
   * engine and version; a request the provider does not fail and that matches no engine version is
   * answered with the "no matching engine/version" error.
   */
  lemma FamilyComesFromMatchingVersion(rds: Rds, engine: Option<string>, engineVersion: Option<string>)
    ensures var r := FamilyFrom(rds.Answer(FamilyRequest(engine, engineVersion)));
      r.Success? ==> (exists v :: v in rds.engineVersions && Requested(v, engine, engineVersion) && v.family == r.value)
    ensures var c := FamilyRequest(engine, engineVersion);
      (rds.fault(c).None? && forall v :: v in rds.engineVersions ==> !Requested(v, engine, engineVersion)) ==>
        FamilyFrom(rds.Answer(c)) == Failure(Plain(NoEngineVersionMessage))
  {
    var reply := rds.Answer(FamilyRequest(engine, engineVersion));
    if reply.err.None? && reply.engineVersions != [] {
      assert reply.engineVersions[0] in reply.engineVersions;
    }
  }

  /** Issues the describe call and reads the family from its reply. */
  method DetermineParameterGroupFamily(client: Client, engine: Option<string>, engineVersion: Option<string>)
    returns (r: Result<string, Error>)
    modifies client.service
    ensures client.service.log == old(client.service.log) + [FamilyRequest(engine, engineVersion)]
    ensures r == FamilyFrom(client.service.Answer(FamilyRequest(engine, engineVersion)))
  {
    var reply := client.service.Issue(DescribeDBEngineVersions(engine, engineVersion));
    if reply.err.Some? {
      return Failure(reply.err.value);
    }
    if |reply.engineVersions| == 0 {
      return Failure(Plain(NoEngineVersionMessage));
    }
    return Success(reply.engineVersions[0].family);
  }
}
