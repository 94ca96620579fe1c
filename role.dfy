/**
 * `assumeRole` of actions/role.go: builds the STS assume-role request and a cache key from the
 * organisation, the role ARN, the optional external id, the optional inline policy and the optional
 * managed-policy ARNs; answers from the session cache when it holds a session under that key, and
 * otherwise assumes the role and caches the new session under exactly that key.
 */
module Role {
  import opened Wrappers
  import opened ErrorValues

  datatype Session = Session(accessKeyId: string, secretAccessKey: string, sessionToken: string, region: string)

  /** What the cache may hold: a session, or an entry of any other type. */
  datatype CacheItem = SessionItem(session: Session) | OtherItem(description: string)

  datatype StsTag = StsTag(key: string, value: string)
  datatype PolicyDescriptor = PolicyDescriptor(arn: string)

  /** The fields of `sts.AssumeRoleInput` the function sets (the random session name aside). */
  datatype AssumeRoleRequest = AssumeRoleRequest(
    durationSeconds: int, roleArn: string, tags: seq<StsTag>,
    externalId: Option<string>, policy: Option<string>, policyArns: Option<seq<PolicyDescriptor>>)

  /** The temporary credentials STS answers with; each field is a pointer and may be nil. */
  datatype Credentials = Credentials(accessKeyId: Option<string>, secretAccessKey: Option<string>, sessionToken: Option<string>)

  const SessionSeconds: int := 900
  const SessionRegion: string := "us-east-1"

  /** `strings.Join`. */
  function Join(parts: seq<string>, sep: string): (r: string)
    ensures parts == [] ==> r == ""
    ensures |parts| == 1 ==> r == parts[0]
  {
    if parts == [] then ""
    else if |parts| == 1 then parts[0]
    else parts[0] + sep + Join(parts[1..], sep)
  }

  /** The cache key: fixed prefix, then one segment per optional part that is present, in this order. */
  function CacheKey(org: string, roleArn: string, externalId: string, inlinePolicy: string,
                    policyArns: Option<seq<string>>): (k: string)
    ensures "spinup_" + org + "_" + roleArn <= k
  {
    var k := "spinup_" + org + "_" + roleArn;
    var k := if externalId != "" then k + "_" + externalId else k;
    var k := if inlinePolicy != "" then k + "_" + inlinePolicy else k;
    if policyArns.Some? then k + "_" + Join(policyArns.value, "_") else k
  }

  /** One policy descriptor per ARN, in the caller's order. */
  function Descriptors(arns: seq<string>): (r: seq<PolicyDescriptor>)
    ensures |r| == |arns| && forall i :: 0 <= i < |arns| ==> r[i].arn == arns[i]
  {
    seq(|arns|, i requires 0 <= i < |arns| => PolicyDescriptor(arns[i]))
  }

  /** The assume-role request for the given arguments. */
  function RequestFor(org: string, roleArn: string, externalId: string, inlinePolicy: string,
                      policyArns: Option<seq<string>>): (q: AssumeRoleRequest)
    ensures q.durationSeconds == SessionSeconds && q.roleArn == roleArn
    ensures q.tags == [StsTag("spinup:org", org)]
    ensures q.externalId.Some? <==> externalId != ""
    ensures q.externalId.Some? ==> q.externalId.value == externalId
    ensures q.policy.Some? <==> inlinePolicy != ""
    ensures q.policy.Some? ==> q.policy.value == inlinePolicy
    ensures q.policyArns.Some? <==> policyArns.Some?
    ensures q.policyArns.Some? ==>
      |q.policyArns.value| == |policyArns.value| &&
      forall i :: 0 <= i < |policyArns.value| ==> q.policyArns.value[i].arn == policyArns.value[i]
  {
    AssumeRoleRequest(SessionSeconds, roleArn, [StsTag("spinup:org", org)],
      if externalId != "" then Some(externalId) else None,
      if inlinePolicy != "" then Some(inlinePolicy) else None,
      if policyArns.Some? then Some(Descriptors(policyArns.value)) else None)
  }

  function SessionFrom(c: Credentials): (s: Session)
    ensures s.region == SessionRegion
  {
    Session(StringValue(c.accessKeyId), StringValue(c.secretAccessKey), StringValue(c.sessionToken), SessionRegion)
  }

  /** The result of one `assumeRole` call: what it returns, the cache after it, the STS requests it made. */
  datatype Outcome = Outcome(result: Result<Session, Error>, cache: map<string, CacheItem>, requests: seq<AssumeRoleRequest>)

  /** What `assumeRole` does, as a function of the cache and the STS oracle. */
  function AssumeRoleSpec(cache: map<string, CacheItem>, sts: AssumeRoleRequest -> Result<Credentials, Error>,
                          org: string, roleArn: string, externalId: string, inlinePolicy: string,
                          policyArns: Option<seq<string>>): (o: Outcome)
  {
    var key := CacheKey(org, roleArn, externalId, inlinePolicy, policyArns);
    var request := RequestFor(org, roleArn, externalId, inlinePolicy, policyArns);
    if key in cache && cache[key].SessionItem? then Outcome(Success(cache[key].session), cache, [])
    else match sts(request)
      case Failure(e) => Outcome(Failure(e), cache, [request])
      case Success(creds) =>
        var s := SessionFrom(creds);
        Outcome(Success(s), cache[key := SessionItem(s)], [request])
  }

  class Server {
    const org: string
    /** The session cache, without its expiry clock. */
    var sessionCache: map<string, CacheItem>
    /** The assume-role requests sent to STS so far. */
    var stsLog: seq<AssumeRoleRequest>
    /** STS: the credentials, or the error, it answers a request with. */
    const sts: AssumeRoleRequest -> Result<Credentials, Error>

    constructor (org: string, sts: AssumeRoleRequest -> Result<Credentials, Error>)
      ensures this.org == org && this.sts == sts && sessionCache == map[] && stsLog == []
    {
      this.org := org;
      this.sts := sts;
      sessionCache := map[];
      stsLog := [];
    }

    /** `assumeRole`; `policyArns` is None when the variadic argument list is nil. */
    method AssumeRole(externalId: string, roleArn: string, inlinePolicy: string, policyArns: Option<seq<string>>)
      returns (r: Result<Session, Error>)
      modifies this
      ensures var o := AssumeRoleSpec(old(sessionCache), sts, org, roleArn, externalId, inlinePolicy, policyArns);
        r == o.result && sessionCache == o.cache && stsLog == old(stsLog) + o.requests
    {
      var input := AssumeRoleRequest(SessionSeconds, roleArn, [StsTag("spinup:org", org)], None, None, None);
      var cacheKey := "spinup_" + org + "_" + roleArn;
      if externalId != "" {
        input := input.(externalId := Some(externalId));
        cacheKey := cacheKey + "_" + externalId;
      }
      if inlinePolicy != "" {
        input := input.(policy := Some(inlinePolicy));
        cacheKey := cacheKey + "_" + inlinePolicy;
      }
      if policyArns.Some? {
        var arns: seq<PolicyDescriptor> := [];
        for i := 0 to |policyArns.value|
          invariant arns == Descriptors(policyArns.value[..i])
        {
          arns := arns + [PolicyDescriptor(policyArns.value[i])];
        }
        assert policyArns.value[..|policyArns.value|] == policyArns.value;
        input := input.(policyArns := Some(arns));
        cacheKey := cacheKey + "_" + Join(policyArns.value, "_");
      }
      assert cacheKey == CacheKey(org, roleArn, externalId, inlinePolicy, policyArns);
      assert input == RequestFor(org, roleArn, externalId, inlinePolicy, policyArns);

      if cacheKey in sessionCache && sessionCache[cacheKey].SessionItem? {
        return Success(sessionCache[cacheKey].session);
      }

      var out := sts(input);
      stsLog := stsLog + [input];
      if out.Failure? {
        return Failure(out.error);
      }
      var sess := SessionFrom(out.value);
      sessionCache := sessionCache[cacheKey := SessionItem(sess)];
      return Success(sess);
    }
  }

  /**
   * Once a call has stored a session, repeating the same call is a cache hit: the same session,
   * no STS request, the cache unchanged.
   */
  lemma RepeatedCallHitsCache(cache: map<string, CacheItem>, sts: AssumeRoleRequest -> Result<Credentials, Error>,
                              org: string, roleArn: string, externalId: string, inlinePolicy: string,
                              policyArns: Option<seq<string>>)
    ensures var o := AssumeRoleSpec(cache, sts, org, roleArn, externalId, inlinePolicy, policyArns);
      o.result.Success? ==>
        AssumeRoleSpec(o.cache, sts, org, roleArn, externalId, inlinePolicy, policyArns) == Outcome(o.result, o.cache, [])
  {
  }

  /** A failed assume-role leaves the cache as it was and returns STS's error unchanged. */
  lemma FailureLeavesCache(cache: map<string, CacheItem>, sts: AssumeRoleRequest -> Result<Credentials, Error>,
                           org: string, roleArn: string, externalId: string, inlinePolicy: string,
                           policyArns: Option<seq<string>>)
    ensures var o := AssumeRoleSpec(cache, sts, org, roleArn, externalId, inlinePolicy, policyArns);
      o.result.Failure? ==>
        o.cache == cache && o.requests == [RequestFor(org, roleArn, externalId, inlinePolicy, policyArns)]
        && sts(o.requests[0]) == Failure(o.result.error)
  {
  }

  /** A session cached under the call's key is returned as it is: no STS request, the cache unchanged. */
  lemma CacheHitAnswers(cache: map<string, CacheItem>, sts: AssumeRoleRequest -> Result<Credentials, Error>,
                        org: string, roleArn: string, externalId: string, inlinePolicy: string,
                        policyArns: Option<seq<string>>)
    requires var key := CacheKey(org, roleArn, externalId, inlinePolicy, policyArns);
      key in cache && cache[key].SessionItem?
    ensures var key := CacheKey(org, roleArn, externalId, inlinePolicy, policyArns);
      AssumeRoleSpec(cache, sts, org, roleArn, externalId, inlinePolicy, policyArns) ==
        Outcome(Success(cache[key].session), cache, [])
  {
  }

  /**
   * A call that had to ask STS and succeeded made exactly one request, returns the session built
   * from the credentials STS answered, and stores it under exactly the call's key, nothing else changed.
   */
  lemma SuccessStoresSession(cache: map<string, CacheItem>, sts: AssumeRoleRequest -> Result<Credentials, Error>,
                             org: string, roleArn: string, externalId: string, inlinePolicy: string,
                             policyArns: Option<seq<string>>)
    ensures var o := AssumeRoleSpec(cache, sts, org, roleArn, externalId, inlinePolicy, policyArns);
      var key := CacheKey(org, roleArn, externalId, inlinePolicy, policyArns);
      var request := RequestFor(org, roleArn, externalId, inlinePolicy, policyArns);
      o.requests != [] && o.result.Success? ==>
        o.requests == [request] && sts(request).Success? && o.result.value == SessionFrom(sts(request).value) &&
        o.cache == cache[key := SessionItem(o.result.value)]
  {
  }

  /** An entry that is not a session does not count as a hit: STS is asked and the entry replaced on success. */
  lemma OtherItemFallsThrough(cache: map<string, CacheItem>, sts: AssumeRoleRequest -> Result<Credentials, Error>,
                              org: string, roleArn: string, externalId: string, inlinePolicy: string,
                              policyArns: Option<seq<string>>)
    requires var key := CacheKey(org, roleArn, externalId, inlinePolicy, policyArns);
      key in cache && cache[key].OtherItem?
    ensures var o := AssumeRoleSpec(cache, sts, org, roleArn, externalId, inlinePolicy, policyArns);
      o.requests == [RequestFor(org, roleArn, externalId, inlinePolicy, policyArns)]
  {
  }

  /** The key is not injective: an external id "x" and an inline policy "x" share one cache entry. */
  lemma ExternalIdAndPolicyCollide(org: string, roleArn: string, x: string)
    requires x != ""
    ensures CacheKey(org, roleArn, x, "", None) == CacheKey(org, roleArn, "", x, None)
    ensures RequestFor(org, roleArn, x, "", None) != RequestFor(org, roleArn, "", x, None)
  {
  }

  /** Policy ARNs enter the key in the caller's order: swapping two ARNs gives another key. */
  lemma PolicyArnOrderMatters(org: string, roleArn: string, externalId: string, inlinePolicy: string)
    ensures CacheKey(org, roleArn, externalId, inlinePolicy, Some(["a", "b"]))
         != CacheKey(org, roleArn, externalId, inlinePolicy, Some(["b", "a"]))
  {
    var k := CacheKey(org, roleArn, externalId, inlinePolicy, None);
    assert CacheKey(org, roleArn, externalId, inlinePolicy, Some(["a", "b"])) == k + "_a_b";
    assert CacheKey(org, roleArn, externalId, inlinePolicy, Some(["b", "a"])) == k + "_b_a";
    assert (k + "_a_b")[|k| + 1] == 'a';
    assert (k + "_b_a")[|k| + 1] == 'b';
  }
}
