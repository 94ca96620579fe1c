/**
 * The snapshot lookups of pkg/rds/snapshots.go: find exactly one cluster snapshot, or exactly one
 * instance snapshot, by identifier; and `GetSnapshotInfo`, which tries the cluster snapshot first and
 * falls back to the instance snapshot, returning the engine and engine version of what it found.
 */
module RdsSnapshots {
  import opened Wrappers
  import opened ErrorValues
  import opened Provider

  /** The number a string of decimal digits spells, most significant digit first. */
  function DigitsValue(s: string): int {
    if s == [] then 0 else DigitsValue(s[..|s| - 1]) * 10 + (s[|s| - 1] as int - '0' as int)
  }

  /** `%d` of a natural number: its decimal digits, with no leading zero. */
  function DecimalString(n: nat): (s: string)
    ensures |s| >= 1
    ensures forall i :: 0 <= i < |s| ==> '0' <= s[i] <= '9'
    ensures DigitsValue(s) == n
    ensures s[0] == '0' ==> n == 0
  {
    var digit := ['0' + (n % 10) as char];
    if n < 10 then digit
    else
      var prefix := DecimalString(n / 10);
      assert (prefix + digit)[..|prefix + digit| - 1] == prefix;
      prefix + digit
  }

  function ClusterNotFoundMessage(snapshotId: string): string {
    "cluster with snapshot id " + snapshotId + " not found"
  }

  function InstanceNotFoundMessage(snapshotId: string): string {
    "instance with snapshot id " + snapshotId + " not found"
  }

  function CountMessage(count: nat, snapshotId: string): string {
    "expected 1 snapshot but found " + DecimalString(count) + ", snapshot id: " + snapshotId
  }

  /** The describe request each lookup sends. */
  function ClusterSnapshotRequest(snapshotId: string): Call {
    DescribeDBClusterSnapshots(Some(snapshotId), None)
  }

  function DbSnapshotRequest(snapshotId: string): Call {
    DescribeDBSnapshots(Some(snapshotId), None)
  }

  /**
   * `DescribeDBClusterSnaphot` given the provider's reply: "cluster snapshot not found" becomes a
   * NotFound API error, any other failure is returned unchanged, and a listing of other than exactly
   * one snapshot is an internal error.
   */
  function DescribeDBClusterSnaphot(snapshotId: string, reply: Reply): (r: Result<ClusterSnapshot, Error>)
    ensures r.Success? <==> reply.err.None? && |reply.clusterSnapshots| == 1
    ensures r.Success? ==> r.value == reply.clusterSnapshots[0]
    ensures reply.err.Some? && IsProviderCode(reply.err.value, DBClusterSnapshotNotFoundCode) ==>
      r == Failure(Api(NotFound, ClusterNotFoundMessage(snapshotId), reply.err))
    ensures reply.err.Some? && !IsProviderCode(reply.err.value, DBClusterSnapshotNotFoundCode) ==>
      r == Failure(reply.err.value)
    ensures reply.err.None? && |reply.clusterSnapshots| != 1 ==>
      r == Failure(Api(InternalError, CountMessage(|reply.clusterSnapshots|, snapshotId), None))
  {
    match reply.err
    case Some(e) =>
      if IsProviderCode(e, DBClusterSnapshotNotFoundCode)
      then Failure(Api(NotFound, ClusterNotFoundMessage(snapshotId), Some(e)))
      else Failure(e)
    case None =>
      if |reply.clusterSnapshots| != 1
      then Failure(Api(InternalError, CountMessage(|reply.clusterSnapshots|, snapshotId), None))
      else Success(reply.clusterSnapshots[0])
  }

  /**
   * `DescribeDBSnaphot` as written: a provider error whose code is NOT "snapshot not found" becomes a
   * NotFound API error; "snapshot not found" and non-provider errors fall through to the count check,
   * which reports them as an internal error carrying the original error.
   */
  function DescribeDBSnaphot(snapshotId: string, reply: Reply): (r: Result<DbSnapshot, Error>)
    ensures reply.err.Some? && reply.err.value.Provider? && reply.err.value.code != DBSnapshotNotFoundCode ==>
      r == Failure(Api(NotFound, InstanceNotFoundMessage(snapshotId), reply.err))
    ensures r.Success? ==> |reply.dbSnapshots| == 1 && r.value == reply.dbSnapshots[0]
    ensures (reply.err.None? || !reply.err.value.Provider? || reply.err.value.code == DBSnapshotNotFoundCode) ==>
      r == if |reply.dbSnapshots| == 1 then Success(reply.dbSnapshots[0])
           else Failure(Api(InternalError, CountMessage(|reply.dbSnapshots|, snapshotId), reply.err))
  {
    if reply.err.Some? && reply.err.value.Provider? && reply.err.value.code != DBSnapshotNotFoundCode then
      Failure(Api(NotFound, InstanceNotFoundMessage(snapshotId), reply.err))
    else if |reply.dbSnapshots| != 1 then
      Failure(Api(InternalError, CountMessage(|reply.dbSnapshots|, snapshotId), reply.err))
    else Success(reply.dbSnapshots[0])
  }

  /**
   * The instance lookup as evidently intended, mirroring the cluster lookup: "snapshot not found" is
   * NotFound, every other failure is returned unchanged.
   */
  function DescribeDBSnapshotIntended(snapshotId: string, reply: Reply): (r: Result<DbSnapshot, Error>)
    ensures r.Success? <==> reply.err.None? && |reply.dbSnapshots| == 1
    ensures reply.err.Some? && IsProviderCode(reply.err.value, DBSnapshotNotFoundCode) ==>
      r == Failure(Api(NotFound, InstanceNotFoundMessage(snapshotId), reply.err))
    ensures reply.err.Some? && !IsProviderCode(reply.err.value, DBSnapshotNotFoundCode) ==>
      r == Failure(reply.err.value)
  {
    match reply.err
    case Some(e) =>
      if IsProviderCode(e, DBSnapshotNotFoundCode)
      then Failure(Api(NotFound, InstanceNotFoundMessage(snapshotId), Some(e)))
      else Failure(e)
    case None =>
      if |reply.dbSnapshots| != 1
      then Failure(Api(InternalError, CountMessage(|reply.dbSnapshots|, snapshotId), None))
      else Success(reply.dbSnapshots[0])
  }

  /**
   * The inverted comparison: a snapshot the provider reports as not found is answered with an internal
   * error (not NotFound), and a throttling error is answered with NotFound. The intended lookup
   * reports the first as NotFound and passes the second through.
   */
  lemma InstanceLookupInverted(snapshotId: string, text: string)
    ensures var missing := Failed(Provider(DBSnapshotNotFoundCode, text));
      DescribeDBSnaphot(snapshotId, missing).error.apiCode == InternalError &&
      DescribeDBSnapshotIntended(snapshotId, missing).error.apiCode == NotFound
    ensures var throttled := Failed(Provider("Throttling", text));
      DescribeDBSnaphot(snapshotId, throttled).error.apiCode == NotFound &&
      DescribeDBSnapshotIntended(snapshotId, throttled).error == Provider("Throttling", text)
  {
  }

  /** The engine and engine version of a snapshot, nil read as "". */
  datatype SnapshotInfo = SnapshotInfo(engine: string, engineVersion: string)

  /**
   * `GetSnapshotInfo` given the provider's replies to the two lookups: the cluster snapshot when that
   * lookup succeeds, otherwise the instance snapshot, otherwise the instance lookup's error.
   */
  function GetSnapshotInfo(snapshotId: string, clusterReply: Reply, instanceReply: Reply): (r: Result<SnapshotInfo, Error>)
    ensures var c := DescribeDBClusterSnaphot(snapshotId, clusterReply);
      c.Success? ==> r == Success(SnapshotInfo(StringValue(c.value.engine), StringValue(c.value.engineVersion)))
    ensures var c := DescribeDBClusterSnaphot(snapshotId, clusterReply);
      var i := DescribeDBSnaphot(snapshotId, instanceReply);
      c.Failure? ==>
        r == if i.Success? then Success(SnapshotInfo(StringValue(i.value.engine), StringValue(i.value.engineVersion)))
             else Failure(i.error)
  {
    match DescribeDBClusterSnaphot(snapshotId, clusterReply)
    case Success(cs) => Success(SnapshotInfo(StringValue(cs.engine), StringValue(cs.engineVersion)))
    case Failure(_) =>
      match DescribeDBSnaphot(snapshotId, instanceReply)
      case Success(s) => Success(SnapshotInfo(StringValue(s.engine), StringValue(s.engineVersion)))
      case Failure(e) => Failure(e)
  }

  /**
   * Against the provider: a cluster snapshot the lookup returns is one the provider holds under the
   * requested identifier.
   */
  lemma ClusterLookupAgainstProvider(rds: Rds, snapshotId: string)
    ensures var r := DescribeDBClusterSnaphot(snapshotId, rds.Answer(ClusterSnapshotRequest(snapshotId)));
      r.Success? ==> r.value in rds.clusterSnapshots && r.value.id == snapshotId
  {
    var reply := rds.Answer(ClusterSnapshotRequest(snapshotId));
    if reply.err.None? && |reply.clusterSnapshots| == 1 {
      assert reply.clusterSnapshots[0] in reply.clusterSnapshots;
    }
  }
  /**
   * Against the provider: the engine and version reported are those of a snapshot the provider holds
   * under the requested identifier, a cluster snapshot whenever the cluster lookup finds one.
   */
  lemma GetSnapshotInfoAgainstProvider(rds: Rds, snapshotId: string)
    ensures var r := GetSnapshotInfo(snapshotId, rds.Answer(ClusterSnapshotRequest(snapshotId)), rds.Answer(DbSnapshotRequest(snapshotId)));
      r.Success? ==>
        (exists s :: s in rds.clusterSnapshots && s.id == snapshotId &&
           r.value == SnapshotInfo(StringValue(s.engine), StringValue(s.engineVersion))) ||
        (exists s :: s in rds.dbSnapshots && s.id == snapshotId &&
           r.value == SnapshotInfo(StringValue(s.engine), StringValue(s.engineVersion)))
    ensures var c := DescribeDBClusterSnaphot(snapshotId, rds.Answer(ClusterSnapshotRequest(snapshotId)));
      var r := GetSnapshotInfo(snapshotId, rds.Answer(ClusterSnapshotRequest(snapshotId)), rds.Answer(DbSnapshotRequest(snapshotId)));
      c.Success? ==>
        r.Success? && c.value in rds.clusterSnapshots &&
        r.value == SnapshotInfo(StringValue(c.value.engine), StringValue(c.value.engineVersion))
  {
    ClusterLookupAgainstProvider(rds, snapshotId);
    var reply := rds.Answer(DbSnapshotRequest(snapshotId));
    if reply.err.None? && |reply.dbSnapshots| == 1 {
      assert reply.dbSnapshots[0] in reply.dbSnapshots;
    }
  }
}
