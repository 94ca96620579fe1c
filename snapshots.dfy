/**
 * The snapshot handlers of actions/snapshots.go. Every handler first builds an inline policy and
 * assumes a role in the target account; then it creates, lists, reads or deletes snapshots, trying
 * the cluster snapshot first and the instance snapshot only when there is no cluster snapshot.
 *
 * The snapshot create and delete operations of the orchestrator are not part of this model: each is
 * an oracle giving the snapshot (possibly nil) or an error, and the handlers record the operations
 * they invoke. Policy generation and role assumption are given by their outcome (`Access`).
 */
module Snapshots {
  import opened Wrappers
  import opened ErrorValues
  import opened Provider
  import opened App
  import RdsSnapshots

  /** An invocation of a snapshot operation of the orchestrator. */
  datatype SnapshotOp =
    | CreateClusterSnapshot(db: string, snapshotId: string)
    | CreateDbSnapshot(db: string, snapshotId: string)
    | DeleteClusterSnapshot(deleteId: string)
    | DeleteDbSnapshot(deleteId: string)

  /** What the handler's preamble met: a policy-generation error, and a role-assumption error. */
  datatype Access = Access(policyErr: Option<Error>, roleErr: Option<Error>)

  /** A handler's provider calls, the snapshot operations it invoked, in order, and its answer. */
  datatype SnapshotRun<B> = SnapshotRun(calls: seq<Call>, ops: seq<SnapshotOp>, outcome: Outcome<B>)

  datatype SnapshotPair = SnapshotPair(cluster: Option<ClusterSnapshot>, instance: Option<DbSnapshot>)
  datatype SnapshotListing = SnapshotListing(items: nat, clusters: seq<ClusterSnapshot>, instances: seq<DbSnapshot>)
  datatype DeletedSnapshots = DeletedSnapshots(clusters: seq<Option<ClusterSnapshot>>, instances: seq<Option<DbSnapshot>>)

  function AssumeRoleMessage(accountId: string): string {
    "failed to assume role in account: " + accountId
  }

  /** The common preamble: a policy error is handled as it is, a role error as Forbidden; None lets the handler go on. */
  function Preamble<B>(accountId: string, access: Access): (r: Option<Outcome<B>>)
    ensures r.None? <==> access.policyErr.None? && access.roleErr.None?
    ensures access.policyErr.Some? ==> r == Some(HandleError(access.policyErr.value))
  {
    if access.policyErr.Some? then Some(HandleError(access.policyErr.value))
    else if access.roleErr.Some? then Some(HandleError(Api(Forbidden, AssumeRoleMessage(accountId), access.roleErr)))
    else None
  }

  /** A failed role assumption is answered 403 with "failed to assume role in account: <id>", the STS error as cause. */
  lemma AssumeRoleFailureIsForbidden<B>(accountId: string, e: Error)
    ensures Preamble<B>(accountId, Access(None, Some(e))) ==
      Some(HttpError(403, Api(Forbidden, "failed to assume role in account: " + accountId, Some(e))))
  {
  }

  /** `isNotFoundError`: the error itself (not its cause) is an API error with code NotFound. */
  predicate IsNotFoundError(err: Error) {
    err.Api? && err.apiCode == NotFound
  }

  /** `isNotFoundError` does not unwrap: a wrapped NotFound error is not one. */
  lemma NotFoundIsNotUnwrapped(context: string, message: string)
    ensures IsNotFoundError(Api(NotFound, message, None))
    ensures !IsNotFoundError(Wrapped(context, Api(NotFound, message, None)))
    ensures Cause(Wrapped(context, Api(NotFound, message, None))) == Api(NotFound, message, None)
  {
  }

  // ---------------------------------------------------------------- create and delete

  const MissingIdentifierMessage: string := "Bad request: specify SnapshotIdentifier in request"

  /**
   * `SnapshotsPost` for the database `db`, given the outcomes of the cluster and instance snapshot
   * creates: the instance snapshot is attempted only when the cluster create gave no snapshot.
   */
  function PostSteps(snapshotIdentifier: string, db: string, accountId: string, access: Access,
                     clusterCreate: Result<Option<ClusterSnapshot>, Error>, instanceCreate: Result<Option<DbSnapshot>, Error>)
    : (r: SnapshotRun<SnapshotPair>)
    ensures r.calls == [] && r.ops <= [CreateClusterSnapshot(db, snapshotIdentifier), CreateDbSnapshot(db, snapshotIdentifier)]
    ensures snapshotIdentifier == "" ==> r.ops == [] && r.outcome == HttpError(400, Plain(MissingIdentifierMessage))
    ensures r.outcome.Render? ==> r.outcome.status == 200 && (r.outcome.body.cluster.Some? != r.outcome.body.instance.Some?)
    ensures Preamble<SnapshotPair>(accountId, access).None? && r.outcome.HttpError? && r.outcome.status == 404 ==>
      r.outcome.err == Plain("Database not found") && |r.ops| == 2
  {
    if snapshotIdentifier == "" then SnapshotRun([], [], HttpError(400, Plain(MissingIdentifierMessage)))
    else if Preamble<SnapshotPair>(accountId, access).Some? then SnapshotRun([], [], Preamble(accountId, access).value)
    else
      var first := [CreateClusterSnapshot(db, snapshotIdentifier)];
      if clusterCreate.Failure? then SnapshotRun([], first, Returned(clusterCreate.error))
      else if clusterCreate.value.Some? then SnapshotRun([], first, Render(200, SnapshotPair(clusterCreate.value, None)))
      else
        var both := first + [CreateDbSnapshot(db, snapshotIdentifier)];
        if instanceCreate.Failure? then SnapshotRun([], both, Returned(instanceCreate.error))
        else if instanceCreate.value.None? then SnapshotRun([], both, HttpError(404, Plain("Database not found")))
        else SnapshotRun([], both, Render(200, SnapshotPair(None, instanceCreate.value)))
  }

  /**
   * Create: an empty identifier is 400 whatever the role assumption would do, and nothing is
   * created; otherwise the cluster snapshot comes first, the instance snapshot is tried exactly when
   * the cluster create gave no snapshot, and 404 exactly when neither gave one.
   */
  lemma PostClusterFirst(snapshotIdentifier: string, db: string, accountId: string, access: Access, other: Access,
                         clusterCreate: Result<Option<ClusterSnapshot>, Error>, instanceCreate: Result<Option<DbSnapshot>, Error>)
    ensures snapshotIdentifier == "" ==>
      PostSteps(snapshotIdentifier, db, accountId, access, clusterCreate, instanceCreate) ==
      PostSteps(snapshotIdentifier, db, accountId, other, clusterCreate, instanceCreate) &&
      PostSteps(snapshotIdentifier, db, accountId, access, clusterCreate, instanceCreate).ops == [] &&
      PostSteps(snapshotIdentifier, db, accountId, access, clusterCreate, instanceCreate).outcome.status == 400
    ensures var run := PostSteps(snapshotIdentifier, db, accountId, access, clusterCreate, instanceCreate);
      snapshotIdentifier != "" && access == Access(None, None) ==>
        run.ops[0] == CreateClusterSnapshot(db, snapshotIdentifier) &&
        (CreateDbSnapshot(db, snapshotIdentifier) in run.ops <==> clusterCreate == Success(None)) &&
        (run.outcome.HttpError? && run.outcome.status == 404 <==>
          clusterCreate == Success(None) && instanceCreate == Success(None))
  {
  }

  /** `SnapshotsDelete` of the snapshot `snap`: the same shape, with the delete operations. */
  function DeleteSteps(snap: string, accountId: string, access: Access,
                       clusterDelete: Result<Option<ClusterSnapshot>, Error>, instanceDelete: Result<Option<DbSnapshot>, Error>)
    : (r: SnapshotRun<SnapshotPair>)
    ensures r.calls == [] && r.ops <= [DeleteClusterSnapshot(snap), DeleteDbSnapshot(snap)]
    ensures r.outcome.Render? ==> r.outcome.status == 200 && (r.outcome.body.cluster.Some? != r.outcome.body.instance.Some?)
    ensures Preamble<SnapshotPair>(accountId, access).None? && r.outcome.HttpError? && r.outcome.status == 404 ==>
      r.outcome.err == Plain("Snapshot not found") && |r.ops| == 2
  {
    if Preamble<SnapshotPair>(accountId, access).Some? then SnapshotRun([], [], Preamble(accountId, access).value)
    else
      var first := [DeleteClusterSnapshot(snap)];
      if clusterDelete.Failure? then SnapshotRun([], first, Returned(clusterDelete.error))
      else if clusterDelete.value.Some? then SnapshotRun([], first, Render(200, SnapshotPair(clusterDelete.value, None)))
      else
        var both := first + [DeleteDbSnapshot(snap)];
        if instanceDelete.Failure? then SnapshotRun([], both, Returned(instanceDelete.error))
        else if instanceDelete.value.None? then SnapshotRun([], both, HttpError(404, Plain("Snapshot not found")))
        else SnapshotRun([], both, Render(200, SnapshotPair(None, instanceDelete.value)))
  }

  /** Delete: cluster snapshot first, the instance snapshot exactly when there was no cluster snapshot, 404 when neither. */
  lemma DeleteClusterFirst(snap: string, accountId: string,
                           clusterDelete: Result<Option<ClusterSnapshot>, Error>, instanceDelete: Result<Option<DbSnapshot>, Error>)
    ensures var run := DeleteSteps(snap, accountId, Access(None, None), clusterDelete, instanceDelete);
      run.ops[0] == DeleteClusterSnapshot(snap) &&
      (DeleteDbSnapshot(snap) in run.ops <==> clusterDelete == Success(None)) &&
      (run.outcome.HttpError? && run.outcome.status == 404 <==>
        clusterDelete == Success(None) && instanceDelete == Success(None)) &&
      (clusterDelete.Failure? ==> run.outcome == Returned(clusterDelete.error))
  {
  }

  // ---------------------------------------------------------------- list and get

  /**
   * `SnapshotsList` of the database `db`: cluster snapshots, then instance snapshots; `X-Items` is
   * the number of cluster snapshots when there are any, otherwise the number of instance snapshots.
   */
  function ListSteps(db: string, accountId: string, access: Access, rds: Rds): (r: SnapshotRun<SnapshotListing>)
    ensures r.ops == [] && r.calls <= [DescribeDBClusterSnapshots(None, Some(db)), DescribeDBSnapshots(None, Some(db))]
    ensures r.outcome.Render? ==>
      r.calls == [DescribeDBClusterSnapshots(None, Some(db)), DescribeDBSnapshots(None, Some(db))] &&
      r.outcome.status == 200 &&
      (r.outcome.body.items == |r.outcome.body.clusters| || r.outcome.body.items == |r.outcome.body.instances|)
    ensures Preamble<SnapshotListing>(accountId, access).None? && !r.outcome.Render? ==>
      exists c :: c in r.calls && rds.fault(c).Some? && r.outcome == HandleError(rds.fault(c).value)
  {
    var dc := DescribeDBClusterSnapshots(None, Some(db));
    var di := DescribeDBSnapshots(None, Some(db));
    if Preamble<SnapshotListing>(accountId, access).Some? then SnapshotRun([], [], Preamble(accountId, access).value)
    else if rds.Answer(dc).err.Some? then SnapshotRun([dc], [], HandleError(rds.Answer(dc).err.value))
    else if rds.Answer(di).err.Some? then SnapshotRun([dc, di], [], HandleError(rds.Answer(di).err.value))
    else
      var clusters := rds.Answer(dc).clusterSnapshots;
      var instances := rds.Answer(di).dbSnapshots;
      SnapshotRun([dc, di], [], Render(200, SnapshotListing(if clusters != [] then |clusters| else |instances|, clusters, instances)))
  }

  /**
   * The item count: a successful list counts the cluster snapshots of `db` when it has any and the
   * instance snapshots otherwise; every listed snapshot belongs to `db`; a failed cluster describe
   * stops before the instance describe.
   */
  lemma ListItemsHeader(db: string, accountId: string, rds: Rds)
    ensures var run := ListSteps(db, accountId, Access(None, None), rds);
      run.outcome.Render? ==>
        var body := run.outcome.body;
        (body.clusters != [] ==> body.items == |body.clusters|) &&
        (body.clusters == [] ==> body.items == |body.instances|) &&
        (forall s :: s in body.clusters ==> s in rds.clusterSnapshots && s.clusterId == db) &&
        (forall s :: s in body.instances ==> s in rds.dbSnapshots && s.instanceId == db)
    ensures var run := ListSteps(db, accountId, Access(None, None), rds);
      rds.fault(DescribeDBClusterSnapshots(None, Some(db))).Some? ==> run.calls == [DescribeDBClusterSnapshots(None, Some(db))]
  {
  }

  /**
   * `SnapshotsGet` of the snapshot `snapshotId`, given the two lookups' results: a NotFound API
   * error from either is tolerated, any other error is handled; 404 when neither found a snapshot.
   */
  function GetSteps(snapshotId: string, accountId: string, access: Access,
                    clusterLookup: Result<ClusterSnapshot, Error>, instanceLookup: Result<DbSnapshot, Error>)
    : (r: SnapshotRun<SnapshotPair>)
    ensures r.ops == [] && r.calls <= [RdsSnapshots.ClusterSnapshotRequest(snapshotId), RdsSnapshots.DbSnapshotRequest(snapshotId)]
    ensures r.outcome.Render? ==>
      r.outcome.status == 200 && (r.outcome.body.cluster.Some? || r.outcome.body.instance.Some?) &&
      (r.outcome.body.cluster.Some? <==> clusterLookup.Success?) && (r.outcome.body.instance.Some? <==> instanceLookup.Success?)
    ensures r.outcome.HttpError? && r.outcome.status == 404 && r.outcome.err == Plain("snapshot not found") ==>
      clusterLookup.Failure? && instanceLookup.Failure?
  {
    var dc := RdsSnapshots.ClusterSnapshotRequest(snapshotId);
    var di := RdsSnapshots.DbSnapshotRequest(snapshotId);
    if Preamble<SnapshotPair>(accountId, access).Some? then SnapshotRun([], [], Preamble(accountId, access).value)
    else if clusterLookup.Failure? && !IsNotFoundError(clusterLookup.error) then SnapshotRun([dc], [], HandleError(clusterLookup.error))
    else if instanceLookup.Failure? && !IsNotFoundError(instanceLookup.error) then SnapshotRun([dc, di], [], HandleError(instanceLookup.error))
    else if clusterLookup.Failure? && instanceLookup.Failure? then SnapshotRun([dc, di], [], HttpError(404, Plain("snapshot not found")))
    else SnapshotRun([dc, di], [], Render(200, SnapshotPair(
      if clusterLookup.Success? then Some(clusterLookup.value) else None,
      if instanceLookup.Success? then Some(instanceLookup.value) else None)))
  }

  /** `SnapshotsGet` against the provider, with the lookups of pkg/rds/snapshots.go as written. */
  function GetAgainst(snapshotId: string, accountId: string, access: Access, rds: Rds): SnapshotRun<SnapshotPair> {
    GetSteps(snapshotId, accountId, access,
      RdsSnapshots.DescribeDBClusterSnaphot(snapshotId, rds.Answer(RdsSnapshots.ClusterSnapshotRequest(snapshotId))),
      RdsSnapshots.DescribeDBSnaphot(snapshotId, rds.Answer(RdsSnapshots.DbSnapshotRequest(snapshotId))))
  }

  /** The same with the instance lookup as intended. */
  function GetAgainstIntended(snapshotId: string, accountId: string, access: Access, rds: Rds): SnapshotRun<SnapshotPair> {
    GetSteps(snapshotId, accountId, access,
      RdsSnapshots.DescribeDBClusterSnaphot(snapshotId, rds.Answer(RdsSnapshots.ClusterSnapshotRequest(snapshotId))),
      RdsSnapshots.DescribeDBSnapshotIntended(snapshotId, rds.Answer(RdsSnapshots.DbSnapshotRequest(snapshotId))))
  }

  /**
   * Get: a snapshot found by either lookup is answered 200 unless the other lookup failed with
   * anything but NotFound; 404 exactly when both lookups failed with NotFound.
   */
  lemma GetToleratesNotFound(snapshotId: string, accountId: string,
                             clusterLookup: Result<ClusterSnapshot, Error>, instanceLookup: Result<DbSnapshot, Error>)
    ensures var run := GetSteps(snapshotId, accountId, Access(None, None), clusterLookup, instanceLookup);
      (run.outcome == HttpError(404, Plain("snapshot not found")) <==>
        clusterLookup.Failure? && IsNotFoundError(clusterLookup.error) &&
        instanceLookup.Failure? && IsNotFoundError(instanceLookup.error)) &&
      (run.outcome.Render? <==>
        (clusterLookup.Success? || instanceLookup.Success?) &&
        (clusterLookup.Success? || IsNotFoundError(clusterLookup.error)) &&
        (instanceLookup.Success? || IsNotFoundError(instanceLookup.error)))
  {
  }

  /**
   * A consequence of the inverted comparison in the instance lookup: for a cluster snapshot that
   * exists, when the provider answers the instance describe with "snapshot not found", the handler
   * as written answers 500, where the intended lookup gives 200 with the cluster snapshot.
   */
  lemma ClusterSnapshotGetFails(snapshotId: string, accountId: string, rds: Rds, text: string)
    requires rds.fault(RdsSnapshots.ClusterSnapshotRequest(snapshotId)).None?
    requires |rds.Answer(RdsSnapshots.ClusterSnapshotRequest(snapshotId)).clusterSnapshots| == 1
    requires rds.fault(RdsSnapshots.DbSnapshotRequest(snapshotId)) == Some(Provider(DBSnapshotNotFoundCode, text))
    ensures GetAgainst(snapshotId, accountId, Access(None, None), rds).outcome.HttpError?
    ensures GetAgainst(snapshotId, accountId, Access(None, None), rds).outcome.status == 500
    ensures GetAgainstIntended(snapshotId, accountId, Access(None, None), rds).outcome.Render?
  {
  }

  // ---------------------------------------------------------------- delete non-production snapshots

  /** `strings.Contains`. */
  function Contains(s: string, sub: string): (b: bool)
    ensures |sub| <= |s| && s[..|sub|] == sub ==> b
    ensures b ==> |sub| <= |s|
    decreases |s|
  {
    (|sub| <= |s| && s[..|sub|] == sub) || (|s| > 0 && Contains(s[1..], sub))
  }

  /** A snapshot whose identifier contains "final-spin" is a production snapshot and is kept. */
  predicate Retained(id: string) {
    Contains(id, "final-spin")
  }

  /** `sub` occurs in `s` at position `i`. */
  predicate OccursAt(s: string, sub: string, i: int) {
    0 <= i <= |s| - |sub| && s[i..i + |sub|] == sub
  }

  /** `Contains` finds `sub` exactly when it occurs at some position of `s`. */
  lemma {:induction false} ContainsOccurrence(s: string, sub: string)
    ensures Contains(s, sub) <==> exists i :: OccursAt(s, sub, i)
    decreases |s|
  {
    if s == [] {
      if sub == [] {
        assert OccursAt(s, sub, 0);
      }
    } else {
      ContainsOccurrence(s[1..], sub);
      if Contains(s, sub) {
        if |sub| <= |s| && s[..|sub|] == sub {
          assert OccursAt(s, sub, 0);
        } else {
          var i :| OccursAt(s[1..], sub, i);
          assert s[i + 1..i + 1 + |sub|] == s[1..][i..i + |sub|];
          assert OccursAt(s, sub, i + 1);
        }
      }
      if exists i :: OccursAt(s, sub, i) {
        var i :| OccursAt(s, sub, i);
        if i == 0 {
          assert s[..|sub|] == s[0..|sub|];
        } else {
          assert s[1..][i - 1..i - 1 + |sub|] == s[i..i + |sub|];
          assert OccursAt(s[1..], sub, i - 1);
        }
      }
    }
  }

  /** A snapshot is retained wherever "final-spin" occurs in its identifier. */
  lemma RetainedAnywhere(before: string, after: string)
    ensures Retained(before + "final-spin" + after)
  {
    var s := before + "final-spin" + after;
    ContainsOccurrence(s, "final-spin");
    assert s[|before|..|before| + 10] == "final-spin";
    assert OccursAt(s, "final-spin", |before|);
  }

  /** The identifiers that are not retained, in order. */
  function NonProd(ids: seq<string>): (r: seq<string>)
    ensures |r| <= |ids|
  {
    if ids == [] then []
    else NonProd(ids[..|ids| - 1]) + (if Retained(ids[|ids| - 1]) then [] else [ids[|ids| - 1]])
  }

  /** `NonProd` keeps exactly the identifiers that are not retained. */
  lemma {:induction false} NonProdExactly(ids: seq<string>)
    ensures forall x :: x in NonProd(ids) <==> x in ids && !Retained(x)
  {
    if ids != [] {
      NonProdExactly(ids[..|ids| - 1]);
      assert ids == ids[..|ids| - 1] + [ids[|ids| - 1]];
    }
  }

  /** `NonProd` keeps the order of the listing: filtering a concatenation concatenates the filtered parts. */
  lemma {:induction false} NonProdAppend(a: seq<string>, b: seq<string>)
    ensures NonProd(a + b) == NonProd(a) + NonProd(b)
  {
    if b != [] {
      NonProdAppend(a, b[..|b| - 1]);
      assert (a + b)[..|a + b| - 1] == a + b[..|b| - 1];
    } else {
      assert a + b == a;
    }
  }

  /** What deleting a list of snapshots one by one did: the identifiers tried, the results, and the error that stopped it. */
  datatype SweepResult<T> = SweepResult(attempted: seq<string>, results: seq<T>, err: Option<Error>)

  /** Deleting every non-retained snapshot of `ids` in order with `del`, stopping at the first error. */
  function Sweep<T>(ids: seq<string>, del: string -> Result<T, Error>): SweepResult<T> {
    if ids == [] then SweepResult([], [], None)
    else
      var before := Sweep(ids[..|ids| - 1], del);
      var id := ids[|ids| - 1];
      if before.err.Some? || Retained(id) then before
      else match del(id)
        case Failure(e) => SweepResult(before.attempted + [id], before.results, Some(e))
        case Success(x) => SweepResult(before.attempted + [id], before.results + [x], None)
  }

  /**
   * A sweep tries the non-retained identifiers in order: what it tried is a prefix of `NonProd`,
   * all of it when nothing failed; each result is what the delete gave for its identifier; and an
   * error is the delete error of the last identifier tried.
   */
  lemma {:induction false} SweepFollowsNonProd<T>(ids: seq<string>, del: string -> Result<T, Error>)
    ensures var s := Sweep(ids, del);
      s.attempted <= NonProd(ids) &&
      (s.err.None? ==> s.attempted == NonProd(ids) && |s.results| == |s.attempted|) &&
      (s.err.Some? ==> |s.attempted| > 0 && |s.results| == |s.attempted| - 1 &&
                       del(s.attempted[|s.attempted| - 1]) == Failure(s.err.value)) &&
      (forall i :: 0 <= i < |s.results| ==> i < |s.attempted| && del(s.attempted[i]) == Success(s.results[i]))
  {
    if ids != [] {
      SweepFollowsNonProd(ids[..|ids| - 1], del);
    }
  }

  /** Once a sweep of a prefix has failed, the whole sweep is that failed sweep. */
  lemma {:induction false} SweepKeepsError<T>(ids: seq<string>, i: nat, del: string -> Result<T, Error>)
    requires i <= |ids|
    requires Sweep(ids[..i], del).err.Some?
    ensures Sweep(ids, del) == Sweep(ids[..i], del)
    decreases |ids| - i
  {
    if i < |ids| {
      assert ids[..i + 1][..i] == ids[..i];
      SweepKeepsError(ids, i + 1, del);
    } else {
      assert ids[..i] == ids;
    }
  }

  /** The delete loop over one listing. */
  method DeleteEach<T>(ids: seq<string>, del: string -> Result<T, Error>) returns (s: SweepResult<T>)
    ensures s == Sweep(ids, del)
  {
    s := SweepResult([], [], None);
    for i := 0 to |ids|
      invariant s == Sweep(ids[..i], del) && s.err.None?
    {
      assert ids[..i + 1][..i] == ids[..i];
      var id := ids[i];
      if !Retained(id) {
        var r := del(id);
        if r.Failure? {
          s := SweepResult(s.attempted + [id], s.results, Some(r.error));
          SweepKeepsError(ids, i + 1, del);
          return;
        }
        s := SweepResult(s.attempted + [id], s.results + [r.value], None);
      }
    }
    assert ids[..|ids|] == ids;
  }

  function ClusterSnapshotIds(snapshots: seq<ClusterSnapshot>): (ids: seq<string>)
    ensures |ids| == |snapshots| && forall i :: 0 <= i < |snapshots| ==> ids[i] == snapshots[i].id
  {
    seq(|snapshots|, i requires 0 <= i < |snapshots| => snapshots[i].id)
  }

  function DbSnapshotIds(snapshots: seq<DbSnapshot>): (ids: seq<string>)
    ensures |ids| == |snapshots| && forall i :: 0 <= i < |snapshots| ==> ids[i] == snapshots[i].id
  {
    seq(|snapshots|, i requires 0 <= i < |snapshots| => snapshots[i].id)
  }

  function ClusterDeletes(ids: seq<string>): (ops: seq<SnapshotOp>)
    ensures |ops| == |ids| && forall i :: 0 <= i < |ids| ==> ops[i] == DeleteClusterSnapshot(ids[i])
  {
    seq(|ids|, i requires 0 <= i < |ids| => DeleteClusterSnapshot(ids[i]))
  }

  function DbDeletes(ids: seq<string>): (ops: seq<SnapshotOp>)
    ensures |ops| == |ids| && forall i :: 0 <= i < |ids| ==> ops[i] == DeleteDbSnapshot(ids[i])
  {
    seq(|ids|, i requires 0 <= i < |ids| => DeleteDbSnapshot(ids[i]))
  }

  const ListAllClusterSnapshots: Call := DescribeDBClusterSnapshots(None, None)
  const ListAllDbSnapshots: Call := DescribeDBSnapshots(None, None)

  /**
   * The delete phase of `SnapshotsDeleteNonProd`, given the listed identifiers: delete the cluster
   * snapshots that are not retained, then the instance snapshots, stopping at the first error;
   * "Snapshot not found" when nothing was deleted.
   */
  function SweepPhase(clusterIds: seq<string>, dbIds: seq<string>,
                      deleteCluster: string -> Result<Option<ClusterSnapshot>, Error>,
                      deleteInstance: string -> Result<Option<DbSnapshot>, Error>)
    : SnapshotRun<DeletedSnapshots>
  {
    var sc := Sweep(clusterIds, deleteCluster);
    if sc.err.Some? then SnapshotRun([], ClusterDeletes(sc.attempted), Returned(sc.err.value))
    else
      var si := Sweep(dbIds, deleteInstance);
      var ops := ClusterDeletes(sc.attempted) + DbDeletes(si.attempted);
      if si.err.Some? then SnapshotRun([], ops, Returned(si.err.value))
      else if sc.results == [] && si.results == [] then SnapshotRun([], ops, SnapshotNotFound)
      else SnapshotRun([], ops, Render(200, DeletedSnapshots(sc.results, si.results)))
  }

  /** `SnapshotsDeleteNonProd`: the preamble, the two unfiltered listings, then the delete phase. */
  function DeleteNonProdSteps(accountId: string, access: Access, rds: Rds,
                              deleteCluster: string -> Result<Option<ClusterSnapshot>, Error>,
                              deleteInstance: string -> Result<Option<DbSnapshot>, Error>)
    : SnapshotRun<DeletedSnapshots>
  {
    var cs := rds.Answer(ListAllClusterSnapshots);
    var ds := rds.Answer(ListAllDbSnapshots);
    if Preamble<DeletedSnapshots>(accountId, access).Some? then SnapshotRun([], [], Preamble(accountId, access).value)
    else if cs.err.Some? then SnapshotRun([ListAllClusterSnapshots], [], HandleError(cs.err.value))
    else if ds.err.Some? then SnapshotRun([ListAllClusterSnapshots, ListAllDbSnapshots], [], HandleError(ds.err.value))
    else
      var phase := SweepPhase(ClusterSnapshotIds(cs.clusterSnapshots), DbSnapshotIds(ds.dbSnapshots), deleteCluster, deleteInstance);
      SnapshotRun([ListAllClusterSnapshots, ListAllDbSnapshots], phase.ops, phase.outcome)
  }

  const SnapshotNotFound: Outcome<DeletedSnapshots> := HttpError(404, Plain("Snapshot not found"))

  /**
   * The listings come first: a failed listing is handled before any delete, and otherwise every
   * snapshot the provider holds is considered, whatever its cluster or instance.
   */
  lemma DeleteNonProdListsFirst(accountId: string, rds: Rds,
                                deleteCluster: string -> Result<Option<ClusterSnapshot>, Error>,
                                deleteInstance: string -> Result<Option<DbSnapshot>, Error>)
    ensures var run := DeleteNonProdSteps(accountId, Access(None, None), rds, deleteCluster, deleteInstance);
      var cs := rds.Answer(ListAllClusterSnapshots);
      var ds := rds.Answer(ListAllDbSnapshots);
      (cs.err.Some? ==> run.ops == [] && run.outcome == HandleError(cs.err.value)) &&
      (cs.err.None? && ds.err.Some? ==> run.ops == [] && run.outcome == HandleError(ds.err.value)) &&
      (cs.err.None? ==> forall s :: s in cs.clusterSnapshots <==> s in rds.clusterSnapshots) &&
      (ds.err.None? ==> forall s :: s in ds.dbSnapshots <==> s in rds.dbSnapshots)
  {
  }

  /**
   * The retention rule: a delete phase without a failed delete deletes exactly the snapshots whose
   * identifiers do not contain "final-spin", cluster snapshots first, each listing in order; it
   * answers "Snapshot not found" exactly when there was nothing to delete.
   */
  lemma DeleteNonProdDeletesExactly(clusterIds: seq<string>, dbIds: seq<string>,
                                    deleteCluster: string -> Result<Option<ClusterSnapshot>, Error>,
                                    deleteInstance: string -> Result<Option<DbSnapshot>, Error>)
    ensures var run := SweepPhase(clusterIds, dbIds, deleteCluster, deleteInstance);
      (run.outcome.Render? || run.outcome == SnapshotNotFound ==>
        run.ops == ClusterDeletes(NonProd(clusterIds)) + DbDeletes(NonProd(dbIds))) &&
      (run.outcome == SnapshotNotFound <==> NonProd(clusterIds) == [] && NonProd(dbIds) == [])
  {
    SweepFollowsNonProd(clusterIds, deleteCluster);
    SweepFollowsNonProd(dbIds, deleteInstance);
  }

  /** A failed cluster sweep: its delete operations start the full sweep's and end with the failed one. */
  lemma ClusterSweepStops(ids: seq<string>, del: string -> Result<Option<ClusterSnapshot>, Error>)
    requires Sweep(ids, del).err.Some?
    ensures var s := Sweep(ids, del);
      var ops := ClusterDeletes(s.attempted);
      |ops| > 0 && ops <= ClusterDeletes(NonProd(ids)) &&
      ops[|ops| - 1].DeleteClusterSnapshot? && del(ops[|ops| - 1].deleteId) == Failure(s.err.value)
  {
    SweepFollowsNonProd(ids, del);
    var s := Sweep(ids, del);
    assert forall i :: 0 <= i < |s.attempted| ==> s.attempted[i] == NonProd(ids)[i];
  }

  /** A failed instance sweep, likewise. */
  lemma DbSweepStops(ids: seq<string>, del: string -> Result<Option<DbSnapshot>, Error>)
    requires Sweep(ids, del).err.Some?
    ensures var s := Sweep(ids, del);
      var ops := DbDeletes(s.attempted);
      |ops| > 0 && ops <= DbDeletes(NonProd(ids)) &&
      ops[|ops| - 1].DeleteDbSnapshot? && del(ops[|ops| - 1].deleteId) == Failure(s.err.value)
  {
    SweepFollowsNonProd(ids, del);
    var s := Sweep(ids, del);
    assert forall i :: 0 <= i < |s.attempted| ==> s.attempted[i] == NonProd(ids)[i];
  }

  /**
   * A failed delete stops the phase: the answer is that error, the failed delete is the last
   * operation, and the operations so far are the start of the full retention sweep.
   */
  lemma DeleteNonProdStopsAtError(clusterIds: seq<string>, dbIds: seq<string>,
                                  deleteCluster: string -> Result<Option<ClusterSnapshot>, Error>,
                                  deleteInstance: string -> Result<Option<DbSnapshot>, Error>)
    ensures var run := SweepPhase(clusterIds, dbIds, deleteCluster, deleteInstance);
      run.outcome.Returned? ==>
        |run.ops| > 0 &&
        run.ops <= ClusterDeletes(NonProd(clusterIds)) + DbDeletes(NonProd(dbIds)) &&
        var op := run.ops[|run.ops| - 1];
        (op.DeleteClusterSnapshot? && deleteCluster(op.deleteId) == Failure(run.outcome.err)) ||
        (op.DeleteDbSnapshot? && deleteInstance(op.deleteId) == Failure(run.outcome.err))
  {
    var sc := Sweep(clusterIds, deleteCluster);
    var si := Sweep(dbIds, deleteInstance);
    var head := ClusterDeletes(NonProd(clusterIds));
    if sc.err.Some? {
      ClusterSweepStops(clusterIds, deleteCluster);
      PrefixOfConcat(ClusterDeletes(sc.attempted), head, DbDeletes(NonProd(dbIds)));
    } else if si.err.Some? {
      SweepFollowsNonProd(clusterIds, deleteCluster);
      DbSweepStops(dbIds, deleteInstance);
      var tail := DbDeletes(si.attempted);
      SameHeadPrefix(head, tail, DbDeletes(NonProd(dbIds)));
      assert (head + tail)[|head + tail| - 1] == tail[|tail| - 1];
    }
  }

  lemma PrefixOfConcat<T>(a: seq<T>, b: seq<T>, c: seq<T>)
    requires a <= b
    ensures a <= b + c
  {
    assert (b + c)[..|a|] == b[..|a|];
  }

  lemma SameHeadPrefix<T>(h: seq<T>, a: seq<T>, b: seq<T>)
    requires a <= b
    ensures h + a <= h + b
  {
    assert (h + b)[..|h + a|] == h + b[..|a|];
  }

  /** A sweep never tries a retained identifier. */
  lemma SweepSparesRetained<T>(ids: seq<string>, del: string -> Result<T, Error>)
    ensures forall x :: x in Sweep(ids, del).attempted ==> !Retained(x)
  {
    var s := Sweep(ids, del);
    SweepFollowsNonProd(ids, del);
    NonProdExactly(ids);
    forall x | x in s.attempted
      ensures !Retained(x)
    {
      var k :| 0 <= k < |s.attempted| && s.attempted[k] == x;
      assert NonProd(ids)[k] == x;
    }
  }

  lemma DeletesSpareRetained(ids: seq<string>)
    requires forall x :: x in ids ==> !Retained(x)
    ensures forall op :: op in ClusterDeletes(ids) ==> !Retained(op.deleteId)
    ensures forall op :: op in DbDeletes(ids) ==> !Retained(op.deleteId)
  {
    forall op | op in ClusterDeletes(ids)
      ensures !Retained(op.deleteId)
    {
      var k :| 0 <= k < |ids| && ClusterDeletes(ids)[k] == op;
      assert ids[k] in ids;
    }
    forall op | op in DbDeletes(ids)
      ensures !Retained(op.deleteId)
    {
      var k :| 0 <= k < |ids| && DbDeletes(ids)[k] == op;
      assert ids[k] in ids;
    }
  }

  /** No run ever deletes a snapshot whose identifier contains "final-spin", even one a failed delete cut short. */
  lemma DeleteNonProdSparesFinal(clusterIds: seq<string>, dbIds: seq<string>,
                                 deleteCluster: string -> Result<Option<ClusterSnapshot>, Error>,
                                 deleteInstance: string -> Result<Option<DbSnapshot>, Error>)
    ensures forall op :: op in SweepPhase(clusterIds, dbIds, deleteCluster, deleteInstance).ops ==> !Retained(op.deleteId)
  {
    var sc := Sweep(clusterIds, deleteCluster);
    var si := Sweep(dbIds, deleteInstance);
    SweepSparesRetained(clusterIds, deleteCluster);
    SweepSparesRetained(dbIds, deleteInstance);
    DeletesSpareRetained(sc.attempted);
    DeletesSpareRetained(si.attempted);
    var ops := SweepPhase(clusterIds, dbIds, deleteCluster, deleteInstance).ops;
    assert ops == ClusterDeletes(sc.attempted) || ops == ClusterDeletes(sc.attempted) + DbDeletes(si.attempted);
    forall op | op in ops
      ensures !Retained(op.deleteId)
    {
      assert op in ClusterDeletes(sc.attempted) || op in DbDeletes(si.attempted);
    }
  }

  /** `SnapshotsDeleteNonProd` against the provider and the two delete operations. */
  method SnapshotsDeleteNonProd(accountId: string, access: Access, rds: Rds,
                                deleteCluster: string -> Result<Option<ClusterSnapshot>, Error>,
                                deleteInstance: string -> Result<Option<DbSnapshot>, Error>)
    returns (r: Outcome<DeletedSnapshots>, ops: seq<SnapshotOp>)
    modifies rds
    ensures var run := DeleteNonProdSteps(accountId, access, rds, deleteCluster, deleteInstance);
      r == run.outcome && ops == run.ops && rds.log == old(rds.log) + run.calls
  {
    var preamble := Preamble<DeletedSnapshots>(accountId, access);
    if preamble.Some? {
      return preamble.value, [];
    }
    var clusterSnapshots := rds.Issue(ListAllClusterSnapshots);
    if clusterSnapshots.err.Some? {
      return HandleError(clusterSnapshots.err.value), [];
    }
    var dbSnapshots := rds.Issue(ListAllDbSnapshots);
    if dbSnapshots.err.Some? {
      return HandleError(dbSnapshots.err.value), [];
    }
    var clusters := DeleteEach(ClusterSnapshotIds(clusterSnapshots.clusterSnapshots), deleteCluster);
    ops := ClusterDeletes(clusters.attempted);
    if clusters.err.Some? {
      return Returned(clusters.err.value), ops;
    }
    var instances := DeleteEach(DbSnapshotIds(dbSnapshots.dbSnapshots), deleteInstance);
    ops := ops + DbDeletes(instances.attempted);
    if instances.err.Some? {
      return Returned(instances.err.value), ops;
    }
    if clusters.results == [] && instances.results == [] {
      return SnapshotNotFound, ops;
    }
    return Render(200, DeletedSnapshots(clusters.results, instances.results)), ops;
  }
}
