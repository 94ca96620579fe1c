/**
 * `DetermineArn` of pkg/rds/tags.go: the ARNs of every cluster and every instance the provider lists
 * under a database name; a name could be both a cluster and an instance. The two describe errors are
 * discarded, a nil ARN reads as "", and an empty result is an error.
 */
module RdsTags {
  import opened Wrappers
  import opened ErrorValues
  import opened Provider

  function UnknownDatabase(db: string): Error {
    Plain("Unable to determine ARN for database " + db)
  }

  /** The cluster ARNs in describe order. */
  function ClusterArns(cs: seq<Cluster>): (r: seq<string>)
    ensures |r| == |cs| && forall i :: 0 <= i < |cs| ==> r[i] == StringValue(cs[i].arn)
  {
    seq(|cs|, i requires 0 <= i < |cs| => StringValue(cs[i].arn))
  }

  /** The instance ARNs in describe order. */
  function InstanceArns(ins: seq<Instance>): (r: seq<string>)
    ensures |r| == |ins| && forall i :: 0 <= i < |ins| ==> r[i] == StringValue(ins[i].arn)
  {
    seq(|ins|, i requires 0 <= i < |ins| => StringValue(ins[i].arn))
  }

  /**
   * The ARNs read from the two describe outputs (nil when absent). Both outputs are nil or both are
   * present: one nil output next to a present one makes the source dereference nil.
   */
  method ArnsFromOutputs(db: string, clustersOutput: Option<seq<Cluster>>, instancesOutput: Option<seq<Instance>>)
    returns (r: Result<seq<string>, Error>)
    requires clustersOutput.None? <==> instancesOutput.None?
    ensures clustersOutput.None? ==> r == Failure(UnknownDatabase(db))
    ensures clustersOutput.Some? ==>
      var arns := ClusterArns(clustersOutput.value) + InstanceArns(instancesOutput.value);
      r == if arns == [] then Failure(UnknownDatabase(db)) else Success(arns)
  {
    if clustersOutput.None? && instancesOutput.None? {
      return Failure(UnknownDatabase(db));
    }
    var arns: seq<string> := [];
    var clusters := clustersOutput.value;
    for i := 0 to |clusters|
      invariant arns == ClusterArns(clusters[..i])
    {
      arns := arns + [StringValue(clusters[i].arn)];
    }
    assert clusters[..|clusters|] == clusters;
    var instances := instancesOutput.value;
    for i := 0 to |instances|
      invariant arns == ClusterArns(clusters) + InstanceArns(instances[..i])
    {
      arns := arns + [StringValue(instances[i].arn)];
    }
    assert instances[..|instances|] == instances;
    if |arns| == 0 {
      return Failure(UnknownDatabase(db));
    }
    return Success(arns);
  }

  /** What `DetermineArn(db)` returns, given the provider's two replies (whose outputs are never nil). */
  function ArnsFor(db: string, clusters: Reply, instances: Reply): (r: Result<seq<string>, Error>)
    ensures r.Success? ==> |r.value| == |clusters.clusters| + |instances.instances| > 0
    ensures r.Failure? ==> r.error == UnknownDatabase(db)
  {
    var arns := ClusterArns(clusters.clusters) + InstanceArns(instances.instances);
    if arns == [] then Failure(UnknownDatabase(db)) else Success(arns)
  }

  /** `DetermineArn`: describes clusters, then instances, under the name `db`. */
  method DetermineArn(client: Client, db: string) returns (r: Result<seq<string>, Error>)
    modifies client.service
    ensures client.service.log == old(client.service.log) + [DescribeDBClusters(Some(db)), DescribeDBInstances(Some(db))]
    ensures r == ArnsFor(db, client.service.Answer(DescribeDBClusters(Some(db))),
                         client.service.Answer(DescribeDBInstances(Some(db))))
  {
    var clustersReply := client.service.Issue(DescribeDBClusters(Some(db)));
    var instancesReply := client.service.Issue(DescribeDBInstances(Some(db)));
    r := ArnsFromOutputs(db, Some(clustersReply.clusters), Some(instancesReply.instances));
  }

  /**
   * Against the provider: every ARN found belongs to a cluster or an instance named `db`, and when
   * neither describe fails and something is named `db`, ARNs are found.
   */
  lemma ArnsBelongToDatabase(rds: Rds, db: string)
    ensures var r := ArnsFor(db, rds.Answer(DescribeDBClusters(Some(db))), rds.Answer(DescribeDBInstances(Some(db))));
      r.Success? ==> forall a :: a in r.value ==>
        (exists c :: c in rds.clusters && c.id == db && StringValue(c.arn) == a) ||
        (exists i :: i in rds.instances && i.id == db && StringValue(i.arn) == a)
    ensures (rds.fault(DescribeDBClusters(Some(db))).None? && rds.fault(DescribeDBInstances(Some(db))).None? &&
             ((exists c :: c in rds.clusters && c.id == db) || (exists i :: i in rds.instances && i.id == db)))
      ==> ArnsFor(db, rds.Answer(DescribeDBClusters(Some(db))), rds.Answer(DescribeDBInstances(Some(db)))).Success?
  {
    var cr := rds.Answer(DescribeDBClusters(Some(db)));
    var ir := rds.Answer(DescribeDBInstances(Some(db)));
    var r := ArnsFor(db, cr, ir);
    if r.Success? {
      forall a | a in r.value
        ensures (exists c :: c in rds.clusters && c.id == db && StringValue(c.arn) == a) ||
                (exists i :: i in rds.instances && i.id == db && StringValue(i.arn) == a)
      {
        var k :| 0 <= k < |r.value| && r.value[k] == a;
        if k < |cr.clusters| {
          assert cr.clusters[k] in cr.clusters;
        } else {
          assert ir.instances[k - |cr.clusters|] in ir.instances;
        }
      }
    }
    if rds.fault(DescribeDBClusters(Some(db))).None? && rds.fault(DescribeDBInstances(Some(db))).None? {
      if c :| c in rds.clusters && c.id == db {
        assert c in cr.clusters;
      } else if i :| i in rds.instances && i.id == db {
        assert i in ir.instances;
      }
    }
  }

  /** The expectations of pkg/rds/tags_test.go: one cluster, one instance, both, or nothing named `db`. */
  lemma DetermineArnExamples(db: string, clusterArn: string, instanceArn: string, cr: Reply, ir: Reply)
    ensures |cr.clusters| == 1 && ir.instances == [] ==> ArnsFor(db, cr, ir).Success? && |ArnsFor(db, cr, ir).value| == 1
    ensures cr.clusters == [] && |ir.instances| == 1 ==> ArnsFor(db, cr, ir).Success? && |ArnsFor(db, cr, ir).value| == 1
    ensures |cr.clusters| == 1 && |ir.instances| == 1 ==> ArnsFor(db, cr, ir).Success? && |ArnsFor(db, cr, ir).value| == 2
    ensures cr.clusters == [] && ir.instances == [] ==> ArnsFor(db, cr, ir) == Failure(UnknownDatabase(db))
  {
  }
}
