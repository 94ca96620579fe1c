/**
 * The legacy database handlers of actions/databases.go: list, get, create, modify, start/stop and
 * delete, each for an account picked out of the configured clients.
 *
 * Create, modify and delete issue the same provider calls as the orchestration (a modify without
 * parameter-group defaults); what differs is the answer: provider errors become 400 (or 404 for an
 * instance that is gone), other errors are returned as they are, and a failed cluster delete is
 * logged and swallowed.
 */
module Databases {
  import opened Wrappers
  import opened ErrorValues
  import opened Provider
  import opened OwnerTags
  import opened DatabaseInputs
  import opened App
  import Orchestration
  import RdsDatabases

  // ---------------------------------------------------------------- request parameters

  const TrueWords: set<string> := {"1", "t", "T", "TRUE", "true", "True"}
  const FalseWords: set<string> := {"0", "f", "F", "FALSE", "false", "False"}

  /** `strconv.ParseBool`: the words it accepts; anything else is an error. */
  function ParseBool(s: string): (r: Option<bool>)
    ensures r.None? <==> s !in TrueWords && s !in FalseWords
    ensures r.Some? ==> (r.value <==> s in TrueWords)
  {
    if s in TrueWords then Some(true) else if s in FalseWords then Some(false) else None
  }

  /** A boolean query flag (`all`, `snapshot`): false unless the parameter parses as true. */
  function Flag(param: string): (b: bool)
    ensures b <==> param in TrueWords
  {
    var parsed := ParseBool(param);
    parsed.Some? && parsed.value
  }

  /** The error every handler answers an unknown account with. */
  function UnknownAccount(account: string): Error {
    Plain("Bad request: unknown account " + account)
  }

  /** The providers of every configured account. */
  function Services(accounts: map<string, Client>): set<Rds> {
    set c | c in accounts.Values :: c.service
  }

  /** A provider error is answered with 400; any other error is returned as it is. */
  function ProviderOr400<B>(e: Error): (r: Outcome<B>)
    ensures e.Provider? <==> r.HttpError?
    ensures r.HttpError? ==> r == HttpError(400, e)
    ensures r.Returned? ==> r == Returned(e)
  {
    if e.Provider? then HttpError(400, e) else Returned(e)
  }

  /** A handler's provider calls, in order, and its answer. */
  datatype Handled<B> = Handled(calls: seq<Call>, outcome: Outcome<B>)

  /** The body of a list or get: the cluster describe's output when clusters were searched, and the instance describe's. */
  datatype Listing = Listing(clusters: Option<Reply>, instances: Reply)

  // ---------------------------------------------------------------- list

  /** `DatabasesList`'s calls and answer: a cluster describe only when `all`, then the instance describe. */
  function ListSteps(all: bool, rds: Rds): Handled<Listing> {
    var clusters := if all then Some(rds.Answer(DescribeDBClusters(None))) else None;
    var instances := rds.Answer(DescribeDBInstances(None));
    Handled((if all then [DescribeDBClusters(None)] else []) + [DescribeDBInstances(None)],
            if instances.err.Some? then ProviderOr400(instances.err.value) else Render(200, Listing(clusters, instances)))
  }

  /**
   * Listing: clusters are described exactly when `all`; a failed cluster describe is only logged,
   * and the answer is 200 exactly when the instance describe succeeds, otherwise the instance error
   * as 400 (provider error) or as it is.
   */
  lemma ListIgnoresClusterErrors(all: bool, rds: Rds)
    ensures var h := ListSteps(all, rds);
      var e := rds.fault(DescribeDBInstances(None));
      (DescribeDBClusters(None) in h.calls <==> all) &&
      h.calls[|h.calls| - 1] == DescribeDBInstances(None) &&
      (h.outcome.Render? <==> e.None?) &&
      (e.Some? ==> h.outcome == ProviderOr400(e.value)) &&
      (h.outcome.Render? ==> h.outcome.status == 200 && (h.outcome.body.clusters.Some? <==> all))
  {
  }

  method DatabasesList(accounts: map<string, Client>, account: string, allParam: string)
    returns (r: Outcome<Listing>)
    modifies Services(accounts)
    ensures account !in accounts ==> r == HttpError(400, UnknownAccount(account)) && unchanged(Services(accounts))
    ensures account in accounts ==>
      var rds := accounts[account].service;
      var h := ListSteps(Flag(allParam), rds);
      r == h.outcome && rds.log == old(rds.log) + h.calls
  {
    var all := false;
    var parsed := ParseBool(allParam);
    if parsed.Some? {
      all := parsed.value;
    }
    if account !in accounts {
      return HttpError(400, UnknownAccount(account));
    }
    var rds := accounts[account].service;
    var clusters: Option<Reply> := None;
    if all {
      var reply := rds.Issue(DescribeDBClusters(None));
      clusters := Some(reply);
    }
    var instances := rds.Issue(DescribeDBInstances(None));
    if instances.err.Some? {
      return ProviderOr400(instances.err.value);
    }
    return Render(200, Listing(clusters, instances));
  }

  // ---------------------------------------------------------------- get

  /**
   * `DatabasesGet`'s calls and answer for the database `db`: when `all`, the cluster describe
   * decides whether the cluster was not found; then the instance describe. A missing instance is
   * 404 only when no cluster was found either; any other provider error is 400.
   */
  function GetSteps(all: bool, db: string, rds: Rds): Handled<Listing> {
    var dc := DescribeDBClusters(Some(db));
    var di := DescribeDBInstances(Some(db));
    var clusters := if all then Some(rds.Answer(dc)) else None;
    var clusterNotFound := !all || (rds.Answer(dc).err.Some? && IsProviderCode(rds.Answer(dc).err.value, DBClusterNotFoundCode));
    var instances := rds.Answer(di);
    var outcome :=
      if instances.err.None? then Render(200, Listing(clusters, instances))
      else
        var e := instances.err.value;
        if e.Provider? && e.code != DBInstanceNotFoundCode then HttpError(400, e)
        else if e.Provider? && clusterNotFound then HttpError(404, e)
        else if clusterNotFound then Returned(e)
        else Render(200, Listing(clusters, instances));
    Handled((if all then [dc] else []) + [di], outcome)
  }

  /**
   * The get rule: 404 exactly when the instance is not found and clusters were not searched or not
   * found either; 400 for any other provider error of the instance describe; and when a cluster
   * search did not report "not found", a missing instance or a non-provider error still answers 200.
   */
  lemma GetNotFoundRule(all: bool, db: string, rds: Rds)
    ensures var h := GetSteps(all, db, rds);
      var e := rds.fault(DescribeDBInstances(Some(db)));
      var ce := rds.fault(DescribeDBClusters(Some(db)));
      var clusterNotFound := !all || (ce.Some? && IsProviderCode(ce.value, DBClusterNotFoundCode));
      (h.outcome.HttpError? && h.outcome.status == 404 <==>
        e.Some? && IsProviderCode(e.value, DBInstanceNotFoundCode) && clusterNotFound) &&
      (e.Some? && e.value.Provider? && e.value.code != DBInstanceNotFoundCode ==> h.outcome == HttpError(400, e.value)) &&
      (e.Some? && !e.value.Provider? ==> h.outcome.Returned? == clusterNotFound) &&
      (h.outcome.Render? <==>
        e.None? || (!clusterNotFound && !(e.value.Provider? && e.value.code != DBInstanceNotFoundCode)))
  {
  }

  method DatabasesGet(accounts: map<string, Client>, account: string, db: string, allParam: string)
    returns (r: Outcome<Listing>)
    modifies Services(accounts)
    ensures account !in accounts ==> r == HttpError(400, UnknownAccount(account)) && unchanged(Services(accounts))
    ensures account in accounts ==>
      var rds := accounts[account].service;
      var h := GetSteps(Flag(allParam), db, rds);
      r == h.outcome && rds.log == old(rds.log) + h.calls
  {
    var all := false;
    var parsed := ParseBool(allParam);
    if parsed.Some? {
      all := parsed.value;
    }
    if account !in accounts {
      return HttpError(400, UnknownAccount(account));
    }
    var rds := accounts[account].service;
    var clusters: Option<Reply> := None;
    var clusterNotFound := true;
    if all {
      clusterNotFound := false;
      var reply := rds.Issue(DescribeDBClusters(Some(db)));
      clusters := Some(reply);
      if reply.err.Some? && reply.err.value.Provider? && reply.err.value.code == DBClusterNotFoundCode {
        clusterNotFound := true;
      }
    }
    var instances := rds.Issue(DescribeDBInstances(Some(db)));
    if instances.err.Some? {
      var e := instances.err.value;
      if e.Provider? {
        if e.code == DBInstanceNotFoundCode {
          if clusterNotFound {
            return HttpError(404, e);
          }
        } else {
          return HttpError(400, e);
        }
      }
      if clusterNotFound {
        return Returned(e);
      }
    }
    return Render(200, Listing(clusters, instances));
  }

  // ---------------------------------------------------------------- create

  /** The answer `DatabasesPost` gives for a create run. */
  function PostOutcome(run: Orchestration.CreateRun): Outcome<Orchestration.CreateOutput> {
    match run.stop
    case None => Render(200, Orchestration.CreateOutput(run.clusterOutput, run.instanceOutput))
    case Some(FamilyFailed(e)) => HttpError(400, e)
    case Some(ClusterCreateFailed(e)) => ProviderOr400(e)
    case Some(InstanceCreateFailed(e)) => ProviderOr400(e)
  }

  /**
   * The legacy create's answers: 200 exactly when every call it made succeeded; a family-lookup
   * failure is 400 with that error; a failed create is 400 for a provider error and returned as it
   * is otherwise; and an instance create that fails after a cluster was created issues exactly one
   * cluster delete, for that cluster and without a final snapshot, as its last call.
   */
  lemma PostCompensates(cluster: ClusterSpec, instance: InstanceSpec, client: Client, org: string)
    ensures var run := Orchestration.CreateSteps(Some(cluster), Some(instance), client, org);
      var r := PostOutcome(run);
      (r.Render? <==> run.stop.None?) &&
      (run.stop.Some? && run.stop.value.FamilyFailed? ==> r == HttpError(400, run.stop.value.familyError)) &&
      (run.stop.Some? && run.stop.value.InstanceCreateFailed? ==>
        run.cluster.Some? &&
        run.calls[|run.calls| - 1] == DeleteDBCluster(run.cluster.value.identifier, true, None) &&
        (forall i :: 0 <= i < |run.calls| - 1 ==> !run.calls[i].DeleteDBCluster?) &&
        r == ProviderOr400(run.stop.value.instanceError))
  {
    var run := Orchestration.CreateSteps(Some(cluster), Some(instance), client, org);
    Orchestration.DeleteOnlyAfterClusterCreate(Some(cluster), Some(instance), client, org);
    var h := Orchestration.ClusterSteps(cluster, client, org);
    if h.stop.None? {
      Orchestration.CompensatingDelete(Some(h.spec), instance, h.output, client, org);
      var i := Orchestration.InstanceSteps(Some(h.spec), Some(instance), h.output, client, org);
      assert run.calls == h.calls + i.calls;
      if run.stop.Some? && run.stop.value.InstanceCreateFailed? {
        assert run.calls[|run.calls| - 1] == i.calls[|i.calls| - 1];
      }
    }
  }

  method DatabasesPost(accounts: map<string, Client>, account: string, org: string, input: DatabaseCreateInput)
    returns (r: Outcome<Orchestration.CreateOutput>)
    modifies input, Services(accounts)
    ensures account !in accounts ==>
      r == HttpError(400, UnknownAccount(account)) && unchanged(Services(accounts)) && unchanged(input)
    ensures account in accounts ==>
      var client := accounts[account];
      var run := Orchestration.CreateSteps(old(input.cluster), old(input.instance), client, org);
      r == PostOutcome(run) && client.service.log == old(client.service.log) + run.calls &&
      input.cluster == run.cluster && input.instance == run.instance
  {
    if account !in accounts {
      return HttpError(400, UnknownAccount(account));
    }
    var client := accounts[account];
    var stop, clusterOutput, instanceOutput := Orchestration.Create(client, org, input);
    if stop.Some? {
      match stop.value
      case FamilyFailed(e) => return HttpError(400, e);
      case ClusterCreateFailed(e) => return ProviderOr400(e);
      case InstanceCreateFailed(e) => return ProviderOr400(e);
    }
    return Render(200, Orchestration.CreateOutput(clusterOutput, instanceOutput));
  }

  // ---------------------------------------------------------------- modify

  const BadRequestMessage: string := "Bad request"
  const BothGivenMessage: string := "Bad request: cannot specify both Cluster and Instance"

  /** The request check of `DatabasesPut`: something must be given, and not both a cluster and an instance change. */
  function PutRequestError(cluster: Option<Change>, instance: Option<Change>, tags: Option<seq<RdsTag>>)
    : (r: Option<Error>)
    ensures r.None? <==> (cluster.Some? || instance.Some? || tags.Some?) && !(cluster.Some? && instance.Some?)
    ensures cluster.None? && instance.None? && tags.None? ==> r == Some(Plain(BadRequestMessage))
    ensures cluster.Some? && instance.Some? ==> r == Some(Plain(BothGivenMessage))
  {
    if cluster.None? && instance.None? && tags.None? then Some(Plain(BadRequestMessage))
    else if cluster.Some? && instance.Some? then Some(Plain(BothGivenMessage))
    else None
  }

  /** The answer `DatabasesPut` gives for a modify run. */
  function PutOutcome(run: Orchestration.ModifyRun): Outcome<Orchestration.ModifyOutput> {
    PutAnswer(run.stop, run.clusterOutput, run.instanceOutput)
  }

  function PutAnswer(stop: Option<Orchestration.ModifyStop>, clusterOutput: Option<Reply>, instanceOutput: Option<Reply>)
    : Outcome<Orchestration.ModifyOutput>
  {
    match stop
    case None => Render(200, Orchestration.ModifyOutput(clusterOutput, instanceOutput))
    case Some(EngineIndexPanicked) => HttpError(500, Orchestration.IndexOutOfRange)
    case Some(ChangeFamilyFailed(e)) => HttpError(400, e)
    case Some(ClusterModifyFailed(e)) => ProviderOr400(e)
    case Some(InstanceModifyFailed(e)) => ProviderOr400(e)
    case Some(ArnLookupFailed(e)) => HttpError(400, e)
    case Some(TaggingFailed(e)) => HttpError(400, e)
  }

  /** The legacy modify sends the caller's change as given, with only the identifier set to `db`, as its first call. */
  lemma PutSendsChangeAsGiven(db: string, cluster: Option<Change>, instance: Option<Change>,
                              tags: Option<seq<RdsTag>>, client: Client, org: string)
    ensures var run := Orchestration.ModifySteps(db, cluster, instance, tags, client, org, false);
      (cluster.Some? ==>
        (run.cluster == Some(cluster.value.(identifier := Some(db))) &&
         run.calls[0] == ModifyDBCluster(cluster.value.(identifier := Some(db))))) &&
      (cluster.None? && instance.Some? ==>
        (run.instance == Some(instance.value.(identifier := Some(db))) &&
         run.calls[0] == ModifyDBInstance(instance.value.(identifier := Some(db)))))
  {
    if cluster.None? {
      assert Orchestration.ClusterChangeSteps(cluster, db, client, false).calls == [];
    }
  }

  /** No family lookup happens in a legacy modify, so no family error can stop it; an ARN lookup or tagging failure is always 400. */
  lemma PutNeverLooksUpFamily(db: string, cluster: Option<Change>, instance: Option<Change>,
                              tags: Option<seq<RdsTag>>, client: Client, org: string)
    ensures var run := Orchestration.ModifySteps(db, cluster, instance, tags, client, org, false);
      (run.stop.Some? ==> !run.stop.value.ChangeFamilyFailed? && !run.stop.value.EngineIndexPanicked?) &&
      (run.stop.Some? && (run.stop.value.ArnLookupFailed? || run.stop.value.TaggingFailed?) ==>
        PutOutcome(run).HttpError? && PutOutcome(run).status == 400)
  {
    LegacyHalves(db, cluster, instance, client);
    var run := Orchestration.ModifySteps(db, cluster, instance, tags, client, org, false);
    var hc := Orchestration.ClusterChangeSteps(cluster, db, client, false);
    if hc.stop.None? {
      var hi := Orchestration.InstanceChangeSteps(instance, db, client, false);
      if hi.stop.None? {
        Orchestration.TagPartStops(db, tags, client, org);
        assert run.stop == Orchestration.TagPart(db, tags, client, org).stop;
      }
    }
  }

  /** A legacy modify never asks for engine versions: its calls are the modifies, the ARN lookup and the add-tags calls. */
  lemma PutIssuesNoFamilyLookup(db: string, cluster: Option<Change>, instance: Option<Change>,
                                tags: Option<seq<RdsTag>>, client: Client, org: string)
    ensures forall c :: c in Orchestration.ModifySteps(db, cluster, instance, tags, client, org, false).calls ==>
      c.ModifyDBCluster? || c.ModifyDBInstance? || c.DescribeDBClusters? || c.DescribeDBInstances? || c.AddTagsToResource?
  {
    LegacyHalves(db, cluster, instance, client);
    Orchestration.TagPartCalls(db, tags, client, org);
    var run := Orchestration.ModifySteps(db, cluster, instance, tags, client, org, false);
    var hc := Orchestration.ClusterChangeSteps(cluster, db, client, false);
    var hi := Orchestration.InstanceChangeSteps(instance, db, client, false);
    var t := Orchestration.TagPart(db, tags, client, org);
    assert run.calls == hc.calls || run.calls == hc.calls + hi.calls || run.calls == hc.calls + hi.calls + t.calls;
    forall c | c in run.calls
      ensures c.ModifyDBCluster? || c.ModifyDBInstance? || c.DescribeDBClusters? || c.DescribeDBInstances? || c.AddTagsToResource?
    {
      assert c in hc.calls || c in hi.calls || c in t.calls;
    }
  }

  /** Without defaults, each half of a modify is at most its one modify call, of the change with the identifier set. */
  lemma LegacyHalves(db: string, cluster: Option<Change>, instance: Option<Change>, client: Client)
    ensures var hc := Orchestration.ClusterChangeSteps(cluster, db, client, false);
      hc.calls == (if cluster.Some? then [ModifyDBCluster(cluster.value.(identifier := Some(db)))] else []) &&
      (hc.stop.None? || hc.stop.value.ClusterModifyFailed?)
    ensures var hi := Orchestration.InstanceChangeSteps(instance, db, client, false);
      hi.calls == (if instance.Some? then [ModifyDBInstance(instance.value.(identifier := Some(db)))] else []) &&
      (hi.stop.None? || hi.stop.value.InstanceModifyFailed?)
  {
    if cluster.Some? {
      Orchestration.ChangeDefaults(cluster.value, db, client, false);
    }
    if instance.Some? {
      Orchestration.InstanceChangeDefaults(instance.value, db, client, false);
    }
  }

  method DatabasesPut(accounts: map<string, Client>, account: string, org: string, db: string, input: DatabaseModifyInput)
    returns (r: Outcome<Orchestration.ModifyOutput>)
    modifies input, Services(accounts)
    ensures PutRequestError(old(input.cluster), old(input.instance), old(input.tags)).Some? ==>
      r == HttpError(400, PutRequestError(old(input.cluster), old(input.instance), old(input.tags)).value) &&
      unchanged(Services(accounts)) && unchanged(input)
    ensures PutRequestError(old(input.cluster), old(input.instance), old(input.tags)).None? && account !in accounts ==>
      r == HttpError(400, UnknownAccount(account)) && unchanged(Services(accounts)) && unchanged(input)
    ensures PutRequestError(old(input.cluster), old(input.instance), old(input.tags)).None? && account in accounts ==>
      var client := accounts[account];
      var run := Orchestration.ModifySteps(db, old(input.cluster), old(input.instance), old(input.tags), client, org, false);
      r == PutOutcome(run) && client.service.log == old(client.service.log) + run.calls &&
      input.cluster == run.cluster && input.instance == run.instance
  {
    var invalid := PutRequestError(input.cluster, input.instance, input.tags);
    if invalid.Some? {
      return HttpError(400, invalid.value);
    }
    if account !in accounts {
      return HttpError(400, UnknownAccount(account));
    }
    var client := accounts[account];
    var stop, clusterOutput, instanceOutput := Orchestration.Modify(client, org, db, input, false);
    return PutAnswer(stop, clusterOutput, instanceOutput);
  }

  // ---------------------------------------------------------------- start / stop

  const MissingIdMessage: string := "Bad request: missing database identifier"
  const InvalidStateMessage: string := "Invalid state.  Valid states are 'stop' or 'start'."

  /** `DatabasesPutState`'s calls and answer, once the account is known. */
  function PutStateSteps(state: string, id: string, fault: Call -> Option<Error>): Handled<string> {
    if id == "" then Handled([], HttpError(400, Plain(MissingIdMessage)))
    else if state == "start" || state == "stop" then
      var run := if state == "start" then RdsDatabases.StartDatabase(id, fault) else RdsDatabases.StopDatabase(id, fault);
      Handled(run.calls, if run.err.Some? then HttpError(400, run.err.value) else Render(200, "OK"))
    else Handled([], HttpError(400, Plain(InvalidStateMessage)))
  }

  /**
   * "start" issues only start calls and "stop" only stop calls, each for `id`; any other state and
   * an empty identifier are 400 before any call; a start or stop that fails is 400.
   */
  lemma PutStateCallsOnlyRequested(state: string, id: string, fault: Call -> Option<Error>)
    ensures var h := PutStateSteps(state, id, fault);
      (id == "" || (state != "start" && state != "stop") ==> h.calls == [] && h.outcome.HttpError? && h.outcome.status == 400) &&
      (state == "start" ==> forall c :: c in h.calls ==> c == StartDBCluster(id) || c == StartDBInstance(id)) &&
      (state == "stop" ==> forall c :: c in h.calls ==> c == StopDBCluster(id) || c == StopDBInstance(id)) &&
      (id != "" && (state == "start" || state == "stop") ==> |h.calls| >= 1) &&
      (h.outcome.Render? ==> h.outcome == Render(200, "OK"))
  {
  }

  method DatabasesPutState(accounts: map<string, Client>, account: string, db: string, state: string)
    returns (r: Outcome<string>)
    modifies Services(accounts)
    ensures account !in accounts ==> r == HttpError(400, UnknownAccount(account)) && unchanged(Services(accounts))
    ensures account in accounts ==>
      var rds := accounts[account].service;
      var h := PutStateSteps(state, db, rds.fault);
      r == h.outcome && rds.log == old(rds.log) + h.calls
  {
    if account !in accounts {
      return HttpError(400, UnknownAccount(account));
    }
    var client := accounts[account];
    if db == "" {
      return HttpError(400, Plain(MissingIdMessage));
    }
    if state == "start" {
      var err := RdsDatabases.PowerOn(client, RdsDatabases.Start, db);
      if err.Some? {
        return HttpError(400, err.value);
      }
    } else if state == "stop" {
      var err := RdsDatabases.PowerOn(client, RdsDatabases.Stop, db);
      if err.Some? {
        return HttpError(400, err.value);
      }
    } else {
      return HttpError(400, Plain(InvalidStateMessage));
    }
    return Render(200, "OK");
  }

  // ---------------------------------------------------------------- delete

  /** The answer `DatabasesDelete` gives for a delete run: a failed cluster delete is swallowed. */
  function DeleteOutcome(run: Orchestration.DeleteRun): Outcome<Orchestration.DeleteOutput> {
    match run.stop
    case None => Render(200, Orchestration.DeleteOutput(run.clusterOutput, run.instanceOutput))
    case Some(ClusterDeleteFailed(_)) => Render(200, Orchestration.DeleteOutput(run.clusterOutput, run.instanceOutput))
    case Some(DescribeFailed(e)) => HttpError(400, e)
    case Some(UnexpectedInstanceCount) => HttpError(400, Plain(Orchestration.UnexpectedCountMessage))
    case Some(NoInstanceFound) => HttpError(400, Plain(Orchestration.NoInstancesMessage))
    case Some(InstanceDeleteFailed(e)) =>
      if IsProviderCode(e, DBInstanceNotFoundCode) then HttpError(404, e) else ProviderOr400(e)
  }

  /**
   * The legacy delete's answers: every path that reaches a cluster delete answers 200 whatever that
   * delete returns; an instance delete that finds no instance is 404 and any other provider error
   * 400; zero or several instances, and a describe provider error other than "not found", are 400.
   */
  lemma DeleteSwallowsClusterErrors(id: string, snapshot: bool, rds: Rds)
    ensures var run := Orchestration.DeleteSteps(id, snapshot, rds);
      var r := DeleteOutcome(run);
      (r.Render? <==> run.stop.None? || run.stop.value.ClusterDeleteFailed?) &&
      ((exists i :: 0 <= i < |run.calls| && run.calls[i].DeleteDBCluster?) ==> r.Render? && r.status == 200)
    ensures var run := Orchestration.DeleteSteps(id, snapshot, rds);
      var r := DeleteOutcome(run);
      var a := rds.Answer(DescribeDBInstances(Some(id)));
      (a.err.Some? && IsProviderCode(a.err.value, DBInstanceNotFoundCode) ==> r.Render?) &&
      (a.err.Some? && a.err.value.Provider? && a.err.value.code != DBInstanceNotFoundCode ==> r == HttpError(400, a.err.value)) &&
      (a.err.None? && |a.instances| != 1 ==> r.HttpError? && r.status == 400)
    ensures var run := Orchestration.DeleteSteps(id, snapshot, rds);
      var r := DeleteOutcome(run);
      run.stop.Some? && run.stop.value.InstanceDeleteFailed? ==>
        var e := run.stop.value.instanceDeleteError;
        (IsProviderCode(e, DBInstanceNotFoundCode) ==> r == HttpError(404, e)) &&
        (e.Provider? && e.code != DBInstanceNotFoundCode ==> r == HttpError(400, e)) &&
        (!e.Provider? ==> r == Returned(e))
  {
    var a := rds.Answer(DescribeDBInstances(Some(id)));
    Orchestration.DeleteBranches(id, snapshot, a, rds);
    Orchestration.ClusterDeleteIsLast(id, snapshot, a, rds);
  }

  method DatabasesDelete(accounts: map<string, Client>, account: string, db: string, snapshotParam: string)
    returns (r: Outcome<Orchestration.DeleteOutput>)
    modifies Services(accounts)
    ensures account !in accounts ==> r == HttpError(400, UnknownAccount(account)) && unchanged(Services(accounts))
    ensures account in accounts ==>
      var client := accounts[account];
      var run := Orchestration.DeleteSteps(db, Flag(snapshotParam), client.service);
      r == DeleteOutcome(run) && client.service.log == old(client.service.log) + run.calls
  {
    var snapshot := false;
    var parsed := ParseBool(snapshotParam);
    if parsed.Some? {
      snapshot := parsed.value;
    }
    if account !in accounts {
      return HttpError(400, UnknownAccount(account));
    }
    var client := accounts[account];
    var stop, clusterOutput, instanceOutput := Orchestration.Delete(client, db, snapshot);
    if stop.Some? {
      match stop.value
      case ClusterDeleteFailed(_) =>
      case DescribeFailed(e) => return HttpError(400, e);
      case UnexpectedInstanceCount => return HttpError(400, Plain(Orchestration.UnexpectedCountMessage));
      case NoInstanceFound => return HttpError(400, Plain(Orchestration.NoInstancesMessage));
      case InstanceDeleteFailed(e) =>
        if IsProviderCode(e, DBInstanceNotFoundCode) {
          return HttpError(404, e);
        }
        return ProviderOr400(e);
    }
    return Render(200, Orchestration.DeleteOutput(clusterOutput, instanceOutput));
  }

  // ---------------------------------------------------------------- tags

  /** `normalizeTags` of actions/databases.go: drops every owner tag, then appends the owner tag for `org`. */
  method NormalizeTags(tags: seq<RdsTag>, org: string) returns (r: seq<RdsTag>)
    ensures r == NormalizedRds(tags, org)
  {
    r := [];
    for i := 0 to |tags|
      invariant r == Kept(tags[..i], IsOwnerRdsTag)
    {
      assert tags[..i + 1][..i] == tags[..i];
      if !IsOwnerRdsTag(tags[i]) {
        r := r + [tags[i]];
      }
    }
    assert tags[..|tags|] == tags;
    r := r + [RdsOwnerTag(org)];
  }
}
