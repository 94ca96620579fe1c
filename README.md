# rds-api core, modelled in Dafny

rds-api is a small HTTP service of the Spinup platform that creates, modifies, starts, stops and
deletes Amazon RDS databases (clusters and instances) and manages their snapshots in several AWS
accounts. Underneath its Buffalo handlers sit a handful of decision procedures, and this project
models them against an abstract RDS provider and proves what they guarantee:

- the classification of provider error codes into the API's five error kinds (`ErrCode`) and the
  mapping of those kinds to HTTP statuses (`handleError`), with the shared-token check;
- the ownership-tag normaliser (three copies) and the tag conversions;
- the database orchestrator: create (cluster, then instance, with a compensating cluster delete),
  modify (identifier injection, parameter-group defaulting, tagging every ARN of the database) and
  delete (the probe-then-delete branch machine with `final-<id>` snapshot naming);
- the older handler versions of create, modify, delete, get, list and start/stop, with their own
  request validation and error policy;
- the snapshot handlers (cluster first, instance as fallback; the item-count header; the
  `final-spin` retention rule of the non-production sweep) and the snapshot lookup helpers;
- the client helpers: ARN resolution, parameter-group family lookup, cluster-then-instance
  start/stop;
- the session cache of `assumeRole`;
- the two Ruby scripts that rewrite the Jenkins-generated configuration.

The provider (`Provider.Rds`) is a class holding the account's clusters, instances (each with an
optional parent cluster), engine versions and snapshots, a `log` of every call issued to it, and an
oracle `fault` deciding which call fails and with which error. A call that does not fail answers
from the inventory; a failed call answers with an empty output next to its error, as the AWS SDK
does. Imperative code (the orchestrator, the handlers, the loops) is modelled by methods that issue
calls on that provider; each method is proved equal to a specification function giving the calls
it makes and how it ends, and the properties are lemmas about those functions. Input structs that
the Go code updates in place (`DatabaseCreateInput`, `DatabaseModifyInput`) are classes whose fields
the methods reassign; the session cache is a `map` field of `Role.Server`.

Modules follow the source files: `Errors` (actions/errors.go), `App` (actions/app.go), `ApiTypes`
(actions/types.go), `Role` (actions/role.go), `Orchestration` (actions/orchestration.go),
`Databases` (actions/databases.go), `Snapshots` (actions/snapshots.go), `RdsTags`,
`RdsParameterGroups`, `RdsDatabases`, `RdsSnapshots` (pkg/rds/), `Reconfig` and `Decofy`
(docker/). `OwnerTags` holds the filtering shared by the three `normalizeTags` copies, `Provider`
the provider and `pkg/rds/client.go`'s client configuration, `ErrorValues` the Go error values
(provider errors with a code, api errors with a kind, plain errors, wrapped errors), `Wrappers`
Option and Result, and `DatabaseInputs` the two request structs.

## Model

| member | source | states |
|---|---|---|
| Errors.ErrCode | actions/errors.go:11-510 | codes of the first case list give InternalError with `msg` unchanged; AlreadyExists codes and `SubnetAlreadyInUse` give Conflict; NotFound codes give NotFound; QuotaExceeded codes give LimitExceeded; any other provider code gives BadRequest with `msg + ": " + providerMessage`; an error whose cause has no provider code gives InternalError; only BadRequest changes the message |
| Errors.CodeTablesDisjoint | actions/errors.go:15-506 | the four code lists are pairwise disjoint, so the classification is a function |
| Errors.InternalConflictDisjoint | actions/errors.go:16-323 | no code is both in the internal list and the conflict list |
| Errors.InternalNotFoundDisjoint | actions/errors.go:16-374 | no code is both in the internal list and the not-found list |
| Errors.InternalLimitDisjoint | actions/errors.go:16-502 | no code is both in the internal list and the limit list |
| Errors.ConflictNotFoundDisjoint | actions/errors.go:201-374 | no code is both in the conflict list and the not-found list |
| Errors.ConflictLimitDisjoint | actions/errors.go:201-502 | no code is both in the conflict list and the limit list |
| Errors.NotFoundLimitDisjoint | actions/errors.go:324-502 | no code is both in the not-found list and the limit list |
| Errors.ErrCodeIgnoresWrapping | actions/errors.go:14 | the code is read from `errors.Cause`, so wrapping an error does not change its kind or message |
| Errors.ErrCodeExamples | actions/errors.go:16-505 | `InsufficientDBInstanceCapacity` is internal, `QuotaExceeded.DBSecurityGroup` a limit, `DBInstanceNotFound` not-found, `SubnetAlreadyInUse` a conflict with the provider error as cause |
| ErrorValues.Cause | actions/errors.go:14 | the cause of an error is never itself a wrapped error |
| ErrorValues.StringValue | pkg/rds/tags.go:34 | `aws.StringValue`: the pointed-to string, or "" for nil |
| App.StatusOf | actions/app.go:161-173 | Forbidden→403, NotFound→404, Conflict→409, BadRequest→400, LimitExceeded→429, any other kind→500 |
| App.HandleError | actions/app.go:158-178 | an api error found by unwrapping is answered with its kind's status and itself; any other error with 500; the status is always one of the six |
| App.HandleClassifiedError | actions/app.go:158-178 | composed with `ErrCode`: internal codes and non-provider errors give 500, conflict 409, not-found 404, limit 429, unknown codes 400, never 403 |
| App.SharedTokenAuth | actions/app.go:138-155 | a missing or empty `X-Auth-Token` header gives 403 without the next handler; the next handler's answer is given exactly when the first token matches |
| ApiTypes.OwnerTag | actions/types.go:118-122 | the appended tag is an owner tag |
| ApiTypes.NormalizeTags | actions/types.go:109-125 | the loop returns the non-owner tags in order followed by one `spinup:org` tag |
| ApiTypes.NormalizedOwnership | actions/types.go:109-125 | the last tag is `spinup:org=org` and it is the only tag whose key reads `spinup:org`; a tag with a nil key is kept |
| ApiTypes.AsApiTags | actions/types.go:128-137 | same length, each position's key and value carried over |
| ApiTypes.AsRdsTags | actions/types.go:140-149 | same length, each position's key and value carried over |
| ApiTypes.FromRdsTags | actions/types.go:128-137 | the loop builds exactly `AsApiTags` |
| ApiTypes.ToRdsTags | actions/types.go:140-149 | the loop builds exactly `AsRdsTags` |
| ApiTypes.TagConversionsRoundTrip | actions/types.go:128-149 | converting to provider tags and back (either way round) gives the original list |
| OwnerTags.Kept | actions/types.go:110-116 | filtering never lengthens the list |
| OwnerTags.Normalized | actions/types.go:109-125 | one element longer than the kept tags, ending with the owner tag |
| OwnerTags.KeptAppend | actions/types.go:110-116 | filtering distributes over concatenation, so relative order is kept |
| OwnerTags.KeptHasNoReserved | actions/types.go:111-114 | no reserved tag survives the filter |
| OwnerTags.KeptCounts | actions/types.go:110-116 | every non-reserved tag keeps its multiplicity (duplicates are kept), every reserved one has none |
| OwnerTags.KeptIdempotent | actions/types.go:110-116 | filtering twice is filtering once |
| OwnerTags.OwnerTagUnique | actions/types.go:118-122 | in the normalised list the only reserved tag is the last one |
| OwnerTags.NormalizedIdempotent | actions/types.go:109-125 | normalising twice gives the same list as normalising once |
| OwnerTags.RdsOwnerTag | actions/orchestration.go:317-320 | the appended provider tag is reserved |
| Orchestration.NormalizeTags | actions/orchestration.go:306-322 | the loop returns the non-reserved tags in order followed by `spinup:org=org` |
| Databases.NormalizeTags | actions/databases.go:529-545 | the same contract as the orchestrator's copy |
| Role.Join | actions/role.go:56-66 | joining nothing gives "", joining one part gives that part |
| Role.CacheKey | actions/role.go:44-66 | the key starts with `spinup_<org>_<roleArn>` |
| Role.Descriptors | actions/role.go:56-66 | one policy descriptor per ARN, in the caller's order |
| Role.RequestFor | actions/role.go:32-66 | duration 900 s, the role ARN, one `spinup:org` tag; external id, inline policy and policy ARNs set exactly when given, with the given values in order |
| Role.SessionFrom | actions/role.go:86-99 | the session is built in `us-east-1` |
| Role.Server.constructor | actions/server.go:17-32 | the cache starts empty and no request has been made |
| Role.Server.AssumeRole | actions/role.go:21-104 | the answer, the new cache and the requests made are those of the specification function |
| Role.CacheHitAnswers | actions/role.go:70-76 | a session under the key is returned with no assume-role request and the cache unchanged |
| Role.OtherItemFallsThrough | actions/role.go:71-78 | an entry of another type under the key leads to exactly one assume-role request |
| Role.FailureLeavesCache | actions/role.go:80-84 | a failed assume-role is returned as-is and the cache is unchanged |
| Role.SuccessStoresSession | actions/role.go:86-103 | a successful assume-role makes one request and stores the returned session under exactly the computed key, nothing else changing |
| Role.RepeatedCallHitsCache | actions/role.go:44-103 | after a success, the same call is answered from the cache with no request |
| Role.ExternalIdAndPolicyCollide | actions/role.go:44-54 | external id `x` with no policy and policy `x` with no external id share a cache key although their requests differ |
| Role.PolicyArnOrderMatters | actions/role.go:56-66 | policy ARNs enter the key unsorted: `[a, b]` and `[b, a]` give different keys |
| RdsParameterGroups.FamilyRequest | pkg/rds/parameter_groups.go:13-16 | engine and version are passed to the describe call unchanged |
| RdsParameterGroups.FamilyFrom | pkg/rds/parameter_groups.go:18-26 | a describe error is returned unchanged; no engine version gives "Unable to find any matching database engine/version"; otherwise the first version's family |
| RdsParameterGroups.FamilyComesFromMatchingVersion | pkg/rds/parameter_groups.go:12-27 | a found family belongs to an engine version matching the request; with no matching version the lookup fails with the message above |
| RdsParameterGroups.DetermineParameterGroupFamily | pkg/rds/parameter_groups.go:12-27 | issues exactly one describe call and answers `FamilyFrom` of its reply |
| RdsDatabases.PowerDatabase | pkg/rds/databases.go:19-70 | empty id: error, no call; cluster success: no instance call; cluster failure with a provider code other than `DBClusterNotFoundFault`: returned, no instance call; otherwise the instance call's error is the result |
| RdsDatabases.StopDatabase | pkg/rds/databases.go:19-43 | the calls are none, stop-cluster, or stop-cluster then stop-instance |
| RdsDatabases.StartDatabase | pkg/rds/databases.go:46-70 | the calls are none, start-cluster, or start-cluster then start-instance |
| RdsDatabases.StartMirrorsStop | pkg/rds/databases.go:19-70 | start and stop follow the same control flow, call for call |
| RdsDatabases.PowerOn | pkg/rds/databases.go:19-70 | the method issues the calls of `PowerDatabase` and returns its error |
| RdsTags.ClusterArns | pkg/rds/tags.go:32-36 | one ARN per cluster, in describe order, nil read as "" |
| RdsTags.InstanceArns | pkg/rds/tags.go:38-42 | one ARN per instance, in describe order, nil read as "" |
| RdsTags.ArnsFromOutputs | pkg/rds/tags.go:28-48 | both outputs nil: error; otherwise the cluster ARNs then the instance ARNs, an empty list being an error |
| RdsTags.ArnsFor | pkg/rds/tags.go:13-49 | a result lists `#clusters + #instances > 0` ARNs; a failure is always the "Unable to determine ARN" error |
| RdsTags.DetermineArn | pkg/rds/tags.go:13-49 | describes the clusters then the instances named `db`, and answers `ArnsFor` of the two replies |
| RdsTags.ArnsBelongToDatabase | pkg/rds/tags.go:13-49 | every ARN found is the ARN of a cluster or instance named `db`; with no describe failure and such a resource present, the lookup succeeds |
| RdsTags.DetermineArnExamples | pkg/rds/tags_test.go:53-84 | a cluster alone or an instance alone gives 1 ARN, both give 2, neither gives the error |
| RdsSnapshots.DecimalString | pkg/rds/snapshots.go:27 | the count is printed as `%d` does: a non-empty string of decimal digits whose value is the count, with no leading zero unless the count is 0 |
| RdsSnapshots.DescribeDBClusterSnaphot | pkg/rds/snapshots.go:13-31 | exactly one snapshot is returned; `DBClusterSnapshotNotFoundFault` becomes NotFound "cluster with snapshot id … not found"; other errors are unchanged; another count is InternalError "expected 1 snapshot but found N" |
| RdsSnapshots.DescribeDBSnaphot | pkg/rds/snapshots.go:33-50 | as written: NotFound for every provider code except `DBSnapshotNotFoundFault`, and the count rule otherwise |
| RdsSnapshots.DescribeDBSnapshotIntended | pkg/rds/snapshots.go:33-50 | the lookup with the comparison the cluster lookup uses: `DBSnapshotNotFoundFault` becomes NotFound, other errors are unchanged |
| RdsSnapshots.InstanceLookupInverted | pkg/rds/snapshots.go:38-42 | a missing snapshot is reported as InternalError rather than NotFound, and a throttling error as NotFound |
| RdsSnapshots.GetSnapshotInfo | pkg/rds/snapshots.go:56-71 | the cluster snapshot's engine and version if found, else the instance snapshot's, else the instance error; nil fields read as "" |
| RdsSnapshots.ClusterLookupAgainstProvider | pkg/rds/snapshots.go:13-31 | a cluster snapshot found is in the provider's inventory under the requested id |
| RdsSnapshots.GetSnapshotInfoAgainstProvider | pkg/rds/snapshots.go:56-71 | the engine and version reported are those of a cluster or instance snapshot the provider holds under the requested identifier, the cluster one whenever the cluster lookup finds it |
| Provider.Failed | pkg/rds/tags.go:19-26 | a failed call answers with its error |
| Provider.Filter | pkg/rds/tags.go:19-26 | the describe filter keeps exactly the matching elements |
| Provider.Rds.constructor | pkg/rds/client.go:11-16 | the provider starts with the given inventory and oracle and an empty log |
| Provider.Rds.Answer | pkg/rds/tags.go:19-26 | a faulted call answers with its error and nothing else; a describe answers with exactly the matching resources |
| Provider.Rds.Issue | pkg/rds/client.go:12 | issuing a call appends it to the log and answers `Answer` |
| Provider.Client.constructor | pkg/rds/client.go:19-26 | the client holds the service and the configured defaults |
| DatabaseInputs.DatabaseCreateInput.constructor | actions/databases.go:17-23 | the request holds the given cluster and instance specs |
| DatabaseInputs.DatabaseModifyInput.constructor | actions/databases.go:25-30 | the request holds the given changes and tags |
| Orchestration.ClusterDefaults | actions/orchestration.go:25-47 | a missing subnet group becomes the default; a given parameter group means no lookup; otherwise one family lookup whose error aborts, and the configured default is set only when the family has one; tags are normalised, owner tag last |
| Orchestration.InstanceDefaults | actions/orchestration.go:56-75 | the same defaulting for the instance, with the instance parameter-group table |
| Orchestration.InstanceSteps | actions/orchestration.go:56-94 | the instance part leaves the cluster spec as it was |
| Orchestration.CreateError | actions/orchestration.go:33-90 | a family error is returned raw; create failures are classified with "failed to create database cluster/instance" |
| Orchestration.PreparedCallsDescribe | actions/orchestration.go:27-45 | preparing a spec issues only engine-version describes |
| Orchestration.ClusterBeforeInstance | actions/orchestration.go:25-53 | with a cluster spec, after the family lookup the first call is create-cluster |
| Orchestration.ClusterCreateFailureStops | actions/orchestration.go:48-50 | a failed create-cluster is the last call, no instance is created, and `ErrCode("failed to create database cluster", e)` is returned |
| Orchestration.ClusterFamilyFailureStops | actions/orchestration.go:31-36 | a cluster family-lookup error is returned raw before any create |
| Orchestration.CompensatingDelete | actions/orchestration.go:76-91 | a failed create-instance is followed by exactly one delete-cluster (skip final snapshot) for the new cluster's identifier when a cluster was given, whose own failure is ignored; a delete-cluster happens only there |
| Orchestration.DeleteOnlyAfterClusterCreate | actions/orchestration.go:17-97 | a create issues delete-cluster only as its last call, after a successful cluster create and a failed instance create |
| Orchestration.ChangeDefaults | actions/orchestration.go:109-131 | the identifier is set to `id`; defaulting happens only with no parameter group and an engine version; it starts with an unfiltered cluster describe; a failed describe skips defaulting; the `[0]` index panics exactly when defaulting, the describe succeeds and the account has no cluster; otherwise only a family-lookup failure stops it; a changed group is a configured default |
| Orchestration.InstanceChangeDefaults | actions/orchestration.go:140-159 | the same for the instance change: the unfiltered instance describe, the panic exactly when the account has no instance, and the instance parameter-group table |
| Orchestration.ModifyEngineFromFirstCluster | actions/orchestration.go:113-116 | as written: with another cluster listed before the cluster named `id`, the family is looked up for the other cluster's engine |
| Orchestration.IntendedEngineIsTheDatabases | actions/orchestration.go:113-116 | with the describe filtered by `id`, a family is looked up only for the engine of a cluster named `id`, and the preparation never panics |
| Orchestration.TagStepsInOrder | actions/orchestration.go:181-189 | tags are added to the ARNs in order; every call before the last succeeded; the first failure stops the loop; with no failure every ARN is tagged |
| Orchestration.TagStepsSnoc | actions/orchestration.go:181-189 | tagging one more ARN after a clean run issues one more call |
| Orchestration.TagStepsStops | actions/orchestration.go:186 | after a failure no further ARN is tagged |
| Orchestration.ModifyError | actions/orchestration.go:118-187 | family and ARN errors are returned raw; modify and tagging failures are classified; the `[0]` panic surfaces as Go's index-out-of-range runtime error |
| Orchestration.ModifyTagsEveryArn | actions/orchestration.go:168-190 | the ARN lookup comes first; its failure is returned raw; then the same normalised tags are added to each ARN in order, all of them unless one fails |
| Orchestration.ClusterChangeCalls | actions/orchestration.go:109-138 | the cluster part issues only describes and a modify-cluster naming `id`; a modify failure is its last call |
| Orchestration.InstanceChangeCalls | actions/orchestration.go:140-166 | the instance part issues only describes and a modify-instance naming `id` |
| Orchestration.PrepareClusterCalls | actions/orchestration.go:109-131 | cluster preparation names `id` and only describes |
| Orchestration.PrepareInstanceCalls | actions/orchestration.go:140-159 | instance preparation names `id` and only describes |
| Orchestration.TagPartStops | actions/orchestration.go:168-190 | the tagging part can stop only on an ARN-lookup or tagging failure |
| Orchestration.TagPartCalls | actions/orchestration.go:168-190 | the tagging part issues only describes and add-tags calls |
| Orchestration.TagArnsCalls | actions/orchestration.go:172-189 | the same, for any outcome of the ARN lookup |
| Orchestration.ModifyCallsSplit | actions/orchestration.go:102-193 | a modify's calls are the cluster part, then the instance part, then the tagging part, each cut short by an early return |
| Orchestration.ModifyNamesDatabase | actions/orchestration.go:102-193 | every modify call of a modify names `id`, every filtered describe asks for `id`, and every tagged ARN is the ARN of a cluster or an instance named `id` |
| Orchestration.ClusterHalfNamesDatabase | actions/orchestration.go:109-138 | the cluster part's modify names `id` and its describe is unfiltered |
| Orchestration.InstanceHalfNamesDatabase | actions/orchestration.go:140-166 | the instance part's modify names `id` and its describe is unfiltered |
| Orchestration.TagPartNamesDatabase | actions/orchestration.go:168-190 | the tagging part's two describes ask for `id`, and every resource it tags is a cluster or an instance named `id` in the provider's inventory |
| Orchestration.TagArnsNamesDatabase | actions/orchestration.go:172-189 | when every ARN found belongs to a resource named `id`, every add-tags call targets such a resource and the lookups ask for `id` |
| Orchestration.ModifyChangesNameDatabase | actions/orchestration.go:110-141 | the cluster and instance changes left in the input carry identifier `id` |
| Orchestration.ClusterModifyFailureStops | actions/orchestration.go:133-135 | a failed modify-cluster is the last call: no instance modify and no tagging follow |
| Orchestration.ClusterDelete | actions/orchestration.go:235-297 | a cluster delete skips the final snapshot unless asked, and names it `final-<cluster>` |
| Orchestration.InstanceDelete | actions/orchestration.go:257-274 | an instance delete skips the final snapshot unless asked, and names it `final-<id>` |
| Orchestration.DeleteError | actions/orchestration.go:209-300 | describe, instance-delete and cluster-delete failures are classified with their messages; a wrong instance count is a plain error |
| Orchestration.DeleteBranches | actions/orchestration.go:209-300 | the instance describe comes first; `DBInstanceNotFound` deletes the cluster named `id`; another provider error stops; a count other than one stops before any delete; one instance is deleted, then its parent cluster if it has one and the instance delete succeeded; nothing is created |
| Orchestration.ClusterDeleteIsLast | actions/orchestration.go:235-300 | a cluster delete is always the last call, and the delete ends either cleanly or with that cluster delete's error |
| Orchestration.FinalSnapshotNaming | actions/orchestration.go:235-297 | the instance gets `final-<id>` and keeps its snapshot only with snapshot=true and no parent cluster; a cluster gets `final-<cluster>` exactly when snapshot=true |
| Orchestration.DeleteCluster | actions/orchestration.go:235-246 | issues exactly the cluster delete and reports its failure |
| Orchestration.Delete | actions/orchestration.go:199-303 | the method issues the calls of `DeleteSteps` and stops as it does |
| Orchestration.FillCluster | actions/orchestration.go:26-47 | the method issues the preparation calls and returns the prepared cluster spec or the family error |
| Orchestration.FillInstance | actions/orchestration.go:57-75 | the same for the instance spec |
| Orchestration.CreateCluster | actions/orchestration.go:25-53 | the method issues the calls of the cluster part and stops as it does |
| Orchestration.CreateInstance | actions/orchestration.go:56-94 | the method issues the calls of the instance part, compensation included, and updates the instance spec in place |
| Orchestration.Create | actions/orchestration.go:17-97 | the method issues the calls of `CreateSteps`, stops as it does and leaves the defaulted specs in the input |
| Orchestration.ChangeCluster | actions/orchestration.go:109-138 | the method issues the calls of the cluster part and leaves the prepared change in the input |
| Orchestration.PrepareClusterModify | actions/orchestration.go:110-131 | the method issues the preparation calls and returns the prepared change, with the family error or the `[0]` panic as the stop |
| Orchestration.ChangeInstance | actions/orchestration.go:140-166 | the same for the instance part |
| Orchestration.PrepareInstanceModify | actions/orchestration.go:141-159 | the same for the instance preparation |
| Orchestration.TagDatabase | actions/orchestration.go:168-190 | the method issues the calls of the tagging part and stops as it does |
| Orchestration.TagEach | actions/orchestration.go:181-189 | the loop adds the tags to each ARN in order and stops at the first failure |
| Orchestration.Modify | actions/orchestration.go:102-193 | the method issues the calls of `ModifySteps` and leaves the prepared changes in the input |
| Orchestration.RdsOrchestrator.constructor | actions/app.go:59-61 | the orchestrator holds the given client |
| Orchestration.RdsOrchestrator.DatabaseCreate | actions/orchestration.go:17-97 | answers the created outputs or the create error |
| Orchestration.RdsOrchestrator.DatabaseModify | actions/orchestration.go:102-193 | answers the modify outputs or the modify error |
| Orchestration.RdsOrchestrator.DatabaseDelete | actions/orchestration.go:199-303 | answers the delete outputs or the delete error |
| Databases.ParseBool | actions/databases.go:44 | `strconv.ParseBool`: the true and false spellings parse, anything else is an error |
| Databases.Flag | actions/databases.go:43-46 | a query flag is set exactly when it parses as true |
| Databases.ProviderOr400 | actions/databases.go:66-69 | a provider error gives 400, any other error is returned as-is |
| Databases.ListIgnoresClusterErrors | actions/databases.go:40-80 | clusters are described only with `all`, and their failure is ignored; the instance describe is last and its failure decides the answer |
| Databases.DatabasesList | actions/databases.go:40-80 | unknown account: 400 with no call; otherwise the calls and answer of `ListSteps` |
| Databases.GetNotFoundRule | actions/databases.go:100-136 | 404 exactly when the instance is `DBInstanceNotFound` and clusters were not searched or not found; another provider error gives 400; a non-provider error is returned only when no cluster was found |
| Databases.DatabasesGet | actions/databases.go:84-146 | unknown account: 400 with no call; otherwise the calls and answer of `GetSteps` |
| Databases.PostCompensates | actions/databases.go:152-258 | a family error gives 400; a failed instance create with a cluster spec issues exactly one delete-cluster (skip final snapshot), as the last call, and answers 400 or the raw error |
| Databases.DatabasesPost | actions/databases.go:152-258 | unknown account: 400 with no call; otherwise the calls of `CreateSteps` and the answer of `PostOutcome` |
| Databases.PutRequestError | actions/databases.go:269-275 | a request with nothing to change, or with both a cluster and an instance, is refused with its message |
| Databases.PutSendsChangeAsGiven | actions/databases.go:286-299 | the change is sent as given, with only its identifier set to the database name |
| Databases.PutNeverLooksUpFamily | actions/databases.go:286-332 | this version never defaults parameter groups, so neither a family error nor the `[0]` panic can stop it; ARN and tagging failures give 400 |
| Databases.PutIssuesNoFamilyLookup | actions/databases.go:263-343 | only modify, describe and add-tags calls are issued |
| Databases.LegacyHalves | actions/databases.go:286-308 | each half issues at most its one modify call and fails only with it |
| Databases.DatabasesPut | actions/databases.go:263-343 | an invalid request or an unknown account gives 400 with no call and the input untouched; otherwise the calls of the modify without defaulting |
| Databases.PutStateCallsOnlyRequested | actions/databases.go:358-376 | an empty id or an unknown state gives 400 with no call; "start" issues only start calls, "stop" only stop calls; success answers "OK" |
| Databases.DatabasesPutState | actions/databases.go:346-377 | unknown account: 400 with no call; otherwise the calls and answer of `PutStateSteps` |
| Databases.DeleteSwallowsClusterErrors | actions/databases.go:417-525 | a cluster-delete failure is swallowed and the answer is 200; a missing instance deletes the cluster and answers 200; another describe error gives 400; a wrong count gives 400; an instance-delete `DBInstanceNotFound` gives 404, another provider error 400 |
| Databases.DatabasesDelete | actions/databases.go:383-526 | unknown account: 400 with no call; otherwise the calls of the delete and the answer of `DeleteOutcome` |
| Snapshots.Preamble | actions/snapshots.go:32-47 | the handler proceeds exactly when the policy and the role assumption succeed; a policy error is handled by `handleError` |
| Snapshots.AssumeRoleFailureIsForbidden | actions/snapshots.go:44-47 | an assume-role failure gives 403 Forbidden "failed to assume role in account: <id>", in every snapshot handler (also lines 100-103, 158-161 and 209-212) |
| Snapshots.NotFoundIsNotUnwrapped | actions/snapshots.go:394-399 | a NotFound api error is recognised only unwrapped |
| Snapshots.PostClusterFirst | actions/snapshots.go:19-82 | an empty identifier gives 400 before the role is assumed; the cluster snapshot is tried first, the instance one only when it is nil, and both nil give 404 |
| Snapshots.DeleteClusterFirst | actions/snapshots.go:193-246 | the same order for deletion; a cluster-delete error is returned |
| Snapshots.ListItemsHeader | actions/snapshots.go:85-140 | `X-Items` counts the cluster snapshots when there are any, else the instance snapshots; the snapshots listed belong to the database; a failed cluster listing stops |
| Snapshots.GetToleratesNotFound | actions/snapshots.go:143-190 | NotFound errors of either lookup are tolerated; both NotFound gives 404; any other error is surfaced |
| Snapshots.PostSteps | actions/snapshots.go:19-82 | no describe is issued; the creates are at most the cluster snapshot then the instance snapshot, in that order; an empty identifier gives 400 with no create; a 200 carries exactly one of the two snapshots; past the account and role steps, a 404 is "Database not found" after both creates |
| Snapshots.DeleteSteps | actions/snapshots.go:193-246 | no describe is issued; the deletes are at most the cluster snapshot then the instance snapshot, in that order; a 200 carries exactly one of the two; past the account and role steps, a 404 is "Snapshot not found" after both deletes |
| Snapshots.ListSteps | actions/snapshots.go:85-140 | only the two describes filtered by the database are issued, cluster first; a 200 follows both, with `X-Items` the count of one of the two listings; past the account and role steps, any other outcome is the handled error of a describe that failed |
| Snapshots.GetSteps | actions/snapshots.go:143-190 | only the two lookups by snapshot identifier are issued, cluster first; a 200 carries at least one snapshot, each present exactly when its lookup succeeded; a 404 "snapshot not found" means both lookups failed |
| Snapshots.ClusterSnapshotGetFails | actions/snapshots.go:143-190 | with the lookup as written, a cluster snapshot whose id has no instance snapshot answers 500; with the intended lookup it is found |
| Snapshots.Contains | actions/snapshots.go:363-376 | `strings.Contains`: a prefix occurrence is found, and a found string fits |
| Snapshots.ContainsOccurrence | actions/snapshots.go:363-376 | `Contains` holds exactly when the string occurs at some position |
| Snapshots.RetainedAnywhere | actions/snapshots.go:363-376 | any identifier containing `final-spin` is retained |
| Snapshots.NonProd | actions/snapshots.go:361-390 | the sweep candidates are never more than the listing; which they are is `NonProdExactly`, their order `NonProdAppend` |
| Snapshots.NonProdExactly | actions/snapshots.go:361-390 | the candidates are exactly the identifiers without `final-spin` |
| Snapshots.NonProdAppend | actions/snapshots.go:361-390 | the candidates keep the listing's order: the candidates of a concatenation are the candidates of each part, concatenated |
| Snapshots.SweepFollowsNonProd | actions/snapshots.go:361-390 | the sweep deletes the candidates in listing order, stops at the first failure, and records each deleted snapshot |
| Snapshots.SweepKeepsError | actions/snapshots.go:361-390 | once a delete failed, later identifiers do not change the sweep |
| Snapshots.DeleteEach | actions/snapshots.go:361-390 | the loop computes exactly `Sweep` |
| Snapshots.ClusterSnapshotIds | actions/snapshots.go:361-363 | one identifier per cluster snapshot, in order |
| Snapshots.DbSnapshotIds | actions/snapshots.go:374-376 | one identifier per instance snapshot, in order |
| Snapshots.ClusterDeletes | actions/snapshots.go:364 | one cluster-snapshot delete per identifier, in order |
| Snapshots.DbDeletes | actions/snapshots.go:377 | one instance-snapshot delete per identifier, in order |
| Snapshots.DeleteNonProdListsFirst | actions/snapshots.go:320-354 | a failed listing is handled by `handleError` before any delete; the listings hold the whole inventory |
| Snapshots.DeleteNonProdDeletesExactly | actions/snapshots.go:361-390 | a clean sweep deletes exactly the non-`final-spin` cluster snapshots, then the non-`final-spin` instance snapshots; 404 exactly when there was nothing to delete |
| Snapshots.ClusterSweepStops | actions/snapshots.go:361-372 | a failed cluster sweep ends with the failing delete, after a prefix of the candidates |
| Snapshots.DbSweepStops | actions/snapshots.go:374-385 | the same for the instance sweep |
| Snapshots.DeleteNonProdStopsAtError | actions/snapshots.go:361-390 | an error answer follows a prefix of the planned deletes whose last one failed with that error |
| Snapshots.SweepSparesRetained | actions/snapshots.go:363-376 | no retained identifier is ever deleted |
| Snapshots.DeletesSpareRetained | actions/snapshots.go:363-377 | delete operations built from unretained identifiers are unretained |
| Snapshots.DeleteNonProdSparesFinal | actions/snapshots.go:361-390 | no `final-spin` snapshot is ever deleted |
| Snapshots.SnapshotsDeleteNonProd | actions/snapshots.go:320-392 | the handler issues the listings and deletes of `DeleteNonProdSteps` and answers as it does |
| Reconfig.Segments | docker/reconfig.rb:56 | a key has at least one segment |
| Reconfig.SegmentsJoin | docker/reconfig.rb:56 | joining the segments with "_" gives the key back, and no segment holds "_" |
| Reconfig.SegmentsOfWord | docker/reconfig.rb:56 | a word without "_" is one segment, and `a_b` starts with segment `a` |
| Reconfig.TrimTrailing | docker/reconfig.rb:56 | the result is a prefix of the segments that does not end in an empty segment, and every segment dropped is empty: exactly the trailing empties go, as Ruby's `split` drops them |
| Reconfig.Split | docker/reconfig.rb:56 | `split("_")` is the segments of the key with exactly the trailing empty segments removed |
| Reconfig.Store | docker/reconfig.rb:56-59 | a key that splits into nothing sets the nil key; any other key is stored at its split path, which raises exactly when that path is blocked, and is then found there with the nil key untouched |
| Reconfig.Insert | docker/reconfig.rb:57-59 | storing fails exactly when a proper prefix of the path holds a value; otherwise only the first segment's entry changes |
| Reconfig.InsertThenLookup | docker/reconfig.rb:57-59 | the stored value is found at its path |
| Reconfig.InsertKeepsOthers | docker/reconfig.rb:57-59 | every path diverging from the stored one keeps its value |
| Reconfig.InsertOverwrites | docker/reconfig.rb:59 | storing twice at one path is storing the last value |
| Reconfig.SingleSegmentAtTop | docker/reconfig.rb:56-59 | a key without "_" lands at the top level |
| Reconfig.NilKeyKeptApart | docker/reconfig.rb:56-59 | a key of separators only (stored under nil) and a key starting with "_" (stored below "") are kept apart in either order |
| Reconfig.BuildKeepsFailure | docker/reconfig.rb:55-60 | once an entry raised, the whole run raises |
| Reconfig.LastEntryWins | docker/reconfig.rb:55-60 | the last entry's value is under its key: the nil key, or its split path |
| Reconfig.Run | docker/reconfig.rb:42-66 | no argument: exit 1 with "No config file specified!"; not an array: exit 1 with "Cannot process config file …"; otherwise the nested configuration the entries build |
| Reconfig.ExampleShape | docker/reconfig.rb:5-35 | three `a_b_c` keys and one plain key give the two-level nesting of the documented example, for any words |
| Reconfig.DocumentedExample | docker/reconfig.rb:5-35 | the documented `accounts_test_region/key/secret` and `port` entries give the documented nested configuration |
| Decofy.Substitutions | docker/decofy.rb:21 | the map holds exactly the input keys |
| Decofy.LastOccurrenceWins | docker/decofy.rb:21 | every key holds the value of its last occurrence |
| Decofy.Wrap | docker/decofy.rb:7-21 | the output has exactly the shape `{"filters": {"config/config.json": M}}` |
| Decofy.Run | docker/decofy.rb:11-26 | no argument: exit 1 with "No config file specified!"; not an array: exit 1 with "Cannot process config file …"; otherwise the file is rewritten with the wrapped map the loop builds |
| Decofy.OutputShape | docker/decofy.rb:7-21 | whatever the input, the written document has the Deco shape and a key's last value |

## Left out

- HTTP plumbing: Buffalo routing and middleware wiring, `Bind`, `Render`, JSON output, logging,
  `defaultErrorHandler`, the ping and version handlers and `main.go`. Handlers answer with an
  `Outcome` value (render with a status, an HTTP error, or an error returned to the framework).
- bcrypt: the token comparison of `sharedTokenAuth` is the parameter `tokenMatches`.
- The AWS SDK: the provider is the abstract `Provider.Rds` and STS the function `sts` of
  `Role.Server`; request contexts, retries and pagination are not modelled. pkg/session and
  pkg/sts are not part of this model.
- The provider inventory is fixed: a create, modify, start, stop or delete is recorded in the log
  but does not change what later describes answer (no handler reads back what it changed).
- The session cache has no clock: the 600 s / 900 s expiry of the cache, concurrent access to it
  and the random session name are not modelled.
- The orchestrator's snapshot create and delete operations (not in these sources) are oracles
  given to the snapshot handlers; `SnapshotsVersionList` and `SnapshotModify` are not modelled, as
  they only pass provider answers through.
- Policy generation (actions/policy.go) and `mapAccountNumber`: the snapshot handlers receive the
  account id and the outcome of policy generation and role assumption (`Snapshots.Access`).
- Configuration loading (pkg/common/config.go): the accounts map and client defaults are inputs.
- The `[0]` index on an empty unfiltered describe during modify is a stop of its own
  (`EngineIndexPanicked`): no further call is issued and the run ends with Go's index-out-of-range
  runtime error. The web framework's recovery of the panic, which answers it like any error that
  is not an api error, is not part of this model.
- RdsTags.ArnsFromOutputs: the nil outputs of `DetermineArn`, which would panic, are a precondition
  (both outputs nil or both present).
- Orchestration.InstanceSteps: the compensating cluster delete passes the cluster spec's optional
  identifier as it is; Go dereferences it for a log line first and would panic on a nil identifier,
  which the provider already refuses when the cluster is created.
- Reconfig.Run: the nil key is kept apart from the string key "" (`Config.nilKey`), as Ruby's
  hash keeps it; that `JSON.pretty_generate` then writes both as members named "" is not modelled.
- Reconfig.Insert: storing through a proper prefix that holds a value is modelled as raising in
  every case. Ruby instead indexes into that value, with these outcomes, none of them modelled:
  when the value sits directly under the prefix and is a string, `[]=` replaces the first occurrence
  of the last segment inside it (`"abc"["b"] = "Z"` leaves `"aZc"`) and raises IndexError when the
  segment does not occur; a value of another non-Hash type raises (TypeError or NoMethodError); a
  Hash value (from a JSON-object `value`) accepts the nested store; when the value sits two or more
  segments above the end, string indexing yields a fresh copy, so the store, when it does not raise,
  changes only that copy and stores nothing. Entries whose `key` is not a string are not modelled.
- Ruby file I/O and JSON parsing, printing and writing: the scripts take the parsed document and
  give the document they would print or write.
- Orchestration.DeleteBranches, Orchestration.ClusterDeleteIsLast and
  Orchestration.FinalSnapshotNaming are stated for describe answers whose failure carries no
  instances, which every answer of `Provider.Rds` satisfies.

## Findings

| source | as written | input that shows it | evidently intended | confidence | as-written member | corrected member |
|---|---|---|---|---|---|---|
| actions/orchestration.go:113-116 | a modify that defaults a cluster's parameter group takes the engine from the first cluster of an unfiltered describe, which lists every cluster of the account, not the one being modified (lines 144-147 do the same for instances) | an account whose first listed cluster runs another engine than the cluster named `id`, modified with an engine version and no parameter group | describe the cluster named `id` and take its engine | not executed | Orchestration.ModifyEngineFromFirstCluster | Orchestration.IntendedEngineIsTheDatabases |
| pkg/rds/snapshots.go:38-42 | the instance-snapshot lookup reports NotFound when the provider code is NOT `DBSnapshotNotFoundFault`, so a missing snapshot falls through to the count check and becomes InternalError "expected 1 snapshot but found 0", while a throttling error becomes NotFound | describe-db-snapshots failing with `DBSnapshotNotFoundFault` (or with `Throttling`) | the same comparison as the cluster lookup (line 19): NotFound exactly for `DBSnapshotNotFoundFault`, other errors unchanged; `SnapshotsGet` on a cluster-snapshot id then answers 200 instead of 500 | not executed | RdsSnapshots.InstanceLookupInverted | RdsSnapshots.DescribeDBSnapshotIntended |
