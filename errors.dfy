/**
 * The provider-error classifier of actions/errors.go: `ErrCode(msg, err)` turns any error into an
 * API error whose code is one of five kinds. The provider code of the error's cause is looked up in
 * four fixed code tables; an unknown provider code becomes BadRequest with the provider's message
 * appended, and an error without a provider code becomes InternalError.
 */
module Errors {
  import opened Wrappers
  import opened ErrorValues

  /** Capacity, invalid-state, KMS, restore, IOPS and storage-type faults (first case list). */
  const InternalCodes: set<string> := {
    "InsufficientDBClusterCapacityFault", "InsufficientDBInstanceCapacity",
    "InsufficientStorageClusterCapacity", "InvalidDBClusterEndpointStateFault",
    "InvalidDBClusterSnapshotStateFault", "InvalidDBClusterStateFault",
    "InvalidDBInstanceAutomatedBackupState", "InvalidDBInstanceState",
    "InvalidDBParameterGroupState", "InvalidDBProxyStateFault", "InvalidDBSecurityGroupState",
    "InvalidDBSnapshotState", "InvalidDBSubnetGroupFault", "InvalidDBSubnetGroupStateFault",
    "InvalidDBSubnetStateFault", "InvalidEventSubscriptionState", "InvalidExportOnly",
    "InvalidExportSourceState", "InvalidExportTaskStateFault", "InvalidGlobalClusterStateFault",
    "InvalidOptionGroupStateFault", "InvalidRestoreFault", "InvalidS3BucketFault",
    "InvalidVPCNetworkStateFault", "KMSKeyNotAccessibleFault", "PointInTimeRestoreNotEnabled",
    "ProvisionedIopsNotAvailableInAZFault", "StorageTypeNotSupported"
  }

  /** The "already exists" faults, plus SubnetAlreadyInUse. */
  const ConflictCodes: set<string> := {
    "AuthorizationAlreadyExists", "CustomAvailabilityZoneAlreadyExists",
    "DBClusterAlreadyExistsFault", "DBClusterEndpointAlreadyExistsFault",
    "DBClusterRoleAlreadyExists", "DBClusterSnapshotAlreadyExistsFault", "DBInstanceAlreadyExists",
    "DBInstanceRoleAlreadyExists", "DBParameterGroupAlreadyExists", "DBProxyTargetExistsFault",
    "DBSecurityGroupAlreadyExists", "DBSnapshotAlreadyExists", "DBSubnetGroupAlreadyExists",
    "ExportTaskAlreadyExists", "GlobalClusterAlreadyExistsFault", "OptionGroupAlreadyExistsFault",
    "ReservedDBInstanceAlreadyExists", "SubnetAlreadyInUse", "SubscriptionAlreadyExist"
  }

  /** The "not found" faults. */
  const NotFoundCodes: set<string> := {
    "DBClusterNotFoundFault", "DBClusterSnapshotNotFoundFault", "DBInstanceAutomatedBackupNotFound",
    "DBInstanceNotFound", "GlobalClusterNotFoundFault", "ReservedDBInstanceNotFound",
    "ReservedDBInstancesOfferingNotFound", "ResourceNotFoundFault"
  }

  /** The "quota exceeded" faults. */
  const LimitCodes: set<string> := {
    "AuthorizationQuotaExceeded", "CustomAvailabilityZoneQuotaExceeded",
    "DBClusterEndpointQuotaExceededFault", "DBClusterQuotaExceededFault",
    "DBClusterRoleQuotaExceeded", "DBInstanceAutomatedBackupQuotaExceeded",
    "DBInstanceRoleQuotaExceeded", "DBParameterGroupQuotaExceeded", "QuotaExceeded.DBSecurityGroup",
    "DBSubnetGroupQuotaExceeded", "DBSubnetQuotaExceededFault", "EventSubscriptionQuotaExceeded",
    "GlobalClusterQuotaExceededFault", "InstanceQuotaExceeded", "OptionGroupQuotaExceededFault",
    "ReservedDBInstanceQuotaExceeded", "SharedSnapshotQuotaExceeded", "SnapshotQuotaExceeded",
    "StorageQuotaExceeded"
  }

  // One lemma per pair of tables keeps each proof small.
  lemma InternalConflictDisjoint() ensures InternalCodes !! ConflictCodes {}
  lemma InternalNotFoundDisjoint() ensures InternalCodes !! NotFoundCodes {}
  lemma InternalLimitDisjoint() ensures InternalCodes !! LimitCodes {}
  lemma ConflictNotFoundDisjoint() ensures ConflictCodes !! NotFoundCodes {}
  lemma ConflictLimitDisjoint() ensures ConflictCodes !! LimitCodes {}
  lemma NotFoundLimitDisjoint() ensures NotFoundCodes !! LimitCodes {}

  /** The four tables are pairwise disjoint, so every provider code has at most one kind. */
  lemma CodeTablesDisjoint()
    ensures InternalCodes !! ConflictCodes && InternalCodes !! NotFoundCodes
    ensures InternalCodes !! LimitCodes && ConflictCodes !! NotFoundCodes
    ensures ConflictCodes !! LimitCodes && NotFoundCodes !! LimitCodes
  {
    InternalConflictDisjoint();
    InternalNotFoundDisjoint();
    InternalLimitDisjoint();
    ConflictNotFoundDisjoint();
    ConflictLimitDisjoint();
    NotFoundLimitDisjoint();
  }

  /** Every code any table names. */
  function KnownCodes(): set<string> {
    InternalCodes + ConflictCodes + NotFoundCodes + LimitCodes
  }

  /**
   * `ErrCode(msg, err)`. The cause of `err` (after `errors.Cause`) is inspected; an internal fault
   * keeps the ORIGINAL error as cause, the conflict / not-found / limit kinds keep the provider error.
   */
  function ErrCode(msg: string, err: Error): (r: Error)
    ensures r.Api? && r.cause.Some?
    ensures r.apiCode in {InternalError, Conflict, NotFound, LimitExceeded, BadRequest}
    ensures var c := Cause(err);
      c.Provider? && c.code in InternalCodes ==> r == Api(InternalError, msg, Some(err))
    ensures var c := Cause(err);
      c.Provider? && c.code in ConflictCodes ==> r == Api(Conflict, msg, Some(c))
    ensures var c := Cause(err);
      c.Provider? && c.code in NotFoundCodes ==> r == Api(NotFound, msg, Some(c))
    ensures var c := Cause(err);
      c.Provider? && c.code in LimitCodes ==> r == Api(LimitExceeded, msg, Some(c))
    ensures var c := Cause(err);
      c.Provider? && c.code !in KnownCodes() ==>
        r == Api(BadRequest, msg + ": " + c.providerMessage, Some(c))
    ensures !Cause(err).Provider? ==> r == Api(InternalError, msg, Some(err))
    ensures r.apiCode != BadRequest <==> r.message == msg
  {
    CodeTablesDisjoint();
    var c := Cause(err);
    if !c.Provider? then Api(InternalError, msg, Some(err))
    else if c.code in InternalCodes then Api(InternalError, msg, Some(err))
    else if c.code in ConflictCodes then Api(Conflict, msg, Some(c))
    else if c.code in NotFoundCodes then Api(NotFound, msg, Some(c))
    else if c.code in LimitCodes then Api(LimitExceeded, msg, Some(c))
    else Api(BadRequest, msg + ": " + c.providerMessage, Some(c))
  }

  /** Wrapping an error with context does not change how it is classified. */
  lemma ErrCodeIgnoresWrapping(msg: string, context: string, err: Error)
    ensures ErrCode(msg, Wrapped(context, err)).apiCode == ErrCode(msg, err).apiCode
    ensures ErrCode(msg, Wrapped(context, err)).message == ErrCode(msg, err).message
  {
  }

  /** The two codes the source's comments single out. */
  lemma ErrCodeExamples(msg: string, text: string)
    ensures ErrCode(msg, Provider("InsufficientDBInstanceCapacity", text)).apiCode == InternalError
    ensures ErrCode(msg, Provider("QuotaExceeded.DBSecurityGroup", text)).apiCode == LimitExceeded
    ensures ErrCode(msg, Provider("DBInstanceNotFound", text)).apiCode == NotFound
    ensures ErrCode(msg, Provider("SubnetAlreadyInUse", text)) == Api(Conflict, msg, Some(Provider("SubnetAlreadyInUse", text)))
  {
  }
}
