/**
 * The request inputs of the database endpoints (actions/databases.go): the provider inputs for a
 * new cluster and/or instance, and the changes for an existing one. The orchestration fills in
 * defaults and identifiers in place, so they are objects.
 */
module DatabaseInputs {
  import opened Wrappers
  import opened Provider

  /** `DatabaseCreateInput`: an optional cluster and an optional instance to create. */
  class DatabaseCreateInput {
    var cluster: Option<ClusterSpec>
    var instance: Option<InstanceSpec>

    constructor (cluster: Option<ClusterSpec>, instance: Option<InstanceSpec>)
      ensures this.cluster == cluster && this.instance == instance
    {
      this.cluster := cluster;
      this.instance := instance;
    }
  }

  /** `DatabaseModifyInput`: optional cluster and instance changes and an optional (nil-able) tag list. */
  class DatabaseModifyInput {
    var cluster: Option<Change>
    var instance: Option<Change>
    var tags: Option<seq<RdsTag>>

    constructor (cluster: Option<Change>, instance: Option<Change>, tags: Option<seq<RdsTag>>)
      ensures this.cluster == cluster && this.instance == instance && this.tags == tags
    {
      this.cluster := cluster;
      this.instance := instance;
      this.tags := tags;
    }
  }
}
