/** The foreign surfaces the plugin talks to, as values: the request and
    response records of the ESS SDK, an ESS client whose every call is an
    oracle (a total function from the request to the response), Nomad's
    node record, the Nomad scaling utilities, and the trace of calls the
    plugin makes across these boundaries. Nothing here carries behaviour
    of the plugin itself. */
module Sdk {
  import opened Common

  // ---- ESS requests ----

  datatype DescribeScalingGroupsRequest =
    DescribeScalingGroupsRequest(regionId: string, scalingGroupIds: seq<string>)

  datatype DescribeScalingInstancesRequest =
    DescribeScalingInstancesRequest(regionId: string, scalingGroupId: string)

  datatype ScaleWithAdjustmentRequest =
    ScaleWithAdjustmentRequest(scalingGroupId: string, adjustmentType: string, adjustmentValue: Int32)

  datatype RemoveInstancesRequest =
    RemoveInstancesRequest(scalingGroupId: string, instanceIds: seq<string>)

  datatype DescribeScalingActivitiesRequest =
    DescribeScalingActivitiesRequest(regionId: string, scalingGroupId: string, scalingActivityIds: seq<string>)

  // ---- ESS response bodies ----
  // A nil string or int32 pointer in a response reads as "" or 0, which is
  // what the SDK's value accessors return for it.

  datatype ScalingGroupRecord = ScalingGroupRecord(lifecycleState: string, totalCapacity: Int32)

  datatype GroupsBody = GroupsBody(totalCount: Int32, scalingGroups: seq<ScalingGroupRecord>)

  /** A body that reports one match also carries that match. */
  type DescribeScalingGroupsBody = b: GroupsBody | b.totalCount != 1 || |b.scalingGroups| > 0
    witness GroupsBody(0, [])

  datatype ScalingInstance = ScalingInstance(instanceId: string, healthStatus: string, lifecycleState: string)

  datatype DescribeScalingInstancesBody = DescribeScalingInstancesBody(scalingInstances: seq<ScalingInstance>)

  datatype ScaleWithAdjustmentBody = ScaleWithAdjustmentBody(scalingActivityId: string)

  datatype RemoveInstancesBody = RemoveInstancesBody(scalingActivityId: string)

  datatype ScalingActivityRecord = ScalingActivityRecord(progress: Int32)

  datatype ActivitiesBody = ActivitiesBody(totalCount: Int32, scalingActivities: seq<ScalingActivityRecord>)

  /** A body that reports one match also carries that match. */
  type DescribeScalingActivitiesBody = b: ActivitiesBody | b.totalCount != 1 || |b.scalingActivities| > 0
    witness ActivitiesBody(0, [])

  /** The SDK settings the client is built from. */
  datatype ClientConfig = ClientConfig(accessKeyId: string, accessKeySecret: string, endpoint: string)

  /** An ESS client: what the remote side answers to each request. */
  datatype Client = Client(
    describeScalingGroups: DescribeScalingGroupsRequest -> Result<DescribeScalingGroupsBody>,
    describeScalingInstances: DescribeScalingInstancesRequest -> Result<DescribeScalingInstancesBody>,
    scaleWithAdjustment: ScaleWithAdjustmentRequest -> Result<ScaleWithAdjustmentBody>,
    removeInstances: RemoveInstancesRequest -> Result<RemoveInstancesBody>,
    describeScalingActivities: DescribeScalingActivitiesRequest -> Result<DescribeScalingActivitiesBody>)

  // ---- Nomad ----

  /** A Nomad node; only its attributes matter here. */
  datatype Node = Node(attributes: map<string, string>)

  /** A node chosen for removal and the remote instance behind it. */
  datatype NodeResourceID = NodeResourceID(nomadNodeId: string, remoteResourceId: string)

  /** The Nomad scaling utilities: node-pool readiness, the draining that
      precedes a scale-in (which selects the nodes to remove among the
      remote ids it is given), the clean-up after it, and the callback that
      maps a node to its remote id. */
  datatype ClusterUtils = ClusterUtils(
    isPoolReady: map<string, string> -> Result<bool>,
    runPreScaleInTasksWithRemoteCheck: (map<string, string>, seq<string>, int) -> Result<seq<NodeResourceID>>,
    runPostScaleInTasks: (map<string, string>, seq<NodeResourceID>) -> Option<Error>,
    clusterNodeIdLookupFunc: Node -> Result<string>)

  /** One call made across the plugin's boundary, with its arguments. */
  datatype Event =
    | DescribeScalingGroups(groupsRequest: DescribeScalingGroupsRequest)
    | DescribeScalingInstances(instancesRequest: DescribeScalingInstancesRequest)
    | ScaleWithAdjustment(adjustmentRequest: ScaleWithAdjustmentRequest)
    | RemoveInstances(removeRequest: RemoveInstancesRequest)
      /** The retry helper run with a predicate that polls with `pollRequest`. */
    | RetryUntilDone(pollRequest: DescribeScalingActivitiesRequest, intervalSeconds: nat, limit: nat)
    | IsPoolReady(poolConfig: map<string, string>)
    | RunPreScaleInTasks(preConfig: map<string, string>, remoteIds: seq<string>, count: int)
    | RunPostScaleInTasks(postConfig: map<string, string>, nodes: seq<NodeResourceID>)
}
