/** The ESS adapter for one regional scaling group: each operation builds
    one request, makes one client call and reads the answer. */
module Ess {
  import opened Common
  import opened Sdk

  /** A scaling group in a region. Its id is what `getId` reports. */
  datatype ScalingGroup = ScalingGroup(region: string, id: string)

  // ---- Requests (one per operation) ----

  function GroupsRequest(sg: ScalingGroup): DescribeScalingGroupsRequest
  {
    DescribeScalingGroupsRequest(sg.region, [sg.id])
  }

  function InstancesRequest(sg: ScalingGroup): DescribeScalingInstancesRequest
  {
    DescribeScalingInstancesRequest(sg.region, sg.id)
  }

  function ResizeRequest(sg: ScalingGroup, num: Int32): ScaleWithAdjustmentRequest
  {
    ScaleWithAdjustmentRequest(sg.id, "TotalCapacity", num)
  }

  function RemoveRequest(sg: ScalingGroup, instanceIds: seq<string>): RemoveInstancesRequest
  {
    RemoveInstancesRequest(sg.id, instanceIds)
  }

  function ActivitiesRequest(sg: ScalingGroup, scalingActivityId: string): DescribeScalingActivitiesRequest
  {
    DescribeScalingActivitiesRequest(sg.region, sg.id, [scalingActivityId])
  }

  // ---- Status ----

  /** What `status` returns: whether the group is stable, its capacity, and an error. */
  datatype GroupStatus = GroupStatus(stable: bool, currentCount: Int32, err: Option<Error>)

  /** The lookup of the group by its id found exactly one group. */
  predicate FoundOne(res: Result<DescribeScalingGroupsBody>)
  {
    res.Ok? && res.value.totalCount == 1
  }

  function Status(sg: ScalingGroup, client: Client): (s: GroupStatus)
    ensures var res := client.describeScalingGroups(GroupsRequest(sg));
      && (s.err.None? <==> FoundOne(res))
      && (s.err.Some? ==> !s.stable && s.currentCount == -1)
      && (res.Err? ==> s.err == Some(res.error))
      && (res.Ok? && res.value.totalCount != 1 ==> s.err == Some(ScalingGroupNotFound(sg.id)))
      && (FoundOne(res) ==>
            (s.stable <==> res.value.scalingGroups[0].lifecycleState == "Active")
            && s.currentCount == res.value.scalingGroups[0].totalCapacity)
  {
    var res := client.describeScalingGroups(GroupsRequest(sg));
    if res.Err? then GroupStatus(false, -1, Some(res.error))
    else if res.value.totalCount != 1 then GroupStatus(false, -1, Some(ScalingGroupNotFound(sg.id)))
    else
      var group := res.value.scalingGroups[0];
      GroupStatus(group.lifecycleState == "Active", group.totalCapacity, None)
  }

  // ---- Instances, resize, removal ----

  function ListInstances(sg: ScalingGroup, client: Client): (r: Result<seq<ScalingInstance>>)
    ensures var res := client.describeScalingInstances(InstancesRequest(sg));
      && (r.Ok? <==> res.Ok?)
      && (res.Err? ==> r.error == res.error)
      && (res.Ok? ==> r.value == res.value.scalingInstances)
  {
    var res := client.describeScalingInstances(InstancesRequest(sg));
    if res.Err? then Err(res.error) else Ok(res.value.scalingInstances)
  }

  /** Sets the group's total capacity to `num`; the result is the id of the activity doing it. */
  function Resize(sg: ScalingGroup, client: Client, num: Int32): (r: Result<string>)
    ensures var res := client.scaleWithAdjustment(ScaleWithAdjustmentRequest(sg.id, "TotalCapacity", num));
      && (r.Ok? <==> res.Ok?)
      && (res.Err? ==> r.error == res.error)
      && (res.Ok? ==> r.value == res.value.scalingActivityId)
  {
    var res := client.scaleWithAdjustment(ResizeRequest(sg, num));
    if res.Err? then Err(res.error) else Ok(res.value.scalingActivityId)
  }

  /** Removes exactly `instanceIds` from the group; the result is the id of the activity doing it. */
  function DeleteInstances(sg: ScalingGroup, client: Client, instanceIds: seq<string>): (r: Result<string>)
    ensures var res := client.removeInstances(RemoveInstancesRequest(sg.id, instanceIds));
      && (r.Ok? <==> res.Ok?)
      && (res.Err? ==> r.error == res.error)
      && (res.Ok? ==> r.value == res.value.scalingActivityId)
  {
    var res := client.removeInstances(RemoveRequest(sg, instanceIds));
    if res.Err? then Err(res.error) else Ok(res.value.scalingActivityId)
  }

  // ---- Activity status ----

  /** What `scalingActivityStatus` returns: whether the activity is done, and an error. */
  datatype ActivityStatus = ActivityStatus(done: bool, err: Option<Error>)

  /** The activity lookup found exactly one activity and it is at 100%. */
  predicate ActivityDone(res: Result<DescribeScalingActivitiesBody>)
  {
    res.Ok? && res.value.totalCount == 1 && res.value.scalingActivities[0].progress == 100
  }

  function ScalingActivityStatus(sg: ScalingGroup, client: Client, scalingActivityId: string): (s: ActivityStatus)
    ensures var res := client.describeScalingActivities(ActivitiesRequest(sg, scalingActivityId));
      && (s.err.None? <==> res.Ok? && res.value.totalCount == 1)
      && (s.done <==> ActivityDone(res))
      && (s.done ==> s.err.None?)
      && (res.Err? ==> s.err == Some(res.error))
      && (res.Ok? && res.value.totalCount != 1 ==> s.err == Some(ScalingActivityNotFound(scalingActivityId)))
  {
    var res := client.describeScalingActivities(ActivitiesRequest(sg, scalingActivityId));
    if res.Err? then ActivityStatus(false, Some(res.error))
    else if res.value.totalCount != 1 then ActivityStatus(false, Some(ScalingActivityNotFound(scalingActivityId)))
    else ActivityStatus(res.value.scalingActivities[0].progress == 100, None)
  }
}
