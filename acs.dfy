/** The scale-execution steps of the plugin: building the ESS client
    settings, mapping a Nomad node to its instance, the activity-polling
    predicate, scale-out, and the scale-in that drains nodes before their
    instances are removed. The plugin's client and Nomad utilities are
    passed in explicitly. */
module Acs {
  import opened Common
  import opened Sdk
  import Ess

  const DefaultRetryIntervalSeconds: nat := 10
  const DefaultRetryLimit: nat := 15

  /** The ESS endpoint used unless the configuration names another. */
  const AcsEndpoint: string := "ess.aliyuncs.com"

  /** The node attribute that holds the node's instance id. */
  const NodeHostname: string := "unique.hostname"

  /** What one call, or a sequence of calls, left behind: an error or none,
      and the calls made across the plugin's boundary, in order. */
  datatype Outcome = Outcome(err: Option<Error>, trace: seq<Event>)

  // ---- Client set-up ----

  /** A configuration value, or "" when the key is absent. */
  function ValueOrEmpty(config: map<string, string>, key: string): string
  {
    if key in config then config[key] else ""
  }

  /** The settings the ESS client is built from. */
  function AcsClientConfig(config: map<string, string>): (c: ClientConfig)
    ensures c.endpoint == if ConfigEndpoint in config then config[ConfigEndpoint] else AcsEndpoint
    ensures c.accessKeyId == ValueOrEmpty(config, ConfigAccessKeyId)
    ensures c.accessKeySecret == ValueOrEmpty(config, ConfigAccessKeySecret)
  {
    ClientConfig(
      ValueOrEmpty(config, ConfigAccessKeyId),
      ValueOrEmpty(config, ConfigAccessKeySecret),
      if ConfigEndpoint in config then config[ConfigEndpoint] else AcsEndpoint)
  }

  /** Builds the ESS client with `newClient`. Only a failure of `newClient`
      is an error: absent credentials are not. */
  function SetupAcsClients(config: map<string, string>, newClient: ClientConfig -> Result<Client>): (r: Result<Client>)
    ensures var built := newClient(AcsClientConfig(config));
      && (r.Ok? <==> built.Ok?)
      && (built.Ok? ==> r.value == built.value)
      && (built.Err? ==> r.error == Failed(CreateClient, built.error))
  {
    var built := newClient(AcsClientConfig(config));
    if built.Err? then Err(Failed(CreateClient, built.error)) else built
  }

  lemma MissingCredentialsAccepted(config: map<string, string>, newClient: ClientConfig -> Result<Client>)
    requires ConfigAccessKeyId !in config && ConfigAccessKeySecret !in config
    requires newClient(ClientConfig("", "", AcsClientConfig(config).endpoint)).Ok?
    ensures SetupAcsClients(config, newClient).Ok?
  {
  }

  // ---- Nomad node to instance ----

  function AcsNodeIdMap(n: Node): (r: Result<string>)
    ensures r.Ok? <==> NodeHostname in n.attributes
    ensures r.Ok? ==> r.value == n.attributes[NodeHostname]
    ensures r.Err? ==> r.error == AttributeNotFound("unique.hostname")
  {
    if NodeHostname in n.attributes then Ok(n.attributes[NodeHostname])
    else Err(AttributeNotFound(NodeHostname))
  }

  // ---- Waiting for an activity ----

  /** One evaluation of the polling predicate: stop or go on, and the error. */
  datatype Poll = Poll(done: bool, err: Option<Error>)

  /** The predicate handed to the retry helper: it stops on an error or on a
      finished activity, and otherwise asks to be polled again. */
  function PollCheck(sg: Ess.ScalingGroup, client: Client, scalingActivityId: string): (p: Poll)
    ensures var s := Ess.ScalingActivityStatus(sg, client, scalingActivityId);
      && (s.err.Some? ==> p == Poll(true, s.err))
      && (s.done ==> p == Poll(true, None))
      && (!s.done && s.err.None? ==> p == Poll(false, Some(StillWaiting)))
    ensures p.done || p.err.Some?
    ensures p == Poll(true, None) <==>
      Ess.ActivityDone(client.describeScalingActivities(Ess.ActivitiesRequest(sg, scalingActivityId)))
  {
    var s := Ess.ScalingActivityStatus(sg, client, scalingActivityId);
    if s.done || s.err.Some? then Poll(true, s.err) else Poll(false, Some(StillWaiting))
  }

  /** The retry helper's result when it polls activity `id` of group `sg`
      through `client` with the given interval (seconds) and attempt limit.
      How it loops is not part of this model. */
  type Retry = (Client, Ess.ScalingGroup, string, nat, nat) -> Option<Error>

  /** The retry helper reports success only after the predicate stopped
      without an error. */
  ghost predicate ConfirmsOnlyDone(retry: Retry)
  {
    forall client, sg, id, interval, limit :: retry(client, sg, id, interval, limit).None? ==>
      PollCheck(sg, client, id) == Poll(true, None)
  }

  /** The call to the retry helper made to wait for activity `id`. */
  function AwaitCall(sg: Ess.ScalingGroup, id: string): Event
  {
    RetryUntilDone(Ess.ActivitiesRequest(sg, id), DefaultRetryIntervalSeconds, DefaultRetryLimit)
  }

  /** Waits for activity `id`: the retry helper, run with `PollCheck` every
      10 seconds for at most 15 attempts. When the helper confirms only
      finished polls, a confirmed wait means the activity reached 100%. */
  function EnsureScalingActivityIsDone(sg: Ess.ScalingGroup, client: Client, retry: Retry, id: string): (r: Option<Error>)
    ensures r == retry(client, sg, id, 10, 15)
    ensures ConfirmsOnlyDone(retry) && r.None? ==>
      Ess.ActivityDone(client.describeScalingActivities(DescribeScalingActivitiesRequest(sg.region, sg.id, [id])))
  {
    retry(client, sg, id, DefaultRetryIntervalSeconds, DefaultRetryLimit)
  }

  // ---- Scale-out ----

  /** Sets the group's total capacity to `num` and waits for the activity. */
  function ScaleOut(sg: Ess.ScalingGroup, client: Client, retry: Retry, num: Int32): (o: Outcome)
    ensures |o.trace| >= 1
    ensures o.trace[0] == ScaleWithAdjustment(ScaleWithAdjustmentRequest(sg.id, "TotalCapacity", num))
    ensures var resized := Ess.Resize(sg, client, num);
      && (resized.Err? ==> |o.trace| == 1 && o.err == Some(Failed(ScaleOutGroup, resized.error)))
      && (resized.Ok? ==>
            var waited := retry(client, sg, resized.value, 10, 15);
            && o.trace == [o.trace[0], RetryUntilDone(DescribeScalingActivitiesRequest(sg.region, sg.id, [resized.value]), 10, 15)]
            && (waited.None? ==> o.err.None?)
            && (waited.Some? ==> o.err == Some(Failed(ConfirmScaleOut, waited.value))))
  {
    var call := ScaleWithAdjustment(Ess.ResizeRequest(sg, num));
    var resized := Ess.Resize(sg, client, num);
    if resized.Err? then Outcome(Some(Failed(ScaleOutGroup, resized.error)), [call])
    else
      var waited := EnsureScalingActivityIsDone(sg, client, retry, resized.value);
      var trace := [call, AwaitCall(sg, resized.value)];
      if waited.Some? then Outcome(Some(Failed(ConfirmScaleOut, waited.value)), trace)
      else Outcome(None, trace)
  }

  lemma ScaleOutSuccessMeansActivityDone(sg: Ess.ScalingGroup, client: Client, retry: Retry, num: Int32)
    requires ConfirmsOnlyDone(retry)
    ensures ScaleOut(sg, client, retry, num).err.None? ==>
      var resized := Ess.Resize(sg, client, num);
      resized.Ok? && Ess.ActivityDone(client.describeScalingActivities(Ess.ActivitiesRequest(sg, resized.value)))
  {
  }

  // ---- Scale-in ----

  /** An instance may be removed only when it is healthy and in service. */
  predicate IsEligible(inst: ScalingInstance)
  {
    inst.healthStatus == "Healthy" && inst.lifecycleState == "InService"
  }

  /** The ids of the eligible instances, in listing order. */
  function EligibleIds(instances: seq<ScalingInstance>): (ids: seq<string>)
    ensures |ids| <= |instances|
    ensures forall id :: id in ids ==>
      exists i :: 0 <= i < |instances| && IsEligible(instances[i]) && instances[i].instanceId == id
    ensures forall i :: 0 <= i < |instances| && IsEligible(instances[i]) ==> instances[i].instanceId in ids
  {
    if instances == [] then []
    else
      var last := instances[|instances| - 1];
      EligibleIds(instances[..|instances| - 1]) + if IsEligible(last) then [last.instanceId] else []
  }

  /** The filter keeps listing order: the eligible ids of a concatenation are
      those of the first part followed by those of the second. */
  lemma {:induction false} EligibleIdsAppend(a: seq<ScalingInstance>, b: seq<ScalingInstance>)
    ensures EligibleIds(a + b) == EligibleIds(a) + EligibleIds(b)
    decreases |b|
  {
    if b == [] {
      assert a + b == a;
    } else {
      var init := b[..|b| - 1];
      assert (a + b)[..|a + b| - 1] == a + init;
      assert (a + b)[|a + b| - 1] == b[|b| - 1];
      EligibleIdsAppend(a, init);
    }
  }

  /** One instance contributes its id exactly when it is eligible. */
  lemma EligibleIdsOne(inst: ScalingInstance)
    ensures EligibleIds([inst]) == if IsEligible(inst) then [inst.instanceId] else []
  {
  }

  /** The instance ids behind the selected nodes, in selection order. */
  function RemoteResourceIds(nodes: seq<NodeResourceID>): (ids: seq<string>)
    ensures |ids| == |nodes|
    ensures forall i :: 0 <= i < |nodes| ==> ids[i] == nodes[i].remoteResourceId
  {
    if nodes == [] then []
    else RemoteResourceIds(nodes[..|nodes| - 1]) + [nodes[|nodes| - 1].remoteResourceId]
  }

  /** Scale-in, step by step: list, drain, remove, wait, clean up. Each step
      runs only when the one before succeeded, and the trace ends at the
      first failure. */
  function ScaleInSpec(sg: Ess.ScalingGroup, client: Client, utils: ClusterUtils, retry: Retry,
                       num: Int32, config: map<string, string>): (o: Outcome)
    ensures 1 <= |o.trace| <= 5
    ensures o.trace[0] == DescribeScalingInstances(DescribeScalingInstancesRequest(sg.region, sg.id))
    ensures var listed := Ess.ListInstances(sg, client);
      && (listed.Err? <==> |o.trace| == 1)
      && (listed.Err? ==> o.err == Some(Failed(ListGroupInstances, listed.error)))
    ensures |o.trace| >= 2 ==>
      var candidates := EligibleIds(Ess.ListInstances(sg, client).value);
      var selected := utils.runPreScaleInTasksWithRemoteCheck(config, candidates, num as int);
      && o.trace[1] == RunPreScaleInTasks(config, candidates, num as int)
      && (selected.Err? <==> |o.trace| == 2)
      && (selected.Err? ==> o.err == Some(Failed(PreScaleInTasks, selected.error)))
    ensures |o.trace| >= 3 ==>
      var selected := utils.runPreScaleInTasksWithRemoteCheck(
        config, EligibleIds(Ess.ListInstances(sg, client).value), num as int).value;
      var removed := Ess.DeleteInstances(sg, client, RemoteResourceIds(selected));
      && o.trace[2] == RemoveInstances(RemoveInstancesRequest(sg.id, RemoteResourceIds(selected)))
      && (removed.Err? <==> |o.trace| == 3)
      && (removed.Err? ==> o.err == Some(Failed(RemoveGroupInstances, removed.error)))
    ensures |o.trace| >= 4 ==>
      var selected := utils.runPreScaleInTasksWithRemoteCheck(
        config, EligibleIds(Ess.ListInstances(sg, client).value), num as int).value;
      var activity := Ess.DeleteInstances(sg, client, RemoteResourceIds(selected)).value;
      var waited := retry(client, sg, activity, 10, 15);
      && o.trace[3] == RetryUntilDone(DescribeScalingActivitiesRequest(sg.region, sg.id, [activity]), 10, 15)
      && (waited.Some? <==> |o.trace| == 4)
      && (waited.Some? ==> o.err == Some(Failed(ConfirmScaleIn, waited.value)))
    ensures |o.trace| == 5 ==>
      var selected := utils.runPreScaleInTasksWithRemoteCheck(
        config, EligibleIds(Ess.ListInstances(sg, client).value), num as int).value;
      var cleaned := utils.runPostScaleInTasks(config, selected);
      && o.trace[4] == RunPostScaleInTasks(config, selected)
      && (cleaned.None? ==> o.err.None?)
      && (cleaned.Some? ==> o.err == Some(Failed(PostScaleInTasks, cleaned.value)))
    ensures o.err.None? ==> |o.trace| == 5
  {
    var listCall := DescribeScalingInstances(Ess.InstancesRequest(sg));
    var listed := Ess.ListInstances(sg, client);
    if listed.Err? then Outcome(Some(Failed(ListGroupInstances, listed.error)), [listCall])
    else
      var candidates := EligibleIds(listed.value);
      var preCall := RunPreScaleInTasks(config, candidates, num as int);
      var selected := utils.runPreScaleInTasksWithRemoteCheck(config, candidates, num as int);
      if selected.Err? then Outcome(Some(Failed(PreScaleInTasks, selected.error)), [listCall, preCall])
      else
        var instanceIds := RemoteResourceIds(selected.value);
        var removeCall := RemoveInstances(Ess.RemoveRequest(sg, instanceIds));
        var removed := Ess.DeleteInstances(sg, client, instanceIds);
        if removed.Err? then
          Outcome(Some(Failed(RemoveGroupInstances, removed.error)), [listCall, preCall, removeCall])
        else
          var awaitCall := AwaitCall(sg, removed.value);
          var waited := EnsureScalingActivityIsDone(sg, client, retry, removed.value);
          if waited.Some? then
            Outcome(Some(Failed(ConfirmScaleIn, waited.value)), [listCall, preCall, removeCall, awaitCall])
          else
            var postCall := RunPostScaleInTasks(config, selected.value);
            var cleaned := utils.runPostScaleInTasks(config, selected.value);
            var trace := [listCall, preCall, removeCall, awaitCall, postCall];
            if cleaned.Some? then Outcome(Some(Failed(PostScaleInTasks, cleaned.value)), trace)
            else Outcome(None, trace)
  }

  /** Collects the eligible instance ids and then the instance ids of the
      selected nodes with loops, as the plugin does, between the calls. */
  method ScaleIn(sg: Ess.ScalingGroup, client: Client, utils: ClusterUtils, retry: Retry,
                 num: Int32, config: map<string, string>) returns (err: Option<Error>, trace: seq<Event>)
    ensures Outcome(err, trace) == ScaleInSpec(sg, client, utils, retry, num, config)
  {
    trace := [DescribeScalingInstances(Ess.InstancesRequest(sg))];
    var listed := Ess.ListInstances(sg, client);
    if listed.Err? {
      return Some(Failed(ListGroupInstances, listed.error)), trace;
    }
    var instances := listed.value;

    var remoteIds: seq<string> := [];
    for i := 0 to |instances|
      invariant remoteIds == EligibleIds(instances[..i])
    {
      assert instances[..i + 1][..i] == instances[..i];
      if IsEligible(instances[i]) {
        remoteIds := remoteIds + [instances[i].instanceId];
      }
    }
    assert instances[..|instances|] == instances;

    trace := trace + [RunPreScaleInTasks(config, remoteIds, num as int)];
    var selected := utils.runPreScaleInTasksWithRemoteCheck(config, remoteIds, num as int);
    if selected.Err? {
      return Some(Failed(PreScaleInTasks, selected.error)), trace;
    }
    var nodes := selected.value;

    var instanceIds: seq<string> := [];
    for i := 0 to |nodes|
      invariant instanceIds == RemoteResourceIds(nodes[..i])
    {
      assert nodes[..i + 1][..i] == nodes[..i];
      instanceIds := instanceIds + [nodes[i].remoteResourceId];
    }
    assert nodes[..|nodes|] == nodes;

    trace := trace + [RemoveInstances(Ess.RemoveRequest(sg, instanceIds))];
    var removed := Ess.DeleteInstances(sg, client, instanceIds);
    if removed.Err? {
      return Some(Failed(RemoveGroupInstances, removed.error)), trace;
    }

    trace := trace + [AwaitCall(sg, removed.value)];
    var waited := EnsureScalingActivityIsDone(sg, client, retry, removed.value);
    if waited.Some? {
      return Some(Failed(ConfirmScaleIn, waited.value)), trace;
    }

    trace := trace + [RunPostScaleInTasks(config, nodes)];
    var cleaned := utils.runPostScaleInTasks(config, nodes);
    if cleaned.Some? {
      return Some(Failed(PostScaleInTasks, cleaned.value)), trace;
    }
    return None, trace;
  }

  /** The drain step chooses among the remote ids it is given. */
  ghost predicate SelectsAmongCandidates(utils: ClusterUtils)
  {
    forall config, ids, count, node ::
      utils.runPreScaleInTasksWithRemoteCheck(config, ids, count).Ok? &&
      node in utils.runPreScaleInTasksWithRemoteCheck(config, ids, count).value
      ==> node.remoteResourceId in ids
  }

  /** Scale-in removes only instances that were listed healthy and in service. */
  lemma RemovesOnlyEligibleInstances(sg: Ess.ScalingGroup, client: Client, utils: ClusterUtils,
                                      retry: Retry, num: Int32, config: map<string, string>)
    requires SelectsAmongCandidates(utils)
    ensures var o := ScaleInSpec(sg, client, utils, retry, num, config);
      |o.trace| >= 3 ==>
        var listed := Ess.ListInstances(sg, client).value;
        forall id :: id in o.trace[2].removeRequest.instanceIds ==>
          exists i :: 0 <= i < |listed| && IsEligible(listed[i]) && listed[i].instanceId == id
  {
  }

  /** Post-scale tasks run only after the removal was accepted and its
      activity confirmed, and then on the nodes the drain step selected. */
  lemma PostScaleInOnlyAfterConfirmedRemoval(sg: Ess.ScalingGroup, client: Client, utils: ClusterUtils,
                                             retry: Retry, num: Int32, config: map<string, string>)
    requires ConfirmsOnlyDone(retry)
    ensures var o := ScaleInSpec(sg, client, utils, retry, num, config);
      |o.trace| == 5 ==>
        var selected := utils.runPreScaleInTasksWithRemoteCheck(
          config, EligibleIds(Ess.ListInstances(sg, client).value), num as int).value;
        var removed := Ess.DeleteInstances(sg, client, RemoteResourceIds(selected));
        && removed.Ok?
        && Ess.ActivityDone(client.describeScalingActivities(Ess.ActivitiesRequest(sg, removed.value)))
        && o.trace[4] == RunPostScaleInTasks(config, selected)
  {
  }
}
