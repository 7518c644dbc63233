/** The target plugin the Nomad Autoscaler drives: its configuration, the
    scale decision, and the `Scale` and `Status` entry points. */
module Plugin {
  import opened Common
  import opened Sdk
  import Ess
  import Acs

  /** The count the autoscaler sends for a dry run. */
  const DryRunCount: Int64 := -1

  /** The direction of a scaling action: "", "in" or "out". */
  datatype Direction = NoChange | In | Out

  /** What the autoscaler asks for; only the count matters here. */
  datatype ScalingAction = ScalingAction(count: Int64)

  /** What `Status` reports. */
  datatype TargetStatus = TargetStatus(ready: bool, count: Int64)

  /** The magnitude and direction of the change from `migTarget` to
      `strategyDesired`: scale-out carries the desired total, scale-in the
      number of instances to remove (an int64 subtraction, which wraps). */
  function CalculateDirection(migTarget: Int64, strategyDesired: Int64): (r: (Int64, Direction))
    ensures r.1 == In <==> strategyDesired < migTarget
    ensures r.1 == Out <==> strategyDesired > migTarget
    ensures r.1 == NoChange ==> r.0 == 0
    ensures r.1 == Out ==> r.0 == strategyDesired
    ensures r.1 == In && migTarget as int - strategyDesired as int < 0x8000_0000_0000_0000 ==>
      r.0 as int == migTarget as int - strategyDesired as int && r.0 > 0
    ensures r.1 == In && migTarget as int - strategyDesired as int >= 0x8000_0000_0000_0000 ==>
      r.0 as int == migTarget as int - strategyDesired as int - 0x1_0000_0000_0000_0000 && r.0 < 0
  {
    if strategyDesired < migTarget then (WrapInt64(migTarget as int - strategyDesired as int), In)
    else if strategyDesired > migTarget then (strategyDesired, Out)
    else (0, NoChange)
  }

  /** From a group whose count fits in int32, scale-in to any desired count
      above the most negative int64 values removes exactly the difference. */
  lemma ScaleInMagnitudeFromGroupCount(current: Int32, desired: Int64)
    requires desired < current as Int64
    requires desired as int >= -0x8000_0000_0000_0000 + 0x8000_0000
    ensures CalculateDirection(current as Int64, desired) == ((current as int - desired as int) as Int64, In)
    ensures CalculateDirection(current as Int64, desired).0 > 0
  {
  }

  /** The subtraction wraps: from 0 to the least int64 the magnitude is negative. */
  lemma ScaleInMagnitudeWrapsAtLeastInt64()
    ensures CalculateDirection(0, -0x8000_0000_0000_0000) == (-0x8000_0000_0000_0000, In)
  {
  }

  /** A desired total beyond int32 reaches the resize request narrowed:
      2^32 + 5 becomes 5. */
  lemma ScaleOutNarrowsDesiredTotal()
    ensures CalculateDirection(3, 0x1_0000_0005) == (0x1_0000_0005, Out)
    ensures Int32Of(0x1_0000_0005) == 5
  {
  }

  /** Scale-out asks for the desired total, not for the difference. */
  lemma ScaleOutRequestsDesiredTotal(sg: Ess.ScalingGroup, client: Client, retry: Acs.Retry,
                                     current: Int32, desired: Int64)
    requires current as Int64 < desired < 0x8000_0000
    ensures var (num, direction) := CalculateDirection(current as Int64, desired);
      && direction == Out
      && Acs.ScaleOut(sg, client, retry, Int32Of(num)).trace[0]
         == ScaleWithAdjustment(ScaleWithAdjustmentRequest(sg.id, "TotalCapacity", desired as Int32))
  {
  }

  class TargetPlugin {
    /** The plugin-level configuration. */
    var config: map<string, string>
    var clusterUtils: Option<ClusterUtils>
    var client: Option<Client>
    /** The package's retry helper. */
    const retry: Acs.Retry

    constructor (retry: Acs.Retry)
      ensures config == map[] && clusterUtils.None? && client.None?
      ensures this.retry == retry
    {
      config := map[];
      clusterUtils := None;
      client := None;
      this.retry := retry;
    }

    /** Set up by a successful `SetConfig`. */
    predicate Valid()
      reads this
    {
      clusterUtils.Some? && client.Some?
    }

    /** A key's value from the call's configuration, else from the plugin's;
        that is, a lookup in the plugin's map overridden by the call's. */
    function GetValue(callConfig: map<string, string>, name: string): (r: (string, bool))
      reads this
      ensures r.1 <==> name in config + callConfig
      ensures r.1 ==> r.0 == (config + callConfig)[name]
      ensures !r.1 ==> r.0 == ""
    {
      if name in callConfig then (callConfig[name], true)
      else if name in config then (config[name], true)
      else ("", false)
    }

    /** The scaling group named by the configuration; region is checked first. */
    function CalculateScalingGroup(callConfig: map<string, string>): (r: Result<Ess.ScalingGroup>)
      reads this
      ensures var merged := config + callConfig;
        && (r.Ok? <==> ConfigRegion in merged && ConfigScalingGroupId in merged)
        && (ConfigRegion !in merged ==> r == Err(ConfigParamNotFound("region")))
        && (ConfigRegion in merged && ConfigScalingGroupId !in merged ==>
              r == Err(ConfigParamNotFound("scalingGroupId")))
        && (r.Ok? ==> r.value == Ess.ScalingGroup(merged[ConfigRegion], merged[ConfigScalingGroupId]))
    {
      var (region, hasRegion) := GetValue(callConfig, ConfigRegion);
      if !hasRegion then Err(ConfigParamNotFound(ConfigRegion))
      else
        var (id, hasId) := GetValue(callConfig, ConfigScalingGroupId);
        if !hasId then Err(ConfigParamNotFound(ConfigScalingGroupId))
        else Ok(Ess.ScalingGroup(region, id))
    }

    /** Stores the configuration, then builds the ESS client with
        `newClient` and the Nomad utilities with `newClusterUtils`, whose
        node lookup becomes `AcsNodeIdMap`. */
    method SetConfig(cfg: map<string, string>, newClient: ClientConfig -> Result<Client>,
                     newClusterUtils: map<string, string> -> Result<ClusterUtils>) returns (err: Option<Error>)
      modifies this
      ensures config == cfg
      ensures var built := Acs.SetupAcsClients(cfg, newClient);
        && (built.Err? ==> err == Some(built.error) && client.None? && clusterUtils == old(clusterUtils))
        && (built.Ok? ==> client == Some(built.value))
      ensures Acs.SetupAcsClients(cfg, newClient).Ok? ==>
        var utils := newClusterUtils(cfg);
        && (utils.Err? ==> err == Some(utils.error) && clusterUtils == old(clusterUtils))
        && (utils.Ok? ==> err.None? && clusterUtils == Some(utils.value.(clusterNodeIdLookupFunc := Acs.AcsNodeIdMap)))
      ensures err.None? ==> Valid()
    {
      config := cfg;
      var built := Acs.SetupAcsClients(cfg, newClient);
      if built.Err? {
        client := None;
        return Some(built.error);
      }
      client := Some(built.value);
      var utils := newClusterUtils(cfg);
      if utils.Err? {
        return Some(utils.error);
      }
      clusterUtils := Some(utils.value.(clusterNodeIdLookupFunc := Acs.AcsNodeIdMap));
      return None;
    }

    /** Moves the group towards `action.count`. A dry run and a configuration
        error make no call; otherwise the group's status is read first, and
        only a change of size issues a resize or a removal. An error of the
        scaling step comes back wrapped. The client is needed once the group
        is resolved, the Nomad utilities only for a scale-in. */
    method Scale(action: ScalingAction, callConfig: map<string, string>) returns (err: Option<Error>, trace: seq<Event>)
      requires action.count != DryRunCount && CalculateScalingGroup(callConfig).Ok? ==> client.Some?
      requires action.count != DryRunCount && CalculateScalingGroup(callConfig).Ok? && client.Some? ==>
        var status := Ess.Status(CalculateScalingGroup(callConfig).value, client.value);
        status.err.None? && CalculateDirection(status.currentCount as Int64, action.count).1 == In ==>
          clusterUtils.Some?
      ensures action.count == DryRunCount ==> err.None? && trace == []
      ensures action.count != DryRunCount && CalculateScalingGroup(callConfig).Err? ==>
        err == Some(CalculateScalingGroup(callConfig).error) && trace == []
      ensures action.count != DryRunCount && CalculateScalingGroup(callConfig).Ok? ==>
        var sg := CalculateScalingGroup(callConfig).value;
        var status := Ess.Status(sg, client.value);
        && |trace| >= 1
        && trace[0] == DescribeScalingGroups(DescribeScalingGroupsRequest(sg.region, [sg.id]))
        && (status.err.Some? ==> err == Some(Failed(DescribeGroup, status.err.value)) && |trace| == 1)
        && (status.err.None? ==>
              var (num, direction) := CalculateDirection(status.currentCount as Int64, action.count);
              && (direction == NoChange ==> err.None? && |trace| == 1)
              && (direction == Out ==>
                    var o := Acs.ScaleOut(sg, client.value, retry, Int32Of(num));
                    && trace == [trace[0]] + o.trace
                    && (o.err.None? ==> err.None?)
                    && (o.err.Some? ==> err == Some(Failed(PerformScaling, o.err.value))))
              && (direction == In ==>
                    var o := Acs.ScaleInSpec(sg, client.value, clusterUtils.value, retry, Int32Of(num), callConfig);
                    && trace == [trace[0]] + o.trace
                    && (o.err.None? ==> err.None?)
                    && (o.err.Some? ==> err == Some(Failed(PerformScaling, o.err.value)))))
    {
      if action.count == DryRunCount {
        return None, [];
      }
      var group := CalculateScalingGroup(callConfig);
      if group.Err? {
        return Some(group.error), [];
      }
      var sg := group.value;
      trace := [DescribeScalingGroups(Ess.GroupsRequest(sg))];
      var status := Ess.Status(sg, client.value);
      if status.err.Some? {
        return Some(Failed(DescribeGroup, status.err.value)), trace;
      }
      var (num, direction) := CalculateDirection(status.currentCount as Int64, action.count);
      var scaled: Option<Error>;
      match direction {
        case In =>
          var steps: seq<Event>;
          scaled, steps := Acs.ScaleIn(sg, client.value, clusterUtils.value, retry, Int32Of(num), callConfig);
          trace := trace + steps;
        case Out =>
          var o := Acs.ScaleOut(sg, client.value, retry, Int32Of(num));
          scaled := o.err;
          trace := trace + o.trace;
        case NoChange =>
          return None, trace;
      }
      if scaled.Some? {
        return Some(Failed(PerformScaling, scaled.value)), trace;
      }
      return None, trace;
    }

    /** Reports the group's readiness and size. The Nomad node pool is
        checked first; a pool that is not ready is reported without calling
        ESS, so the client is needed only for a ready pool. */
    method Status(callConfig: map<string, string>) returns (r: Result<TargetStatus>, trace: seq<Event>)
      requires clusterUtils.Some?
      requires (clusterUtils.Some? && clusterUtils.value.isPoolReady(callConfig) == Ok(true)
                && CalculateScalingGroup(callConfig).Ok?) ==> client.Some?
      ensures |trace| >= 1 && trace[0] == IsPoolReady(callConfig)
      ensures var ready := clusterUtils.value.isPoolReady(callConfig);
        && (ready.Err? ==> r == Err(Failed(NodeReadiness, ready.error)) && |trace| == 1)
        && (ready == Ok(false) ==> r == Ok(TargetStatus(false, 0)) && |trace| == 1)
        && (ready == Ok(true) && CalculateScalingGroup(callConfig).Err? ==>
              r == Err(CalculateScalingGroup(callConfig).error) && |trace| == 1)
        && (ready == Ok(true) && CalculateScalingGroup(callConfig).Ok? ==>
              var sg := CalculateScalingGroup(callConfig).value;
              var status := Ess.Status(sg, client.value);
              && trace == [trace[0], DescribeScalingGroups(DescribeScalingGroupsRequest(sg.region, [sg.id]))]
              && (status.err.Some? ==> r == Err(Failed(DescribeGroup, status.err.value)))
              && (status.err.None? ==> r == Ok(TargetStatus(status.stable, status.currentCount as Int64))))
    {
      trace := [IsPoolReady(callConfig)];
      var ready := clusterUtils.value.isPoolReady(callConfig);
      if ready.Err? {
        return Err(Failed(NodeReadiness, ready.error)), trace;
      }
      if !ready.value {
        return Ok(TargetStatus(false, 0)), trace;
      }
      var group := CalculateScalingGroup(callConfig);
      if group.Err? {
        return Err(group.error), trace;
      }
      var sg := group.value;
      trace := trace + [DescribeScalingGroups(Ess.GroupsRequest(sg))];
      var status := Ess.Status(sg, client.value);
      if status.err.Some? {
        return Err(Failed(DescribeGroup, status.err.value)), trace;
      }
      return Ok(TargetStatus(status.stable, status.currentCount as Int64)), trace;
    }
  }
}
