# ESS target plugin for the Nomad Autoscaler: a Dafny model

This project models the scale-execution core of a Nomad Autoscaler target plugin for Alibaba Cloud ESS (Elastic Scaling Service). When the autoscaler asks for N instances, the plugin reads the group's current size. It then decides a direction. To grow, it sets the group's total capacity to N. To shrink, it lists the group's instances and keeps only those that are healthy and in service. Nomad's scaling utilities then drain and select nodes, the plugin removes the selected instances, waits for the removal activity, and runs Nomad's clean-up tasks. `Status` reports readiness and size. It calls ESS only when Nomad's node pool is ready.

Modules, one per source file, plus two shared ones:

- `Common` (common.dfy): Go's `int32` and `int64` as newtypes. Their wrap-around is written out: `WrapInt64` for the int64 subtraction in the scale decision, and `Int32Of` for the `int32(num)` narrowing. Also the `Option`/`Result`/`Error` shapes and the configuration keys. `Failed(step, cause)` is an outer error message built around its cause, so a wrapped error is never lost.
- `Sdk` (sdk.dfy): the foreign side, as values. This covers the ESS request and response records and a `Client` that has one total function per SDK call (an oracle from request to response). It also covers Nomad's `Node`, `NodeResourceID`, a `ClusterUtils` oracle for the scaling utilities, and the `Event` trace of calls made across these boundaries.
- `Ess` (plugin/ess.go): the `regionalScalingGroup` as the datatype `ScalingGroup`. Its `id` field is what `getId` returns. The module also holds the request each operation sends and how each response is read.
- `Acs` (plugin/acs.go): client settings, the node-to-instance mapping, the polling predicate, scale-out, and scale-in. The plugin's client and Nomad utilities are passed in explicitly. `ScaleIn` is a method whose loops collect the eligible ids and the selected instance ids. It is proved equal to `ScaleInSpec`, a function of the same steps. The step-order properties are stated on `ScaleInSpec`.
- `Plugin` (plugin/plugin.go): the scale decision, and the class `TargetPlugin`. The class holds `config`, `clusterUtils` and `client`, which `SetConfig` updates, and it offers `Scale` and `Status`. Both methods return the trace of external calls they made, so ordering claims such as "no removal after a failed drain" or "no ESS call on a dry run" are postconditions over that trace.

The source has no loop that waits on the activity itself. The plugin hands a predicate to a package-level `retry` helper, whose body is not part of this model. `Acs.Retry` stands for that helper's result for a given client, group, activity, interval and limit, so its answer follows the client the plugin is configured with. The trace records the call with the interval (10 s) and limit (15). "Success means the activity reached 100%" is proved under `Acs.ConfirmsOnlyDone`. That hypothesis says the helper reports success only after the predicate stopped without an error.

Three points where the code behaves differently from what one might expect:

- A missing `accessKeyId` or `accessKeySecret` is not an error. The error value for it is built and then discarded, so `SetConfig` fails only when building the client or the Nomad utilities fails.
- `region` and `scalingGroupId` are looked up in the call's configuration first and in the plugin's configuration second; they are not per-call only.
- The scale-in magnitude is an int64 subtraction, which wraps for extreme desired counts (`Plugin.ScaleInMagnitudeWrapsAtLeastInt64`). Both magnitudes are then narrowed to int32 (`Plugin.ScaleOutNarrowsDesiredTotal`).

## Model

| member | source | states |
|---|---|---|
| Common.WrapInt64 | plugin/plugin.go:163 | an int64 result equals the exact difference when it fits, and is the difference minus 2^64 when it overflows by less than 2^64 |
| Common.Int32Of | plugin/plugin.go:111-113 | narrowing to int32 keeps a value that fits and otherwise keeps it modulo 2^32 |
| Ess.Status | plugin/ess.go:28-43 | no error iff the lookup returned exactly one group (both 0 and more than 1 give "not found"); a client error is passed back; on any error stable is false and the count is -1; otherwise stable iff the group's lifecycle state is "Active", and the count is its total capacity |
| Ess.ListInstances | plugin/ess.go:45-56 | the client's error is passed back, otherwise the response's instances unchanged |
| Ess.Resize | plugin/ess.go:58-69 | the request asks group `id` for adjustment type "TotalCapacity" with value `num`; the result is the response's activity id or the client's error |
| Ess.DeleteInstances | plugin/ess.go:71-81 | the request carries exactly the given instance ids for group `id`; the result is the response's activity id or the client's error |
| Ess.ScalingActivityStatus | plugin/ess.go:83-99 | done iff exactly one activity was found and its progress is exactly 100; no error iff exactly one was found; a client error is passed back and any other count is "not found"; done never comes with an error |
| Acs.AcsClientConfig | plugin/acs.go:28-46 | the endpoint is the configured `endpoint` if present, else ess.aliyuncs.com; an absent key or secret becomes "" |
| Acs.SetupAcsClients | plugin/acs.go:27-54 | the set-up fails iff building the client fails, and then with that error wrapped; the configuration's credentials play no part in failing |
| Acs.MissingCredentialsAccepted | plugin/acs.go:28-33 | with neither credential configured, set-up still succeeds whenever the client can be built |
| Acs.AcsNodeIdMap | plugin/acs.go:148-154 | the node's instance id is its `unique.hostname` attribute; an absent attribute is an "attribute not found" error |
| Acs.PollCheck | plugin/acs.go:134-141 | the predicate stops with the status check's error, or with no error when the activity is done, and otherwise goes on with a "waiting" error; it never returns (false, no error); it stops without error iff the activity lookup found exactly one activity at 100% |
| Acs.EnsureScalingActivityIsDone | plugin/acs.go:132-144 | the wait is the retry helper's result for this client, group and activity with interval 10 and limit 15 (the helper's body is not modelled, so this part only names the call); the content is that when the helper confirms only finished polls, by `Acs.PollCheck`, a confirmed wait means the activity's single record is at 100% |
| Acs.ScaleOut | plugin/acs.go:60-71 | the first call resizes to `num` exactly (adjustment type TotalCapacity); a resize error is wrapped and skips the wait; otherwise the only other call is the retry with interval 10 and limit 15 on the returned activity, and its error comes back wrapped |
| Acs.ScaleOutSuccessMeansActivityDone | plugin/acs.go:60-71 | when the retry helper confirms only finished polls, a successful scale-out means the resize was accepted and its activity reached 100% |
| Acs.EligibleIds | plugin/acs.go:84-94 | every id returned belongs to a listed instance that is Healthy and InService, every such instance's id is returned, and there are no more ids than instances |
| Acs.EligibleIdsAppend | plugin/acs.go:84-94 | the filter keeps listing order: the ids from a concatenated listing are those of the first part followed by those of the second |
| Acs.EligibleIdsOne | plugin/acs.go:85-93 | a single instance contributes its id exactly when it is Healthy and InService, and nothing otherwise; with `Acs.EligibleIdsAppend` this fixes the whole sequence, order and repetitions included |
| Acs.RemoteResourceIds | plugin/acs.go:102-106 | the ids are the selected nodes' remote resource ids, position by position, with the same length |
| Acs.ScaleInSpec | plugin/acs.go:73-130 | calls happen in the order list, drain, remove, wait, clean up; each runs only if the one before succeeded; the drain receives exactly the eligible ids and `num`; the removal carries exactly the selected nodes' instance ids; the wait uses interval 10 and limit 15; clean-up receives the same selection; each failure is wrapped with its step; success only after all five calls |
| Acs.ScaleIn | plugin/acs.go:73-130 | the method, with its two collecting loops, produces exactly the error and call trace of `ScaleInSpec` |
| Acs.RemovesOnlyEligibleInstances | plugin/acs.go:84-112 | when the drain selects among the ids it is given, every instance id sent for removal is that of a listed Healthy, InService instance |
| Acs.PostScaleInOnlyAfterConfirmedRemoval | plugin/acs.go:112-127 | when clean-up runs, the removal was accepted and (if the retry helper confirms only finished polls) its activity reached 100%, and clean-up gets the drain's selection |
| Plugin.CalculateDirection | plugin/plugin.go:161-169 | direction "in" iff desired < current, "out" iff desired > current; "out" carries the desired total itself; no change carries 0; "in" carries current - desired, strictly positive, when the difference fits int64, and the wrapped negative value when it does not |
| Plugin.ScaleInMagnitudeFromGroupCount | plugin/plugin.go:161-164 | from an int32 group count, scale-in removes exactly the positive difference for every desired count not within 2^31 of the least int64 |
| Plugin.ScaleInMagnitudeWrapsAtLeastInt64 | plugin/plugin.go:162-163 | from 0 to the least int64 the scale-in magnitude wraps to the least int64, a negative count |
| Plugin.ScaleOutNarrowsDesiredTotal | plugin/plugin.go:107-113 | a desired total of 2^32 + 5 is passed on as 5 after the int32 narrowing |
| Plugin.ScaleOutRequestsDesiredTotal | plugin/plugin.go:107-113 | for a desired count above the current one that fits int32, the resize request asks for that total, not for the difference |
| Plugin.TargetPlugin.constructor | plugin/plugin.go:55-59 | a new plugin has an empty configuration and neither client nor utilities |
| Plugin.TargetPlugin.GetValue | plugin/plugin.go:190-202 | a key is found iff it is in the plugin's map overridden by the call's map, and then its value comes from that merge (the call's value wins); an absent key gives "" |
| Plugin.TargetPlugin.CalculateScalingGroup | plugin/plugin.go:171-188 | succeeds iff both region and scalingGroupId resolve, and then names exactly the resolved values; a missing region is reported even when the id is missing too; otherwise a missing id is reported |
| Plugin.TargetPlugin.SetConfig | plugin/plugin.go:62-80 | the configuration is stored even when set-up fails; a client error is returned wrapped and leaves the utilities unchanged (no client is stored, see below); a utilities error leaves them unchanged; on success the utilities' node lookup is `AcsNodeIdMap` and the plugin is ready to scale |
| Plugin.TargetPlugin.Scale | plugin/plugin.go:88-126 | a dry-run count returns with no call at all and needs no client; a configuration error returns before any call; the client is required only once the group is resolved, the utilities only for a scale-in; otherwise the group status is read first and its error is wrapped; no change returns without error and no other call; scale-out and scale-in get the narrowed magnitude, their calls follow the status read, and their errors come back wrapped, never dropped |
| Plugin.TargetPlugin.Status | plugin/plugin.go:129-159 | the utilities are required, the client only once the pool is ready and the group resolved; the pool check comes first and its error is wrapped; a pool that is not ready gives ready=false without error and without any ESS call; otherwise a configuration error is returned, or the group is read once and ready is its stability and count its total capacity |

## Left out

- Logging, the logger, and the text of error messages. Errors are modelled by kind and by the step that wraps them.
- The host plumbing: the plugin host, `PluginConfig`, `PluginInfo`, and the `Meta` map of the reported status.
- The ESS SDK client and its wire calls. `Client` is an oracle that answers each request with a fixed response, which suffices because one `Scale` or `Status` sends each kind of request at most once outside the wait. Building the client is the `newClient` parameter of `SetConfig`.
- The Nomad scaling utilities (readiness, draining, clean-up): the `ClusterUtils` oracle gives only their results and the selection they return.
- The body of the `retry` helper, its sleeping, its attempt counting and context cancellation. Its result is the `Acs.Retry` oracle. No claim is made about how many polls it performs.
- Acs.ScaleOut: success depends on the retry helper's result. That success means a finished activity is proved only under `Acs.ConfirmsOnlyDone`, because the helper's body is not part of this model.
- Acs.ScaleInSpec: the same applies to the wait for the removal activity.
- The discarded credential check in `setupAcsClients` has no effect, so it is not modelled; `Acs.MissingCredentialsAccepted` states the consequence.
- A response that reports exactly one group or activity but carries an empty list would make the code panic on its first element. The response types exclude it.
- Calling `Scale` or `Status` on a path that uses a client or utilities value that was never set would dereference nil. The `requires` of `Plugin.TargetPlugin.Scale` and `Plugin.TargetPlugin.Status` name those paths; a dry run, or a configuration error, on an unconfigured plugin returns as the code does (a dry run returns no error). One path is required beyond what the code needs: `Scale` asks for the utilities on every scale-in whose status read succeeded, while the code first lists the instances and touches the utilities only when that listing succeeds, so a plugin with a client but no utilities returns the wrapped listing error in the code. That state arises only from a failed `SetConfig`. The host calls `SetConfig` first and does not use a plugin whose `SetConfig` failed.
- Plugin.TargetPlugin.SetConfig: the utilities' node lookup is set to `Acs.AcsNodeIdMap`, but the drain oracle does not read it, so the model does not link `Acs.AcsNodeIdMap` to the `remoteResourceId` of the nodes the drain selects.
- Plugin.TargetPlugin.SetConfig: when building the client fails, the model stores no client, whereas the code stores whatever the SDK's constructor returned beside its error. The SDK is not part of this model, and a plugin whose `SetConfig` failed is not used.
- The dry-run count -1 is the Nomad Autoscaler SDK's constant. That SDK is not part of this model.
