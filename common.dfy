/** Values shared by the whole plugin: Go's fixed-width integers, the
    error and result shapes, and the configuration keys it recognises. */
module Common {

  /** Configuration keys read by the plugin. */
  const ConfigAccessKeyId: string := "accessKeyId"
  const ConfigAccessKeySecret: string := "accessKeySecret"
  const ConfigEndpoint: string := "endpoint"
  const ConfigRegion: string := "region"
  const ConfigScalingGroupId: string := "scalingGroupId"

  /** Go's int32 and int64. */
  newtype Int32 = x: int | -0x8000_0000 <= x < 0x8000_0000
  newtype Int64 = x: int | -0x8000_0000_0000_0000 <= x < 0x8000_0000_0000_0000

  /** The int64 that Go's two's-complement arithmetic leaves when the exact
      result of an operation is `x`. */
  function WrapInt64(x: int): (r: Int64)
    ensures -0x8000_0000_0000_0000 <= x < 0x8000_0000_0000_0000 ==> r as int == x
    ensures 0x8000_0000_0000_0000 <= x < 0x1_8000_0000_0000_0000 ==> r as int == x - 0x1_0000_0000_0000_0000
  {
    ((x + 0x8000_0000_0000_0000) % 0x1_0000_0000_0000_0000 - 0x8000_0000_0000_0000) as Int64
  }

  /** Go's conversion `int32(x)` of an int64: it keeps the low 32 bits. */
  function Int32Of(x: Int64): (r: Int32)
    ensures -0x8000_0000 <= x < 0x8000_0000 ==> r as int == x as int
    ensures (x as int - r as int) % 0x1_0000_0000 == 0
  {
    var q := (x as int + 0x8000_0000) / 0x1_0000_0000;
    var m := (x as int + 0x8000_0000) % 0x1_0000_0000;
    assert x as int - (m - 0x8000_0000) == q * 0x1_0000_0000;
    (m - 0x8000_0000) as Int32
  }

  datatype Option<+T> = None | Some(value: T)

  datatype Result<+T> = Ok(value: T) | Err(error: Error)

  /** The step an outer error message blames for the error it wraps. */
  datatype Step =
    | DescribeGroup         // reading the scaling group's status
    | PerformScaling        // the scale-in or scale-out as a whole
    | ScaleOutGroup         // requesting the new total capacity
    | ConfirmScaleOut       // waiting for the resize activity
    | ListGroupInstances    // listing the group's instances
    | PreScaleInTasks       // Nomad's draining before a scale-in
    | RemoveGroupInstances  // removing the selected instances
    | ConfirmScaleIn        // waiting for the removal activity
    | PostScaleInTasks      // Nomad's clean-up after a scale-in
    | NodeReadiness         // Nomad's node-pool readiness check
    | CreateClient          // building the ESS client

  /** Errors, by origin. `Failed` is an outer message formatted around its cause. */
  datatype Error =
    | SdkError(message: string)              // returned by an ESS SDK call
    | ClusterError(message: string)          // returned by the Nomad scaling utilities
    | RetryError(message: string)            // returned by the retry helper itself
    | ConfigParamNotFound(name: string)
    | ScalingGroupNotFound(groupId: string)
    | ScalingActivityNotFound(activityId: string)
    | AttributeNotFound(attribute: string)
    | StillWaiting                           // the activity is not done yet
    | Failed(step: Step, cause: Error)
}
