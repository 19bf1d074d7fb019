/** Values shared by both machines: output resources, leases and output envelopes. */
module Contracts {

  datatype Option<+T> = None | Some(value: T)

  /** The two exclusively owned outputs of the avatar. */
  datatype Resource = VoiceOutput | FullBodyPose

  /** A fencing token for one resource; `actionId` is `None` when nobody owns it. */
  datatype Lease = Lease(resource: Resource, token: int, actionId: Option<string>)

  /** One unit of device output, stamped with the lease it was issued under. */
  datatype Envelope = Envelope(
    sessionId: string,
    actionId: string,
    resource: Resource,
    leaseToken: int,
    sequence: int,
    ttlMs: int,
    payload: int)
}
