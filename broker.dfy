/**
 * The two durable queues and what travels on them. The JSON encoding is
 * abstract: a payload is either the serialization of a queued task or bytes
 * that do not deserialize as one.
 */
module Broker {
  import opened Wrappers
  import opened RustText
  import opened Schemas

  /** Producer to worker. */
  const PENDING_QUEUE: string := "pendingVideoStylizerTasks"
  /** Worker to reconciler. */
  const COMPLETED_QUEUE: string := "completedVideoStylizerTasks"

  datatype Payload = Serialized(task: TaskInQueue) | Malformed(raw: seq<u8>)

  /** `serde_json::from_slice::<VideoStylizerTaskInQueue>`. */
  function Decode(p: Payload): Option<TaskInQueue> {
    match p
    case Serialized(t) => Some(t)
    case Malformed(_) => None
  }

  /** `serde_json::to_vec(&task).unwrap()`: always succeeds and decodes back to the task. */
  function Encode(t: TaskInQueue): (p: Payload)
    ensures Decode(p) == Some(t)
  {
    Serialized(t)
  }

  /** One message handed to a consumer, with the tag its ack or nack refers to. */
  datatype Delivery = Delivery(tag: nat, data: Payload)
}
