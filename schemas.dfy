/**
 * The three forms of a video-stylization task (src/schemas.rs): the creation
 * form built by the command, the queued form carried on both queues, and the
 * form stored in the task collection, with the conversions between them.
 */
module Schemas {
  import opened Wrappers
  import opened RustText

  /** bson's `DateTime`: milliseconds since the epoch. */
  type DateTime = i64

  const PENDING: string := "pending"
  const COMPLETED: string := "completed"
  const FAILED: string := "failed"

  datatype TaskCreation = TaskCreation(
    userId: u64,
    channelId: u64,
    srcVideoUrl: string,
    videoPrompt: Option<string>,
    stylePrompt: string,
    negativePrompt: Option<string>,
    maxKeyframes: Option<u64>,
    seed: u64)

  datatype TaskInQueue = TaskInQueue(
    taskId: string,
    userId: u64,
    channelId: u64,
    srcVideoUrl: string,
    videoPrompt: Option<string>,
    stylePrompt: string,
    negativePrompt: Option<string>,
    maxKeyframes: Option<u64>,
    seed: u64,
    status: string,
    result: Option<string>)

  datatype TaskInDB = TaskInDB(
    userId: u64,
    channelId: u64,
    srcVideoUrl: string,
    videoPrompt: Option<string>,
    stylePrompt: string,
    negativePrompt: Option<string>,
    maxKeyframes: Option<u64>,
    seed: u64,
    status: string,
    result: Option<string>,
    createdAt: DateTime,
    updatedAt: DateTime)

  /** The eight creation fields a queued task carries. */
  function CreationPart(q: TaskInQueue): TaskCreation {
    TaskCreation(q.userId, q.channelId, q.srcVideoUrl, q.videoPrompt, q.stylePrompt,
                 q.negativePrompt, q.maxKeyframes, q.seed)
  }

  /** The eight creation fields a stored task carries. */
  function StoredCreationPart(d: TaskInDB): TaskCreation {
    TaskCreation(d.userId, d.channelId, d.srcVideoUrl, d.videoPrompt, d.stylePrompt,
                 d.negativePrompt, d.maxKeyframes, d.seed)
  }

  /** `VideoStylizerTaskCreation::with_task_id`: the queued form of a freshly created task. */
  function WithTaskId(c: TaskCreation, taskId: string): (q: TaskInQueue)
    ensures CreationPart(q) == c
    ensures q.taskId == taskId
    ensures q.status == PENDING && q.result == None
  {
    TaskInQueue(taskId, c.userId, c.channelId, c.srcVideoUrl, c.videoPrompt, c.stylePrompt,
                c.negativePrompt, c.maxKeyframes, c.seed, PENDING, None)
  }

  /**
   * `Into<VideoStylizerTaskInDB> for VideoStylizerTaskCreation`. The two
   * `DateTime::now()` readings are parameters.
   */
  function CreationIntoDb(c: TaskCreation, createdAt: DateTime, updatedAt: DateTime): (d: TaskInDB)
    ensures StoredCreationPart(d) == c
    ensures d.status == PENDING && d.result == None
    ensures d.createdAt == createdAt && d.updatedAt == updatedAt
  {
    TaskInDB(c.userId, c.channelId, c.srcVideoUrl, c.videoPrompt, c.stylePrompt,
             c.negativePrompt, c.maxKeyframes, c.seed, PENDING, None, createdAt, updatedAt)
  }

  /** `Into<VideoStylizerTaskInDB> for VideoStylizerTaskInQueue`: drops the task id. */
  function QueueIntoDb(q: TaskInQueue, createdAt: DateTime, updatedAt: DateTime): (d: TaskInDB)
    ensures StoredCreationPart(d) == CreationPart(q)
    ensures d.status == q.status && d.result == q.result
    ensures d.createdAt == createdAt && d.updatedAt == updatedAt
  {
    TaskInDB(q.userId, q.channelId, q.srcVideoUrl, q.videoPrompt, q.stylePrompt,
             q.negativePrompt, q.maxKeyframes, q.seed, q.status, q.result, createdAt, updatedAt)
  }

  /** `VideoStylizerTaskInQueue::with_result`: struct update of status and result. */
  function WithResult(q: TaskInQueue, status: string, result: string): (r: TaskInQueue)
    ensures CreationPart(r) == CreationPart(q)
    ensures r.taskId == q.taskId
    ensures r.status == status && r.result == Some(result)
  {
    q.(status := status, result := Some(result))
  }

  /** Taking the creation fields of a fresh queued task and attaching its id again rebuilds it. */
  lemma WithTaskIdInverse(q: TaskInQueue)
    requires q.status == PENDING && q.result == None
    ensures WithTaskId(CreationPart(q), q.taskId) == q
  {
  }

  /** Both roads from a creation form to the stored form agree, whatever the task id. */
  lemma IntoDbPathsAgree(c: TaskCreation, taskId: string, createdAt: DateTime, updatedAt: DateTime)
    ensures QueueIntoDb(WithTaskId(c, taskId), createdAt, updatedAt) == CreationIntoDb(c, createdAt, updatedAt)
  {
  }

  /** Of two `with_result` calls only the second one is visible. */
  lemma WithResultLastWriteWins(q: TaskInQueue, s1: string, r1: string, s2: string, r2: string)
    ensures WithResult(WithResult(q, s1, r1), s2, r2) == WithResult(q, s2, r2)
  {
  }

  /** A queued form is determined by its id, its creation fields, its status and its result. */
  lemma QueuedFormDetermined(p: TaskInQueue, q: TaskInQueue)
    requires p.taskId == q.taskId && CreationPart(p) == CreationPart(q)
    requires p.status == q.status && p.result == q.result
    ensures p == q
  {
  }
}
