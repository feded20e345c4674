/**
 * The `video_stylizer` command (src/commands/video_to_video.rs): reject an
 * oversized attachment, store the new task, tell the caller its id, and
 * publish it to the pending queue only once it is stored.
 */
module Producer {
  import opened Wrappers
  import opened RustText
  import opened Schemas
  import opened Store
  import opened Broker
  import opened Env

  /** The largest attachment accepted, in bytes: 8 MiB. */
  const MAX_VIDEO_SIZE: nat := 8 * 1024 * 1024

  const TOO_LARGE_REPLY: string := "> File size too large. Max file size is **8MB**."
  const INSERT_FAILED_REPLY: string := "> Failed to create video stylization task."

  function AcceptedReply(taskId: string): string {
    "> We are working on your video. We will notify you when it is ready. Task ID: **" + taskId + ".**"
  }

  datatype Attachment = Attachment(url: string, size: u64)

  /** The command's arguments, with the ids of its author and channel. */
  datatype Command = Command(
    authorId: u64,
    channelId: u64,
    video: Attachment,
    stylePrompt: string,
    videoPrompt: Option<string>,
    negativePrompt: Option<string>,
    maxKeyframes: Option<u64>,
    seed: Option<u64>)

  /**
   * What the command meets outside: the value `rand::random()` draws, the
   * two `DateTime::now()` readings, what `insert_one` comes to, and whether
   * replying and publishing succeed (each path replies at most once).
   */
  datatype Surroundings = Surroundings(
    randomSeed: u64,
    createdAt: DateTime,
    updatedAt: DateTime,
    insert: InsertAttempt,
    replyOk: bool,
    publishOk: bool)

  /** The store afterwards, the visible actions, and whether the command returned `Ok(())`. */
  datatype Outcome = Outcome(store: Collection, events: seq<Event>, ok: bool)

  /** A supplied seed is kept; otherwise the random draw is used. */
  function ChosenSeed(cmd: Command, env: Surroundings): u64 {
    cmd.seed.UnwrapOr(env.randomSeed)
  }

  function Creation(cmd: Command, seed: u64): TaskCreation {
    TaskCreation(cmd.authorId, cmd.channelId, cmd.video.url, cmd.videoPrompt, cmd.stylePrompt,
                 cmd.negativePrompt, cmd.maxKeyframes, seed)
  }

  /** The command's effect; a failed reply or publish ends it early with an error (the `?`s). */
  function Handle(store: Collection, cmd: Command, env: Surroundings): Outcome {
    if cmd.video.size as int > MAX_VIDEO_SIZE then
      Outcome(store, if env.replyOk then [Replied(TOO_LARGE_REPLY)] else [], env.replyOk)
    else
      var task := Creation(cmd, ChosenSeed(cmd, env));
      var ins := InsertOne(store, CreationIntoDb(task, env.createdAt, env.updatedAt), env.insert);
      match ins.1
      case InsertFailed =>
        Outcome(ins.0, if env.replyOk then [Replied(INSERT_FAILED_REPLY)] else [], env.replyOk)
      case Inserted(id) =>
        var taskId := ToHex(id);
        if !env.replyOk then Outcome(ins.0, [Created(id)], false)
        else
          Outcome(ins.0,
            [Created(id), Replied(AcceptedReply(taskId))]
            + (if env.publishOk then [Published(PENDING_QUEUE, Encode(WithTaskId(task, taskId)))] else []),
            env.publishOk)
  }

  method VideoStylizer(w: World, cmd: Command, env: Surroundings) returns (ok: bool)
    modifies w
    ensures w.store == Handle(old(w.store), cmd, env).store
    ensures w.trace == old(w.trace) + Handle(old(w.store), cmd, env).events
    ensures ok == Handle(old(w.store), cmd, env).ok
  {
    var seed := cmd.seed.UnwrapOr(env.randomSeed);
    if cmd.video.size as int > MAX_VIDEO_SIZE {
      if !env.replyOk {
        return false;
      }
      w.Reply(TOO_LARGE_REPLY);
      return true;
    }
    var task := TaskCreation(cmd.authorId, cmd.channelId, cmd.video.url, cmd.videoPrompt, cmd.stylePrompt,
                             cmd.negativePrompt, cmd.maxKeyframes, seed);
    var taskId: Option<string>;
    var inserted := w.InsertOne(CreationIntoDb(task, env.createdAt, env.updatedAt), env.insert);
    if inserted.Inserted? {
      taskId := Some(ToHex(inserted.id));
    } else {
      if !env.replyOk {
        return false;
      }
      w.Reply(INSERT_FAILED_REPLY);
      taskId := None;
    }
    if taskId.Some? {
      if !env.replyOk {
        return false;
      }
      w.Reply(AcceptedReply(taskId.value));
      if !env.publishOk {
        return false;
      }
      w.Publish(PENDING_QUEUE, Encode(WithTaskId(task, taskId.value)));
    }
    return true;
  }

  // ---------------------------------------------------------------------------
  // Properties

  /** An attachment over 8 MiB gets the size reply and nothing else: no store write, no publish. */
  lemma OversizedIsRejected(store: Collection, cmd: Command, env: Surroundings)
    requires cmd.video.size as int > MAX_VIDEO_SIZE
    ensures var o := Handle(store, cmd, env);
      && o.store == store
      && |o.events| <= 1
      && forall e :: e in o.events ==> e == Replied(TOO_LARGE_REPLY)
  {
  }

  /** The limit is inclusive: an attachment of exactly 8 MiB is stored. */
  lemma LimitIsInclusive(store: Collection, cmd: Command, env: Surroundings)
    requires cmd.video.size as int == MAX_VIDEO_SIZE
    requires env.insert.Generated? && OidKey(env.insert.oid) !in store
    ensures OidKey(env.insert.oid) in Handle(store, cmd, env).store
  {
  }

  /** When nothing is stored, nothing is published and the store is unchanged. */
  lemma InsertFailureIsNotPublished(store: Collection, cmd: Command, env: Surroundings)
    requires cmd.video.size as int <= MAX_VIDEO_SIZE
    requires env.insert.ServerError? || OidKey(env.insert.oid) in store
    ensures var o := Handle(store, cmd, env);
      && o.store == store
      && forall e :: e in o.events ==> e == Replied(INSERT_FAILED_REPLY)
  {
  }

  /**
   * A stored task: the store gains exactly its record, pending and without
   * result, with the supplied seed or else the random draw; the id reply
   * comes before the publish, and the published message is `with_task_id`
   * of the same creation form under the hex of the new ObjectId.
   */
  lemma AcceptedTaskIsPublished(store: Collection, cmd: Command, env: Surroundings)
    requires cmd.video.size as int <= MAX_VIDEO_SIZE
    requires env.insert.Generated? && OidKey(env.insert.oid) !in store
    requires env.replyOk && env.publishOk
    ensures var id := env.insert.oid;
      var task := Creation(cmd, ChosenSeed(cmd, env));
      var o := Handle(store, cmd, env);
      && o.ok
      && o.store == store[OidKey(id) := CreationIntoDb(task, env.createdAt, env.updatedAt)]
      && o.events == [Created(id), Replied(AcceptedReply(ToHex(id))), Published(PENDING_QUEUE, Encode(WithTaskId(task, ToHex(id))))]
      && o.store[OidKey(id)].status == PENDING && o.store[OidKey(id)].result == None
      && (cmd.seed.Some? ==> o.store[OidKey(id)].seed == cmd.seed.value)
      && (cmd.seed.None? ==> o.store[OidKey(id)].seed == env.randomSeed)
  {
  }

  /**
   * On every path, whatever is published names a task that is stored and
   * pending, with the same creation fields: no orphaned message.
   */
  lemma PublishedTaskIsStored(store: Collection, cmd: Command, env: Surroundings)
    ensures var o := Handle(store, cmd, env);
      forall e :: e in o.events && e.Published? ==>
        && e.queue == PENDING_QUEUE
        && Decode(e.payload).Some?
        && var t := Decode(e.payload).value;
          && t.status == PENDING && t.result == None
          && IntendedFilter(t.taskId) in o.store
          && StoredCreationPart(o.store[IntendedFilter(t.taskId)]) == CreationPart(t)
          && o.store[IntendedFilter(t.taskId)].status == PENDING
  {
    var o := Handle(store, cmd, env);
    if cmd.video.size as int <= MAX_VIDEO_SIZE && env.insert.Generated? && OidKey(env.insert.oid) !in store
       && env.replyOk && env.publishOk {
      AcceptedTaskIsPublished(store, cmd, env);
      var id := env.insert.oid;
      assert IntendedFilter(ToHex(id)) == OidKey(id);
    } else {
      assert forall e :: e in o.events ==> !e.Published?;
    }
  }

  /** A publish is always preceded by the reply that gives the caller the task id. */
  lemma ReplyPrecedesPublish(store: Collection, cmd: Command, env: Surroundings, j: nat)
    requires j < |Handle(store, cmd, env).events| && Handle(store, cmd, env).events[j].Published?
    ensures var o := Handle(store, cmd, env);
      var t := Decode(o.events[j].payload);
      t.Some? && j > 0 && o.events[j - 1] == Replied(AcceptedReply(t.value.taskId))
  {
  }
}
