/**
 * One task's whole life: the command stores it and publishes it pending,
 * a worker's backend answers with an output path, and the reconciler
 * handles the completed message. As written, the reconciler's update
 * misses the stored task, which stays pending; with the corrected filter
 * the completion is recorded.
 */
module Lifecycle {
  import opened Wrappers
  import opened Schemas
  import opened Store
  import opened Broker
  import opened Env
  import opened Backend
  import Producer
  import Worker
  import Reconciler

  /**
   * With the corrected filter, the stored task ends completed with the backend's output path, and
   * keeps every creation field of the command, the seed included; the
   * completed message the worker publishes is the one reconciled.
   */
  lemma TaskCompletes(
    store: Collection, cmd: Producer.Command, env: Producer.Surroundings,
    backend: string, outputPath: string, nackRequeue: bool,
    pendingTag: nat, completedTag: nat, fileExists: bool, guildChannel: bool, sendOk: bool)
    requires cmd.video.size as int <= Producer.MAX_VIDEO_SIZE
    requires env.insert.Generated? && OidKey(env.insert.oid) !in store
    requires env.replyOk && env.publishOk
    ensures
      var id := env.insert.oid;
      var produced := Producer.Handle(store, cmd, env);
      var pending := produced.events[2].payload;
      var worked := Worker.Step(backend, Worker.Attempt(Delivery(pendingTag, pending), Parsed(outputPath), true), nackRequeue);
      var completed := worked.events[1].payload;
      var reconciled := Reconciler.Step(Intended, produced.store, Reconciler.Delivered(Delivery(completedTag, completed), true, fileExists, guildChannel, sendOk));
      && OidKey(id) in reconciled.store
      && reconciled.store[OidKey(id)].status == COMPLETED
      && reconciled.store[OidKey(id)].result == Some(outputPath)
      && StoredCreationPart(reconciled.store[OidKey(id)]) == Producer.Creation(cmd, Producer.ChosenSeed(cmd, env))
  {
    var id := env.insert.oid;
    var task := Producer.Creation(cmd, Producer.ChosenSeed(cmd, env));
    Producer.AcceptedTaskIsPublished(store, cmd, env);
    var produced := Producer.Handle(store, cmd, env);
    var queued := WithTaskId(task, ToHex(id));
    assert produced.events[2].payload == Encode(queued);
    var a := Worker.Attempt(Delivery(pendingTag, Encode(queued)), Parsed(outputPath), true);
    Worker.AnswerIsPublishedThenAcked(backend, a, nackRequeue);
    var worked := Worker.Step(backend, a, nackRequeue);
    var done := Decode(worked.events[1].payload).value;
    assert done.taskId == ToHex(id) && done.status == COMPLETED && done.result == Some(outputPath);
    var x := Reconciler.Delivered(Delivery(completedTag, worked.events[1].payload), true, fileExists, guildChannel, sendOk);
    Reconciler.UpdateComesFirst(Intended, produced.store, x);
    assert IntendedFilter(done.taskId) == OidKey(id);
    IntendedUpdateReachesInserted(produced.store, id, COMPLETED, outputPath);
  }

  /**
   * As written, the same run leaves the stored task exactly as the command
   * stored it, pending and without a result, although the requester may
   * have been notified of the completion.
   */
  lemma TaskStaysPending(
    store: Collection, cmd: Producer.Command, env: Producer.Surroundings,
    backend: string, outputPath: string, nackRequeue: bool,
    pendingTag: nat, completedTag: nat, fileExists: bool, guildChannel: bool, sendOk: bool)
    requires OidKeyed(store)
    requires cmd.video.size as int <= Producer.MAX_VIDEO_SIZE
    requires env.insert.Generated? && OidKey(env.insert.oid) !in store
    requires env.replyOk && env.publishOk
    ensures
      var id := env.insert.oid;
      var produced := Producer.Handle(store, cmd, env);
      var pending := produced.events[2].payload;
      var worked := Worker.Step(backend, Worker.Attempt(Delivery(pendingTag, pending), Parsed(outputPath), true), nackRequeue);
      var completed := worked.events[1].payload;
      var reconciled := Reconciler.Step(AsWritten, produced.store, Reconciler.Delivered(Delivery(completedTag, completed), true, fileExists, guildChannel, sendOk));
      && reconciled.store == produced.store
      && OidKey(id) in reconciled.store
      && reconciled.store[OidKey(id)].status == PENDING
      && reconciled.store[OidKey(id)].result == None
  {
    var id := env.insert.oid;
    var task := Producer.Creation(cmd, Producer.ChosenSeed(cmd, env));
    Producer.AcceptedTaskIsPublished(store, cmd, env);
    var produced := Producer.Handle(store, cmd, env);
    InsertKeepsOidKeyed(store, CreationIntoDb(task, env.createdAt, env.updatedAt), env.insert);
    var queued := WithTaskId(task, ToHex(id));
    assert produced.events[2].payload == Encode(queued);
    var a := Worker.Attempt(Delivery(pendingTag, Encode(queued)), Parsed(outputPath), true);
    Worker.AnswerIsPublishedThenAcked(backend, a, nackRequeue);
    var worked := Worker.Step(backend, a, nackRequeue);
    var x := Reconciler.Delivered(Delivery(completedTag, worked.events[1].payload), true, fileExists, guildChannel, sendOk);
    Reconciler.AsWrittenStepKeepsStore(produced.store, x);
  }
}
