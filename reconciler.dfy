/**
 * The bot's handler of the completed queue (src/bin/bot.rs:101-190): for
 * each delivery, decode it, update the stored task's status and result,
 * notify the requester in the task's channel, and ack.
 *
 * The update's `_id` filter is a parameter: `AsWritten` is the code, whose
 * filter matches no document `insert_one` created; `Intended` is the
 * corrected filter.
 */
module Reconciler {
  import opened Wrappers
  import opened RustText
  import opened Schemas
  import opened Store
  import opened Broker
  import opened Env

  /**
   * One delivery with what handling it met outside: whether `update_one`
   * succeeded, whether the result file exists, whether the channel lookup
   * gave a guild channel, and whether sending the notification succeeded.
   */
  datatype Delivered = Delivered(delivery: Delivery, updateOk: bool, fileExists: bool, guildChannel: bool, sendOk: bool)

  /** The store after some deliveries, their visible actions, and whether the loop died on a panic. */
  datatype StepResult = StepResult(store: Collection, events: seq<Event>, halted: bool)

  // ---------------------------------------------------------------------------
  // Notification text

  /** A Discord user mention. */
  function Mention(userId: u64): string {
    "<@" + Decimal(userId as nat) + ">"
  }

  function Header(t: TaskInQueue): string {
    "New generation from " + Mention(t.userId) + ":\nTask: **Video Stylization**\nTask ID: " + t.taskId
  }

  function Present<T>(o: Option<T>): nat {
    if o.Some? then 1 else 0
  }

  function OptionalLine(caption: string, v: Option<string>): (lines: seq<string>)
    ensures |lines| == Present(v)
    ensures v.Some? ==> lines == [caption + v.value]
  {
    if v.Some? then [caption + v.value] else []
  }

  function KeyframeText(k: Option<u64>): (s: Option<string>)
    ensures s.Some? <==> k.Some?
    ensures k.Some? ==> s.value == Decimal(k.value as nat)
  {
    if k.Some? then Some(Decimal(k.value as nat)) else None
  }

  /**
   * The lines of a success notification, in order: header, video prompt if
   * any, style prompt, negative prompt if any, keyframe bound if any, seed.
   */
  function CompletedLines(t: TaskInQueue): (lines: seq<string>)
    ensures |lines| == 3 + Present(t.videoPrompt) + Present(t.negativePrompt) + Present(t.maxKeyframes)
    ensures lines[0] == Header(t)
    ensures t.videoPrompt.Some? ==> lines[1] == "Video Prompt: " + t.videoPrompt.value
    ensures lines[1 + Present(t.videoPrompt)] == "Style Prompt: " + t.stylePrompt
    ensures t.negativePrompt.Some? ==>
      lines[2 + Present(t.videoPrompt)] == "Negative Prompt: " + t.negativePrompt.value
    ensures t.maxKeyframes.Some? ==>
      lines[2 + Present(t.videoPrompt) + Present(t.negativePrompt)] == "Max Keyframes: " + Decimal(t.maxKeyframes.value as nat)
    ensures Last(lines) == "Seed: " + Decimal(t.seed as nat)
  {
    [Header(t)]
    + OptionalLine("Video Prompt: ", t.videoPrompt)
    + ["Style Prompt: " + t.stylePrompt]
    + OptionalLine("Negative Prompt: ", t.negativePrompt)
    + OptionalLine("Max Keyframes: ", KeyframeText(t.maxKeyframes))
    + ["Seed: " + Decimal(t.seed as nat)]
  }

  /**
   * The joined success text opens with the header, which names the
   * requester and the task id, and closes with the seed line.
   */
  lemma CompletedTextBounds(t: TaskInQueue)
    ensures var text := Join(CompletedLines(t), "\n");
      && Header(t) <= text
      && var seed := "Seed: " + Decimal(t.seed as nat);
        |seed| <= |text| && text[|text| - |seed|..] == seed
  {
    JoinBounds(CompletedLines(t), "\n");
  }

  /** The text of a failure notification: requester mention and the result in `{:?}` form. */
  function FailedText(t: TaskInQueue): string
    requires t.result.Some?
  {
    "> Failed to stylize your video. " + Mention(t.userId) + " Error: " + DebugString(t.result.value)
  }

  /** The attachment's file name: `path.split("/").last().unwrap()`. */
  function AttachmentName(path: string): (name: string)
    ensures IsLastSegment(path, '/', name)
  {
    LastOfSplit(path, '/');
    Last(Split(path, '/'))
  }

  /** Builds the success notification line by line, as the handler pushes onto `responses`. */
  method ComposeCompleted(t: TaskInQueue) returns (response: string)
    ensures response == Join(CompletedLines(t), "\n")
  {
    var responses: seq<string> := [];
    responses := responses + [Header(t)];
    if t.videoPrompt.Some? {
      responses := responses + ["Video Prompt: " + t.videoPrompt.value];
    }
    responses := responses + ["Style Prompt: " + t.stylePrompt];
    if t.negativePrompt.Some? {
      responses := responses + ["Negative Prompt: " + t.negativePrompt.value];
    }
    if t.maxKeyframes.Some? {
      responses := responses + ["Max Keyframes: " + Decimal(t.maxKeyframes.value as nat)];
    }
    responses := responses + ["Seed: " + Decimal(t.seed as nat)];
    assert responses == CompletedLines(t);
    response := Join(responses, "\n");
  }

  // ---------------------------------------------------------------------------
  // One delivery and the loop

  /** The notification part of a task's handling, and whether the delivery gets its ack. */
  datatype Notice = Notice(events: seq<Event>, halted: bool, acks: bool)

  /**
   * The status dispatch. A completed task whose file is missing is skipped
   * with `continue`, so its delivery is never acked; a failed send panics.
   */
  function Dispatch(t: TaskInQueue, x: Delivered): Notice
    requires t.result.Some?
  {
    if t.status == COMPLETED then
      if !x.fileExists then Notice([], false, false)
      else if !x.guildChannel then Notice([], false, true)
      else if !x.sendOk then Notice([], true, false)
      else Notice([SentFile(t.channelId, Join(CompletedLines(t), "\n"), AttachmentName(t.result.value))], false, true)
    else if t.status == FAILED then
      if !x.guildChannel then Notice([], false, true)
      else if !x.sendOk then Notice([], true, false)
      else Notice([SentMessage(t.channelId, FailedText(t))], false, true)
    else Notice([], false, true)
  }

  /**
   * One delivery. The `$set` document unwraps the result, so a task
   * without one panics before anything is written; so does a failed update.
   */
  function Step(filtering: Filtering, store: Collection, x: Delivered): StepResult {
    var tag := x.delivery.tag;
    match Decode(x.delivery.data)
    case None => StepResult(store, [Acked(tag)], false)
    case Some(t) =>
      if t.result.None? || !x.updateOk then StepResult(store, [], true)
      else
        var filter := FilterFor(filtering, t.taskId);
        var n := Dispatch(t, x);
        StepResult(
          UpdateOne(store, filter, t.status, t.result.value),
          [Updated(filter, t.status, t.result.value)] + n.events + (if n.acks then [Acked(tag)] else []),
          n.halted)
  }

  function Run(filtering: Filtering, store: Collection, xs: seq<Delivered>): StepResult
    decreases |xs|
  {
    if xs == [] then StepResult(store, [], false)
    else
      var first := Step(filtering, store, xs[0]);
      if first.halted then first
      else
        var rest := Run(filtering, first.store, xs[1..]);
        StepResult(rest.store, first.events + rest.events, rest.halted)
  }

  method HandleDelivery(w: World, filtering: Filtering, x: Delivered) returns (halted: bool)
    modifies w
    ensures w.store == Step(filtering, old(w.store), x).store
    ensures w.trace == old(w.trace) + Step(filtering, old(w.store), x).events
    ensures halted == Step(filtering, old(w.store), x).halted
  {
    halted := false;
    var decoded := Decode(x.delivery.data);
    if decoded.Some? {
      var task := decoded.value;
      if task.result.None? || !x.updateOk {
        halted := true;
        return;
      }
      w.UpdateOne(FilterFor(filtering, task.taskId), task.status, task.result.value);
      if task.status == COMPLETED {
        var path := task.result.value;
        if !x.fileExists {
          return;
        }
        var name := AttachmentName(path);
        if x.guildChannel {
          var response := ComposeCompleted(task);
          if !x.sendOk {
            halted := true;
            return;
          }
          w.SendFile(task.channelId, response, name);
        }
      } else if task.status == FAILED {
        if x.guildChannel {
          if !x.sendOk {
            halted := true;
            return;
          }
          w.Say(task.channelId, FailedText(task));
        }
      }
    }
    w.Ack(x.delivery.tag);
  }

  method Consume(w: World, filtering: Filtering, xs: seq<Delivered>) returns (halted: bool)
    modifies w
    ensures w.store == Run(filtering, old(w.store), xs).store
    ensures w.trace == old(w.trace) + Run(filtering, old(w.store), xs).events
    ensures halted == Run(filtering, old(w.store), xs).halted
  {
    ghost var total := Run(filtering, w.store, xs);
    ghost var trace0 := w.trace;
    halted := false;
    var i := 0;
    while i < |xs| && !halted
      invariant 0 <= i <= |xs|
      invariant !halted ==>
        var rest := Run(filtering, w.store, xs[i..]);
        && trace0 + total.events == w.trace + rest.events
        && total.store == rest.store
        && total.halted == rest.halted
      invariant halted ==>
        && w.store == total.store
        && w.trace == trace0 + total.events
        && total.halted
    {
      ghost var trace1 := w.trace;
      ghost var first := Step(filtering, w.store, xs[i]);
      ghost var tail := Run(filtering, first.store, xs[i + 1..]);
      RunUnfold(filtering, w.store, xs[i..]);
      assert xs[i..][1..] == xs[i + 1..];
      halted := HandleDelivery(w, filtering, xs[i]);
      assert w.store == first.store && w.trace == trace1 + first.events && halted == first.halted;
      if !halted {
        assert trace1 + (first.events + tail.events) == w.trace + tail.events;
      }
      i := i + 1;
    }
  }

  /** One step of the loop: the first delivery's step, then the rest unless it panicked. */
  lemma RunUnfold(filtering: Filtering, store: Collection, xs: seq<Delivered>)
    requires xs != []
    ensures var first := Step(filtering, store, xs[0]);
      var rest := Run(filtering, first.store, xs[1..]);
      && (first.halted ==> Run(filtering, store, xs) == first)
      && (!first.halted ==> Run(filtering, store, xs) == StepResult(rest.store, first.events + rest.events, rest.halted))
  {
  }

  // ---------------------------------------------------------------------------
  // Properties of one delivery

  /** What does not decode is acked and nothing else happens. */
  lemma MalformedIsDropped(filtering: Filtering, store: Collection, x: Delivered)
    requires Decode(x.delivery.data).None?
    ensures Step(filtering, store, x) == StepResult(store, [Acked(x.delivery.tag)], false)
  {
  }

  /**
   * A decoded task without a result panics at the unwrap of the `$set`
   * document: no update, no notification, no ack. Hence the later check of
   * the completed branch for a missing result is never reached.
   */
  lemma MissingResultHalts(filtering: Filtering, store: Collection, x: Delivered)
    requires Decode(x.delivery.data).Some? && Decode(x.delivery.data).value.result.None?
    ensures Step(filtering, store, x) == StepResult(store, [], true)
  {
  }

  /**
   * A decoded task with a result is first written to the store, whatever
   * its status: the record the filter matches, if any, takes the status and
   * result, and all else stays as it was.
   */
  lemma UpdateComesFirst(filtering: Filtering, store: Collection, x: Delivered)
    requires Decode(x.delivery.data).Some? && Decode(x.delivery.data).value.result.Some? && x.updateOk
    ensures var t := Decode(x.delivery.data).value;
      var s := Step(filtering, store, x);
      && s.events[0] == Updated(FilterFor(filtering, t.taskId), t.status, t.result.value)
      && s.store == UpdateOne(store, FilterFor(filtering, t.taskId), t.status, t.result.value)
  {
  }

  /** A completed task whose file exists: one message in its channel with the file attached, then the ack. */
  lemma CompletedIsAnnounced(filtering: Filtering, store: Collection, x: Delivered)
    requires Decode(x.delivery.data).Some?
    requires var t := Decode(x.delivery.data).value; t.status == COMPLETED && t.result.Some?
    requires x.updateOk && x.fileExists && x.guildChannel && x.sendOk
    ensures var t := Decode(x.delivery.data).value;
      var s := Step(filtering, store, x);
      && !s.halted && |s.events| == 3
      && s.events[1] == SentFile(t.channelId, Join(CompletedLines(t), "\n"), AttachmentName(t.result.value))
      && s.events[2] == Acked(x.delivery.tag)
  {
  }

  /** A completed task whose file is missing: the store is updated, nothing is sent, and the ack is skipped. */
  lemma MissingFileSkipsAck(filtering: Filtering, store: Collection, x: Delivered)
    requires Decode(x.delivery.data).Some?
    requires var t := Decode(x.delivery.data).value; t.status == COMPLETED && t.result.Some?
    requires x.updateOk && !x.fileExists
    ensures var s := Step(filtering, store, x);
      && !s.halted && |s.events| == 1 && s.events[0].Updated?
  {
  }

  /**
   * A failed task: one text message in its channel that mentions the
   * requester and carries the result, which can be read back from it; then
   * the ack.
   */
  lemma FailedIsReported(filtering: Filtering, store: Collection, x: Delivered)
    requires Decode(x.delivery.data).Some?
    requires var t := Decode(x.delivery.data).value; t.status == FAILED && t.result.Some?
    requires x.updateOk && x.guildChannel && x.sendOk
    ensures var t := Decode(x.delivery.data).value;
      var s := Step(filtering, store, x);
      var prefix := "> Failed to stylize your video. " + Mention(t.userId) + " Error: ";
      && !s.halted && |s.events| == 3
      && s.events[1].SentMessage? && s.events[1].channelId == t.channelId
      && s.events[1].text == prefix + DebugString(t.result.value)
      && ParseDebugString(s.events[1].text[|prefix|..]) == Some(t.result.value)
      && s.events[2] == Acked(x.delivery.tag)
  {
    var t := Decode(x.delivery.data).value;
    var prefix := "> Failed to stylize your video. " + Mention(t.userId) + " Error: ";
    var text := prefix + DebugString(t.result.value);
    assert text[|prefix|..] == DebugString(t.result.value);
    DebugStringRoundTrip(t.result.value);
  }

  /** Any other status is stored and acked, with no notification. */
  lemma OtherStatusIsOnlyStored(filtering: Filtering, store: Collection, x: Delivered)
    requires Decode(x.delivery.data).Some?
    requires var t := Decode(x.delivery.data).value; t.status != COMPLETED && t.status != FAILED && t.result.Some?
    requires x.updateOk
    ensures var s := Step(filtering, store, x);
      && !s.halted && |s.events| == 2 && s.events[0].Updated? && s.events[1] == Acked(x.delivery.tag)
  {
  }

  /** The mention in a notification names exactly one user. */
  lemma MentionInjective(a: u64, b: u64)
    ensures Mention(a) == Mention(b) <==> a == b
  {
    if Mention(a) == Mention(b) {
      assert Decimal(a as nat) == Mention(a)[2..|Mention(a)| - 1];
      assert Decimal(b as nat) == Mention(b)[2..|Mention(b)| - 1];
      DecimalInjective(a as nat, b as nat);
    }
  }

  // ---------------------------------------------------------------------------
  // Properties of the whole loop

  /** `after` differs from `before` at most in the status and result of existing records. */
  predicate OnlyOutcomesChanged(before: Collection, after: Collection) {
    && after.Keys == before.Keys
    && forall k :: k in before ==>
      && StoredCreationPart(after[k]) == StoredCreationPart(before[k])
      && after[k].createdAt == before[k].createdAt
      && after[k].updatedAt == before[k].updatedAt
  }

  /**
   * The reconciler never creates or removes a stored task and never touches
   * its creation fields or timestamps.
   */
  lemma {:induction false} RunOnlyChangesOutcomes(filtering: Filtering, store: Collection, xs: seq<Delivered>)
    ensures OnlyOutcomesChanged(store, Run(filtering, store, xs).store)
    decreases |xs|
  {
    if xs != [] {
      var first := Step(filtering, store, xs[0]);
      if !first.halted {
        RunOnlyChangesOutcomes(filtering, first.store, xs[1..]);
      }
    }
  }

  /** As written, one delivery leaves a store keyed by ObjectIds as it was. */
  lemma AsWrittenStepKeepsStore(store: Collection, x: Delivered)
    requires OidKeyed(store)
    ensures Step(AsWritten, store, x).store == store
  {
    var d := Decode(x.delivery.data);
    if d.Some? && d.value.result.Some? && x.updateOk {
      AsWrittenUpdateMatchesNothing(store, d.value.taskId, d.value.status, d.value.result.value);
    }
  }

  /**
   * As written, the reconciler never changes a store filled by `insert_one`:
   * every task stays as the command stored it, whatever the worker answered.
   */
  lemma {:induction false} AsWrittenRunChangesNothing(store: Collection, xs: seq<Delivered>)
    requires OidKeyed(store)
    ensures Run(AsWritten, store, xs).store == store
    decreases |xs|
  {
    if xs != [] {
      AsWrittenStepKeepsStore(store, xs[0]);
      if !Step(AsWritten, store, xs[0]).halted {
        AsWrittenRunChangesNothing(store, xs[1..]);
      }
    }
  }

  /**
   * With the corrected filter no terminal status is protected: a second
   * message for the same task overwrites the first one's status and result.
   */
  lemma LaterMessageOverwrites(store: Collection, x1: Delivered, x2: Delivered, t1: TaskInQueue, t2: TaskInQueue)
    requires x1.delivery.data == Encode(t1) && x2.delivery.data == Encode(t2)
    requires t1.taskId == t2.taskId && IntendedFilter(t1.taskId) in store
    requires t1.status == COMPLETED && t2.status == FAILED && t1.result.Some? && t2.result.Some?
    requires x1.updateOk && x1.fileExists && x1.guildChannel && x1.sendOk && x2.updateOk
    ensures var r := Run(Intended, store, [x1, x2]);
      && IntendedFilter(t1.taskId) in r.store
      && r.store[IntendedFilter(t1.taskId)].status == FAILED
      && r.store[IntendedFilter(t1.taskId)].result == t2.result
  {
    assert Decode(x1.delivery.data) == Some(t1) && Decode(x2.delivery.data) == Some(t2);
    UpdateComesFirst(Intended, store, x1);
    var first := Step(Intended, store, x1);
    assert !Dispatch(t1, x1).halted;
    UpdateComesFirst(Intended, first.store, x2);
    RunOfTwo(Intended, store, x1, x2);
  }

  /** Two deliveries of which the first does not panic: the store is the second step's. */
  lemma RunOfTwo(filtering: Filtering, store: Collection, x1: Delivered, x2: Delivered)
    requires !Step(filtering, store, x1).halted
    ensures Run(filtering, store, [x1, x2]).store == Step(filtering, Step(filtering, store, x1).store, x2).store
  {
    var first := Step(filtering, store, x1);
    var second := Step(filtering, first.store, x2);
    assert [x1, x2][1..] == [x2];
    assert Run(filtering, store, [x1, x2]).store == Run(filtering, first.store, [x2]).store;
    assert [x2][1..] == [];
    assert Run(filtering, second.store, []).store == second.store;
    assert Run(filtering, first.store, [x2]).store == second.store;
  }
}
