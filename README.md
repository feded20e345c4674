# Video-stylization task lifecycle, modelled in Dafny

This project models the task protocol of omni-bot-rs, a Discord bot that
hands "stylize this video" jobs to HTTP backends through a message broker.
A task moves through three processes:

- The `video_stylizer` command (the producer) checks the attachment size.
  It stores the task in the `video_stylizer_task` collection as `pending`,
  replies with the task id, and publishes the task on
  `pendingVideoStylizerTasks`.
- A worker, one per backend, consumes that queue. It posts the task to its
  backend and publishes the task, now `completed` or `failed`, on
  `completedVideoStylizerTasks`. Only then does it ack the delivery.
- The bot's completed-queue handler (the reconciler) issues an update of
  the stored task's status and result. It notifies the requester in the
  task's channel, then acks. As written, that update matches no document
  (see Findings), so the stored task stays `pending`.

The model is sequential. The outside world is one `Env.World` object. It
holds the task collection (a map from `_id` to stored task) and one trace
of the visible actions in order: replies, store writes, publishes,
acks/nacks, backend posts, channel messages. Each step is an imperative
method that mirrors the source: `Producer.VideoStylizer`,
`Worker.HandleDelivery` and `Worker.Consume`, `Reconciler.HandleDelivery`
and `Reconciler.Consume`. Each one is proved equal to a pure function of
the old state and of what it met outside: `Producer.Handle`, `Worker.Step`
and `Worker.Run`, `Reconciler.Step` and `Reconciler.Run`. The protocol's
properties are lemmas about those functions.

The reconciler's functions and methods take the update's `_id` filter as a
parameter of type `Store.Filtering`:
- `AsWritten` is the filter of src/bin/bot.rs:109 and models the code.
  `Reconciler.AsWrittenRunChangesNothing` and `Lifecycle.TaskStaysPending`
  state what it does.
- `Intended` is the corrected filter. `Reconciler.LaterMessageOverwrites`
  and `Lifecycle.TaskCompletes` are stated for it alone.
- Every other reconciler lemma holds for both.

Things the processes get from outside are parameters:

- the value `rand::random()` draws, and the `DateTime::now()` readings;
- the ObjectId `insert_one` generates, or its error;
- what the backend answered;
- whether a file exists and whether a channel lookup gave a guild channel;
- whether a reply, publish, update or send succeeded.

Panics from `unwrap`/`expect` on a modelled failure are the `halted` flag.
A halted loop takes no further deliveries.

Where the design description and the code differ, the model follows the code:

- An unreachable backend is nacked with `BasicNackOptions::default()`
  (src/bin/worker.rs:108), not with an explicit `requeue = true`. The flag
  is a parameter, `nackRequeue`.
- A terminal status is not protected. The reconciler's `$set` is
  unconditional, so with the corrected filter a later message for the same
  task overwrites an earlier terminal status
  (`Reconciler.LaterMessageOverwrites`). As written, no message reaches the
  stored task at all.
- The design calls notification failure "logged only". In the code a
  failed send panics (`unwrap`), and so does a completed-queue message
  without a result (src/bin/bot.rs:110). Its check at lines 116-118 can
  never be reached.
- A completed task whose file is missing is skipped with `continue`. Its
  delivery is never acked (src/bin/bot.rs:123-126).
- The design speaks of an update "by id". As written, that update never
  finds its document (see Findings).
- The notification still goes out although the store was not updated.

Modules, one per source file or component:

| module | file | source |
|---|---|---|
| Wrappers | wrappers.dfy | `Option` |
| RustText | rust_text.dfy | u64/i64 casts, `{}` of integers, `{:?}` of strings, `join`, `split` |
| Schemas | schemas.dfy | src/schemas.rs |
| Store | store.dfy | the collection as used by src/commands/video_to_video.rs and src/bin/bot.rs |
| Broker | broker.dfy | queue names, payloads, deliveries |
| Env | env.dfy | the `World`: store plus action trace |
| Backend, Worker | worker.dfy | src/bin/worker.rs |
| Reconciler | reconciler.dfy | src/bin/bot.rs:101-190 |
| Producer | producer.dfy | src/commands/video_to_video.rs |
| Lifecycle | lifecycle.dfy | all three processes, one task end to end |

## Model

| member | source | states |
|---|---|---|
| `Schemas.WithTaskId` | src/schemas.rs:48-61 | the queued form keeps all eight creation fields, carries the given task id, is `pending` and has no result |
| `Schemas.CreationIntoDb` | src/schemas.rs:65-81 | the stored form keeps all creation fields, is `pending` with no result, and carries the two timestamps |
| `Schemas.QueueIntoDb` | src/schemas.rs:84-100 | the stored form drops the task id and keeps the creation fields, the status and the result |
| `Schemas.WithResult` | src/schemas.rs:103-110 | status and result are replaced (result becomes `Some`); task id, seed and every other field are kept |
| `Schemas.WithTaskIdInverse` | src/schemas.rs:48-61 | a pending, result-less queued task is rebuilt from its creation fields and id: `with_task_id` loses nothing |
| `Schemas.IntoDbPathsAgree` | src/schemas.rs:48-100 | creation→stored equals creation→queued→stored, whatever the task id |
| `Schemas.WithResultLastWriteWins` | src/schemas.rs:104-110 | two `with_result` calls equal the second one alone |
| `Schemas.QueuedFormDetermined` | src/schemas.rs:17-29 | a queued task is fixed by id, creation fields, status and result |
| `RustText.U64AsI64` | src/bin/worker.rs:84 | `k as i64` keeps the 64 bits: congruent to `k` mod 2^64, non-negative iff `k < 2^63`, and equal to `k` then |
| `RustText.Decimal` | src/bin/bot.rs:136-156 | `{}` of an unsigned integer: only digits, at least one, no leading zero |
| `RustText.DecimalRoundTrip` | src/bin/bot.rs:136-156 | the digits read back give the number |
| `RustText.DecimalInjective` | src/bin/bot.rs:136-156 | two numbers render alike iff they are equal |
| `RustText.DebugString` | src/bin/bot.rs:175 | `{:?}` of a string is enclosed in double quotes |
| `RustText.UnescapeEscapeChar` | src/bin/bot.rs:175 | each escaped character reads back as itself |
| `RustText.UnescapeEscapeBody` | src/bin/bot.rs:175 | the escaped body reads back as the string |
| `RustText.DebugStringRoundTrip` | src/bin/bot.rs:175 | the `{:?}` rendering determines the string |
| `RustText.Split` | src/bin/bot.rs:128 | `split` yields at least one piece, and exactly one (the string itself) iff the separator is absent |
| `RustText.SplitAfter` | src/bin/bot.rs:128 | a separator-free prefix followed by the separator is split off as one piece |
| `RustText.SplitJoin` | src/bin/bot.rs:128 | a property of `str::split` as modelled, not of the handler: splitting a join by the separator gives the parts back when no part contains it (the lines joined at bot.rs:158 do contain `\n`) |
| `RustText.JoinBounds` | src/bin/bot.rs:158 | `join` starts with its first part and ends with its last |
| `RustText.LastOfSplitStep` | src/bin/bot.rs:128 | the last piece of a split is the whole string or the last piece of its tail |
| `RustText.LastOfSplit` | src/bin/bot.rs:128 | the last piece of `split("/")` is the separator-free suffix after the last `/`, or the whole string |
| `RustText.LastSegmentUnique` | src/bin/bot.rs:128 | only one string has that shape |
| `Store.HexRoundTrip` | src/commands/video_to_video.rs:58 | hex digits of bytes decode back to the bytes |
| `Store.ToHex` | src/commands/video_to_video.rs:58 | an ObjectId's hex text has 24 characters |
| `Store.ObjectIdRoundTrip` | src/commands/video_to_video.rs:58 | `parse_str(to_hex(id))` gives `id` back |
| `Store.ToHexInjective` | src/commands/video_to_video.rs:58 | two ObjectIds have the same hex text iff they are equal |
| `Store.InsertOne` | src/commands/video_to_video.rs:56-58 | insert succeeds iff an ObjectId was generated that is not taken; then the store gains exactly that document under it; otherwise nothing changes |
| `Store.InsertKeepsOidKeyed` | src/commands/video_to_video.rs:56-58 | after inserts, every `_id` is an ObjectId |
| `Store.UpdateOne` | src/bin/bot.rs:108-112 | only the matching document changes, in status and result alone (timestamps kept); no match, no change |
| `Store.UpdateLastWriteWins` | src/bin/bot.rs:108-112 | two updates of one document equal the second one alone |
| `Store.IntendedFilter` | src/bin/bot.rs:109 | the corrected filter selects the ObjectId whose hex is the task id |
| `Store.AsWrittenUpdateMatchesNothing` | src/bin/bot.rs:108-112 | with the filter as written, the update leaves every insert-filled store unchanged |
| `Store.AsWrittenUpdateLosesResult` | src/bin/bot.rs:109 | a task inserted under ObjectId `id` and completed under `to_hex(id)` stays `pending` as written, and becomes `completed` with the corrected filter |
| `Store.IntendedUpdateReachesInserted` | src/bin/bot.rs:108-112 | with the corrected filter, the record inserted under `id` takes the new status and result and keeps its creation fields |
| `Broker.Encode` | src/bin/worker.rs:96 | serialization always succeeds and deserializes back to the task |
| `Backend.BuildRequest` | src/bin/worker.rs:79-86 | `videoname`, style prompt and seed are copied; an absent prompt becomes `""` and a present one is passed verbatim; an absent bound is `-1`, a present one is its `as i64` cast (unchanged below 2^63) |
| `Backend.KeyframeSentinelCollision` | src/bin/worker.rs:84 | a bound of 2^64-1 reaches the backend as `-1`, exactly like no bound |
| `Backend.Verdict` | src/bin/worker.rs:89-94 | a parsed body gives `completed` and the output path; an unparsable one gives `failed` and the error text |
| `Worker.Outcome` | src/bin/worker.rs:91-95 | the task to publish keeps id and creation fields and carries the status and result of the backend's answer |
| `Worker.HandleDelivery` | src/bin/worker.rs:70-114 | one delivery changes the trace exactly as `Worker.Step` says and never touches the store |
| `Worker.Consume` | src/bin/worker.rs:70-115 | the consumer loop changes the trace exactly as `Worker.Run` says, stopping at the first panic |
| `Worker.MalformedIsDropped` | src/bin/worker.rs:111-114 | an undecodable payload is acked, with no backend call and no publish |
| `Worker.TransportErrorNacks` | src/bin/worker.rs:106-109 | an unreachable backend leads to a nack with the default flag, no publish and no ack |
| `Worker.AnswerIsPublishedThenAcked` | src/bin/worker.rs:89-104 | a reachable backend leads to post, exactly one publish on the completed queue (same id and creation fields, `completed`+path or `failed`+error), then the ack |
| `Worker.FailedPublishIsNotAcked` | src/bin/worker.rs:97-104 | a publish that fails ends the worker with no ack or nack |
| `Worker.RunPublishesAnswers` | src/bin/worker.rs:70-115 | everything a worker loop publishes is on the completed queue, is terminal with a result, and answers one of its deliveries with the same id and creation fields |
| `Worker.RunSettlesEveryDelivery` | src/bin/worker.rs:70-115 | a loop that did not panic acked or nacked every delivery it took |
| `Reconciler.CompletedLines` | src/bin/bot.rs:133-158 | 3 to 6 lines: header, video prompt if any, style prompt, negative prompt if any, keyframe bound if any, seed, at the stated positions |
| `Reconciler.ComposeCompleted` | src/bin/bot.rs:133-158 | the pushes and the `join("\n")` give exactly those lines joined by newlines |
| `Reconciler.CompletedTextBounds` | src/bin/bot.rs:133-158 | the joined success text opens with the header (mention and task id) and closes with the seed line |
| `Reconciler.AttachmentName` | src/bin/bot.rs:128 | the attachment name is the text after the last `/` of the result path |
| `Reconciler.MentionInjective` | src/bin/bot.rs:136-137 | a mention names exactly one user |
| `Reconciler.HandleDelivery` | src/bin/bot.rs:101-189 | one delivery changes store and trace exactly as `Reconciler.Step` says, for the filter as written (bot.rs:109) or the corrected one |
| `Reconciler.Consume` | src/bin/bot.rs:101-190 | the consumer loop changes store and trace exactly as `Reconciler.Run` says, for either filter, stopping at the first panic |
| `Reconciler.MalformedIsDropped` | src/bin/bot.rs:186-189 | an undecodable payload is acked with no store update and no notification |
| `Reconciler.MissingResultHalts` | src/bin/bot.rs:108-118 | a task without a result panics at the unwrap, before any update, notification or ack |
| `Reconciler.UpdateComesFirst` | src/bin/bot.rs:106-114 | a decoded task with a result is first sent to `update_one` with the chosen filter, whatever its status; the store becomes that update's result |
| `Reconciler.CompletedIsAnnounced` | src/bin/bot.rs:115-164 | completed with an existing file: update, one message with the joined lines and the file attached, then the ack |
| `Reconciler.MissingFileSkipsAck` | src/bin/bot.rs:123-126 | completed with a missing file: update only, no notification, no ack |
| `Reconciler.FailedIsReported` | src/bin/bot.rs:169-181 | failed: update, one text message with the requester's mention and the result in `{:?}` form, which reads back as the result, then the ack |
| `Reconciler.OtherStatusIsOnlyStored` | src/bin/bot.rs:182-189 | any other status: update and ack, no notification |
| `Reconciler.RunOnlyChangesOutcomes` | src/bin/bot.rs:108-112 | for either filter, the reconciler never adds or removes a stored task and never changes its creation fields or timestamps |
| `Reconciler.AsWrittenStepKeepsStore` | src/bin/bot.rs:108-112 | as written, one delivery leaves a store whose every `_id` is an ObjectId unchanged |
| `Reconciler.AsWrittenRunChangesNothing` | src/bin/bot.rs:101-190 | as written, the whole loop leaves such a store unchanged: no outcome is ever recorded |
| `Reconciler.LaterMessageOverwrites` | src/bin/bot.rs:108-112 | with the corrected filter, a `failed` message after a `completed` one for the same task leaves it `failed`: no terminal status is protected |
| `Producer.VideoStylizer` | src/commands/video_to_video.rs:13-91 | the command changes store, trace and result exactly as `Producer.Handle` says |
| `Producer.OversizedIsRejected` | src/commands/video_to_video.rs:32-36 | over 8 MiB: at most the size reply, no insert, no publish |
| `Producer.LimitIsInclusive` | src/commands/video_to_video.rs:32 | exactly 8 MiB is accepted and stored |
| `Producer.InsertFailureIsNotPublished` | src/commands/video_to_video.rs:56-70 | a failed insert leaves the store unchanged; at most the failure reply follows, no publish |
| `Producer.AcceptedTaskIsPublished` | src/commands/video_to_video.rs:30-87 | store gains exactly the pending record (supplied seed, else the random draw); then the id reply, then the publish of `with_task_id(hex id)` |
| `Producer.PublishedTaskIsStored` | src/commands/video_to_video.rs:51-87 | on every path a published task is pending and stored, with the same creation fields: no orphan |
| `Producer.ReplyPrecedesPublish` | src/commands/video_to_video.rs:70-87 | every publish directly follows the reply giving its task id |
| `Lifecycle.TaskCompletes` | src/bin/bot.rs:106-112 | with the corrected filter: command, worker with a parsed answer, then reconciler leave the stored task `completed` with the output path, keeping the command's creation fields and seed |
| `Lifecycle.TaskStaysPending` | src/bin/bot.rs:109 | as written, the same run leaves the store exactly as the command left it, the task `pending` without a result |

## Findings

| source | as written | input that shows it | evidently intended | confidence | as-written member | corrected member |
|---|---|---|---|---|---|---|
| src/bin/bot.rs:109 | the update filter `{"_id": task.task_id}` compares the stored `_id`, an ObjectId generated by `insert_one`, with the task id as a BSON string, so it matches no document | a task inserted under ObjectId `o` is published with task id `to_hex(o)`; its completed message updates nothing and the stored task stays `pending` | filter on `ObjectId::parse_str(&task.task_id)` | high; not executed | `Lifecycle.TaskStaysPending` | `Lifecycle.TaskCompletes` |

The as-written filter is `Store.AsWrittenFilter`, the corrected one
`Store.IntendedFilter`. The reconciler takes either, through
`Store.Filtering`.
- `Store.AsWrittenUpdateMatchesNothing` and
  `Reconciler.AsWrittenRunChangesNothing` show the as-written update changes
  nothing in any store filled by `insert_one`.
- `Store.AsWrittenUpdateLosesResult` contrasts the two filters on one
  inserted task.
- `Store.IntendedUpdateReachesInserted` shows the corrected filter reaches
  the inserted task.

## Left out

- Connection, channel, queue and database setup (src/amqp.rs, src/db.rs, src/lib.rs, the start of src/bin/worker.rs): I/O with no protocol logic.
- Discord framework wiring, error handler and the `help` command (src/bin/bot.rs:9-89): foreign library and UI.
- Concurrency: `tokio::spawn` per backend, `threads.push` and the final joins, `tokio::select!`, the mpsc hand-off of the Discord context. Each consumer loop is modelled alone and sequentially. Competing workers on one queue and their interleaving are not modelled.
- Broker redelivery after a nack: the requeue flag is the parameter `nackRequeue`. Whether it is set, and what the broker then redelivers, is not modelled.
- JSON encoding: a payload is either a serialized queued task or bytes that do not decode. Byte-level serde behaviour is not modelled.
- HTTP transport: the backend's answer is an input. The HTTP status code is not consulted by the source either.
- File checks: `try_exists` is a boolean input. Its I/O error and a failing `File::open`, both panics in the source, are not modelled.
- Failures of `ack`/`nack` (`expect`) and consumer-stream errors (`delivery.expect`) are not modelled.
- Logging (`println!`/`eprintln!`) is not modelled.
- The `#[min = 2]` bound on `max_keyframes` is enforced by the command framework before the command runs. The model does not assume it.
- `rand::random` and `DateTime::now` are parameters. No property about timestamps is stated.
- RustText.DebugString: models the backslash escapes of `\`, `"`, NUL, TAB, LF and CR only. Rust's `\u{…}` escapes for other non-printable characters and for grapheme-extending characters (such as U+0301) are not modelled.
- LaterMessageOverwrites: stated for the corrected filter only. As written, neither message reaches the stored task (`Reconciler.AsWrittenRunChangesNothing`).
- TaskCompletes: stated for the corrected filter only. As written, the task stays pending (`Lifecycle.TaskStaysPending`).
