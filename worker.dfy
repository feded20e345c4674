/**
 * The backend contract of the worker (src/bin/worker.rs:16-29, 79-94): the
 * request body built from a queued task and the status and result read
 * from the backend's answer.
 */
module Backend {
  import opened Wrappers
  import opened RustText
  import opened Schemas

  /** `VideoStylizerRequestBody`, the JSON posted to a backend. */
  datatype RequestBody = RequestBody(
    videoname: string,
    videoPrompt: string,
    stylePrompt: string,
    nPrompt: string,
    maxKeyframe: i64,
    seed: u64)

  /**
   * What one POST to a backend came to: the request never got an answer
   * (connection refused, reset, timed out), an answer whose body is not a
   * `VideoStylizerResponseBody` (its error rendered with `{:?}`), or one
   * whose body carries an `output_path`. The HTTP status code is not looked at.
   */
  datatype BackendOutcome = TransportError(cause: string) | BadBody(error: string) | Parsed(outputPath: string)

  /** The request body for a task: absent prompts become "" and an absent keyframe bound -1. */
  function BuildRequest(t: TaskInQueue): (r: RequestBody)
    ensures r.videoname == t.srcVideoUrl && r.stylePrompt == t.stylePrompt && r.seed == t.seed
    ensures t.videoPrompt.None? ==> r.videoPrompt == ""
    ensures t.videoPrompt.Some? ==> r.videoPrompt == t.videoPrompt.value
    ensures t.negativePrompt.None? ==> r.nPrompt == ""
    ensures t.negativePrompt.Some? ==> r.nPrompt == t.negativePrompt.value
    ensures t.maxKeyframes.None? ==> r.maxKeyframe == -1
    ensures t.maxKeyframes.Some? ==> r.maxKeyframe == U64AsI64(t.maxKeyframes.value)
    ensures t.maxKeyframes.Some? && t.maxKeyframes.value as int < I64_BOUND ==>
      r.maxKeyframe as int == t.maxKeyframes.value as int
  {
    RequestBody(
      t.srcVideoUrl,
      t.videoPrompt.UnwrapOr(""),
      t.stylePrompt,
      t.negativePrompt.UnwrapOr(""),
      if t.maxKeyframes.None? then -1 else U64AsI64(t.maxKeyframes.value),
      t.seed)
  }

  /**
   * The sentinel is ambiguous at one point: a bound of 2^64 - 1 is cast to
   * -1 and reaches the backend exactly as "no bound" does.
   */
  lemma KeyframeSentinelCollision(t: TaskInQueue)
    requires t.maxKeyframes == Some((U64_MODULUS - 1) as u64)
    ensures BuildRequest(t).maxKeyframe == BuildRequest(t.(maxKeyframes := None)).maxKeyframe
  {
  }

  /** The status and result a reachable backend's answer maps to. */
  function Verdict(o: BackendOutcome): (v: (string, string))
    requires !o.TransportError?
    ensures v.0 == COMPLETED <==> o.Parsed?
    ensures v.0 == FAILED <==> o.BadBody?
    ensures o.Parsed? ==> v.1 == o.outputPath
    ensures o.BadBody? ==> v.1 == o.error
  {
    match o
    case Parsed(path) => (COMPLETED, path)
    case BadBody(e) => (FAILED, e)
  }
}

/**
 * One worker's consumer loop (src/bin/worker.rs:70-115): for each delivery
 * from the pending queue, decode it, call the backend, publish the outcome
 * to the completed queue and only then ack; nack when the backend was not
 * reachable; ack and drop what does not decode.
 */
module Worker {
  import opened Wrappers
  import opened Schemas
  import opened Broker
  import opened Backend
  import opened Env

  /**
   * One delivery together with what the backend answered for it and
   * whether publishing to the completed queue went through.
   */
  datatype Attempt = Attempt(delivery: Delivery, backend: BackendOutcome, publishOk: bool)

  /** The visible actions of some deliveries, and whether the loop died on a panic. */
  datatype StepResult = StepResult(events: seq<Event>, halted: bool)

  /** The queued task a worker publishes for a task and a reachable backend's answer. */
  function Outcome(t: TaskInQueue, o: BackendOutcome): (r: TaskInQueue)
    requires !o.TransportError?
    ensures CreationPart(r) == CreationPart(t) && r.taskId == t.taskId
    ensures o.Parsed? ==> r.status == COMPLETED && r.result == Some(o.outputPath)
    ensures o.BadBody? ==> r.status == FAILED && r.result == Some(o.error)
  {
    var (status, result) := Verdict(o);
    WithResult(t, status, result)
  }

  /**
   * The actions for one delivery. A failed publish panics on its `unwrap`,
   * which ends this worker before the ack. `nackRequeue` is the requeue
   * flag of `BasicNackOptions::default()`.
   */
  function Step(backend: string, a: Attempt, nackRequeue: bool): StepResult {
    var tag := a.delivery.tag;
    match Decode(a.delivery.data)
    case None => StepResult([Acked(tag)], false)
    case Some(t) =>
      var posted := Posted(backend, BuildRequest(t));
      if a.backend.TransportError? then StepResult([posted, Nacked(tag, nackRequeue)], false)
      else if !a.publishOk then StepResult([posted], true)
      else StepResult([posted, Published(COMPLETED_QUEUE, Encode(Outcome(t, a.backend))), Acked(tag)], false)
  }

  /** The loop over a sequence of deliveries, stopping at the first panic. */
  function Run(backend: string, attempts: seq<Attempt>, nackRequeue: bool): StepResult
    decreases |attempts|
  {
    if attempts == [] then StepResult([], false)
    else
      var first := Step(backend, attempts[0], nackRequeue);
      if first.halted then first
      else
        var rest := Run(backend, attempts[1..], nackRequeue);
        StepResult(first.events + rest.events, rest.halted)
  }

  method HandleDelivery(w: World, backend: string, a: Attempt, nackRequeue: bool) returns (halted: bool)
    modifies w
    ensures w.store == old(w.store)
    ensures w.trace == old(w.trace) + Step(backend, a, nackRequeue).events
    ensures halted == Step(backend, a, nackRequeue).halted
  {
    halted := false;
    var decoded := Decode(a.delivery.data);
    if decoded.Some? {
      var task := decoded.value;
      w.Post(backend, BuildRequest(task));
      if a.backend.TransportError? {
        w.Nack(a.delivery.tag, nackRequeue);
      } else {
        var (status, result) := Verdict(a.backend);
        var payload := Encode(WithResult(task, status, result));
        if !a.publishOk {
          halted := true;
          return;
        }
        w.Publish(COMPLETED_QUEUE, payload);
        w.Ack(a.delivery.tag);
      }
    } else {
      w.Ack(a.delivery.tag);
    }
  }

  method Consume(w: World, backend: string, attempts: seq<Attempt>, nackRequeue: bool) returns (halted: bool)
    modifies w
    ensures w.store == old(w.store)
    ensures w.trace == old(w.trace) + Run(backend, attempts, nackRequeue).events
    ensures halted == Run(backend, attempts, nackRequeue).halted
  {
    halted := false;
    var i := 0;
    while i < |attempts| && !halted
      invariant 0 <= i <= |attempts|
      invariant w.store == old(w.store)
      invariant !halted ==>
        && old(w.trace) + Run(backend, attempts, nackRequeue).events == w.trace + Run(backend, attempts[i..], nackRequeue).events
        && Run(backend, attempts, nackRequeue).halted == Run(backend, attempts[i..], nackRequeue).halted
      invariant halted ==>
        && w.trace == old(w.trace) + Run(backend, attempts, nackRequeue).events
        && Run(backend, attempts, nackRequeue).halted
    {
      assert attempts[i..][1..] == attempts[i + 1..];
      halted := HandleDelivery(w, backend, attempts[i], nackRequeue);
      i := i + 1;
    }
  }

  // ---------------------------------------------------------------------------
  // Properties of one delivery

  /** What does not decode is acked, with no backend call and no publish. */
  lemma MalformedIsDropped(backend: string, a: Attempt, nackRequeue: bool)
    requires Decode(a.delivery.data).None?
    ensures Step(backend, a, nackRequeue) == StepResult([Acked(a.delivery.tag)], false)
  {
  }

  /** An unreachable backend leads to a nack and nothing on the completed queue. */
  lemma TransportErrorNacks(backend: string, a: Attempt, nackRequeue: bool)
    requires Decode(a.delivery.data).Some? && a.backend.TransportError?
    ensures var s := Step(backend, a, nackRequeue);
      && !s.halted && s.events[|s.events| - 1] == Nacked(a.delivery.tag, nackRequeue)
      && forall e :: e in s.events ==> !e.Published? && !e.Acked?
  {
  }

  /**
   * A reachable backend leads to exactly one publish, on the completed
   * queue, of the same task with its terminal status and result, followed
   * by the ack of the delivery.
   */
  lemma AnswerIsPublishedThenAcked(backend: string, a: Attempt, nackRequeue: bool)
    requires Decode(a.delivery.data).Some? && !a.backend.TransportError? && a.publishOk
    ensures var t := Decode(a.delivery.data).value;
      var s := Step(backend, a, nackRequeue);
      && !s.halted && |s.events| == 3
      && s.events[0] == Posted(backend, BuildRequest(t))
      && s.events[1].Published? && s.events[1].queue == COMPLETED_QUEUE
      && s.events[2] == Acked(a.delivery.tag)
      && var out := Decode(s.events[1].payload);
        && out.Some? && out.value.taskId == t.taskId && CreationPart(out.value) == CreationPart(t)
        && (a.backend.Parsed? ==> out.value.status == COMPLETED && out.value.result == Some(a.backend.outputPath))
        && (a.backend.BadBody? ==> out.value.status == FAILED && out.value.result == Some(a.backend.error))
  {
  }

  /** A publish that fails ends the worker before the delivery is acked. */
  lemma FailedPublishIsNotAcked(backend: string, a: Attempt, nackRequeue: bool)
    requires Decode(a.delivery.data).Some? && !a.backend.TransportError? && !a.publishOk
    ensures var s := Step(backend, a, nackRequeue);
      s.halted && forall e :: e in s.events ==> !e.Published? && !e.Acked? && !e.Nacked?
  {
  }

  // ---------------------------------------------------------------------------
  // Properties of the whole loop

  /** A terminal queued task: completed or failed, with a result. */
  predicate IsTerminal(t: TaskInQueue) {
    (t.status == COMPLETED || t.status == FAILED) && t.result.Some?
  }

  /** `t` is the answer to one of the deliveries: same id and same creation fields. */
  predicate AnswersSome(attempts: seq<Attempt>, t: TaskInQueue) {
    exists i :: 0 <= i < |attempts| && Answers(attempts[i], t)
  }

  predicate Answers(a: Attempt, t: TaskInQueue) {
    match Decode(a.delivery.data)
    case Some(d) => d.taskId == t.taskId && CreationPart(d) == CreationPart(t)
    case None => false
  }

  /**
   * Everything a worker publishes goes to the completed queue, is terminal,
   * and answers one of the deliveries it took: a worker never rerolls a
   * seed, rewrites a prompt or invents a task.
   */
  lemma {:induction false} RunPublishesAnswers(backend: string, attempts: seq<Attempt>, nackRequeue: bool)
    ensures forall e :: e in Run(backend, attempts, nackRequeue).events && e.Published? ==>
      && e.queue == COMPLETED_QUEUE
      && Decode(e.payload).Some?
      && IsTerminal(Decode(e.payload).value)
      && AnswersSome(attempts, Decode(e.payload).value)
    decreases |attempts|
  {
    if attempts != [] {
      RunPublishesAnswers(backend, attempts[1..], nackRequeue);
      var first := Step(backend, attempts[0], nackRequeue);
      forall e | e in Run(backend, attempts, nackRequeue).events && e.Published?
        ensures e.queue == COMPLETED_QUEUE && Decode(e.payload).Some?
        ensures IsTerminal(Decode(e.payload).value) && AnswersSome(attempts, Decode(e.payload).value)
      {
        if e in first.events {
          assert Answers(attempts[0], Decode(e.payload).value);
        } else {
          var t := Decode(e.payload).value;
          var i :| 0 <= i < |attempts[1..]| && Answers(attempts[1..][i], t);
          assert Answers(attempts[i + 1], t);
        }
      }
    }
  }

  /**
   * A loop that did not die has settled every delivery: each one's tag was
   * acked or nacked.
   */
  lemma {:induction false} RunSettlesEveryDelivery(backend: string, attempts: seq<Attempt>, nackRequeue: bool)
    requires !Run(backend, attempts, nackRequeue).halted
    ensures forall i :: 0 <= i < |attempts| ==>
      var tag := attempts[i].delivery.tag;
      Acked(tag) in Run(backend, attempts, nackRequeue).events || Nacked(tag, nackRequeue) in Run(backend, attempts, nackRequeue).events
    decreases |attempts|
  {
    if attempts != [] {
      RunSettlesEveryDelivery(backend, attempts[1..], nackRequeue);
      forall i | 0 <= i < |attempts|
        ensures var tag := attempts[i].delivery.tag;
          Acked(tag) in Run(backend, attempts, nackRequeue).events || Nacked(tag, nackRequeue) in Run(backend, attempts, nackRequeue).events
      {
        if i > 0 {
          assert attempts[i] == attempts[1..][i - 1];
        }
      }
    }
  }
}
