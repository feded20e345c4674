/**
 * The collaborators every process talks to, seen from outside: the task
 * collection, and one trace of the visible actions on the broker, the
 * backend and the chat platform, in the order they were taken.
 */
module Env {
  import opened RustText
  import opened Schemas
  import opened Store
  import opened Broker
  import opened Backend

  datatype Event =
    | Replied(text: string)                                     // ctx.say to the command's caller
    | Created(id: ObjectId)                                     // insert_one stored a document
    | Updated(filter: Key, status: string, result: string)      // update_one succeeded
    | Published(queue: string, payload: Payload)                // basic_publish confirmed
    | Acked(tag: nat)
    | Nacked(tag: nat, requeue: bool)
    | Posted(backend: string, body: RequestBody)                // HTTP POST to a backend
    | SentMessage(channelId: u64, text: string)                 // channel.say
    | SentFile(channelId: u64, text: string, filename: string)  // channel.send_files

  class World {
    var store: Collection
    var trace: seq<Event>

    constructor (initial: Collection)
      ensures store == initial && trace == []
    {
      store := initial;
      trace := [];
    }

    method Reply(text: string)
      modifies this
      ensures store == old(store) && trace == old(trace) + [Replied(text)]
    {
      trace := trace + [Replied(text)];
    }

    method InsertOne(doc: TaskInDB, attempt: InsertAttempt) returns (r: InsertResult)
      modifies this
      ensures (store, r) == Store.InsertOne(old(store), doc, attempt)
      ensures trace == old(trace) + if r.Inserted? then [Created(r.id)] else []
    {
      var after := Store.InsertOne(store, doc, attempt);
      store, r := after.0, after.1;
      if r.Inserted? {
        trace := trace + [Created(r.id)];
      }
    }

    method UpdateOne(filter: Key, status: string, result: string)
      modifies this
      ensures store == Store.UpdateOne(old(store), filter, status, result)
      ensures trace == old(trace) + [Updated(filter, status, result)]
    {
      store := Store.UpdateOne(store, filter, status, result);
      trace := trace + [Updated(filter, status, result)];
    }

    method Publish(queue: string, payload: Payload)
      modifies this
      ensures store == old(store) && trace == old(trace) + [Published(queue, payload)]
    {
      trace := trace + [Published(queue, payload)];
    }

    method Ack(tag: nat)
      modifies this
      ensures store == old(store) && trace == old(trace) + [Acked(tag)]
    {
      trace := trace + [Acked(tag)];
    }

    method Nack(tag: nat, requeue: bool)
      modifies this
      ensures store == old(store) && trace == old(trace) + [Nacked(tag, requeue)]
    {
      trace := trace + [Nacked(tag, requeue)];
    }

    method Post(backend: string, body: RequestBody)
      modifies this
      ensures store == old(store) && trace == old(trace) + [Posted(backend, body)]
    {
      trace := trace + [Posted(backend, body)];
    }

    method Say(channelId: u64, text: string)
      modifies this
      ensures store == old(store) && trace == old(trace) + [SentMessage(channelId, text)]
    {
      trace := trace + [SentMessage(channelId, text)];
    }

    method SendFile(channelId: u64, text: string, filename: string)
      modifies this
      ensures store == old(store) && trace == old(trace) + [SentFile(channelId, text, filename)]
    {
      trace := trace + [SentFile(channelId, text, filename)];
    }
  }
}
