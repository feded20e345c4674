/**
 * The task collection as the protocol uses it: documents keyed by their
 * `_id`, `insert_one` with a client-generated ObjectId, and `update_one`
 * with a `$set` of status and result. The `_id` of an inserted task is an
 * ObjectId; the task id handed around everywhere else is its hex text.
 */
module Store {
  import opened Wrappers
  import opened RustText
  import opened Schemas

  /** A BSON ObjectId: twelve bytes. */
  type ObjectId = b: seq<u8> | |b| == 12
    witness [0, 0, 0, 0, 0, 0, 0, 0, 0, 0, 0, 0]

  /** The value stored under `_id`, or compared with it in a filter. */
  datatype Key = OidKey(oid: ObjectId) | StrKey(text: string)

  type Collection = map<Key, TaskInDB>

  // ---------------------------------------------------------------------------
  // ObjectId::to_hex and ObjectId::parse_str

  function HexDigit(d: int): (c: char)
    requires 0 <= d < 16
  {
    "0123456789abcdef"[d]
  }

  /** The value of a hexadecimal digit of either case. */
  function HexValue(c: char): (v: Option<int>)
    ensures v.Some? ==> 0 <= v.value < 16
  {
    if '0' <= c <= '9' then Some(c as int - '0' as int)
    else if 'a' <= c <= 'f' then Some(c as int - 'a' as int + 10)
    else if 'A' <= c <= 'F' then Some(c as int - 'A' as int + 10)
    else None
  }

  lemma HexValueOfDigit(d: int)
    requires 0 <= d < 16
    ensures HexValue(HexDigit(d)) == Some(d)
  {
  }

  /** Two lower-case hex digits per byte, high nibble first. */
  function BytesToHex(b: seq<u8>): (s: string)
    ensures |s| == 2 * |b|
    decreases |b|
  {
    if b == [] then "" else [HexDigit(b[0] as int / 16), HexDigit(b[0] as int % 16)] + BytesToHex(b[1..])
  }

  /** Decodes pairs of hex digits; None on an odd length or a non-hex character. */
  function HexToBytes(s: string): Option<seq<u8>>
    decreases |s|
  {
    if s == [] then Some([])
    else if |s| < 2 then None
    else match (HexValue(s[0]), HexValue(s[1]), HexToBytes(s[2..]))
      case (Some(hi), Some(lo), Some(rest)) => Some([(hi * 16 + lo) as u8] + rest)
      case _ => None
  }

  lemma {:induction false} HexRoundTrip(b: seq<u8>)
    ensures HexToBytes(BytesToHex(b)) == Some(b)
    decreases |b|
  {
    if b != [] {
      HexRoundTrip(b[1..]);
      var hi, lo := b[0] as int / 16, b[0] as int % 16;
      HexValueOfDigit(hi);
      HexValueOfDigit(lo);
      var s := BytesToHex(b);
      assert s[0] == HexDigit(hi) && s[1] == HexDigit(lo) && s[2..] == BytesToHex(b[1..]);
      assert (hi * 16 + lo) as u8 == b[0];
      assert [b[0]] + b[1..] == b;
    }
  }

  /** `ObjectId::to_hex`: 24 lower-case hex digits. */
  function ToHex(id: ObjectId): (s: string)
    ensures |s| == 24
  {
    BytesToHex(id)
  }

  /** `ObjectId::parse_str`: exactly 24 hex digits. */
  function ParseObjectId(s: string): Option<ObjectId> {
    if |s| != 24 then None
    else match HexToBytes(s)
      case Some(b) => if |b| == 12 then Some(b) else None
      case None => None
  }

  /** The hex text of an ObjectId names that ObjectId and no other. */
  lemma ObjectIdRoundTrip(id: ObjectId)
    ensures ParseObjectId(ToHex(id)) == Some(id)
  {
    HexRoundTrip(id);
  }

  lemma ToHexInjective(a: ObjectId, b: ObjectId)
    ensures ToHex(a) == ToHex(b) <==> a == b
  {
    ObjectIdRoundTrip(a);
    ObjectIdRoundTrip(b);
  }

  // ---------------------------------------------------------------------------
  // insert_one and update_one

  /** What the driver's `insert_one` came to: the ObjectId it generated for `_id`, or a server error. */
  datatype InsertAttempt = Generated(oid: ObjectId) | ServerError

  datatype InsertResult = Inserted(id: ObjectId) | InsertFailed

  /**
   * `insert_one`: stores the document under the generated ObjectId; a
   * server error or an `_id` already taken (a duplicate-key error) fails
   * and stores nothing.
   */
  function InsertOne(col: Collection, doc: TaskInDB, attempt: InsertAttempt): (r: (Collection, InsertResult))
    ensures r.1.Inserted? <==> attempt.Generated? && OidKey(attempt.oid) !in col
    ensures r.1.Inserted? ==> r.1.id == attempt.oid && r.0 == col[OidKey(attempt.oid) := doc]
    ensures r.1.InsertFailed? ==> r.0 == col
  {
    match attempt
    case Generated(oid) =>
      if OidKey(oid) in col then (col, InsertFailed) else (col[OidKey(oid) := doc], Inserted(oid))
    case ServerError => (col, InsertFailed)
  }

  /**
   * `update_one(filter, {"$set": {status, result}})` without upsert: the
   * document whose `_id` equals the filter gets the new status and result
   * and keeps everything else, `updated_at` included; with no match
   * nothing changes.
   */
  function UpdateOne(col: Collection, filter: Key, status: string, result: string): (r: Collection)
    ensures r.Keys == col.Keys
    ensures forall k :: k in col && k != filter ==> r[k] == col[k]
    ensures filter in col ==>
      && StoredCreationPart(r[filter]) == StoredCreationPart(col[filter])
      && r[filter].createdAt == col[filter].createdAt
      && r[filter].updatedAt == col[filter].updatedAt
      && r[filter].status == status && r[filter].result == Some(result)
  {
    if filter in col then col[filter := col[filter].(status := status, result := Some(result))] else col
  }

  /** Two updates of one document: the later one wins. */
  lemma UpdateLastWriteWins(col: Collection, filter: Key, s1: string, r1: string, s2: string, r2: string)
    ensures UpdateOne(UpdateOne(col, filter, s1, r1), filter, s2, r2) == UpdateOne(col, filter, s2, r2)
  {
  }

  /** Every `_id` is an ObjectId, as for a collection filled only by `insert_one`. */
  predicate OidKeyed(col: Collection) {
    forall k :: k in col ==> k.OidKey?
  }

  lemma InsertKeepsOidKeyed(col: Collection, doc: TaskInDB, attempt: InsertAttempt)
    requires OidKeyed(col)
    ensures OidKeyed(InsertOne(col, doc, attempt).0)
  {
  }

  // ---------------------------------------------------------------------------
  // The reconciler's filter (src/bin/bot.rs:109)

  /** The filter as written: `_id` compared with the task id as a BSON string. */
  function AsWrittenFilter(taskId: string): Key {
    StrKey(taskId)
  }

  /** The filter evidently intended: `_id` compared with the ObjectId the task id is the hex of. */
  function IntendedFilter(taskId: string): (k: Key)
    ensures forall id: ObjectId :: taskId == ToHex(id) ==> k == OidKey(id)
  {
    forall id: ObjectId | taskId == ToHex(id) ensures ParseObjectId(taskId) == Some(id) {
      ObjectIdRoundTrip(id);
    }
    match ParseObjectId(taskId)
    case Some(id) => OidKey(id)
    case None => StrKey(taskId)
  }

  /** As written, the update matches no document of a collection filled by `insert_one`. */
  lemma AsWrittenUpdateMatchesNothing(col: Collection, taskId: string, status: string, result: string)
    requires OidKeyed(col)
    ensures UpdateOne(col, AsWrittenFilter(taskId), status, result) == col
  {
    assert AsWrittenFilter(taskId) !in col;
  }

  /**
   * A concrete run of the discrepancy: a task inserted under ObjectId `id`
   * is announced as `ToHex(id)`; the as-written update for that id leaves
   * the stored task pending, the intended one stores the new status.
   */
  lemma AsWrittenUpdateLosesResult(id: ObjectId, doc: TaskInDB, status: string, result: string)
    requires doc.status == PENDING && status == COMPLETED
    ensures var col := InsertOne(map[], doc, Generated(id)).0;
      && UpdateOne(col, AsWrittenFilter(ToHex(id)), status, result)[OidKey(id)].status == PENDING
      && UpdateOne(col, IntendedFilter(ToHex(id)), status, result)[OidKey(id)].status == COMPLETED
  {
    var col := InsertOne(map[], doc, Generated(id)).0;
    AsWrittenUpdateMatchesNothing(col, ToHex(id), status, result);
  }

  /** Which `_id` filter the reconciler's update uses: the one the code has, or the corrected one. */
  datatype Filtering = AsWritten | Intended

  function FilterFor(filtering: Filtering, taskId: string): Key {
    match filtering
    case AsWritten => AsWrittenFilter(taskId)
    case Intended => IntendedFilter(taskId)
  }

  /** With the intended filter, the update reaches the document inserted under that id. */
  lemma IntendedUpdateReachesInserted(col: Collection, id: ObjectId, status: string, result: string)
    requires OidKey(id) in col
    ensures var r := UpdateOne(col, IntendedFilter(ToHex(id)), status, result);
      && r[OidKey(id)].status == status && r[OidKey(id)].result == Some(result)
      && StoredCreationPart(r[OidKey(id)]) == StoredCreationPart(col[OidKey(id)])
  {
  }
}
