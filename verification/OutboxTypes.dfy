/** Events, files and file operations of the outbox (commit/outbox_store.py). */
module OutboxTypes {
  type EventId = string
  type RecordId = string
  type Vector = seq<real>
  type Time = nat

  datatype Record = Record(id: RecordId, text: string, metadata: map<string, string>)

  /** A record as it is stored in the vector index. */
  datatype Indexed = Indexed(record: Record, embedding: Vector)

  /** What a worker makes of the payload: the records of an UPSERT_CONTEXT event,
      a payload that `_extract_records` rejects, or an event of another type. */
  datatype Kind = Upsert(records: seq<Record>) | Malformed | Other

  datatype Status = PENDING | FAILED

  datatype Event = Event(id: EventId, account: string, kind: Kind, status: Status, retries: nat, nextRetryAt: Time)

  datatype Path = Temp(id: EventId) | Pending(id: EventId) | Dlq(id: EventId) | Lock(id: EventId)

  datatype Content = EventFile(event: Event) | LockFile(worker: string, acquiredAt: Time)

  type Files = map<Path, Content>

  datatype FileOp = Write(path: Path, content: Content) | Rename(from: Path, to: Path) | Rm(path: Path)

  function Apply(files: Files, op: FileOp): Files {
    match op
    case Write(p, c) => files[p := c]
    case Rename(p, q) => if p in files then (files - {p})[q := files[p]] else files
    case Rm(p) => files - {p}
  }

  function ApplyAll(files: Files, ops: seq<FileOp>): Files
    decreases |ops|
  {
    if ops == [] then files else ApplyAll(Apply(files, ops[0]), ops[1..])
  }

  // ----- The operations of the store, as sequences of file operations -----

  function RegisterOps(e: Event): seq<FileOp> {
    [Write(Temp(e.id), EventFile(e)), Rename(Temp(e.id), Pending(e.id))]
  }

  /** The last resort after a failed rename. */
  function DirectOps(e: Event): seq<FileOp> {
    [Rm(Temp(e.id)), Write(Pending(e.id), EventFile(e))]
  }

  function DoneOps(id: EventId): seq<FileOp> {
    [Rm(Pending(id)), Rm(Lock(id))]
  }

  function RetryOps(e: Event): seq<FileOp> {
    [Write(Pending(e.id), EventFile(e)), Rm(Lock(e.id))]
  }

  function DlqOps(e: Event): seq<FileOp> {
    [Write(Dlq(e.id), EventFile(e)), Rm(Pending(e.id))]
  }

  // ----- Locks, retries, delays -----

  const LOCK_TIMEOUT: nat := 300_000

  predicate ActiveLock(files: Files, id: EventId, now: Time) {
    Lock(id) in files && files[Lock(id)].LockFile? && now < files[Lock(id)].acquiredAt + LOCK_TIMEOUT
  }

  datatype Config = Config(maxRetry: nat, baseDelay: nat, maxDelay: nat)

  function Power2(n: nat): (p: nat)
    ensures p >= 1
  {
    if n == 0 then 1 else 2 * Power2(n - 1)
  }

  /** Delay before the attempt that follows the k-th one, in milliseconds. */
  function Backoff(c: Config, k: nat): nat {
    var delay := c.baseDelay * Power2(k);
    if delay < c.maxDelay then delay else c.maxDelay
  }

  /** The copy `increment_retry` writes. */
  function Retried(e: Event, next: Time): Event {
    e.(retries := e.retries + 1, status := PENDING, nextRetryAt := next)
  }

  /** The copy `move_to_dlq` writes. */
  function Buried(e: Event): Event {
    e.(status := FAILED)
  }

  // ----- The index -----

  function Augment(r: Record, embed: string -> Vector): Indexed {
    Indexed(r, embed(r.text))
  }

  /** The effect of upserting records one after the other. */
  function UpsertAll(index: map<RecordId, Indexed>, rs: seq<Indexed>): map<RecordId, Indexed> {
    if rs == [] then index
    else UpsertAll(index, rs[..|rs| - 1])[rs[|rs| - 1].record.id := rs[|rs| - 1]]
  }

  function AugmentAll(rs: seq<Record>, embed: string -> Vector): (a: seq<Indexed>)
    ensures |a| == |rs|
  {
    seq(|rs|, i requires 0 <= i < |rs| => Augment(rs[i], embed))
  }

  /** The complete record set of an event: what a successful upsert adds. */
  function RecordSet(k: Kind, embed: string -> Vector): map<RecordId, Indexed> {
    if k.Upsert? then UpsertAll(map[], AugmentAll(k.records, embed)) else map[]
  }

  lemma {:induction false} UpsertIsUnion(index: map<RecordId, Indexed>, rs: seq<Indexed>)
    ensures UpsertAll(index, rs) == index + UpsertAll(map[], rs)
  {
    if rs != [] {
      UpsertIsUnion(index, rs[..|rs| - 1]);
    }
  }

  /** The k-th record is the last one with this id. */
  ghost predicate LastWith(rs: seq<Indexed>, k: int, id: RecordId) {
    0 <= k < |rs| && rs[k].record.id == id && forall j :: k < j < |rs| ==> rs[j].record.id != id
  }

  ghost predicate IsStored(index: map<RecordId, Indexed>, rs: seq<Indexed>, k: int, id: RecordId) {
    0 <= k < |rs| && id in index && index[id] == rs[k]
  }

  lemma UpsertMore(index: map<RecordId, Indexed>, rs: seq<Indexed>, id: RecordId)
    requires rs != []
    ensures var before, after, last := UpsertAll(index, rs[..|rs| - 1]), UpsertAll(index, rs), rs[|rs| - 1];
      if last.record.id == id then id in after && after[id] == last
      else (id in after <==> id in before) && (id in before ==> after[id] == before[id])
  {
  }

  /** An upsert replaces what the list names, by its last record with that id, and
      nothing else. */
  lemma {:induction false} UpsertReplaces(index: map<RecordId, Indexed>, rs: seq<Indexed>, id: RecordId)
    ensures forall k :: LastWith(rs, k, id) ==> IsStored(UpsertAll(index, rs), rs, k, id)
    ensures (forall k :: 0 <= k < |rs| ==> rs[k].record.id != id) ==>
      (id in UpsertAll(index, rs) <==> id in index) && (id in index ==> UpsertAll(index, rs)[id] == index[id])
  {
    if rs != [] {
      hide UpsertAll, LastWith;
      UpsertReplaces(index, rs[..|rs| - 1], id);
      UpsertMore(index, rs, id);
      forall k | LastWith(rs, k, id) ensures IsStored(UpsertAll(index, rs), rs, k, id) { LastMore(rs, k, id); }
    }
  }

  lemma LastMore(rs: seq<Indexed>, k: int, id: RecordId)
    requires rs != []
    ensures var init, n := rs[..|rs| - 1], |rs| - 1;
      LastWith(rs, k, id) ==>
        0 <= k <= n && if k == n then rs[n].record.id == id else rs[n].record.id != id && LastWith(init, k, id)
  {
  }

  lemma {:induction false} SomeLast(rs: seq<Indexed>, k: nat) returns (l: nat)
    requires k < |rs|
    ensures LastWith(rs, l, rs[k].record.id)
    decreases |rs| - k
  {
    if j :| k < j < |rs| && rs[j].record.id == rs[k].record.id { l := SomeLast(rs, j); } else { l := k; }
  }

  ghost predicate LastRecord(records: seq<Record>, k: int, id: RecordId) {
    0 <= k < |records| && records[k].id == id && forall j :: k < j < |records| ==> records[j].id != id
  }

  /** The record set of an event holds exactly the ids of its records, each with its last
      record of that id and the vector of that record's text. */
  lemma RecordSetIs(records: seq<Record>, embed: string -> Vector, id: RecordId)
    ensures var found := RecordSet(Upsert(records), embed);
      id in found <==> exists k :: 0 <= k < |records| && records[k].id == id
    ensures var found := RecordSet(Upsert(records), embed);
      forall k :: LastRecord(records, k, id) ==>
        id in found && found[id].record == records[k] && found[id].embedding == embed(records[k].text)
    ensures RecordSet(Malformed, embed) == map[] && RecordSet(Other, embed) == map[]
  {
    hide UpsertAll;
    var rs := AugmentAll(records, embed);
    UpsertReplaces(map[], rs, id);
    forall k | 0 <= k < |records| && records[k].id == id ensures id in UpsertAll(map[], rs) {
      assert rs[k].record == records[k];
      var l := SomeLast(rs, k);
    }
    forall k | LastRecord(records, k, id) ensures LastWith(rs, k, id) {
    }
  }

  // ----- Backoff -----

  lemma {:induction false} Power2Monotone(j: nat, k: nat)
    requires j <= k
    ensures Power2(j) <= Power2(k)
  {
    if j < k { Power2Monotone(j, k - 1); }
  }

  lemma ScaledMonotone(b: nat, x: nat, y: nat)
    requires x <= y
    ensures b * x <= b * y
  {
  }

  function Least(a: nat, b: nat): (m: nat)
    ensures m <= a && m <= b && (m == a || m == b)
  {
    if a <= b then a else b
  }

  /** The first delay is the base delay, each later one twice the one before it, all cut
      to the cap; so before the cap is reached the base is doubled once per attempt, and
      no delay is zero unless the base or the cap is. */
  lemma BackoffShape(c: Config, k: nat)
    ensures Backoff(c, 0) == Least(c.baseDelay, c.maxDelay)
    ensures Backoff(c, k + 1) == Least(2 * Backoff(c, k), c.maxDelay)
    ensures Backoff(c, k) <= Backoff(c, k + 1) <= c.maxDelay
    ensures Backoff(c, k) == Least(c.baseDelay * Power2(k), c.maxDelay)
    ensures Power2(0) == 1 && Power2(k + 1) == 2 * Power2(k)
    ensures c.baseDelay > 0 && c.maxDelay > 0 ==> Backoff(c, k) > 0
  {
    Power2Monotone(k, k + 1);
    ScaledMonotone(c.baseDelay, Power2(k), Power2(k + 1));
    ScaledMonotone(c.baseDelay, 1, Power2(k));
    assert c.baseDelay * Power2(k + 1) == 2 * (c.baseDelay * Power2(k));
  }

  /** A list of delays, each made from the one before. */
  ghost predicate AreDelays(c: Config, ds: seq<nat>) {
    forall k :: 0 <= k < |ds| ==> IsDelay(c, ds, k)
  }

  ghost predicate IsDelay(c: Config, ds: seq<nat>, k: nat)
    requires k < |ds|
  {
    ds[k] == Least(if k == 0 then c.baseDelay else 2 * ds[k - 1], c.maxDelay)
  }

  lemma {:induction false} DelaysAreBackoffs(c: Config, ds: seq<nat>, k: nat)
    requires AreDelays(c, ds) && k < |ds|
    ensures ds[k] == Backoff(c, k)
  {
    hide Backoff;
    BackoffShape(c, k);
    assert IsDelay(c, ds, k);
    if k > 0 {
      DelaysAreBackoffs(c, ds, k - 1);
      BackoffShape(c, k - 1);
    }
  }
}
