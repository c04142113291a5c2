/** The polling worker of index/outbox_worker.py, over a store that may raise.

    What it does to the files is known exactly when the store does not raise and no
    account is named twice; that nothing is lost holds in any case. */
module OutboxWorker {
  import opened Wrappers
  import opened OutboxTypes
  import opened OutboxStore
  import opened OutboxCycles

  datatype WorkerResult = WorkerResult(success: bool, movedToDlq: bool)

  datatype Stats = Stats(processed: nat, succeeded: nat, failed: nat, movedToDlq: nat, skipped: nat)

  /** One event of the batch with its records. */
  datatype Item = Item(event: Event, records: seq<Record>)

  // ----- Embeddings -----

  /** A Python slice: bounds beyond the end are cut. */
  function Slice<T>(s: seq<T>, lo: nat, hi: nat): seq<T>
    requires lo <= hi
  {
    if lo >= |s| then [] else if hi >= |s| then s[lo..] else s[lo..hi]
  }

  /** Records paired with vectors, as far as both go. */
  function Zipped(rs: seq<Record>, vs: seq<Vector>): (a: seq<Indexed>)
    ensures |a| == if |rs| <= |vs| then |rs| else |vs|
  {
    seq(if |rs| <= |vs| then |rs| else |vs|, i requires 0 <= i < |rs| && i < |vs| => Indexed(rs[i], vs[i]))
  }

  /** Where the records of item i start in the concatenation. */
  function Offset(batch: seq<Item>, i: nat): nat
    requires i <= |batch|
  {
    if i == 0 then 0 else Offset(batch, i - 1) + |batch[i - 1].records|
  }

  /** What the i-th event of a batch gets out of one call for all texts. */
  function Share(batch: seq<Item>, vs: seq<Vector>, i: nat): seq<Indexed>
    requires i < |batch|
  {
    Zipped(batch[i].records, Slice(vs, Offset(batch, i), Offset(batch, i) + |batch[i].records|))
  }

  /** An event gets all its records if and only if the embedder returned enough
      vectors to reach its end; otherwise the rest is dropped without an error. */
  lemma ShareIsComplete(batch: seq<Item>, vs: seq<Vector>, i: nat)
    requires i < |batch| && batch[i].records != []
    ensures |Share(batch, vs, i)| == |batch[i].records| <==> Offset(batch, i + 1) <= |vs|
    ensures |Share(batch, vs, i)| <= |batch[i].records| && forall k :: 0 <= k < |Share(batch, vs, i)| ==>
      Offset(batch, i) + k < |vs| && Share(batch, vs, i)[k] == Indexed(batch[i].records[k], vs[Offset(batch, i) + k])
  {
    hide Offset;
    OffsetMore(batch, i);
  }

  lemma OffsetMore(batch: seq<Item>, i: nat)
    requires i < |batch|
    ensures Offset(batch, i + 1) == Offset(batch, i) + |batch[i].records|
  {
  }

  function AllRecords(batch: seq<Item>): seq<Record> {
    if batch == [] then [] else AllRecords(batch[..|batch| - 1]) + batch[|batch| - 1].records
  }

  lemma {:induction false} OffsetOfPrefix(batch: seq<Item>, k: nat, i: nat)
    requires i <= k <= |batch|
    ensures Offset(batch[..k], i) == Offset(batch, i)
  {
    if i > 0 { OffsetOfPrefix(batch, k, i - 1); }
  }

  lemma {:induction false} RecordsInPlace(batch: seq<Item>, i: nat)
    requires i < |batch|
    ensures Offset(batch, |batch|) == |AllRecords(batch)|
    ensures Offset(batch, i) + |batch[i].records| <= |AllRecords(batch)|
    ensures AllRecords(batch)[Offset(batch, i)..Offset(batch, i) + |batch[i].records|] == batch[i].records
  {
    var n := |batch| - 1;
    OffsetOfPrefix(batch, n, n);
    if n > 0 { RecordsInPlace(batch[..n], if i < n then i else 0); }
    if i < n { OffsetOfPrefix(batch, n, i); }
  }

  lemma NoRecords(us: seq<Item>)
    ensures AllRecords(us[..0]) == [] && Offset(us, 0) == 0
  {
  }

  lemma RecordsMore(us: seq<Item>, k: nat)
    requires k < |us|
    ensures AllRecords(us[..k + 1]) == AllRecords(us[..k]) + us[k].records
    ensures Offset(us, k + 1) == Offset(us, k) + |us[k].records|
  {
    assert us[..k + 1][..k] == us[..k];
  }

  ghost predicate Pointwise(vs: seq<Vector>, rs: seq<Record>, embed: string -> Vector) {
    |vs| == |rs| && forall k :: 0 <= k < |rs| ==> vs[k] == embed(rs[k].text)
  }

  /** With a pointwise embedder the batched path gives each event exactly what the
      single path would have upserted for it. */
  lemma BatchRefinesSingle(batch: seq<Item>, vs: seq<Vector>, embed: string -> Vector, i: nat)
    requires i < |batch| && Pointwise(vs, AllRecords(batch), embed)
    ensures Share(batch, vs, i) == AugmentAll(batch[i].records, embed)
  {
    hide AllRecords, Offset;
    RecordsInPlace(batch, i);
    var all, lo, rs := AllRecords(batch), Offset(batch, i), batch[i].records;
    SliceIsPointwise(vs, all, embed, lo, lo + |rs|);
    var part := Slice(vs, lo, lo + |rs|);
    assert Share(batch, vs, i) == Zipped(rs, part);
  }

  lemma SliceIsPointwise(vs: seq<Vector>, rs: seq<Record>, embed: string -> Vector, lo: nat, hi: nat)
    requires Pointwise(vs, rs, embed) && lo <= hi <= |rs|
    ensures Pointwise(Slice(vs, lo, hi), rs[lo..hi], embed)
    ensures Zipped(rs[lo..hi], Slice(vs, lo, hi)) == AugmentAll(rs[lo..hi], embed)
  {
    var part, own := Slice(vs, lo, hi), rs[lo..hi];
    forall k | 0 <= k < |own| ensures part[k] == embed(own[k].text) {
      assert part[k] == vs[lo + k] && own[k] == rs[lo + k];
    }
  }

  class Embedder {
    const embed: string -> Vector
    /** Does the embedder return one vector per text, in order? */
    const honest: bool

    constructor (embed: string -> Vector, honest: bool)
      ensures this.embed == embed && this.honest == honest
    {
      this.embed, this.honest := embed, honest;
    }

    method EmbedTexts(rs: seq<Record>) returns (vs: Option<seq<Vector>>)
      ensures vs.Some? && honest ==> Pointwise(vs.value, rs, embed)
    {
      var raises: bool, found: seq<Vector> := *, *;
      var e := embed;
      vs := if raises then None
            else if honest then Some(seq(|rs|, k requires 0 <= k < |rs| => e(rs[k].text)))
            else Some(found);
    }
  }

  /** One call to upsert, which may raise before or after the records are in; or the
      handling of an event of another type. */
  datatype Call = Upserts(records: seq<Indexed>, applied: bool, ok: bool) | Handles(event: Event, ok: bool)

  class VectorIndex {
    var records: map<RecordId, Indexed>
    /** All calls so far, in order. */
    ghost var calls: seq<Call>

    constructor ()
      ensures records == map[] && calls == []
    {
      records, calls := map[], [];
    }

    method Upsert(rs: seq<Indexed>) returns (ok: bool)
      modifies this
      ensures |calls| == |old(calls)| + 1 && calls[..|old(calls)|] == old(calls)
      ensures var call := calls[|old(calls)|];
        call.Upserts? && call.records == rs && call.ok == ok && (ok ==> call.applied)
        && records == if call.applied then UpsertAll(old(records), rs) else old(records)
    {
      ok := *;
      var applied: bool := *;
      applied := applied || ok;
      if applied {
        ghost var start := records;
        for i := 0 to |rs|
          invariant records == UpsertAll(start, rs[..i]) && calls == old(calls)
        {
          records := records[rs[i].record.id := rs[i]];
          assert rs[..i + 1][..i] == rs[..i];
        }
        assert rs[..|rs|] == rs;
      }
      calls := calls + [Upserts(rs, applied, ok)];
    }

    /** Whatever the handler of another event type does to the index. */
    method Handle(e: Event) returns (success: bool)
      modifies this
      ensures calls == old(calls) + [Handles(e, success)]
    {
      success := *;
      records := *;
      calls := calls + [Handles(e, success)];
    }
  }

  /** Nothing was upserted and the result is a failure, or there was one call, and the
      result is what it returned. */
  ghost predicate AtMostOneUpsert(calls: seq<Call>, calls': seq<Call>, success: bool) {
    || (calls' == calls && !success)
    || (|calls'| == |calls| + 1 && calls <= calls' && calls'[|calls|].Upserts? && calls'[|calls|].ok == success)
  }

  /** Every record in order, each with the vector of its text. */
  ghost predicate WholeSet(a: seq<Indexed>, rs: seq<Record>, embed: string -> Vector) {
    |a| == |rs| && forall k :: 0 <= k < |rs| ==> a[k].record == rs[k] && a[k].embedding == embed(rs[k].text)
  }

  lemma AugmentedIsWhole(rs: seq<Record>, embed: string -> Vector)
    ensures WholeSet(AugmentAll(rs, embed), rs, embed)
  {
  }

  // ----- What no failure can lose -----

  /** The same event, whatever its count, its status and its next time. */
  predicate SameEvent(e: Event, f: Event) {
    e.id == f.id && e.account == f.account && e.kind == f.kind
  }

  predicate Copies(c: Option<Content>, e: Event) {
    c.Some? && c.value.EventFile? && SameEvent(e, c.value.event)
  }

  /** c holds the event that was pending as id. */
  ghost predicate IsCopy(before: Files, c: Option<Content>, id: EventId) {
    var p := SlotOf(before, id).pending;
    p.Some? && p.value.EventFile? && p.value.event.id == id && Copies(c, p.value.event)
  }

  ghost predicate FromFile(before: Files, e: Event) {
    IsCopy(before, Some(EventFile(e)), e.id)
  }

  /** What was pending has succeeded, or is still there as a pending file or a dead
      letter; and no other event has taken its place. */
  ghost predicate IdSafe(before: Files, files: Files, ok: set<EventId>, id: EventId) {
    var s0, s := SlotOf(before, id), SlotOf(files, id);
    && (s.pending.None? || IsCopy(before, s.pending, id))
    && (s.dlq == s0.dlq || IsCopy(before, s.dlq, id))
    && (id in ok ==> IsCopy(before, s0.pending, id))
    && (s0.pending.Some? ==> id in ok || s.pending.Some? || IsCopy(before, s.dlq, id))
  }

  ghost predicate Safe(before: Files, files: Files, ok: set<EventId>) {
    forall id :: IdSafe(before, files, ok, id)
  }

  /** What settling e may do to its files, whichever operations raise. */
  ghost predicate SlotSettled(s: Slot, s': Slot, e: Event, success: bool) {
    && (s'.dlq == s.dlq || Copies(s'.dlq, e))
    && (s'.pending == s.pending || Copies(s'.pending, e) || (s'.pending.None? && (success || Copies(s'.dlq, e))))
  }

  lemma SafeAtStart(files: Files)
    requires Sound(files)
    ensures Safe(files, files, {})
  {
    forall id ensures IdSafe(files, files, {}, id) {
      assert SlotOf(files, id).pending.Some? ==> Pending(id) in files;
    }
  }

  lemma SafeStaysSound(before: Files, files: Files, ok: set<EventId>)
    requires Safe(before, files, ok)
    ensures Sound(files)
  {
    forall p | p in files && p.Pending? ensures files[p].EventFile? && files[p].event.id == p.id {
      assert IdSafe(before, files, ok, p.id) && SlotOf(files, p.id).pending == Some(files[p]);
    }
  }

  lemma SettlingIsSafe(before: Files, files: Files, files': Files, ok: set<EventId>, e: Event, success: bool)
    requires Safe(before, files, ok) && FromFile(before, e) && OnlyEvent(files, files', e.id)
    requires SlotSettled(SlotOf(files, e.id), SlotOf(files', e.id), e, success)
    ensures Safe(before, files', if success then ok + {e.id} else ok)
  {
    hide SlotOf;
    var ok' := if success then ok + {e.id} else ok;
    forall id ensures IdSafe(before, files', ok', id) {
      assert IdSafe(before, files, ok, id);
    }
  }

  lemma CopyFromFile(before: Files, e: Event, f: Event)
    requires FromFile(before, e) && SameEvent(e, f)
    ensures FromFile(before, f)
  {
  }

  /** Only the lock of e changed. */
  lemma LockingIsSafe(before: Files, files: Files, files': Files, ok: set<EventId>, id: EventId)
    requires Safe(before, files, ok) && OnlyEvent(files, files', id)
    requires SlotOf(files', id) == SlotOf(files, id).(lock := SlotOf(files', id).lock)
    ensures Safe(before, files', ok)
  {
    hide SlotOf, IsCopy;
    forall x ensures IdSafe(before, files', ok, x) {
      assert IdSafe(before, files, ok, x);
    }
  }

  // ----- The books of one cycle -----

  /** Files and clock now and at the start, the locks taken, the events settled and
      those that succeeded.  A cycle is clean if the store does not raise and no
      account is named twice. */
  datatype Book = Book(before: Files, files: Files, start: Time, now: Time, worker: string,
                       held: map<EventId, Time>, done: map<EventId, Attempt>, ok: set<EventId>, clean: bool)

  function AsCycle(b: Book): Cycle {
    Cycle(b.before, b.files, b.start, b.now, b.worker, b.done)
  }

  ghost predicate IdOk(c: Config, b: Book, id: EventId) {
    && (id in b.ok <==> id in b.done && b.done[id].outcome.Succeeded?)
    && if id in b.done then AttemptOk(c, AsCycle(b), id)
       else if id in b.held then
         b.start <= b.held[id] <= b.now &&
           SlotOf(b.files, id) == SlotOf(b.before, id).(lock := Some(LockFile(b.worker, b.held[id])))
       else SlotOf(b.files, id) == SlotOf(b.before, id)
  }

  ghost predicate BookOk(c: Config, b: Book) {
    b.start <= b.now && b.done.Keys <= b.held.Keys && forall id :: IdOk(c, b, id)
  }

  /** The event is held; in a clean cycle with the very copy that is on file. */
  ghost predicate Holds(b: Book, e: Event) {
    && FromFile(b.before, e)
    && (b.clean ==>
          e.id in b.held && e.id !in b.done && SlotOf(b.before, e.id).pending == Some(EventFile(e)) &&
            e.nextRetryAt <= b.held[e.id])
  }

  ghost function Acquire(b: Book, files: Files, now: Time, id: EventId, at: Time): Book {
    b.(files := files, now := now, held := b.held[id := at])
  }

  ghost function Close(b: Book, files: Files, now: Time, id: EventId, a: Attempt): Book {
    b.(files := files, now := now, done := b.done[id := a], ok := if a.outcome.Succeeded? then b.ok + {id} else b.ok)
  }

  lemma AcquireKeeps(c: Config, b: Book, files: Files, now: Time, id: EventId, at: Time)
    requires BookOk(c, b) && id !in b.held && b.now <= at <= now && OnlyEvent(b.files, files, id)
    requires SlotOf(files, id) == SlotOf(b.files, id).(lock := Some(LockFile(b.worker, at)))
    ensures BookOk(c, Acquire(b, files, now, id, at))
  {
    hide SlotOf, OutcomeOk, SlotAfter;
    var b' := Acquire(b, files, now, id, at);
    forall x ensures IdOk(c, b', x) {
      assert IdOk(c, b, x);
    }
  }

  lemma CloseKeeps(c: Config, b: Book, files: Files, now: Time, id: EventId, a: Attempt)
    requires BookOk(c, b) && b.clean && Holds(b, a.copy) && a.copy.id == id && b.now <= now
    requires OnlyEvent(b.files, files, id)
    requires a.acquiredAt == b.held[id] && OutcomeOk(c, a) && (a.outcome.Failed? ==> a.outcome.at <= now)
    requires SlotOf(files, id) == SettledSlot(c, SlotOf(b.files, id), a.copy, a.outcome)
    ensures BookOk(c, Close(b, files, now, id, a))
  {
    hide SlotOf, OutcomeOk, SettledSlot;
    var b' := Close(b, files, now, id, a);
    forall x ensures IdOk(c, b', x) {
      assert IdOk(c, b, x);
    }
  }

  ghost function Having(done: map<EventId, Attempt>, n: nat): set<EventId> {
    set id | id in done && Tag(done[id].outcome) == n
  }

  function Tag(o: Outcome): nat {
    match o case Succeeded => 0 case Failed(_) => 1 case ToDlq => 2
  }

  ghost function Readable(done: map<EventId, Attempt>): set<EventId> {
    set id | id in done && !done[id].copy.kind.Malformed?
  }

  /** Every count is the number of events that ended that way. */
  ghost predicate Counted(st: Stats, done: map<EventId, Attempt>) {
    && st.succeeded == |Having(done, 0)| && st.failed == |Having(done, 1)| && st.movedToDlq == |Having(done, 2)|
    && st.processed == |Readable(done)|
  }

  function Tally(st: Stats, o: Outcome): Stats {
    match o
    case Succeeded => st.(succeeded := st.succeeded + 1)
    case Failed(_) => st.(failed := st.failed + 1)
    case ToDlq => st.(movedToDlq := st.movedToDlq + 1)
  }

  lemma HavingOne(done: map<EventId, Attempt>, id: EventId, a: Attempt, n: nat)
    requires id !in done
    ensures |Having(done[id := a], n)| == |Having(done, n)| + if n == Tag(a.outcome) then 1 else 0
  {
    assert Having(done[id := a], n) == Having(done, n) + if n == Tag(a.outcome) then {id} else {};
  }

  lemma ReadableOne(done: map<EventId, Attempt>, id: EventId, a: Attempt)
    requires id !in done
    ensures |Readable(done[id := a])| == |Readable(done)| + if a.copy.kind.Malformed? then 0 else 1
  {
    assert Readable(done[id := a]) == Readable(done) + if a.copy.kind.Malformed? then {} else {id};
  }

  lemma CountOne(st: Stats, st': Stats, done: map<EventId, Attempt>, id: EventId, a: Attempt)
    requires Counted(st, done) && id !in done
    requires st' == Tally(if a.copy.kind.Malformed? then st else st.(processed := st.processed + 1), a.outcome)
    ensures Counted(st', done[id := a])
  {
    hide Having, Readable;
    HavingOne(done, id, a, 0);
    HavingOne(done, id, a, 1);
    HavingOne(done, id, a, 2);
    ReadableOne(done, id, a);
  }

  lemma CountedAll(st: Stats, done: map<EventId, Attempt>)
    requires Counted(st, done)
    ensures st.succeeded + st.failed + st.movedToDlq == |done|
  {
    assert done.Keys == Having(done, 0) + Having(done, 1) + Having(done, 2);
  }

  // ----- The worker -----

  class OutboxWorker {
    const config: Config
    const index: VectorIndex
    const embedder: Embedder
    const store: OutboxStore

    constructor (config: Config, index: VectorIndex, embedder: Embedder, store: OutboxStore)
      ensures this.config == config && this.index == index && this.embedder == embedder && this.store == store
    {
      this.config, this.index, this.embedder, this.store := config, index, embedder, store;
    }

    method CalculateBackoff(retries: nat) returns (delay: nat)
      ensures delay == Backoff(config, retries)
      ensures delay == Least(config.baseDelay * Power2(retries), config.maxDelay)
    {
      delay := config.baseDelay * Power2(retries);
      if delay > config.maxDelay { delay := config.maxDelay; }
    }

    /** A failed event is retried exactly while its count is below the maximum. */
    function ShouldRetry(e: Event, r: WorkerResult): bool {
      if r.success then false else if e.retries >= config.maxRetry then false else true
    }

    method AugmentWithEmbeddings(rs: seq<Record>, vs: seq<Vector>) returns (a: seq<Indexed>)
      ensures a == Zipped(rs, vs)
      ensures |a| == if |rs| <= |vs| then |rs| else |vs|
      ensures forall k :: 0 <= k < |a| ==> a[k].record == rs[k] && a[k].embedding == vs[k]
    {
      a := [];
      for i := 0 to if |rs| <= |vs| then |rs| else |vs|
        invariant |a| == i && forall k :: 0 <= k < i ==> a[k] == Indexed(rs[k], vs[k])
      {
        a := a + [Indexed(rs[i], vs[i])];
      }
    }

    /** The path for a single event: success means its complete augmented records
        went to the index in one call. */
    method ProcessUpsertContext(e: Event) returns (r: WorkerResult)
      requires e.kind.Upsert?
      modifies index
      ensures !r.movedToDlq
      ensures e.kind.records == [] ==>
        r.success && index.records == old(index.records) && index.calls == old(index.calls)
      ensures e.kind.records != [] ==> AtMostOneUpsert(old(index.calls), index.calls, r.success)
      ensures r.success && e.kind.records != [] && embedder.honest ==>
        && WholeSet(index.calls[|old(index.calls)|].records, e.kind.records, embedder.embed)
        && index.records == UpsertAll(old(index.records), index.calls[|old(index.calls)|].records)
    {
      if e.kind.records == [] { return WorkerResult(true, false); }
      var vs := embedder.EmbedTexts(e.kind.records);
      if vs.None? { return WorkerResult(false, false); }
      var augmented := AugmentWithEmbeddings(e.kind.records, vs.value);
      var ok := index.Upsert(augmented);
      r := WorkerResult(ok, false);
    }

    /** An exhausted event goes to the dead letters without its handler. */
    method ProcessEvent(e: Event) returns (r: WorkerResult)
      modifies index
      ensures r.movedToDlq <==> e.retries >= config.maxRetry
      ensures r.movedToDlq ==> !r.success && index.records == old(index.records) && index.calls == old(index.calls)
      ensures e.kind.Malformed? ==> !r.success && index.calls == old(index.calls)
      ensures e.kind.Other? && e.retries < config.maxRetry ==> index.calls == old(index.calls) + [Handles(e, r.success)]
      ensures e.kind.Upsert? && e.retries < config.maxRetry && e.kind.records == [] ==> r.success
      ensures e.kind.Upsert? && e.retries < config.maxRetry && e.kind.records != [] ==>
        AtMostOneUpsert(old(index.calls), index.calls, r.success)
    {
      if e.retries >= config.maxRetry { return WorkerResult(false, true); }
      match e.kind {
        case Upsert(_) => r := ProcessUpsertContext(e);
        case Malformed => r := WorkerResult(false, false);
        case Other => var ok := index.Handle(e); r := WorkerResult(ok, false);
      }
    }

    /** Mark done, bury, or schedule for retry.  It raises exactly when a write does;
        then the event stays where it was. */
    method HandleProcessingResult(e: Event, r: WorkerResult, st: Stats)
      returns (st': Stats, changed: Event, raised: bool, ghost o: Outcome)
      modifies store.client`files, store.client`tried, store.client`now
      ensures old(store.client.now) <= store.client.now
      ensures o.Succeeded? <==> r.success
      ensures o.Failed? <==> !r.success && !r.movedToDlq && e.retries < config.maxRetry
      ensures o.Failed? ==> old(store.client.now) <= o.at <= store.client.now
      ensures raised ==> store.client.faulty && !r.success
      ensures st' == if raised then st else Tally(st, o)
      ensures SameEvent(e, changed)
      ensures OnlyEvent(old(store.client.files), store.client.files, e.id)
      ensures SlotSettled(SlotOf(old(store.client.files), e.id), SlotOf(store.client.files, e.id), e, r.success)
      ensures raised ==> store.client.files == old(store.client.files)
      ensures !store.client.faulty ==>
        SlotOf(store.client.files, e.id) == SettledSlot(config, SlotOf(old(store.client.files), e.id), e, o)
      ensures var ops :=
          match o case Succeeded => DoneOps(e.id) case ToDlq => DlqOps(Buried(e))
                  case Failed(at) => RetryOps(Retried(e, at + Backoff(config, e.retries)));
        store.client.tried == old(store.client.tried) + if raised then ops[..1] else ops
    {
      hide SlotOf, Backoff;
      changed, raised := e, false;
      if r.success {
        store.MarkDone(e);
        st', o := st.(succeeded := st.succeeded + 1), Succeeded;
      } else if r.movedToDlq || !ShouldRetry(e, r) {
        var ok;
        changed, ok := store.MoveToDlq(e);
        raised, o := !ok, ToDlq;
        st' := if ok then st.(movedToDlq := st.movedToDlq + 1) else st;
      } else {
        var delay := CalculateBackoff(e.retries);
        var at := store.client.Now();
        var ok;
        changed, ok := store.IncrementRetry(e, at + delay);
        raised, o := !ok, Failed(at);
        assert RetryOps(changed) == RetryOps(changed)[..1] + [Rm(Lock(e.id))];
        if !ok { return st, changed, true, o; }
        store.Release(changed);
        st' := st.(failed := st.failed + 1);
      }
    }

    // ----- One polling cycle -----

    /** The book agrees with the store, and nothing was lost. */
    ghost predicate Current(b: Book)
      reads store.client
    {
      && b.files == store.client.files && b.now == store.client.now && Safe(b.before, b.files, b.ok)
      && (b.clean ==> BookOk(config, b) && !store.client.faulty)
    }

    /** The events the accounts have to offer: with a store that does not raise exactly
        the due ones, and each once unless an account is named twice. */
    method ListAll(accounts: seq<string>) returns (listed: seq<Event>)
      requires Sound(store.client.files)
      modifies store.client`now
      ensures old(store.client.now) <= store.client.now
      ensures forall e :: e in listed ==>
        FromFile(store.client.files, e) && e.account in accounts && e.nextRetryAt <= store.client.now
      ensures Different(accounts) ==> forall i, j :: 0 <= i < j < |listed| ==> listed[i].id != listed[j].id
      ensures !store.client.faulty ==> forall e :: e in listed ==> Ready(store.client.files, store.client.now, e)
      ensures !store.client.faulty ==>
        forall e: Event :: e.account in accounts && ListableAt(store.client.files, old(store.client.now), e) ==>
          e in listed
    {
      hide SlotOf, DueAt, Sound;
      listed := [];
      for k := 0 to |accounts|
        invariant old(store.client.now) <= store.client.now
        invariant Different(accounts) ==> forall i, j :: 0 <= i < j < |listed| ==> listed[i].id != listed[j].id
        invariant forall e :: e in listed ==>
          FromFile(store.client.files, e) && e.account in accounts[..k] && e.nextRetryAt <= store.client.now
        invariant !store.client.faulty ==> forall e :: e in listed ==> Ready(store.client.files, store.client.now, e)
        invariant !store.client.faulty ==>
          forall e: Event :: e.account in accounts[..k] && ListableAt(store.client.files, old(store.client.now), e) ==>
            e in listed
      {
        ghost var t0 := store.client.now;
        var pending := store.ListPending(accounts[k]);
        assert accounts[..k + 1] == accounts[..k] + [accounts[k]];
        forall e | e in pending
          ensures FromFile(store.client.files, e) && e.account == accounts[k]
          ensures SlotOf(store.client.files, e.id).pending == Some(EventFile(e))
        {
          OnFile(store.client.files, accounts[k], e);
        }
        if !store.client.faulty {
          forall e | e in listed + pending ensures Ready(store.client.files, store.client.now, e) {
            if e in listed { StillReady(store.client.files, t0, store.client.now, e); }
            else { NowReady(store.client.files, accounts[k], store.client.now, e); }
          }
          forall e: Event | e.account == accounts[k] && ListableAt(store.client.files, old(store.client.now), e)
            ensures e in pending
          {
            StillDue(store.client.files, old(store.client.now), t0, e);
          }
        }
        if Different(accounts) {
          forall x, y | x in listed && y in pending ensures x.id != y.id {
            if x.id == y.id { OneAccount(store.client.files, x, y); }
          }
        }
        listed := listed + pending;
      }
      assert accounts[..|accounts|] == accounts;
    }

    /** Take one listed event, and settle it at once if it has nothing to embed. */
    method AcquireOne(e: Event, worker: string, st: Stats, ghost b: Book)
      returns (route: Route, st': Stats, raised: bool, ghost b': Book)
      requires Current(b) && b.worker == worker && FromFile(b.before, e)
      requires b.clean ==> e.id !in b.held && Ready(b.before, b.now, e) && Counted(st, b.done)
      modifies store.client`files, store.client`tried, store.client`now
      ensures Current(b') && SameCycle(b, b') && (raised ==> store.client.faulty)
      ensures b.ok <= b'.ok <= b.ok + {e.id} && (e.kind != Upsert([]) ==> b'.ok == b.ok)
      ensures !raised && route.Batched? ==>
        Holds(b', e) && e.kind == Upsert(route.item.records) && route.item.event == e && route.item.records != []
      ensures !raised && route.Separate? ==> Holds(b', e) && e.kind.Other?
      ensures b.clean ==> !raised && !route.Skipped? && Counted(st', b'.done) && st'.skipped == st.skipped
      ensures b.clean ==> b'.held.Keys == b.held.Keys + {e.id} && forall x :: x in b.held ==> b'.held[x] == b.held[x]
      ensures b.clean && route.Settled? ==> Grown(b.done, b'.done, {e.id}) && NothingToDo(b'.done[e.id].copy)
      ensures b.clean && !route.Settled? ==> b'.done == b.done
    {
      hide SlotOf, BookOk, Counted, YoungLock, Safe, FromFile;
      if b.clean { UntouchedSlot(config, b, e.id); }
      var r := store.TryAcquire(e, worker);
      if b.clean {
        NotLocked(b.before, b.files, b.now, store.client.now, e);
        assert r.Acquired?;
      }
      b', st', raised := b.(files := store.client.files, now := store.client.now), st, false;
      LockingIsSafe(b.before, b.files, store.client.files, b.ok, e.id);
      match r {
        case Locked => return Skipped, st.(skipped := st.skipped + 1), false, b';
        case Raised => return Skipped, st, true, b';
        case Acquired(at) =>
          if b.clean {
            b' := Acquire(b, store.client.files, store.client.now, e.id, at);
            AcquireKeeps(config, b, store.client.files, store.client.now, e.id, at);
          }
      }
      route, st', raised, b' := RouteOne(e, st, b');
    }

    /** Where a held event goes: to the batch, to the others, or it is settled here. */
    method RouteOne(e: Event, st: Stats, ghost b: Book) returns (route: Route, st': Stats, raised: bool, ghost b': Book)
      requires Current(b) && Holds(b, e) && (b.clean ==> Counted(st, b.done))
      modifies store.client`files, store.client`tried, store.client`now
      ensures Current(b') && SameCycle(b, b') && (raised ==> store.client.faulty)
      ensures b.ok <= b'.ok <= b.ok + {e.id} && (e.kind != Upsert([]) ==> b'.ok == b.ok)
      ensures !raised && route.Batched? ==>
        Holds(b', e) && e.kind == Upsert(route.item.records) && route.item.event == e && route.item.records != []
      ensures !raised && route.Separate? ==> Holds(b', e) && e.kind.Other?
      ensures b.clean ==> !raised && !route.Skipped? && Counted(st', b'.done) && st'.skipped == st.skipped
      ensures b.clean ==> b'.held == b.held
      ensures b.clean && route.Settled? ==> Grown(b.done, b'.done, {e.id}) && NothingToDo(b'.done[e.id].copy)
      ensures b.clean && !route.Settled? ==> b'.done == b.done
    {
      hide SlotOf, BookOk, Counted, Safe, FromFile;
      st', raised, b' := st, false, b;
      var changed;
      match e.kind {
        case Upsert(records) =>
          if records != [] { return Batched(Item(e, records)), st, false, b; }
          route := Route.Settled;
          st', changed, raised, b' := CloseOne(e, WorkerResult(true, false), st.(processed := st.processed + 1), b, st);
        case Malformed =>
          route := Route.Settled;
          st', changed, raised, b' := CloseOne(e, WorkerResult(false, false), st, b, st);
        case Other => route := Separate;
      }
    }

    /** Settle a held event according to its result. */
    method CloseOne(e: Event, r: WorkerResult, st: Stats, ghost b: Book, ghost st0: Stats)
      returns (st': Stats, changed: Event, raised: bool, ghost b': Book)
      requires Current(b) && Holds(b, e)
      requires b.clean ==>
        Counted(st0, b.done) && st == if e.kind.Malformed? then st0 else st0.(processed := st0.processed + 1)
      requires b.clean && r.success ==> Enters(config, e) || e.kind == Upsert([])
      requires b.clean && !r.success ==> e.kind != Upsert([])
      requires b.clean && r.movedToDlq ==> e.retries >= config.maxRetry && !r.success
      modifies store.client`files, store.client`tried, store.client`now
      ensures Current(b') && SameCycle(b, b') && SameEvent(e, changed) && (raised ==> store.client.faulty && !r.success)
      ensures b'.ok == if r.success then b.ok + {e.id} else b.ok
      ensures st'.skipped == st.skipped
      ensures b.clean ==> !raised && Counted(st', b'.done) && b'.held == b.held
      ensures b.clean ==> e.id in b'.done && b'.done == b.done[e.id := b'.done[e.id]]
      ensures b.clean ==> b'.done[e.id].copy == e && (b'.done[e.id].outcome.Succeeded? <==> r.success)
      ensures b.clean && !r.success && e.retries >= config.maxRetry ==> b'.done[e.id].outcome == ToDlq
    {
      hide SlotOf, BookOk, Counted, SettledSlot, Backoff, Safe, FromFile, SlotSettled;
      ghost var o;
      if b.clean { HeldSince(config, b, e.id); }
      st', changed, raised, o := HandleProcessingResult(e, r, st);
      SettlingIsSafe(b.before, b.files, store.client.files, b.ok, e, r.success);
      b' := b.(files := store.client.files, now := store.client.now, ok := if r.success then b.ok + {e.id} else b.ok);
      if b.clean {
        ghost var a := Attempt(e, b.held[e.id], Enters(config, e), o);
        CloseKeeps(config, b, store.client.files, store.client.now, e.id, a);
        CountOne(st0, st', b.done, e.id, a);
        b' := Close(b, store.client.files, store.client.now, e.id, a);
      }
    }

    /** Take what was listed, one after the other; a lock that cannot be written ends
        the cycle. */
    method AcquireAll(listed: seq<Event>, worker: string, ghost clean: bool)
      returns (us: seq<Item>, os: seq<Event>, st: Stats, raised: bool, ghost b: Book)
      requires Sound(store.client.files) && forall e :: e in listed ==> FromFile(store.client.files, e)
      requires clean ==> !store.client.faulty && forall e :: e in listed ==>
        Ready(store.client.files, store.client.now, e)
      requires clean ==> forall i, j :: 0 <= i < j < |listed| ==> listed[i].id != listed[j].id
      modifies store.client`files, store.client`tried, store.client`now
      ensures Current(b) && b.clean == clean && (raised ==> store.client.faulty)
      ensures b.before == old(store.client.files) && b.start == old(store.client.now) && b.worker == worker
      ensures b.start <= b.now
      ensures Waiting(b, us, os) && OkPlain(b)
      ensures clean ==> Counted(st, b.done) && st.skipped == 0
      ensures clean ==> Taken(b, listed, us, os)
    {
      hide Current, Counted, Ready, Holds, BookOk, Waiting, Ids, ItemIds, Sound, FromFile, OkPlain, Taken;
      us, os, st, raised := [], [], Stats(0, 0, 0, 0, 0), false;
      b := Book(store.client.files, store.client.files, store.client.now, store.client.now, worker, map[], map[], {},
        clean);
      EmptyBook(config, b);
      NobodyWaits(b, listed);
      assert Taken(b, listed[..0], us, os) by { NothingTaken(b, listed); }
      assert Current(b) by { CurrentIs(b); }
      for k := 0 to |listed|
        invariant Current(b) && b.clean == clean && !raised
        invariant b.before == old(store.client.files) && b.start == old(store.client.now) && b.worker == worker
        invariant b.start <= b.now
        invariant Waiting(b, us, os) && OkPlain(b)
        invariant clean ==> Counted(st, b.done) && st.skipped == 0
        invariant clean ==> Taken(b, listed[..k], us, os)
      {
        var e := listed[k];
        if clean { NotTaken(b, listed, k, us, os); }
        ghost var b0, us0, os0 := b, us, os;
        var route;
        route, st, raised, b := AcquireOne(e, worker, st, b);
        WaitingKept(b0, b, us, os, e.id);
        PlainKept(b0, b, e);
        if raised { return us, os, st, true, b; }
        match route {
          case Batched(item) =>
            WaitingItem(b, us, os, item);
            us := us + [item];
          case Separate =>
            WaitingEvent(b, us, os, e);
            os := os + [e];
          case Settled =>
          case Skipped =>
        }
        if clean { TakenMore(b0, b, listed, k, us0, os0, us, os, route); }
      }
      assert listed[..|listed|] == listed;
    }

    /** Embed all texts in one call, then upsert event by event: every event of the
        batch gets its own share of the vectors, in one call, until one cannot be
        settled because the store raises; then the whole batch counts as failed. */
    method EmbedBatch(us: seq<Item>, st: Stats, ghost b: Book)
      returns (st': Stats, raised: bool, ghost b': Book, ghost vs: Option<seq<Vector>>)
      requires Current(b) && Waiting(b, us, []) && us != [] && (b.clean ==> Counted(st, b.done))
      modifies index, store.client`files, store.client`tried, store.client`now
      ensures Current(b') && SameCycle(b, b') && st'.skipped == st.skipped && (raised ==> store.client.faulty)
      ensures vs.Some? && embedder.honest ==> Pointwise(vs.value, AllRecords(us), embedder.embed)
      ensures vs.None? ==> index.calls == old(index.calls) && b'.ok == b.ok
      ensures vs.Some? ==>
        Upserted(index.calls, old(index.calls), us, vs.value) && OkGrew(b, b', index.calls, |old(index.calls)|, us)
      ensures b.clean ==> !raised && Counted(st', b'.done) && Settles(b, b', us)
      ensures b.clean && vs.None? ==> forall i :: 0 <= i < |us| ==>
        us[i].event.id in b'.done && !b'.done[us[i].event.id].outcome.Succeeded?
      ensures b.clean && vs.Some? ==> |index.calls| == |old(index.calls)| + |us|
      ensures b.clean && vs.Some? ==> forall i :: 0 <= i < |us| ==>
        SucceedsWith(index.calls, |old(index.calls)|, us, b'.done, i)
    {
      hide Counted, ItemOk, Current, Share, AllRecords, Offset, SucceedsWith, Waiting, Settles, Upserted, OkGrew;
      var all, boundaries := Concatenate(us);
      var found := embedder.EmbedTexts(all);
      vs := found;
      if found.None? {
        st', raised, b' := FailAll(us, st, b);
      } else {
        var copies;
        st', copies, raised, b' := UpsertShares(us, boundaries, found.value, st, b);
        if raised {
          ghost var b1 := b';
          CopiesWait(b, b1, us, copies);
          st', raised, b' := FailAll(copies, st', b1);
          GrewLater(b, b1, b', index.calls, |old(index.calls)|, us);
        }
      }
    }

    /** All records in one list, and where those of each event begin. */
    method Concatenate(us: seq<Item>) returns (all: seq<Record>, boundaries: seq<nat>)
      ensures all == AllRecords(us)
      ensures |boundaries| == |us| && forall i :: 0 <= i < |us| ==> boundaries[i] == Offset(us, i)
    {
      hide AllRecords, Offset;
      all, boundaries := [], [];
      NoRecords(us);
      for k := 0 to |us|
        invariant |boundaries| == k && forall i :: 0 <= i < k ==> boundaries[i] == Offset(us, i)
        invariant all == AllRecords(us[..k]) && |all| == Offset(us, k)
      {
        RecordsMore(us, k);
        boundaries := boundaries + [|all|];
        all := all + us[k].records;
      }
      assert us[..|us|] == us;
    }

    /** Distribute the vectors and upsert event by event, until the store raises.  The
        copies are the events as they are then, with the counts of failed attempts. */
    method UpsertShares(us: seq<Item>, boundaries: seq<nat>, vs: seq<Vector>, st: Stats, ghost b: Book)
      returns (st': Stats, copies: seq<Item>, raised: bool, ghost b': Book)
      requires Current(b) && Waiting(b, us, []) && (b.clean ==> Counted(st, b.done))
      requires |boundaries| == |us| && forall i :: 0 <= i < |us| ==> boundaries[i] == Offset(us, i)
      modifies index, store.client`files, store.client`tried, store.client`now
      ensures Current(b') && SameCycle(b, b') && st'.skipped == st.skipped
      ensures (raised ==> store.client.faulty && !b.clean)
      ensures SameItems(us, copies)
      ensures Upserted(index.calls, old(index.calls), us, vs) && OkGrew(b, b', index.calls, |old(index.calls)|, us)
      ensures b.clean ==> Counted(st', b'.done) && Settles(b, b', us) && |index.calls| == |old(index.calls)| + |us|
      ensures b.clean ==> forall i :: 0 <= i < |us| ==> SucceedsWith(index.calls, |old(index.calls)|, us, b'.done, i)
    {
      hide Counted, ItemOk, Current, Share, SucceedsWith, Holds, Waiting, Settles, OkGrew, Upserted;
      st', copies, raised, b' := st, us, false, b;
      SettlesNone(b, us);
      ghost var n, calls0 := |index.calls|, index.calls;
      NothingUpserted(b, calls0, us, vs);
      var k := 0;
      while k < |us| && !raised
        invariant k <= |us| && Current(b') && SameCycle(b, b') && st'.skipped == st.skipped
        invariant (raised ==> store.client.faulty && !b.clean)
        invariant SameItems(us, copies) && (forall i :: k <= i < |us| ==> copies[i] == us[i])
        invariant |index.calls| == n + k && Upserted(index.calls, calls0, us, vs) && OkGrew(b, b', index.calls, n, us)
        invariant b.clean ==> Counted(st', b'.done) && Settles(b, b', us[..k])
        invariant b.clean ==> forall i :: 0 <= i < k ==> SucceedsWith(index.calls, n, us, b'.done, i)
      {
        if b.clean { NextItem(b, b', us, k); }
        ItemHolds(b, b', us, k);
        ghost var b0, calls := b', index.calls;
        var changed;
        st', changed, raised, b' := UpsertShare(us, k, boundaries[k], vs, st', b');
        UpsertedMore(index.calls, calls, calls0, us, vs, k);
        GrewMore(b, b0, b', index.calls, calls, n, us, k);
        if b.clean {
          SettlesMore(b, b0, b', us, k);
          forall i | 0 <= i < k ensures SucceedsWith(index.calls, n, us, b'.done, i) {
            SucceedsStays(calls, index.calls, n, us, b0.done, b'.done, i);
          }
          assert SucceedsWith(index.calls, n, us, b'.done, k) by { SucceedsNow(index.calls, n, us, b'.done, k); }
        }
        copies := copies[k := Item(changed, us[k].records)];
        k := k + 1;
      }
      if b.clean { assert us[..|us|] == us; }
    }

    /** One event of the batch, with its slice of the vectors. */
    method UpsertShare(us: seq<Item>, k: nat, start: nat, vs: seq<Vector>, st: Stats, ghost b: Book)
      returns (st': Stats, changed: Event, raised: bool, ghost b': Book)
      requires Current(b) && (b.clean ==> Counted(st, b.done)) && k < |us| && start == Offset(us, k)
      requires Holds(b, us[k].event) && us[k].event.kind == Upsert(us[k].records) && us[k].records != []
      modifies index, store.client`files, store.client`tried, store.client`now
      ensures Current(b') && SameCycle(b, b') && st'.skipped == st.skipped && SameEvent(us[k].event, changed)
      ensures raised ==> store.client.faulty && !b.clean
      ensures |index.calls| == |old(index.calls)| + 1 && index.calls[..|old(index.calls)|] == old(index.calls)
      ensures var call := index.calls[|old(index.calls)|];
        call.Upserts? && call.records == Share(us, vs, k) && b'.ok == if call.ok then b.ok + {us[k].event.id} else b.ok
      ensures b.clean ==> Counted(st', b'.done) && b'.held == b.held && us[k].event.id in b'.done
      ensures b.clean ==>
        b'.done == b.done[us[k].event.id := b'.done[us[k].event.id]] && b'.done[us[k].event.id].copy == us[k].event
      ensures b.clean ==> (b'.done[us[k].event.id].outcome.Succeeded? <==> index.calls[|old(index.calls)|].ok)
    {
      hide Counted, Current, Share, Offset;
      var u := us[k];
      var embeddings := Slice(vs, start, start + |u.records|);
      var augmented := AugmentWithEmbeddings(u.records, embeddings);
      ShareIs(us, vs, k);
      var ok := index.Upsert(augmented);
      st', changed, raised, b' := CloseOne(u.event, WorkerResult(ok, false), st.(processed := st.processed + 1), b, st);
    }

    /** Every event of the batch has failed, those already done included. */
    method FailAll(us: seq<Item>, st: Stats, ghost b: Book) returns (st': Stats, raised: bool, ghost b': Book)
      requires Current(b) && Waiting(b, us, []) && (b.clean ==> Counted(st, b.done))
      modifies store.client`files, store.client`tried, store.client`now
      ensures Current(b') && SameCycle(b, b') && st'.skipped == st.skipped && (raised ==> store.client.faulty)
      ensures b'.ok == b.ok
      ensures b.clean ==> !raised && Counted(st', b'.done) && Settles(b, b', us)
      ensures b.clean ==> forall i :: 0 <= i < |us| ==>
        us[i].event.id in b'.done && !b'.done[us[i].event.id].outcome.Succeeded?
    {
      hide Counted, ItemOk, Current, Holds, Waiting, Settles;
      st', raised, b' := st, false, b;
      SettlesNone(b, us);
      for k := 0 to |us|
        invariant Current(b') && SameCycle(b, b') && st'.skipped == st.skipped && !raised && b'.ok == b.ok
        invariant b.clean ==> Counted(st', b'.done) && Settles(b, b', us[..k])
        invariant b.clean ==> forall i :: 0 <= i < k ==>
          us[i].event.id in b'.done && !b'.done[us[i].event.id].outcome.Succeeded?
      {
        var u := us[k];
        if b.clean { NextItem(b, b', us, k); }
        ItemHolds(b, b', us, k);
        ghost var b0 := b';
        var changed;
        st', changed, raised, b' := CloseOne(u.event, WorkerResult(false, false), st'.(processed := st'.processed + 1),
          b', st');
        if raised { return st', true, b'; }
        if b.clean { SettlesMore(b, b0, b', us, k); }
      }
      if b.clean { assert us[..|us|] == us; }
    }

    /** The events of other types, one by one; if one cannot be settled it is tried
        once more as a failure. */
    method ProcessOthers(os: seq<Event>, st: Stats, ghost b: Book) returns (st': Stats, raised: bool, ghost b': Book)
      requires Current(b) && Waiting(b, [], os) && (b.clean ==> Counted(st, b.done))
      modifies index, store.client`files, store.client`tried, store.client`now
      ensures Current(b') && SameCycle(b, b') && st'.skipped == st.skipped && (raised ==> store.client.faulty)
      ensures old(index.calls) <= index.calls && b.ok <= b'.ok
      ensures forall id :: id in b'.ok && id !in b.ok ==> HandledIn(index.calls, |old(index.calls)|, os, id)
      ensures b.clean ==> !raised && Counted(st', b'.done) && b'.held == b.held && Grown(b.done, b'.done, Ids(os))
      ensures b.clean ==> HandlersRan(index.calls, |old(index.calls)|, os, b'.done, config.maxRetry)
    {
      hide Counted, Current, FromFile, HandledIn, HandlersRan, Grown;
      st', raised, b' := st, false, b;
      ghost var n := |index.calls|;
      NoHandlers(index.calls, os, b.done, config.maxRetry);
      for k := 0 to |os|
        invariant Current(b') && SameCycle(b, b') && st'.skipped == st.skipped && !raised
        invariant old(index.calls) <= index.calls && b.ok <= b'.ok
        invariant forall id :: id in b'.ok && id !in b.ok ==> HandledIn(index.calls, n, os, id)
        invariant b.clean ==> HandlersRan(index.calls, n, os[..k], b'.done, config.maxRetry)
        invariant b.clean ==> Counted(st', b'.done) && b'.held == b.held && Grown(b.done, b'.done, Ids(os[..k]))
      {
        var e := os[k];
        NextOther(b, b', os, k);
        ghost var calls, b0 := index.calls, b';
        st', raised, b' := ProcessOther(e, st', b0);
        HandledOn(calls, index.calls, n, os, e, e.id in b'.ok && e.id !in b0.ok);
        if raised { return st', true, b'; }
        if b.clean {
          HandlersMore(calls, index.calls, n, os, k, b0.done, b'.done, config.maxRetry,
            b'.done[e.id].outcome.Succeeded?);
          GrownMore(b.done, b0.done, b'.done, os, k);
        }
      }
      if b.clean { assert os[..|os|] == os; }
    }

    /** One event of another type: it goes as its handler says. */
    method ProcessOther(e: Event, st: Stats, ghost b: Book) returns (st': Stats, raised: bool, ghost b': Book)
      requires Current(b) && Holds(b, e) && e.kind.Other? && (b.clean ==> Counted(st, b.done))
      modifies index, store.client`files, store.client`tried, store.client`now
      ensures Current(b') && SameCycle(b, b') && st'.skipped == st.skipped && (raised ==> store.client.faulty)
      ensures b.ok <= b'.ok <= b.ok + {e.id} && old(index.calls) <= index.calls
      ensures e.id in b'.ok && e.id !in b.ok ==> index.calls == old(index.calls) + [Handles(e, true)]
      ensures b.clean ==> !raised && Counted(st', b'.done) && b'.held == b.held && e.id in b'.done
      ensures b.clean ==> b'.done == b.done[e.id := b'.done[e.id]] && b'.done[e.id].copy == e
      ensures b.clean && e.retries < config.maxRetry ==>
        index.calls == old(index.calls) + [Handles(e, b'.done[e.id].outcome.Succeeded?)]
      ensures b.clean && e.retries >= config.maxRetry ==>
        index.calls == old(index.calls) && b'.done[e.id].outcome == ToDlq
    {
      hide Counted, Current, FromFile, Safe, BookOk;
      var r := ProcessEvent(e);
      var changed;
      st', changed, raised, b' := CloseOne(e, r, st.(processed := st.processed + 1), b, st);
      if raised {
        CopyFromFile(b.before, e, changed);
        st', changed, raised, b' := CloseOne(changed, WorkerResult(false, false), st', b', st');
      }
    }

    /** Both phases after the events were taken. */
    method SettleAll(us: seq<Item>, os: seq<Event>, st: Stats, ghost b: Book)
      returns (st': Stats, raised: bool, ghost b': Book)
      requires Current(b) && Waiting(b, us, os) && OkPlain(b) && (b.clean ==> Counted(st, b.done))
      modifies index, store.client`files, store.client`tried, store.client`now
      ensures Current(b') && SameCycle(b, b') && st'.skipped == st.skipped && (raised ==> store.client.faulty)
      ensures old(index.calls) <= index.calls
      ensures OkDelivered(b'.before, b'.ok, index.calls, |old(index.calls)|, embedder)
      ensures b.clean ==>
        !raised && Counted(st', b'.done) && b'.held == b.held && b'.done.Keys == b.done.Keys + ItemIds(us) + Ids(os)
      ensures b.clean && (forall id :: id in b.done ==> NothingToDo(b.done[id].copy)) ==>
        CallsOfCycle(index.calls, |old(index.calls)|, os, b'.done, config.maxRetry)
    {
      hide Counted, Current, Waiting, OkDelivered, Pointwise, SucceedsWith, Settles, Upserted, OkGrew,
        OkPlain, FromFile, HandlersRan, CallsOfCycle, NothingToDo;
      ghost var n, calls0 := |index.calls|, index.calls;
      var s1 := st;
      ghost var b1, vs := b, None;
      raised := false;
      assert Waiting(b, us, []) by { WaitingParts(b, us, os); }
      WaitingUpserts(b, us, os);
      PlainIsDelivered(b, index.calls, n, embedder);
      if us != [] {
        s1, raised, b1, vs := EmbedBatch(us, st, b);
        PlainIsDelivered(b, index.calls, n, embedder);
        if vs.Some? { CallsGrow(index.calls, calls0, us, vs.value); }
        if vs.Some? { BatchCalls(index.calls, calls0, us, vs.value); }
        if vs.Some? { BatchDelivers(index.calls, calls0, us, vs.value, b, b1, embedder); }
        if b.clean { SettledParts(b, b1, us); }
        if raised { return s1, true, b1; }
      }
      OthersWait(b, b1, us, os);
      ghost var calls1 := index.calls;
      st', raised, b' := ProcessOthers(os, s1, b1);
      OthersDeliver(b1, b', os, calls1, index.calls, n, embedder);
      if b.clean && forall id :: id in b.done ==> NothingToDo(b.done[id].copy) {
        if us == [] { SettlesNone(b, us); }
        CallsAre(calls0, calls1, index.calls, us, os, b, b1, b', config.maxRetry);
      }
    }

    /** One polling cycle.  Whatever fails in the store, in the embedder or in the
        index: each pending event is still pending or a dead letter, or has succeeded,
        and with a pointwise embedder success means its complete records were
        delivered.  The call raises only when the store does.

        With a store that does not raise, and accounts all different, every due event of
        the accounts is acquired and settled exactly once, nothing else on file changes,
        and the statistics add up. */
    method RunOnce(accounts: seq<string>, worker: string)
      returns (result: Option<Stats>, ghost y: Cycle, ghost ok: set<EventId>)
      requires Sound(store.client.files)
      modifies index, store.client`files, store.client`tried, store.client`now
      ensures Sound(store.client.files) && old(store.client.now) <= store.client.now
      ensures Safe(old(store.client.files), store.client.files, ok)
      ensures old(index.calls) <= index.calls
      ensures OkDelivered(old(store.client.files), ok, index.calls, |old(index.calls)|, embedder)
      ensures result.None? ==> store.client.faulty
      ensures !store.client.faulty && Different(accounts) ==>
        && CycleOk(config, y) && y.worker == worker
        && y.before == old(store.client.files) && y.after == store.client.files
        && old(store.client.now) <= y.start && y.end == store.client.now
        && (forall id :: id in y.attempts ==> y.attempts[id].copy.account in accounts)
        && (forall id :: id in ok <==> id in y.attempts && y.attempts[id].outcome.Succeeded?)
      ensures !store.client.faulty && Different(accounts) ==>
        forall e: Event :: e.account in accounts && ListableAt(y.before, old(store.client.now), e) ==>
          e.id in y.attempts
      ensures !store.client.faulty && Different(accounts) ==>
        exists os :: CallsOfCycle(index.calls, |old(index.calls)|, os, y.attempts, config.maxRetry)
      ensures !store.client.faulty && Different(accounts) ==>
        && Counted(result.value, y.attempts) && result.value.skipped == 0
        && result.value.succeeded + result.value.failed + result.value.movedToDlq == |y.attempts|
    {
      hide Counted, Current, ListableAt, SlotOf, AttemptOk, Waiting, OkDelivered, Sound, FromFile, Safe, Ready,
        OkPlain, Different, CallsOfCycle, NothingToDo;
      ghost var clean := !store.client.faulty && Different(accounts);
      var listed := ListAll(accounts);
      var us, os, s1, raised, st;
      ghost var b, b1;
      us, os, s1, raised, b := AcquireAll(listed, worker, clean);
      b1, st := b, s1;
      if raised {
        PlainIsDelivered(b, index.calls, |old(index.calls)|, embedder);
      } else {
        st, raised, b1 := SettleAll(us, os, s1, b);
      }
      y, ok := AsCycle(b1), b1.ok;
      CurrentParts(b1);
      SafeStaysSound(b1.before, b1.files, b1.ok);
      result := if raised then None else Some(st);
      if clean {
        CountedAll(st, b1.done);
        AllDone(b1);
        forall id | id in y.attempts ensures y.attempts[id].copy.account in accounts {
          var e :| e in listed && e.id == id;
          CopyOnFile(config, b1, id, e) by { ReadyIsOnFile(b1.before, b1.start, e); }
        }
      }
    }

    /** Register events; a registration that raises leaves nothing pending. */
    method RegisterAll(es: seq<Event>) returns (ghost written: set<Event>)
      requires Sound(store.client.files) && AllFresh(es)
      requires forall e :: e in es ==> Unused(store.client.files, e.id)
      modifies store.client`files, store.client`tried
      ensures Sound(store.client.files) && (forall e :: e in written ==> e in es)
      ensures (!store.client.faulty ==> forall e :: e in es ==> e in written)
      ensures forall id :: id !in Ids(es) ==> SlotOf(store.client.files, id) == old(SlotOf(store.client.files, id))
      ensures forall e :: e in es ==> Registered(old(store.client.files), store.client.files, e, e in written)
    {
      hide Sound, SlotOf, Unused, FreshEvent;
      written := {};
      NobodyWaits(Book(map[], map[], 0, 0, "", map[], map[], {}, false), es);
      for k := 0 to |es|
        invariant Sound(store.client.files) && (forall e :: e in written ==> e in es[..k])
        invariant (!store.client.faulty ==> forall e :: e in es[..k] ==> e in written)
        invariant forall id :: id !in Ids(es[..k]) ==>
          SlotOf(store.client.files, id) == old(SlotOf(store.client.files, id))
        invariant forall e :: e in es[..k] ==> Registered(old(store.client.files), store.client.files, e, e in written)
      {
        var e := es[k];
        IdsMore(es, k);
        assert es[..k + 1] == es[..k] + [e];
        ghost var files := store.client.files;
        var ok := store.WriteEvent(e);
        WritingIsSound(files, store.client.files, e, ok);
        WritingRegisters(old(store.client.files), files, store.client.files, e, ok);
        forall x | x in es[..k] ensures x.id != e.id && SlotOf(store.client.files, x.id) == SlotOf(files, x.id) {
          assert x.id in Ids(es[..k]);
        }
        if ok { written := written + {e}; }
      }
      assert es[..|es|] == es;
    }

    /** Register what is new, let the time of the round pass, then poll. */
    method RunRound(r: Round, worker: string)
      returns (ghost y: Cycle, ghost written: set<Event>, ghost ok: set<EventId>, ghost files1: Files)
      requires Sound(store.client.files) && AllFresh(r.events)
      requires forall e :: e in r.events ==> Unused(store.client.files, e.id)
      modifies index, store.client`files, store.client`tried, store.client`now
      ensures Sound(store.client.files) && Sound(files1) && old(index.calls) <= index.calls
      ensures (forall e :: e in written ==> e in r.events)
      ensures !store.client.faulty ==> forall e :: e in r.events ==> e in written
      ensures forall id :: id !in Ids(r.events) ==> SlotOf(files1, id) == old(SlotOf(store.client.files, id))
      ensures forall e :: e in r.events ==> Registered(old(store.client.files), files1, e, e in written)
      ensures Safe(files1, store.client.files, ok)
      ensures OkDelivered(files1, ok, index.calls, |old(index.calls)|, embedder)
      ensures !store.client.faulty && Different(r.accounts) ==>
        && CycleOk(config, y) && y.before == files1 && y.after == store.client.files
        && old(store.client.now) + r.pause <= y.start && y.end == store.client.now
      ensures !store.client.faulty && Different(r.accounts) ==>
        forall e: Event :: e.account in r.accounts && ListableAt(files1, old(store.client.now) + r.pause, e) ==>
          e.id in y.attempts
    {
      hide Sound, SlotOf, Different, Safe, OkDelivered, CycleOk, Counted, Unused, Registered, AllFresh, Ids, ListableAt;
      written := RegisterAll(r.events);
      files1 := store.client.files;
      store.client.Wait(r.pause);
      var result;
      result, y, ok := RunOnce(r.accounts, worker);
    }

    /** Round after round: register what is new, then poll.  Whatever fails, and
        whichever cycles raise, no registered event is ever lost, and with a pointwise
        embedder an upsert counts as succeeded only if it was delivered.  With a store
        that does not raise and accounts all different, the cycles are a run as in
        OutboxCycles, so that its theorems hold of this worker; and if the rounds are
        patient, every event is done or a dead letter maxRetry + 1 cycles after its
        registration. */
    method RunRounds(rounds: seq<Round>, worker: string)
      returns (ghost ys: seq<Cycle>, ghost written: set<Event>, ghost ok: set<EventId>)
      requires store.client.files == map[] && FreshIds(rounds)
      modifies index, store.client`files, store.client`tried, store.client`now
      ensures forall e :: e in written ==> Kept(store.client.files, ok, e)
      ensures forall e :: e in written && e.id in ok ==> Carried(index.calls, |old(index.calls)|, e, embedder)
      ensures !store.client.faulty ==> forall r, e :: r in rounds && e in r.events ==> e in written
      ensures !store.client.faulty && AllDifferent(rounds) ==>
        RunOk(config, ys) && |ys| == |rounds| && FilesAfter(ys) == store.client.files
      ensures !store.client.faulty && AllDifferent(rounds) && Patient(config, rounds) ==>
        forall k, e :: 0 <= k && k + config.maxRetry + 1 <= |rounds| && e in rounds[k].events ==> InTheEnd(ys, e.id)
    {
      hide Belongs, Served, Patient, InTheEnd, Sound, SlotOf, Different, Safe, OkDelivered, Kept, Carried, CycleOk,
        Unused, Registered, RunOk, AllFresh, Intact, CleanRun, Ids, UsedIds, FreshIds, ListableAt, AllDifferent;
      ghost var clean := !store.client.faulty && AllDifferent(rounds);
      ghost var n := |index.calls|;
      ys, written, ok := [], {}, {};
      NoRounds(config, rounds, index.calls, n, embedder, store.client.now);
      NothingServed(rounds);
      for k := 0 to |rounds|
        invariant Sound(store.client.files) && old(index.calls) <= index.calls
        invariant Intact(store.client.files, index.calls, n, written, ok, UsedIds(rounds, k), embedder)
        invariant !store.client.faulty ==> forall r, e :: r in rounds[..k] && e in r.events ==> e in written
        invariant Belongs(store.client.files, rounds)
        invariant clean ==> |ys| == k && CleanRun(config, ys, store.client.files, store.client.now, UsedIds(rounds, k))
        invariant clean && Patient(config, rounds) ==> Served(ys, rounds)
      {
        ghost var files0, calls0, time0 := store.client.files, index.calls, store.client.now;
        FreshRound(rounds, k);
        IntactParts(files0, calls0, n, written, ok, UsedIds(rounds, k), embedder);
        ghost var y, more, fine, files1;
        y, more, fine, files1 := RunRound(rounds[k], worker);
        RoundIntact(files0, files1, store.client.files, calls0, index.calls, n, written, more, ok, fine,
          UsedIds(rounds, k), rounds[k].events, embedder);
        BelongsOn(files0, files1, store.client.files, fine, rounds, k, more);
        AllRegistered(rounds, k, written, more, store.client.faulty);
        if clean {
          RoundDiffers(rounds, k);
          CleanRound(config, ys, y, files0, time0, rounds, k, more);
          ys := ys + [y];
        }
        written, ok := written + more, ok + fine;
      }
      IntactParts(store.client.files, index.calls, n, written, ok, UsedIds(rounds, |rounds|), embedder);
      assert rounds[..|rounds|] == rounds;
      if clean {
        CleanParts(config, ys, store.client.files, store.client.now, UsedIds(rounds, |rounds|));
        if Patient(config, rounds) {
          forall k, e | 0 <= k && k + config.maxRetry + 1 <= |rounds| && e in rounds[k].events
            ensures InTheEnd(ys, e.id)
          {
            ServedInTheEnd(config, ys, rounds, k, e);
          }
        }
      }
    }

    lemma AllDone(b: Book)
      requires Current(b) && b.clean && b.done.Keys == b.held.Keys
      ensures CycleOk(config, AsCycle(b)) && forall id :: id in b.ok <==> id in b.done && b.done[id].outcome.Succeeded?
    {
      hide SlotOf, AttemptOk, Safe;
      forall id ensures id in b.done ==> AttemptOk(config, AsCycle(b), id)
        ensures id !in b.done ==> SlotOf(b.files, id) == SlotOf(b.before, id)
        ensures id in b.ok <==> id in b.done && b.done[id].outcome.Succeeded?
      {
        assert IdOk(config, b, id);
      }
    }

    lemma CurrentParts(b: Book)
      requires Current(b)
      ensures b.files == store.client.files && b.now == store.client.now && Safe(b.before, b.files, b.ok)
    {
      hide Safe;
    }

    lemma CurrentIs(b: Book)
      requires BookOk(config, b) && b.files == store.client.files && b.now == store.client.now
      requires (b.clean ==> !store.client.faulty)
      requires b.before == b.files && b.ok == {} && Sound(b.files)
      ensures Current(b)
    {
      SafeAtStart(b.files);
    }
  }

  datatype Route = Batched(item: Item) | Separate | Settled | Skipped

  ghost predicate SameCycle(b: Book, b': Book) {
    b'.before == b.before && b'.start == b.start && b'.worker == b.worker && b'.clean == b.clean && b.now <= b'.now
  }

  /** On file, due and not actively locked. */
  ghost predicate Ready(files: Files, now: Time, e: Event) {
    SlotOf(files, e.id).pending == Some(EventFile(e)) && DueAt(files, now, e)
  }

  /** A pending event that is due. */
  ghost predicate ListableAt(files: Files, now: Time, e: Event) {
    Listable(files, e.account, e) && DueAt(files, now, e)
  }

  ghost predicate Different(accounts: seq<string>) {
    forall i, j :: 0 <= i < j < |accounts| ==> accounts[i] != accounts[j]
  }

  /** A listed event is the one on file. */
  lemma OnFile(files: Files, account: string, e: Event)
    requires Sound(files) && Listable(files, account, e)
    ensures SlotOf(files, e.id).pending == Some(EventFile(e)) && FromFile(files, e) && e.account == account
  {
    var p: Path :| p.Pending? && Get(files, p) == Some(EventFile(e)) && e.account == account;
    assert p == Pending(e.id);
  }

  lemma OneAccount(files: Files, e: Event, f: Event)
    requires FromFile(files, e) && FromFile(files, f) && e.id == f.id
    ensures e.account == f.account && e.kind == f.kind
  {
  }

  lemma ReadyIsOnFile(files: Files, now: Time, e: Event)
    requires Ready(files, now, e)
    ensures SlotOf(files, e.id).pending == Some(EventFile(e))
  {
  }

  lemma NowReady(files: Files, account: string, now: Time, e: Event)
    requires Sound(files) && Listable(files, account, e) && DueAt(files, now, e)
    ensures Ready(files, now, e)
  {
    OnFile(files, account, e);
  }

  lemma StillDue(files: Files, t: Time, t': Time, e: Event)
    requires DueAt(files, t, e) && t <= t'
    ensures DueAt(files, t', e)
  {
  }

  lemma StillReady(files: Files, t: Time, t': Time, e: Event)
    requires Ready(files, t, e) && t <= t'
    ensures Ready(files, t', e)
  {
  }

  lemma NotLocked(before: Files, files: Files, t: Time, t': Time, e: Event)
    requires SlotOf(files, e.id) == SlotOf(before, e.id) && DueAt(before, t, e) && t <= t'
    ensures !YoungLock(files, e.id, t')
  {
  }

  lemma UntouchedSlot(c: Config, b: Book, id: EventId)
    requires BookOk(c, b) && id !in b.held
    ensures SlotOf(b.files, id) == SlotOf(b.before, id) && id !in b.done
  {
    assert IdOk(c, b, id);
  }

  lemma HeldSince(c: Config, b: Book, id: EventId)
    requires BookOk(c, b) && id in b.held && id !in b.done
    ensures b.start <= b.held[id] <= b.now
  {
    assert IdOk(c, b, id);
  }

  // ----- Who is still waiting -----

  ghost function Ids(es: seq<Event>): set<EventId> {
    set e | e in es :: e.id
  }

  ghost function ItemIds(us: seq<Item>): set<EventId> {
    set u | u in us :: u.event.id
  }

  ghost predicate ItemOk(b: Book, u: Item) {
    Holds(b, u.event) && u.event.kind == Upsert(u.records) && u.records != []
  }

  /** Events acquired but not settled; in a clean cycle they are all different. */
  ghost predicate Waiting(b: Book, us: seq<Item>, os: seq<Event>) {
    && (forall i :: 0 <= i < |us| ==> ItemOk(b, us[i]))
    && (forall i :: 0 <= i < |os| ==> Holds(b, os[i]) && os[i].kind.Other?)
    && (b.clean ==> forall i, j :: 0 <= i < j < |us| ==> us[i].event.id != us[j].event.id)
    && (b.clean ==> forall i, j :: 0 <= i < j < |os| ==> os[i].id != os[j].id)
    && (b.clean ==> ItemIds(us) !! Ids(os))
  }

  /** An event outside the waiting ones was acquired or settled. */
  lemma WaitingKept(b: Book, b': Book, us: seq<Item>, os: seq<Event>, id: EventId)
    requires Waiting(b, us, os) && SameCycle(b, b')
    requires b.clean ==> id !in ItemIds(us) && id !in Ids(os) && b'.done.Keys <= b.done.Keys + {id}
    requires b.clean ==> forall x :: x in b.held ==> x in b'.held && b'.held[x] == b.held[x]
    ensures Waiting(b', us, os)
  {
    forall i | 0 <= i < |us| ensures ItemOk(b', us[i]) {
      assert ItemOk(b, us[i]) && us[i].event.id in ItemIds(us);
    }
    forall i | 0 <= i < |os| ensures Holds(b', os[i]) && os[i].kind.Other? {
      assert Holds(b, os[i]) && os[i].id in Ids(os);
    }
  }

  lemma WaitingItem(b: Book, us: seq<Item>, os: seq<Event>, u: Item)
    requires Waiting(b, us, os) && ItemOk(b, u) && (b.clean ==> u.event.id !in ItemIds(us) && u.event.id !in Ids(os))
    ensures Waiting(b, us + [u], os) && ItemIds(us + [u]) == ItemIds(us) + {u.event.id}
  {
    hide ItemOk;
    forall i, j | 0 <= i < j < |us + [u]| ensures b.clean ==> (us + [u])[i].event.id != (us + [u])[j].event.id {
      assert us[i].event.id in ItemIds(us);
    }
    assert forall x :: x in us + [u] <==> x in us || x == u;
  }

  lemma WaitingEvent(b: Book, us: seq<Item>, os: seq<Event>, e: Event)
    requires Waiting(b, us, os) && Holds(b, e) && e.kind.Other?
    requires (b.clean ==> e.id !in ItemIds(us) && e.id !in Ids(os))
    ensures Waiting(b, us, os + [e]) && Ids(os + [e]) == Ids(os) + {e.id}
  {
    hide ItemOk, Holds;
    forall i, j | 0 <= i < j < |os + [e]| ensures b.clean ==> (os + [e])[i].id != (os + [e])[j].id {
      assert os[i].id in Ids(os);
    }
    assert forall x :: x in os + [e] <==> x in os || x == e;
  }

  lemma IdsMore(es: seq<Event>, k: nat)
    requires k < |es| && forall i, j :: 0 <= i < j < |es| ==> es[i].id != es[j].id
    ensures Ids(es[..k + 1]) == Ids(es[..k]) + {es[k].id} && es[k].id !in Ids(es[..k]) && es[k] in es
  {
    assert es[..k + 1] == es[..k] + [es[k]];
  }

  /** In a clean cycle: what was listed so far is held, and settled or waiting. */
  ghost predicate Taken(b: Book, es: seq<Event>, us: seq<Item>, os: seq<Event>) {
    b.clean ==>
      && b.held.Keys == Ids(es) && b.held.Keys == b.done.Keys + ItemIds(us) + Ids(os)
      && forall id :: id in b.done ==> NothingToDo(b.done[id].copy)
  }

  lemma NothingTaken(b: Book, es: seq<Event>)
    requires b.held == map[] && b.done == map[]
    ensures Taken(b, es[..0], [], [])
  {
    NobodyWaits(b, es);
  }

  lemma NotTaken(b: Book, es: seq<Event>, k: nat, us: seq<Item>, os: seq<Event>)
    requires b.clean && k < |es| && Taken(b, es[..k], us, os)
    requires forall i, j :: 0 <= i < j < |es| ==> es[i].id != es[j].id
    requires b.start <= b.now && Ready(b.before, b.start, es[k])
    ensures es[k].id !in b.held && es[k].id !in ItemIds(us) && es[k].id !in Ids(os) && Ready(b.before, b.now, es[k])
  {
    hide ItemIds, Ids, Ready;
    IdsMore(es, k);
    ReadyLater(b, es[k]);
  }

  lemma TakenMore(b: Book, b': Book, es: seq<Event>, k: nat, us: seq<Item>, os: seq<Event>, us': seq<Item>,
                  os': seq<Event>, route: Route)
    requires b.clean && b'.clean && k < |es| && Taken(b, es[..k], us, os)
    requires forall i, j :: 0 <= i < j < |es| ==> es[i].id != es[j].id
    requires b'.held.Keys == b.held.Keys + {es[k].id} && !route.Skipped?
    requires route.Settled? ==> Grown(b.done, b'.done, {es[k].id}) && NothingToDo(b'.done[es[k].id].copy)
    requires !route.Settled? ==> b'.done == b.done
    requires if route.Batched? then ItemIds(us') == ItemIds(us) + {es[k].id} else us' == us
    requires if route.Separate? then Ids(os') == Ids(os) + {es[k].id} else os' == os
    ensures Taken(b', es[..k + 1], us', os')
  {
    hide ItemIds, Ids, NothingToDo;
    IdsMore(es, k);
    assert b'.held.Keys == b'.done.Keys + ItemIds(us') + Ids(os');
  }

  lemma NobodyWaits(b: Book, es: seq<Event>)
    ensures Waiting(b, [], []) && Ids([]) == {} && ItemIds([]) == {} && Ids(es[..0]) == {}
  {
  }

  lemma EmptyBook(c: Config, b: Book)
    requires b.held == map[] && b.done == map[] && b.ok == {} && b.files == b.before && b.start == b.now
    ensures OkPlain(b)
    ensures BookOk(c, b) && Counted(Stats(0, 0, 0, 0, 0), b.done)
  {
    forall id ensures IdOk(c, b, id) { }
    assert Having(b.done, 0) == {} && Having(b.done, 1) == {} && Having(b.done, 2) == {} && Readable(b.done) == {};
  }

  lemma ReadyLater(b: Book, e: Event)
    requires Ready(b.before, b.start, e) && b.start <= b.now
    ensures Ready(b.before, b.now, e)
  {
  }

  /** The calls made for the batch: one for each event in order, up to the first that
      could not be settled, each with the share of its event. */
  ghost predicate Upserted(calls: seq<Call>, calls0: seq<Call>, us: seq<Item>, vs: seq<Vector>) {
    && |calls0| <= |calls| <= |calls0| + |us| && calls[..|calls0|] == calls0
    && forall i :: 0 <= i < |calls| - |calls0| ==> Shared(calls, |calls0|, us, vs, i)
  }

  ghost predicate Shared(calls: seq<Call>, n: nat, us: seq<Item>, vs: seq<Vector>, i: nat)
    requires i < |us| && n + i < |calls|
  {
    calls[n + i].Upserts? && calls[n + i].records == Share(us, vs, i)
  }

  ghost predicate Made(calls: seq<Call>, n: nat, us: seq<Item>, id: EventId, i: nat) {
    i < |us| && n + i < |calls| && us[i].event.id == id && calls[n + i].ok
  }

  /** Exactly the events whose call was successful have been added. */
  ghost predicate OkGrew(b: Book, b': Book, calls: seq<Call>, n: nat, us: seq<Item>) {
    forall id :: id in b'.ok <==> id in b.ok || exists i: nat :: Made(calls, n, us, id, i)
  }

  lemma NothingUpserted(b: Book, calls: seq<Call>, us: seq<Item>, vs: seq<Vector>)
    ensures Upserted(calls, calls, us, vs) && OkGrew(b, b, calls, |calls|, us)
  {
    hide Share;
  }

  lemma CallsGrow(calls: seq<Call>, calls0: seq<Call>, us: seq<Item>, vs: seq<Vector>)
    requires Upserted(calls, calls0, us, vs)
    ensures calls0 <= calls
  {
    hide Share;
  }

  lemma UpsertedMore(calls': seq<Call>, calls: seq<Call>, calls0: seq<Call>, us: seq<Item>, vs: seq<Vector>, k: nat)
    requires Upserted(calls, calls0, us, vs) && k < |us| && |calls| == |calls0| + k
    requires |calls'| == |calls| + 1 && calls'[..|calls|] == calls
    requires calls'[|calls|].Upserts? && calls'[|calls|].records == Share(us, vs, k)
    ensures Upserted(calls', calls0, us, vs)
  {
    hide Share;
    assert calls'[..|calls0|] == calls'[..|calls|][..|calls0|];
    forall i | 0 <= i < k ensures Shared(calls', |calls0|, us, vs, i) {
      assert Shared(calls, |calls0|, us, vs, i);
      assert calls'[..|calls|][|calls0| + i] == calls[|calls0| + i];
    }
  }

  lemma GrewMore(b: Book, b0: Book, b': Book, calls': seq<Call>, calls: seq<Call>, n: nat, us: seq<Item>, k: nat)
    requires OkGrew(b, b0, calls, n, us) && k < |us| && |calls| == n + k && |calls'| == |calls| + 1
    requires calls'[..|calls|] == calls
    requires b'.ok == if calls'[|calls|].ok then b0.ok + {us[k].event.id} else b0.ok
    ensures OkGrew(b, b', calls', n, us)
  {
    forall id, i: nat
      ensures Made(calls', n, us, id, i) <==>
        Made(calls, n, us, id, i) || (i == k && us[k].event.id == id && calls'[n + k].ok)
    {
      if i < k { assert calls'[..|calls|][n + i] == calls'[n + i]; }
    }
    forall id ensures id in b'.ok <==> id in b.ok || exists i: nat :: Made(calls', n, us, id, i) {
      if i: nat :| Made(calls, n, us, id, i) { assert Made(calls', n, us, id, i); }
      if calls'[n + k].ok && us[k].event.id == id { assert Made(calls', n, us, id, k); }
    }
  }

  lemma GrewLater(b: Book, b1: Book, b': Book, calls: seq<Call>, n: nat, us: seq<Item>)
    requires OkGrew(b, b1, calls, n, us) && b'.ok == b1.ok
    ensures OkGrew(b, b', calls, n, us)
  {
  }

  /** The same batch, with the counts of failed attempts. */
  ghost predicate SameItems(us: seq<Item>, copies: seq<Item>) {
    |copies| == |us| && forall i :: 0 <= i < |us| ==>
      SameEvent(us[i].event, copies[i].event) && copies[i].records == us[i].records
  }

  lemma CopiesWait(b: Book, b': Book, us: seq<Item>, copies: seq<Item>)
    requires Waiting(b, us, []) && SameItems(us, copies) && SameCycle(b, b') && !b.clean
    ensures Waiting(b', copies, [])
  {
    hide FromFile;
    forall i | 0 <= i < |copies| ensures ItemOk(b', copies[i]) {
      assert ItemOk(b, us[i]);
      CopyFromFile(b.before, us[i].event, copies[i].event);
    }
  }

  /** In a clean cycle an event of the batch succeeded exactly when its call did. */
  ghost predicate SucceedsWith(calls: seq<Call>, n: nat, us: seq<Item>, done: map<EventId, Attempt>, i: nat)
    requires i < |us|
  {
    n + i < |calls| && us[i].event.id in done && (done[us[i].event.id].outcome.Succeeded? <==> calls[n + i].ok)
  }

  lemma SucceedsNow(calls: seq<Call>, n: nat, us: seq<Item>, done: map<EventId, Attempt>, i: nat)
    requires i < |us| && n + i < |calls| && us[i].event.id in done
    requires done[us[i].event.id].outcome.Succeeded? <==> calls[n + i].ok
    ensures SucceedsWith(calls, n, us, done, i)
  {
  }

  lemma SucceedsStays(calls: seq<Call>, calls': seq<Call>, n: nat, us: seq<Item>, done: map<EventId, Attempt>,
                      done': map<EventId, Attempt>, i: nat)
    requires i < |us| && SucceedsWith(calls, n, us, done, i)
    requires |calls| <= |calls'| && calls'[..|calls|] == calls
    requires us[i].event.id in done' && done'[us[i].event.id] == done[us[i].event.id]
    ensures SucceedsWith(calls', n, us, done', i)
  {
    assert calls'[..|calls|][n + i] == calls'[n + i];
  }

  lemma ItemHolds(b: Book, b': Book, us: seq<Item>, k: nat)
    requires k < |us| && Waiting(b, us, []) && SameCycle(b, b') && (b.clean ==> Holds(b', us[k].event))
    ensures Holds(b', us[k].event) && us[k].event.kind == Upsert(us[k].records) && us[k].records != []
  {
    hide FromFile;
    assert ItemOk(b, us[k]);
  }

  /** In a call after the n-th the event was carried out: with a pointwise embedder its
      records were upserted whole, or its handler said so. */
  ghost predicate Carried(calls: seq<Call>, n: nat, e: Event, embedder: Embedder) {
    match e.kind
    case Upsert(records) => records != [] && embedder.honest ==> Delivered(calls, n, records, embedder.embed)
    case Malformed => false
    case Other => Handled(calls, n, e)
  }

  ghost predicate Handled(calls: seq<Call>, n: nat, e: Event) {
    exists i :: n <= i < |calls| && calls[i].Handles? && SameEvent(calls[i].event, e) && calls[i].ok
  }

  /** Every event that succeeded was carried out in a call after the n-th. */
  ghost predicate OkDelivered(before: Files, ok: set<EventId>, calls: seq<Call>, n: nat, embedder: Embedder) {
    forall e: Event :: FromFile(before, e) && e.id in ok ==> Carried(calls, n, e, embedder)
  }

  /** So far only events without anything to do have succeeded. */
  ghost predicate OkPlain(b: Book) {
    forall e: Event :: FromFile(b.before, e) && e.id in b.ok ==> e.kind == Upsert([])
  }

  lemma PlainKept(b: Book, b': Book, e: Event)
    requires OkPlain(b) && SameCycle(b, b') && FromFile(b.before, e)
    requires b.ok <= b'.ok <= b.ok + {e.id} && (e.kind != Upsert([]) ==> b'.ok == b.ok)
    ensures OkPlain(b')
  {
    hide FromFile;
    forall f: Event | FromFile(b.before, f) && f.id in b'.ok ensures f.kind == Upsert([]) {
      if f.id == e.id { OneAccount(b.before, e, f); }
    }
  }

  lemma PlainIsDelivered(b: Book, calls: seq<Call>, n: nat, embedder: Embedder)
    requires OkPlain(b)
    ensures OkDelivered(b.before, b.ok, calls, n, embedder)
  {
    hide FromFile, Delivered;
  }

  /** The batch part of a cycle: success means delivery. */
  lemma BatchDelivers(calls: seq<Call>, calls0: seq<Call>, us: seq<Item>, vs: seq<Vector>, b: Book, b': Book,
                      embedder: Embedder)
    requires Waiting(b, us, []) && OkDelivered(b.before, b.ok, calls, |calls0|, embedder) && b'.before == b.before
    requires embedder.honest ==> Pointwise(vs, AllRecords(us), embedder.embed)
    requires Upserted(calls, calls0, us, vs) && OkGrew(b, b', calls, |calls0|, us)
    ensures OkDelivered(b'.before, b'.ok, calls, |calls0|, embedder)
  {
    hide Pointwise, AllRecords, AugmentAll, Share, Delivered, FromFile, Waiting, WholeSet;
    forall e: Event | FromFile(b.before, e) && e.id in b'.ok ensures Carried(calls, |calls0|, e, embedder) {
      if e.id !in b.ok {
        var i: nat :| Made(calls, |calls0|, us, e.id, i);
        ItemFacts(b, us, i);
        OneAccount(b.before, e, us[i].event);
        if embedder.honest {
          BatchRefinesSingle(us, vs, embedder.embed, i);
          AugmentedIsWhole(us[i].records, embedder.embed);
          assert Shared(calls, |calls0|, us, vs, i);
          DeliveredAt(calls, |calls0|, |calls0| + i, us[i].records, embedder.embed);
        }
      }
    }
  }

  lemma ItemFacts(b: Book, us: seq<Item>, i: nat)
    requires i < |us| && Waiting(b, us, [])
    ensures us[i].event.kind == Upsert(us[i].records) && FromFile(b.before, us[i].event)
  {
    hide FromFile;
    assert ItemOk(b, us[i]);
  }

  lemma DeliveredAt(calls: seq<Call>, n: nat, i: nat, records: seq<Record>, embed: string -> Vector)
    requires n <= i < |calls| && calls[i].Upserts? && calls[i].ok && WholeSet(calls[i].records, records, embed)
    ensures Delivered(calls, n, records, embed)
  {
    hide WholeSet;
  }

  lemma OthersDeliver(b: Book, b': Book, os: seq<Event>, calls: seq<Call>, calls': seq<Call>, n: nat,
                      embedder: Embedder)
    requires OkDelivered(b.before, b.ok, calls, n, embedder) && SameCycle(b, b') && Waiting(b, [], os)
    requires n <= |calls| && calls <= calls'
    requires forall id :: id in b'.ok && id !in b.ok ==> HandledIn(calls', |calls|, os, id)
    ensures OkDelivered(b'.before, b'.ok, calls', n, embedder)
  {
    hide Carried, FromFile;
    forall f: Event | FromFile(b.before, f) && f.id in b'.ok ensures Carried(calls', n, f, embedder) {
      if f.id in b.ok {
        CarriedStill(calls, calls', n, n, f, embedder);
      } else {
        var e :| e in os && e.id == f.id && Handled(calls', |calls|, e);
        assert Holds(b, e) && e.kind.Other?;
        OneAccount(b.before, e, f);
        HandledIsCarried(calls', n, |calls|, e, f, embedder);
      }
    }
  }

  lemma HandledIsCarried(calls: seq<Call>, n: nat, m: nat, e: Event, f: Event, embedder: Embedder)
    requires Handled(calls, m, e) && n <= m && SameEvent(e, f) && e.kind.Other?
    ensures Carried(calls, n, f, embedder)
  {
    var i :| m <= i < |calls| && calls[i].Handles? && SameEvent(calls[i].event, e) && calls[i].ok;
    assert SameEvent(calls[i].event, f);
  }

  /** One of these events has this id and was handled well after the n-th call. */
  ghost predicate HandledIn(calls: seq<Call>, n: nat, os: seq<Event>, id: EventId) {
    exists e :: e in os && e.id == id && Handled(calls, n, e)
  }

  lemma HandledOn(calls: seq<Call>, calls': seq<Call>, n: nat, os: seq<Event>, e: Event, success: bool)
    requires n <= |calls| && calls <= calls' && e in os && (success ==> calls' == calls + [Handles(e, true)])
    ensures forall id :: HandledIn(calls, n, os, id) ==> HandledIn(calls', n, os, id)
    ensures success ==> HandledIn(calls', n, os, e.id)
  {
    forall id | HandledIn(calls, n, os, id) ensures HandledIn(calls', n, os, id) {
      var x :| x in os && x.id == id && Handled(calls, n, x);
      var i :| n <= i < |calls| && calls[i].Handles? && SameEvent(calls[i].event, x) && calls[i].ok;
      assert calls'[i] == calls[i];
      assert Handled(calls', n, x);
    }
    if success {
      assert calls'[|calls|] == Handles(e, true);
      assert Handled(calls', n, e);
    }
  }

  /** In a clean cycle the calls after the n-th are, in order, the handlers of these
      events, except those of exhausted ones; and each event ended as its handler did. */
  ghost predicate HandlersRan(calls: seq<Call>, n: nat, os: seq<Event>, done: map<EventId, Attempt>, maxRetry: nat) {
    && n <= |calls| && calls[n..] == HandlerCalls(os, done, maxRetry)
    && forall e :: e in os ==>
      e.id in done && done[e.id].copy == e && (e.retries >= maxRetry ==> done[e.id].outcome == ToDlq)
  }

  /** What the log says of handling these events. */
  ghost function HandlerCalls(os: seq<Event>, done: map<EventId, Attempt>, maxRetry: nat): seq<Call> {
    if os == [] then [] else
    var init, e := os[..|os| - 1], os[|os| - 1];
    HandlerCalls(init, done, maxRetry) +
      if e.retries < maxRetry then [Handles(e, e.id in done && done[e.id].outcome.Succeeded?)] else []
  }

  lemma {:induction false} HandlerCallsKept(os: seq<Event>, done: map<EventId, Attempt>, done': map<EventId, Attempt>,
                                            maxRetry: nat)
    requires forall e :: e in os ==> e.id in done && e.id in done' && done'[e.id] == done[e.id]
    ensures HandlerCalls(os, done', maxRetry) == HandlerCalls(os, done, maxRetry)
  {
    if os != [] {
      HandlerCallsKept(os[..|os| - 1], done, done', maxRetry);
      assert os[|os| - 1] in os;
    }
  }

  lemma HandlersMore(calls: seq<Call>, calls': seq<Call>, n: nat, os: seq<Event>, k: nat, done: map<EventId, Attempt>,
                     done': map<EventId, Attempt>, maxRetry: nat, success: bool)
    requires k < |os| && HandlersRan(calls, n, os[..k], done, maxRetry)
    requires forall i, j :: 0 <= i < j < |os| ==> os[i].id != os[j].id
    requires var e := os[k];
      && calls' == (if e.retries < maxRetry then calls + [Handles(e, success)] else calls)
      && e.id in done' && done' == done[e.id := done'[e.id]] && done'[e.id].copy == e
      && (done'[e.id].outcome.Succeeded? <==> success) && (e.retries >= maxRetry ==> done'[e.id].outcome == ToDlq)
    ensures HandlersRan(calls', n, os[..k + 1], done', maxRetry)
  {
    var e := os[k];
    assert os[..k + 1][..k] == os[..k];
    forall x | x in os[..k] ensures x.id in done && x.id != e.id {
      var i :| 0 <= i < k && os[i] == x;
    }
    HandlerCallsKept(os[..k], done, done', maxRetry);
    assert os[..k + 1] == os[..k] + [e];
    if e.retries < maxRetry { assert calls'[n..] == calls[n..] + [Handles(e, success)]; }
  }

  lemma NextOther(b: Book, b': Book, os: seq<Event>, k: nat)
    requires k < |os| && Waiting(b, [], os) && SameCycle(b, b')
    requires b.clean ==> b'.held == b.held && Grown(b.done, b'.done, Ids(os[..k]))
    ensures Holds(b', os[k]) && os[k].kind.Other? && os[k] in os
    ensures b.clean ==> forall i, j :: 0 <= i < j < |os| ==> os[i].id != os[j].id
  {
    hide FromFile;
    assert Holds(b, os[k]);
    if b.clean { IdsMore(os, k); }
  }

  lemma GrownMore(done: map<EventId, Attempt>, done0: map<EventId, Attempt>, done': map<EventId, Attempt>,
                  os: seq<Event>, k: nat)
    requires k < |os| && Grown(done, done0, Ids(os[..k])) && os[k].id in done' && os[k].id !in done0
    requires done' == done0[os[k].id := done'[os[k].id]]
    requires forall i, j :: 0 <= i < j < |os| ==> os[i].id != os[j].id
    ensures Grown(done, done', Ids(os[..k + 1]))
  {
    IdsMore(os, k);
  }

  lemma NoHandlers(calls: seq<Call>, os: seq<Event>, done: map<EventId, Attempt>, maxRetry: nat)
    ensures HandlersRan(calls, |calls|, os[..0], done, maxRetry) && Grown(done, done, Ids(os[..0]))
  {
  }

  /** The calls of a cycle after the n-th: upserts for the batch, then the handlers of the
      other events, which are all events of other types that were attempted. */
  ghost predicate CallsOfCycle(calls: seq<Call>, n: nat, os: seq<Event>, done: map<EventId, Attempt>, maxRetry: nat) {
    && (exists m :: n <= m <= |calls| && HandlersRan(calls, m, os, done, maxRetry) &&
          forall j :: n <= j < m ==> calls[j].Upserts?)
    && forall id :: id in done && done[id].copy.kind.Other? ==> done[id].copy in os
  }

  lemma CallsAre(calls0: seq<Call>, calls1: seq<Call>, calls: seq<Call>, us: seq<Item>, os: seq<Event>, b: Book,
                 b1: Book, b': Book, maxRetry: nat)
    requires calls0 <= calls1 && HandlersRan(calls, |calls1|, os, b'.done, maxRetry) && calls1 <= calls
    requires forall j :: |calls0| <= j < |calls1| ==> calls1[j].Upserts?
    requires forall id :: id in b.done ==> NothingToDo(b.done[id].copy)
    requires Settles(b, b1, us) && Grown(b1.done, b'.done, Ids(os))
    requires forall i :: 0 <= i < |us| ==> us[i].event.kind.Upsert?
    ensures CallsOfCycle(calls, |calls0|, os, b'.done, maxRetry)
  {
    hide HandlerCalls;
    forall j | |calls0| <= j < |calls1| ensures calls[j].Upserts? { assert calls[j] == calls1[j]; }
    forall id | id in ItemIds(us) ensures id in b1.done && b1.done[id].copy.kind.Upsert? {
      var u :| u in us && u.event.id == id;
      var i :| 0 <= i < |us| && us[i] == u;
      assert b1.done[us[i].event.id].copy == us[i].event;
    }
    forall id | id in b'.done && b'.done[id].copy.kind.Other? ensures b'.done[id].copy in os {
      assert id in Ids(os);
    }
  }

  lemma BatchCalls(calls: seq<Call>, calls0: seq<Call>, us: seq<Item>, vs: seq<Vector>)
    requires Upserted(calls, calls0, us, vs)
    ensures forall j :: |calls0| <= j < |calls| ==> calls[j].Upserts?
  {
    hide Share;
    forall j | |calls0| <= j < |calls| ensures calls[j].Upserts? {
      assert Shared(calls, |calls0|, us, vs, j - |calls0|);
    }
  }

  lemma WaitingUpserts(b: Book, us: seq<Item>, os: seq<Event>)
    requires Waiting(b, us, os)
    ensures forall i :: 0 <= i < |us| ==> us[i].event.kind.Upsert?
  {
    assert forall i :: 0 <= i < |us| ==> ItemOk(b, us[i]);
  }

  /** Old entries stay, new ones appear exactly for the given ids. */
  ghost predicate Grown(done: map<EventId, Attempt>, done': map<EventId, Attempt>, ids: set<EventId>) {
    done'.Keys == done.Keys + ids && forall x :: x in done ==> done'[x] == done[x]
  }

  /** There is no handler to enter. */
  predicate NothingToDo(e: Event) {
    e.kind == Upsert([]) || e.kind.Malformed?
  }

  /** The records went to the index in one successful call. */
  ghost predicate Delivered(calls: seq<Call>, n: nat, records: seq<Record>, embed: string -> Vector) {
    exists i :: n <= i < |calls| && calls[i].Upserts? && calls[i].ok && WholeSet(calls[i].records, records, embed)
  }

  lemma ShareIs(us: seq<Item>, vs: seq<Vector>, i: nat)
    requires i < |us|
    ensures Share(us, vs, i) == Zipped(us[i].records, Slice(vs, Offset(us, i), Offset(us, i) + |us[i].records|))
  {
    hide Zipped, Slice, Offset;
  }

  /** The first events of a batch are settled, each with its own copy. */
  ghost predicate Settles(b: Book, b': Book, us: seq<Item>) {
    && SameCycle(b, b') && b'.held == b.held && Grown(b.done, b'.done, ItemIds(us))
    && forall i :: 0 <= i < |us| ==> us[i].event.id in b'.done && b'.done[us[i].event.id].copy == us[i].event
  }

  lemma SettlesNone(b: Book, us: seq<Item>)
    ensures Settles(b, b, us[..0])
  {
    assert ItemIds(us[..0]) == {};
  }

  lemma NextItem(b: Book, b': Book, us: seq<Item>, k: nat)
    requires k < |us| && Waiting(b, us, []) && Settles(b, b', us[..k]) && b.clean
    ensures Holds(b', us[k].event) && us[k].event.id !in b'.done && us[k].event.kind == Upsert(us[k].records)
    ensures us[k].records != []
    ensures forall i :: 0 <= i < k ==> us[i].event.id != us[k].event.id && us[i].event.id in b'.done
  {
    assert ItemOk(b, us[k]);
    forall i | 0 <= i < k ensures us[i].event.id in b'.done {
      assert us[..k][i] == us[i];
    }
  }

  lemma SettlesMore(b: Book, b0: Book, b': Book, us: seq<Item>, k: nat)
    requires k < |us| && Settles(b, b0, us[..k]) && SameCycle(b0, b') && b'.held == b0.held
    requires us[k].event.id in b'.done && b'.done == b0.done[us[k].event.id := b'.done[us[k].event.id]]
    requires us[k].event.id !in b0.done && b'.done[us[k].event.id].copy == us[k].event
    ensures Settles(b, b', us[..k + 1])
  {
    assert us[..k + 1] == us[..k] + [us[k]];
    assert ItemIds(us[..k + 1]) == ItemIds(us[..k]) + {us[k].event.id};
    forall i | 0 <= i < k ensures us[i].event.id in b'.done && b'.done[us[i].event.id].copy == us[i].event {
      assert us[..k][i] == us[i];
    }
  }

  lemma SettledParts(b: Book, b': Book, us: seq<Item>)
    requires Settles(b, b', us)
    ensures SameCycle(b, b') && b'.held == b.held && Grown(b.done, b'.done, ItemIds(us))
  {
  }

  lemma WaitingParts(b: Book, us: seq<Item>, os: seq<Event>)
    requires Waiting(b, us, os)
    ensures Waiting(b, us, [])
  {
  }

  /** Settling the batch leaves the other events waiting. */
  lemma OthersWait(b: Book, b': Book, us: seq<Item>, os: seq<Event>)
    requires Waiting(b, us, os) && SameCycle(b, b')
    requires b.clean ==> b'.held == b.held && b'.done.Keys == b.done.Keys + ItemIds(us)
    ensures Waiting(b', [], os)
  {
    forall i | 0 <= i < |os| ensures Holds(b', os[i]) && os[i].kind.Other? {
      assert Holds(b, os[i]) && os[i].id in Ids(os);
    }
  }

  lemma CopyOnFile(c: Config, b: Book, id: EventId, e: Event)
    requires CycleOk(c, AsCycle(b)) && id in b.done && e.id == id && SlotOf(b.before, id).pending == Some(EventFile(e))
    ensures b.done[id].copy == e
  {
    assert AttemptOk(c, AsCycle(b), id);
  }

  // ----- Round after round -----

  /** What is registered before a cycle, the time until it starts, and the accounts it
      polls. */
  datatype Round = Round(events: seq<Event>, pause: nat, accounts: seq<string>)

  /** As `register_*` creates them. */
  predicate FreshEvent(e: Event) {
    e.retries == 0 && e.nextRetryAt == 0
  }

  /** Every cycle comes at least the longest delay after the one before, and polls all
      accounts for which something is ever registered. */
  ghost predicate Patient(c: Config, rounds: seq<Round>) {
    forall r :: r in rounds ==>
      r.pause >= c.maxDelay && forall q, e :: q in rounds && e in q.events ==> e.account in r.accounts
  }

  ghost predicate AllFresh(es: seq<Event>) {
    (forall e :: e in es ==> FreshEvent(e)) && forall i, j :: 0 <= i < j < |es| ==> es[i].id != es[j].id
  }

  ghost function UsedIds(rounds: seq<Round>, k: nat): set<EventId>
    requires k <= |rounds|
  {
    if k == 0 then {} else UsedIds(rounds, k - 1) + Ids(rounds[k - 1].events)
  }

  /** No id is registered twice. */
  ghost predicate FreshIds(rounds: seq<Round>) {
    forall k :: 0 <= k < |rounds| ==> AllFresh(rounds[k].events) && UsedIds(rounds, k) !! Ids(rounds[k].events)
  }

  ghost predicate Unused(files: Files, id: EventId) {
    SlotOf(files, id).pending.None? && SlotOf(files, id).dlq.None?
  }

  /** The registration of e, which may have failed. */
  ghost predicate Registered(files: Files, files': Files, e: Event, ok: bool) {
    SlotOf(files', e.id) == if ok then SlotOf(files, e.id).(pending := Some(EventFile(e))) else SlotOf(files, e.id)
  }

  /** The event is not lost: it has succeeded, or is pending or a dead letter. */
  ghost predicate Kept(files: Files, ok: set<EventId>, e: Event) {
    var slot := SlotOf(files, e.id);
    && (slot.pending.None? || Copies(slot.pending, e)) && (slot.dlq.None? || Copies(slot.dlq, e))
    && (e.id in ok || slot.pending.Some? || slot.dlq.Some?)
  }


  ghost predicate IsNew(ys: seq<Cycle>, files: Files, id: EventId) {
    Attempts(ys, id) == [] && SlotOf(files, id) == NOTHING
  }

  lemma WritingIsSound(files: Files, files': Files, e: Event, ok: bool)
    requires Sound(files)
    requires Get(files', Pending(e.id)) == if ok then Some(EventFile(e)) else Get(files, Pending(e.id))
    requires forall p :: p != Temp(e.id) && p != Pending(e.id) ==> Get(files', p) == Get(files, p)
    ensures Sound(files')
  {
    forall p | p in files' && p.Pending? ensures files'[p].EventFile? && files'[p].event.id == p.id {
      assert Get(files', p) == Some(files'[p]);
    }
  }

  lemma WritingRegisters(files0: Files, files: Files, files': Files, e: Event, ok: bool)
    requires SlotOf(files, e.id) == SlotOf(files0, e.id)
    requires Get(files', Pending(e.id)) == if ok then Some(EventFile(e)) else Get(files, Pending(e.id))
    requires forall p :: p != Temp(e.id) && p != Pending(e.id) ==> Get(files', p) == Get(files, p)
    ensures Registered(files0, files', e, ok) && OnlyEvent(files, files', e.id)
  {
  }

  /** Up to now no registered event was lost, and no unregistered one was touched. */
  ghost predicate Intact(files: Files, calls: seq<Call>, n: nat, written: set<Event>, ok: set<EventId>,
                         used: set<EventId>, embedder: Embedder) {
    && (forall e :: e in written ==>
      e.id in used && Kept(files, ok, e) && (e.id in ok ==> Carried(calls, n, e, embedder)))
    && ok <= used && forall id :: id !in used ==> Unused(files, id)
  }

  /** Up to now the cycles are a run. */
  ghost predicate CleanRun(c: Config, ys: seq<Cycle>, files: Files, now: Time, used: set<EventId>) {
    && RunOk(c, ys) && FilesAfter(ys) == files && EndOf(ys) <= now
    && forall id :: id !in used ==> IsNew(ys, files, id)
  }

  ghost predicate AllDifferent(rounds: seq<Round>) {
    forall r :: r in rounds ==> Different(r.accounts)
  }

  lemma RoundDiffers(rounds: seq<Round>, k: nat)
    requires AllDifferent(rounds) && k < |rounds|
    ensures Different(rounds[k].accounts)
  {
    assert rounds[k] in rounds;
  }

  lemma AllRegistered(rounds: seq<Round>, k: nat, written: set<Event>, more: set<Event>, faulty: bool)
    requires k < |rounds| && (!faulty ==> forall e :: e in rounds[k].events ==> e in more)
    requires !faulty ==> forall r, e :: r in rounds[..k] && e in r.events ==> e in written
    ensures !faulty ==> forall r, e :: r in rounds[..k + 1] && e in r.events ==> e in written + more
  {
    assert rounds[..k + 1] == rounds[..k] + [rounds[k]];
  }

  /** What a clean round adds to the run. */
  lemma CleanRound(c: Config, ys: seq<Cycle>, y: Cycle, files0: Files, time0: Time, rounds: seq<Round>, k: nat,
                   more: set<Event>)
    requires k < |rounds| && FreshIds(rounds) && CleanRun(c, ys, files0, time0, UsedIds(rounds, k)) && |ys| == k
    requires CycleOk(c, y) && time0 + rounds[k].pause <= y.start && Belongs(y.before, rounds) && Sound(y.before)
    requires forall id :: id !in Ids(rounds[k].events) ==> SlotOf(y.before, id) == SlotOf(files0, id)
    requires forall e :: e in rounds[k].events ==> e in more && Registered(files0, y.before, e, e in more)
    requires forall e: Event ::
      e.account in rounds[k].accounts && ListableAt(y.before, time0 + rounds[k].pause, e) ==> e.id in y.attempts
    requires Patient(c, rounds) ==> Served(ys, rounds)
    ensures CleanRun(c, ys + [y], y.after, y.end, UsedIds(rounds, k + 1))
    ensures Patient(c, rounds) ==> Served(ys + [y], rounds)
  {
    hide SlotOf, CycleOk, ListableAt, Sound, Belongs, CleanRun, Patient, Served, FreshIds, AllFresh;
    FreshRound(rounds, k);
    RoundOk(c, ys, y, files0, time0, rounds[k].events, UsedIds(rounds, k));
    if Patient(c, rounds) {
      LateEnough(c, ys, files0, time0, UsedIds(rounds, k), rounds, k);
      CleanParts(c, ys + [y], y.after, y.end, UsedIds(rounds, k + 1));
      forall e | e in rounds[k].events ensures IsPending(y.before, e.id) {
        assert Registered(files0, y.before, e, e in more);
      }
      RoundServes(c, ys, y, time0 + rounds[k].pause, rounds, k);
    }
  }

  /** Pending events belong to accounts for which something is registered. */
  ghost predicate Belongs(files: Files, rounds: seq<Round>) {
    forall id :: Homely(files, rounds, id)
  }

  ghost predicate Homely(files: Files, rounds: seq<Round>, id: EventId) {
    var p := SlotOf(files, id).pending;
    p.Some? ==> p.value.EventFile? && exists q, e :: q in rounds && e in q.events && e.account == p.value.event.account
  }

  lemma BelongsOn(files0: Files, files1: Files, files2: Files, fine: set<EventId>, rounds: seq<Round>, k: nat,
                  more: set<Event>)
    requires Belongs(files0, rounds) && k < |rounds| && Safe(files1, files2, fine)
    requires forall id :: id !in Ids(rounds[k].events) ==> SlotOf(files1, id) == SlotOf(files0, id)
    requires forall e :: e in rounds[k].events ==> Registered(files0, files1, e, e in more)
    ensures Belongs(files1, rounds) && Belongs(files2, rounds)
  {
    hide SlotOf;
    forall id ensures Homely(files1, rounds, id) {
      assert Homely(files0, rounds, id);
      if id in Ids(rounds[k].events) {
        var e :| e in rounds[k].events && e.id == id;
        assert Registered(files0, files1, e, e in more) && rounds[k] in rounds;
      }
    }
    forall id ensures Homely(files2, rounds, id) {
      assert IdSafe(files1, files2, fine, id) && Homely(files1, rounds, id);
    }
  }

  /** So far every cycle took all that was pending, the events of its round included. */
  ghost predicate Served(ys: seq<Cycle>, rounds: seq<Round>) {
    && |ys| <= |rounds|
    && (forall j, id :: 0 <= j < |ys| ==> TakesIfPending(ys[j], id))
    && forall j, e :: 0 <= j < |ys| && e in rounds[j].events ==> IsPendingAt(ys, j, e.id)
  }

  lemma NothingServed(rounds: seq<Round>)
    ensures Served([], rounds) && Belongs(map[], rounds)
  {
  }

  /** The event has succeeded, or lies in the dead-letter queue. */
  ghost predicate InTheEnd(ys: seq<Cycle>, id: EventId) {
    IsSettled(ys, id) && (SlotOf(FilesAfter(ys), id) == NOTHING || SlotOf(FilesAfter(ys), id).dlq.Some?)
  }

  lemma ServedInTheEnd(c: Config, ys: seq<Cycle>, rounds: seq<Round>, k: nat, e: Event)
    requires RunOk(c, ys) && Served(ys, rounds) && |ys| == |rounds| && k + c.maxRetry + 1 <= |rounds|
    requires e in rounds[k].events
    ensures InTheEnd(ys, e.id)
  {
    hide RunOk, IsSettled, SlotOf, TakesIfPending;
    assert IsPendingAt(ys, k, e.id);
    SettledAfterEnough(c, ys, k, e.id);
  }

  lemma LateEnough(c: Config, ys: seq<Cycle>, files: Files, now: Time, used: set<EventId>, rounds: seq<Round>, k: nat)
    requires CleanRun(c, ys, files, now, used) && Patient(c, rounds) && k < |rounds|
    ensures EndOf(ys) + c.maxDelay <= now + rounds[k].pause
    ensures forall q, e :: q in rounds && e in q.events ==> e.account in rounds[k].accounts
  {
    hide RunOk;
    assert rounds[k] in rounds;
  }

  /** A cycle of a patient round takes everything that is pending. */
  lemma RoundServes(c: Config, ys: seq<Cycle>, y: Cycle, now: Time, rounds: seq<Round>, k: nat)
    requires RunOk(c, ys + [y]) && Served(ys, rounds) && |ys| == k < |rounds| && EndOf(ys) + c.maxDelay <= now
    requires Belongs(y.before, rounds) && Sound(y.before)
    requires forall q, e :: q in rounds && e in q.events ==> e.account in rounds[k].accounts
    requires forall e: Event :: e.account in rounds[k].accounts && ListableAt(y.before, now, e) ==> e.id in y.attempts
    requires forall e :: e in rounds[k].events ==> IsPending(y.before, e.id)
    ensures Served(ys + [y], rounds)
  {
    hide RunOk, ListableAt, Sound, Homely, Belongs;
    var more := ys + [y];
    assert more[..|more| - 1] == ys;
    LastCycle(c, more);
    forall id ensures TakesIfPending(y, id) {
      if IsPending(y.before, id) {
        assert Unchanged(ys, y.before, id) || NewlyRegistered(ys, y.before, id);
        PendingIsDue(c, ys, y.before, id, now);
        DueIsListable(y.before, rounds, id, now);
      }
    }
    forall j, e | 0 <= j < |more| && e in rounds[j].events ensures IsPendingAt(more, j, e.id) {
      if j < |ys| { assert IsPendingAt(ys, j, e.id); }
    }
  }

  lemma DueIsListable(files: Files, rounds: seq<Round>, id: EventId, now: Time)
    requires Belongs(files, rounds) && Sound(files) && IsPending(files, id)
    requires var slot := SlotOf(files, id);
      slot.lock.None? && slot.pending.value.EventFile? && slot.pending.value.event.nextRetryAt <= now
    ensures var e := SlotOf(files, id).pending.value.event;
      e.id == id && ListableAt(files, now, e) && exists q, x :: q in rounds && x in q.events && x.account == e.account
  {
    var e := SlotOf(files, id).pending.value.event;
    assert Homely(files, rounds, id);
    assert Pending(id) in files && files[Pending(id)] == EventFile(e);
    assert Get(files, Pending(id)) == Some(EventFile(e));
  }

  lemma NoRounds(c: Config, rounds: seq<Round>, calls: seq<Call>, n: nat, embedder: Embedder, now: Time)
    ensures Sound(map[]) && Intact(map[], calls, n, {}, {}, UsedIds(rounds, 0), embedder)
    ensures CleanRun(c, [], map[], now, UsedIds(rounds, 0))
  {
  }

  lemma IntactParts(files: Files, calls: seq<Call>, n: nat, written: set<Event>, ok: set<EventId>, used: set<EventId>,
                    embedder: Embedder)
    requires Intact(files, calls, n, written, ok, used, embedder)
    ensures forall e :: e in written ==> Kept(files, ok, e) && (e.id in ok ==> Carried(calls, n, e, embedder))
    ensures forall id :: id !in used ==> Unused(files, id)
  {
    hide Kept, Carried, Unused;
  }

  lemma CleanParts(c: Config, ys: seq<Cycle>, files: Files, now: Time, used: set<EventId>)
    requires CleanRun(c, ys, files, now, used)
    ensures RunOk(c, ys) && FilesAfter(ys) == files
  {
    hide RunOk;
  }

  lemma RoundIntact(files0: Files, files1: Files, files2: Files, calls0: seq<Call>, calls2: seq<Call>, n: nat,
                    written: set<Event>, more: set<Event>, ok: set<EventId>, fine: set<EventId>, used: set<EventId>,
                    es: seq<Event>, embedder: Embedder)
    requires Intact(files0, calls0, n, written, ok, used, embedder) && Safe(files1, files2, fine) && n <= |calls0|
    requires calls0 <= calls2
    requires OkDelivered(files1, fine, calls2, |calls0|, embedder)
    requires forall id :: id !in Ids(es) ==> SlotOf(files1, id) == SlotOf(files0, id)
    requires forall e :: e in es ==> e.id !in used && Registered(files0, files1, e, e in more)
    requires forall e :: e in more ==> e in es
    ensures Intact(files2, calls2, n, written + more, ok + fine, used + Ids(es), embedder)
  {
    hide Kept, Carried, Unused, Safe, OkDelivered, Registered, SlotOf, FromFile;
    forall e | e in written + more
      ensures Kept(files2, ok + fine, e) && (e.id in ok + fine ==> Carried(calls2, n, e, embedder))
      ensures e.id in used + Ids(es)
    {
      if e in written { assert e.id !in Ids(es); }
      KeptOn(files0, files1, files2, ok, fine, e, es, e in written, e in more);
      CarriedOn(files1, ok, fine, e, calls0, calls2, n, embedder);
    }
    forall id | id !in used + Ids(es) ensures Unused(files2, id) {
      UnusedStays(files0, files1, files2, fine, id);
    }
    forall id | id in fine ensures id in used + Ids(es) {
      if id !in used + Ids(es) { FineIsUsed(files0, files1, files2, fine, id); }
    }
  }

  lemma FreshRound(rounds: seq<Round>, k: nat)
    requires k < |rounds| && FreshIds(rounds)
    ensures AllFresh(rounds[k].events) && UsedIds(rounds, k + 1) == UsedIds(rounds, k) + Ids(rounds[k].events)
    ensures forall e :: e in rounds[k].events ==> e.id !in UsedIds(rounds, k) && e.id in UsedIds(rounds, k + 1)
  {
    hide AllFresh;
    forall e | e in rounds[k].events ensures e.id in Ids(rounds[k].events) {
    }
  }

  /** A registered event survives the registrations and the cycle of a round. */
  lemma KeptOn(files0: Files, files1: Files, files2: Files, ok: set<EventId>, fine: set<EventId>, e: Event,
               es: seq<Event>, earlier: bool, now: bool)
    requires Safe(files1, files2, fine)
    requires earlier ==> Kept(files0, ok, e) && SlotOf(files1, e.id) == SlotOf(files0, e.id)
    requires now ==> e in es && Unused(files0, e.id) && Registered(files0, files1, e, true)
    requires earlier || now
    ensures Kept(files2, ok + fine, e) && (e.id in fine ==> FromFile(files1, e))
  {
    hide SlotOf;
    assert IdSafe(files1, files2, fine, e.id);
  }

  lemma CarriedOn(files1: Files, ok: set<EventId>, fine: set<EventId>, e: Event, calls: seq<Call>, calls': seq<Call>,
                  n: nat, embedder: Embedder)
    requires OkDelivered(files1, fine, calls', |calls|, embedder) && n <= |calls| && calls <= calls'
    requires e.id in ok ==> Carried(calls, n, e, embedder)
    requires e.id in fine ==> FromFile(files1, e)
    ensures e.id in ok + fine ==> Carried(calls', n, e, embedder)
  {
    hide AugmentAll, FromFile;
    if e.id in ok { CarriedStill(calls, calls', n, n, e, embedder); }
    if e.id in fine { CarriedStill(calls', calls', n, |calls|, e, embedder); }
  }

  lemma CarriedStill(calls: seq<Call>, calls': seq<Call>, n: nat, m: nat, e: Event, embedder: Embedder)
    requires Carried(calls, m, e, embedder) && n <= m && calls <= calls'
    ensures Carried(calls', n, e, embedder)
  {
    hide WholeSet, SameEvent;
    if e.kind.Other? {
      var i :| m <= i < |calls| && calls[i].Handles? && SameEvent(calls[i].event, e) && calls[i].ok;
      assert calls'[i] == calls[i];
    } else if e.kind.Upsert? && e.kind.records != [] && embedder.honest {
      var i :| m <= i < |calls| && calls[i].Upserts? && calls[i].ok &&
        WholeSet(calls[i].records, e.kind.records, embedder.embed);
      assert calls'[i] == calls[i];
    }
  }

  lemma FineIsUsed(files0: Files, files1: Files, files2: Files, fine: set<EventId>, id: EventId)
    requires SlotOf(files1, id) == SlotOf(files0, id) && Safe(files1, files2, fine) && id in fine
    ensures !Unused(files0, id)
  {
    hide SlotOf;
    assert IdSafe(files1, files2, fine, id);
  }

  /** The cycle of a clean round prolongs the run. */
  lemma RoundOk(c: Config, ys: seq<Cycle>, y: Cycle, files0: Files, now: Time, es: seq<Event>, used: set<EventId>)
    requires CleanRun(c, ys, files0, now, used) && CycleOk(c, y) && now <= y.start && AllFresh(es)
    requires forall id :: id !in Ids(es) ==> SlotOf(y.before, id) == SlotOf(files0, id)
    requires forall e :: e in es ==> e.id !in used && Registered(files0, y.before, e, true)
    ensures CleanRun(c, ys + [y], y.after, y.end, used + Ids(es))
  {
    hide SlotOf, CycleOk, Attempts;
    assert (ys + [y])[..|ys|] == ys;
    forall id ensures Unchanged(ys, y.before, id) || NewlyRegistered(ys, y.before, id) {
      if id in Ids(es) {
        var e :| e in es && e.id == id;
        assert IsNew(ys, files0, id) && Registered(files0, y.before, e, true);
      }
    }
    forall id | id !in used + Ids(es) ensures IsNew(ys + [y], y.after, id) {
      NewStays(c, ys, y, files0, id);
    }
  }

  lemma AttemptedWasPending(c: Config, y: Cycle, id: EventId)
    requires CycleOk(c, y)
    ensures id in y.attempts ==> SlotOf(y.before, id).pending.Some?
    ensures id !in y.attempts ==> SlotOf(y.after, id) == SlotOf(y.before, id)
  {
    hide SlotOf, OutcomeOk, SlotAfter;
    assert id in y.attempts ==> AttemptOk(c, y, id);
  }

  lemma NotAttempted(ys: seq<Cycle>, y: Cycle, id: EventId)
    requires id !in y.attempts
    ensures Attempts(ys + [y], id) == Attempts(ys, id)
  {
    assert (ys + [y])[..|ys|] == ys;
  }

  lemma NewStays(c: Config, ys: seq<Cycle>, y: Cycle, files0: Files, id: EventId)
    requires IsNew(ys, files0, id) && CycleOk(c, y) && SlotOf(y.before, id) == SlotOf(files0, id)
    ensures IsNew(ys + [y], y.after, id)
  {
    hide SlotOf, CycleOk, Attempts;
    assert (ys + [y])[..|ys|] == ys;
    AttemptedWasPending(c, y, id);
    assert Attempts(ys + [y], id) == Attempts(ys, id) by { NotAttempted(ys, y, id); }
  }

  lemma UnusedStays(files0: Files, files1: Files, files2: Files, fine: set<EventId>, id: EventId)
    requires Unused(files0, id) && SlotOf(files1, id) == SlotOf(files0, id) && Safe(files1, files2, fine)
    ensures Unused(files2, id)
  {
    hide SlotOf;
    assert IdSafe(files1, files2, fine, id);
  }
}
