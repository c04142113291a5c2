/** What polling cycles of a single worker do to the events, cycle after cycle. */
module OutboxCycles {
  import opened Wrappers
  import opened OutboxTypes
  import opened OutboxStore

  datatype Outcome = Succeeded | Failed(at: Time) | ToDlq

  /** One acquisition of one event: the copy listed, when the lock was taken,
      whether the handler was entered, and how it ended. */
  datatype Attempt = Attempt(copy: Event, acquiredAt: Time, ran: bool, outcome: Outcome)

  datatype Cycle = Cycle(before: Files, after: Files, start: Time, end: Time, worker: string,
                         attempts: map<EventId, Attempt>)

  /** Is the handler of the event entered?  Events that only upsert skip the check
      of the retry count that other events undergo first. */
  predicate Enters(c: Config, e: Event) {
    match e.kind
    case Upsert(records) => records != []
    case Malformed => false
    case Other => e.retries < c.maxRetry
  }

  predicate OutcomeOk(c: Config, a: Attempt) {
    && a.ran == Enters(c, a.copy)
    && match a.outcome
       case Succeeded => a.ran || a.copy.kind == Upsert([])
       case Failed(at) => a.copy.retries < c.maxRetry && a.acquiredAt <= at && a.copy.kind != Upsert([])
       case ToDlq => a.copy.retries >= c.maxRetry && a.copy.kind != Upsert([])
  }

  /** How a held event is settled: the lock outlives a move to the dead letters. */
  function SettledSlot(c: Config, slot: Slot, copy: Event, o: Outcome): Slot {
    match o
    case Succeeded => slot.(pending := None, lock := None)
    case Failed(at) => slot.(pending := Some(EventFile(Retried(copy, at + Backoff(c, copy.retries)))), lock := None)
    case ToDlq => slot.(pending := None, dlq := Some(EventFile(Buried(copy))))
  }

  /** The files of an event after an attempt. */
  function SlotAfter(c: Config, worker: string, slot: Slot, a: Attempt): Slot {
    SettledSlot(c, slot.(lock := Some(LockFile(worker, a.acquiredAt))), a.copy, a.outcome)
  }

  ghost predicate AttemptOk(c: Config, y: Cycle, id: EventId)
    requires id in y.attempts
  {
    var a := y.attempts[id];
    && a.copy.id == id && SlotOf(y.before, id).pending == Some(EventFile(a.copy))
    && a.copy.nextRetryAt <= a.acquiredAt && y.start <= a.acquiredAt <= y.end
    && (a.outcome.Failed? ==> a.outcome.at <= y.end)
    && OutcomeOk(c, a)
    && SlotOf(y.after, id) == SlotAfter(c, y.worker, SlotOf(y.before, id), a)
  }

  ghost predicate CycleOk(c: Config, y: Cycle) {
    && y.start <= y.end
    && (forall id :: id in y.attempts ==> AttemptOk(c, y, id))
    && (forall id :: id !in y.attempts ==> SlotOf(y.after, id) == SlotOf(y.before, id))
  }

  // ----- Runs of cycles, with registrations in between -----

  const NOTHING: Slot := Slot(None, None, None)

  ghost function Attempts(ys: seq<Cycle>, id: EventId): seq<Attempt> {
    if ys == [] then [] else
    var init, y := Attempts(ys[..|ys| - 1], id), ys[|ys| - 1];
    if id in y.attempts then init + [y.attempts[id]] else init
  }

  function FilesAfter(ys: seq<Cycle>): Files {
    if ys == [] then map[] else ys[|ys| - 1].after
  }

  function EndOf(ys: seq<Cycle>): Time {
    if ys == [] then 0 else ys[|ys| - 1].end
  }

  /** A newly registered event, which is due at once. */
  predicate FreshSlot(slot: Slot, id: EventId) {
    && slot.dlq.None? && slot.lock.None? && slot.pending.Some? && slot.pending.value.EventFile?
    && slot.pending.value.event.id == id && slot.pending.value.event.retries == 0
    && slot.pending.value.event.nextRetryAt == 0
  }

  ghost predicate Unchanged(ys: seq<Cycle>, before: Files, id: EventId) {
    SlotOf(before, id) == SlotOf(FilesAfter(ys), id)
  }

  /** Ids are never used twice. */
  ghost predicate NewlyRegistered(ys: seq<Cycle>, before: Files, id: EventId) {
    Attempts(ys, id) == [] && SlotOf(FilesAfter(ys), id) == NOTHING && FreshSlot(SlotOf(before, id), id)
  }

  ghost predicate RunOk(c: Config, ys: seq<Cycle>) {
    ys == [] ||
    (var init, y := ys[..|ys| - 1], ys[|ys| - 1];
     && RunOk(c, init) && CycleOk(c, y) && EndOf(init) <= y.start
     && forall id :: Unchanged(init, y.before, id) || NewlyRegistered(init, y.before, id))
  }

  // ----- The history of one event -----

  /** Attempt k is made on a copy with k retries, every attempt but the last failed
      and was followed by the backoff, and the payload never changes. */
  ghost predicate Spaced(c: Config, tries: seq<Attempt>) {
    forall k :: 0 <= k < |tries| ==> AttemptAt(c, tries, k)
  }

  ghost predicate AttemptAt(c: Config, tries: seq<Attempt>, k: nat)
    requires k < |tries|
  {
    && tries[k].copy.retries == k && OutcomeOk(c, tries[k]) && tries[k].copy.kind == tries[0].copy.kind
    && (k > 0 ==> tries[k - 1].outcome.Failed? && tries[k - 1].outcome.at + Backoff(c, k - 1) <= tries[k].acquiredAt)
  }

  /** How the files of an event follow from its attempts. */
  ghost predicate SlotFits(c: Config, id: EventId, slot: Slot, tries: seq<Attempt>) {
    if tries == [] then slot == NOTHING || FreshSlot(slot, id)
    else
      var last := tries[|tries| - 1];
      match last.outcome
      case Succeeded => slot == NOTHING
      case Failed(at) => slot == NOTHING.(pending := Some(EventFile(Retried(last.copy, at + Backoff(c, |tries| - 1)))))
      case ToDlq =>
        slot.pending.None? && slot.dlq == Some(EventFile(Buried(last.copy))) && LockedAt(slot, last.acquiredAt)
  }

  /** The lock that was taken at this time is still there. */
  predicate LockedAt(slot: Slot, at: Time) {
    slot.lock.Some? && slot.lock.value.LockFile? && slot.lock.value.acquiredAt == at
  }

  ghost predicate IdInv(c: Config, ys: seq<Cycle>, id: EventId) {
    Spaced(c, Attempts(ys, id)) && SlotFits(c, id, SlotOf(FilesAfter(ys), id), Attempts(ys, id))
  }

  lemma SpacedMore(c: Config, tries: seq<Attempt>, a: Attempt)
    requires Spaced(c, tries) && a.copy.retries == |tries| && OutcomeOk(c, a)
    requires tries != [] ==> a.copy.kind == tries[0].copy.kind
    requires tries != [] ==>
      tries[|tries| - 1].outcome.Failed? && tries[|tries| - 1].outcome.at + Backoff(c, |tries| - 1) <= a.acquiredAt
    ensures Spaced(c, tries + [a])
  {
    hide OutcomeOk, Backoff;
    var bs := tries + [a];
    forall k | 0 <= k < |bs| ensures AttemptAt(c, bs, k) {
      if k < |tries| { assert AttemptAt(c, tries, k); }
    }
  }

  lemma {:induction false} RunIdInv(c: Config, ys: seq<Cycle>, id: EventId)
    requires RunOk(c, ys)
    ensures IdInv(c, ys, id)
  {
    hide OutcomeOk, Backoff, Spaced;
    if ys == [] {
      assert Spaced(c, []) by { NoneSpaced(c); }
    } else {
      var init, y := ys[..|ys| - 1], ys[|ys| - 1];
      RunIdInv(c, init, id);
      assert Unchanged(init, y.before, id) || NewlyRegistered(init, y.before, id);
      if id in y.attempts {
        assert AttemptOk(c, y, id);
        var tries := Attempts(init, id);
        if tries != [] { LastOf(c, tries); }
        SpacedMore(c, tries, y.attempts[id]);
      }
    }
  }

  lemma NoneSpaced(c: Config)
    ensures Spaced(c, [])
  {
  }

  lemma LastOf(c: Config, tries: seq<Attempt>)
    requires Spaced(c, tries) && tries != []
    ensures tries[|tries| - 1].copy.retries == |tries| - 1 && tries[|tries| - 1].copy.kind == tries[0].copy.kind
    ensures OutcomeOk(c, tries[|tries| - 1])
  {
    assert AttemptAt(c, tries, |tries| - 1);
  }

  // ----- Theorems -----

  /** The retry count in a pending file is the number of attempts made so far, and
      never exceeds the maximum. */
  lemma RetryCountIsBounded(c: Config, ys: seq<Cycle>, id: EventId)
    requires RunOk(c, ys)
    ensures var slot := SlotOf(FilesAfter(ys), id);
      slot.pending.Some? ==>
        slot.pending.value.EventFile? && slot.pending.value.event.retries == |Attempts(ys, id)| <= c.maxRetry
  {
    RunIdInv(c, ys, id);
    var tries := Attempts(ys, id);
    if tries != [] { LastOf(c, tries); }
  }

  function Entered(tries: seq<Attempt>): nat {
    if tries == [] then 0 else Entered(tries[..|tries| - 1]) + if tries[|tries| - 1].ran then 1 else 0
  }

  lemma {:induction false} EnteredAtMost(tries: seq<Attempt>)
    ensures Entered(tries) <= |tries|
  {
    if tries != [] { EnteredAtMost(tries[..|tries| - 1]); }
  }

  /** An event is acquired at most maxRetry + 1 times, and so often are the handlers
      of upserts entered; those of other events at most maxRetry times. */
  lemma HandlerRunsAreBounded(c: Config, ys: seq<Cycle>, id: EventId)
    requires RunOk(c, ys)
    ensures var tries := Attempts(ys, id);
      && |tries| <= c.maxRetry + 1 && Entered(tries) <= |tries|
      && (tries != [] && tries[0].copy.kind.Other? ==> Entered(tries) <= c.maxRetry)
      && (forall k :: 0 <= k < |tries| ==> tries[k].copy.kind == tries[0].copy.kind && tries[k].copy.retries == k)
  {
    RunIdInv(c, ys, id);
    var tries := Attempts(ys, id);
    EnteredAtMost(tries);
    forall k | 0 <= k < |tries| ensures tries[k].copy.kind == tries[0].copy.kind && tries[k].copy.retries == k {
      assert AttemptAt(c, tries, k);
    }
    if tries != [] {
      LastOf(c, tries);
      if |tries| > 1 { assert AttemptAt(c, tries, |tries| - 1) && AttemptAt(c, tries, |tries| - 2); }
      EnteredAtMost(tries[..|tries| - 1]);
    }
  }

  /** An event lies in the dead-letter queue exactly when maxRetry + 1 attempts were
      made and the last one did not succeed; then every attempt failed. */
  lemma DlqExactlyWhenExhausted(c: Config, ys: seq<Cycle>, id: EventId)
    requires RunOk(c, ys)
    ensures var tries := Attempts(ys, id);
      && (SlotOf(FilesAfter(ys), id).dlq.Some? <==> |tries| == c.maxRetry + 1 && !tries[c.maxRetry].outcome.Succeeded?)
      && (forall k :: 0 <= k < |tries| - 1 ==> tries[k].outcome.Failed?)
  {
    RunIdInv(c, ys, id);
    var tries := Attempts(ys, id);
    forall k | 0 <= k < |tries| - 1 ensures tries[k].outcome.Failed? {
      assert AttemptAt(c, tries, k + 1);
    }
    if tries != [] {
      LastOf(c, tries);
      if |tries| > 1 { assert AttemptAt(c, tries, |tries| - 1) && AttemptAt(c, tries, |tries| - 2); }
    }
  }

  lemma {:induction false} PrefixOk(c: Config, ys: seq<Cycle>, k: nat)
    requires RunOk(c, ys) && k <= |ys|
    ensures RunOk(c, ys[..k])
  {
    if k == |ys| {
      assert ys[..k] == ys;
    } else {
      PrefixOk(c, ys[..|ys| - 1], k);
      assert ys[..|ys| - 1][..k] == ys[..k];
    }
  }

  /** Once in the dead-letter queue, or gone, an event is never touched again. */
  lemma {:induction false} SettledForGood(c: Config, ys: seq<Cycle>, k: nat, id: EventId)
    requires RunOk(c, ys) && k <= |ys|
    requires var tries := Attempts(ys[..k], id); tries != [] && !tries[|tries| - 1].outcome.Failed?
    ensures Attempts(ys, id) == Attempts(ys[..k], id)
    ensures SlotOf(FilesAfter(ys), id) == SlotOf(FilesAfter(ys[..k]), id)
    ensures SlotOf(FilesAfter(ys), id).pending.None?
  {
    hide Backoff, Spaced, OutcomeOk, SlotAfter;
    PrefixOk(c, ys, k);
    RunIdInv(c, ys[..k], id);
    if k == |ys| {
      assert ys[..k] == ys;
    } else {
      var init, y := ys[..|ys| - 1], ys[|ys| - 1];
      assert init[..k] == ys[..k];
      SettledForGood(c, init, k, id);
      assert Unchanged(init, y.before, id) || NewlyRegistered(init, y.before, id);
      assert id in y.attempts ==> AttemptOk(c, y, id);
    }
  }

  // ----- Delays -----

  ghost function Sum(ds: seq<nat>): nat {
    if ds == [] then 0 else Sum(ds[..|ds| - 1]) + ds[|ds| - 1]
  }

  /** Attempt k + 1 comes at least the k-th delay after attempt k, so the n-th one
      comes at least the sum of the first n delays after the first, for delays that
      start at the base and double up to the cap. */
  lemma {:induction false} AttemptsAreSpaced(c: Config, ys: seq<Cycle>, id: EventId, ds: seq<nat>)
    requires RunOk(c, ys) && |ds| < |Attempts(ys, id)| && AreDelays(c, ds)
    ensures var tries, n := Attempts(ys, id), |ds|;
      && tries[0].acquiredAt + Sum(ds) <= tries[n].acquiredAt
      && (n > 0 ==> tries[n - 1].acquiredAt + ds[n - 1] <= tries[n].acquiredAt)
      && (n > 0 ==> tries[n - 1].acquiredAt + Least(c.baseDelay * Power2(n - 1), c.maxDelay) <= tries[n].acquiredAt)
  {
    hide Backoff, RunOk, Attempts, Least;
    RunIdInv(c, ys, id);
    var tries, n := Attempts(ys, id), |ds|;
    assert AttemptAt(c, tries, n);
    if n > 0 {
      DelaysBefore(c, ds);
      AttemptsAreSpaced(c, ys, id, ds[..n - 1]);
      assert AttemptAt(c, tries, n - 1);
      DelaysAreBackoffs(c, ds, n - 1);
      BackoffShape(c, n - 1);
    }
  }

  /** The first m delays are below the cap, or just reach it; from then on it holds. */
  ghost predicate CapAfter(c: Config, m: nat, n: nat) {
    && m <= n && (m > 0 ==> c.baseDelay * Power2(m - 1) <= c.maxDelay)
    && (m < n ==> c.baseDelay * Power2(m) >= c.maxDelay)
  }

  lemma {:induction false} DelaySum(c: Config, ds: seq<nat>, m: nat)
    requires AreDelays(c, ds) && CapAfter(c, m, |ds|)
    ensures Sum(ds) == c.baseDelay * (Power2(m) - 1) + (|ds| - m) * c.maxDelay
  {
    hide Backoff, Least, AreDelays;
    var n := |ds|;
    if n > 0 {
      DelaysAreBackoffs(c, ds, n - 1);
      BackoffShape(c, n - 1);
      DelaysBefore(c, ds);
      if m == n {
        CapLater(c, m - 1);
        DelaySum(c, ds[..n - 1], m - 1);
        Doubled(c.baseDelay, Power2(m - 1), Power2(m));
      } else {
        Power2Monotone(m, n - 1);
        ScaledMonotone(c.baseDelay, Power2(m), Power2(n - 1));
        DelaySum(c, ds[..n - 1], m);
        OneMore(n - m, c.maxDelay);
      }
    }
  }

  lemma DelaysBefore(c: Config, ds: seq<nat>)
    requires AreDelays(c, ds) && ds != []
    ensures AreDelays(c, ds[..|ds| - 1])
  {
    var init := ds[..|ds| - 1];
    forall k | 0 <= k < |init| ensures IsDelay(c, init, k) {
      assert IsDelay(c, ds, k);
    }
  }

  lemma CapLater(c: Config, m: nat)
    requires c.baseDelay * Power2(m) <= c.maxDelay
    ensures CapAfter(c, m, m)
  {
    if m > 0 {
      Power2Monotone(m - 1, m);
      ScaledMonotone(c.baseDelay, Power2(m - 1), Power2(m));
    }
  }

  lemma Doubled(b: nat, p: nat, q: nat)
    requires q == 2 * p && p >= 1
    ensures b * (p - 1) + b * p == b * (q - 1)
  {
    assert b * (p - 1) + b * p == b * ((p - 1) + p);
  }

  lemma OneMore(k: nat, x: nat)
    requires k > 0
    ensures (k - 1) * x + x == k * x
  {
  }

  /** In closed form: as long as the doubled base stays within the cap, the n-th attempt
      comes at least base * (2^n - 1) after the first; beyond that each one adds the cap. */
  lemma AttemptsSpreadOut(c: Config, ys: seq<Cycle>, id: EventId, m: nat, n: nat)
    requires RunOk(c, ys) && n < |Attempts(ys, id)| && CapAfter(c, m, n)
    ensures Attempts(ys, id)[0].acquiredAt + c.baseDelay * (Power2(m) - 1) + (n - m) * c.maxDelay <=
      Attempts(ys, id)[n].acquiredAt
  {
    hide RunOk, Attempts, AreDelays;
    var ds := DelayList(c, n);
    AttemptsAreSpaced(c, ys, id, ds);
    DelaySum(c, ds, m);
  }

  lemma {:induction false} DelayList(c: Config, n: nat) returns (ds: seq<nat>)
    ensures |ds| == n && AreDelays(c, ds)
  {
    hide Least;
    ds := [];
    if n > 0 {
      var init := DelayList(c, n - 1);
      ds := init + [Least(if n == 1 then c.baseDelay else 2 * init[n - 2], c.maxDelay)];
      forall k | 0 <= k < n ensures IsDelay(c, ds, k) {
        if k < n - 1 { assert IsDelay(c, init, k); }
      }
    }
  }

  // ----- What lies on file -----

  /** The files of an event say how its attempts went.  After a failure the event waits,
      unlocked, with one retry per attempt and due when the delay is over; as a dead
      letter it is marked as failed; after a success nothing is left.  Identity, account
      and payload are those of the copy that was attempted. */
  lemma FilesFollowAttempts(c: Config, ys: seq<Cycle>, id: EventId)
    requires RunOk(c, ys) && Attempts(ys, id) != []
    ensures var files, tries := FilesAfter(ys), Attempts(ys, id);
      var n := |tries|;
      match tries[n - 1].outcome
      case Succeeded => Pending(id) !in files && Dlq(id) !in files && Lock(id) !in files
      case Failed(at) =>
        && Pending(id) in files && Dlq(id) !in files && Lock(id) !in files
        && OnFileAs(files[Pending(id)], tries[n - 1].copy, PENDING, n)
        && files[Pending(id)].event.nextRetryAt == at + Least(c.baseDelay * Power2(n - 1), c.maxDelay)
      case ToDlq =>
        && Pending(id) !in files && Dlq(id) in files && OnFileAs(files[Dlq(id)], tries[n - 1].copy, FAILED, n - 1)
        && Lock(id) in files && files[Lock(id)].LockFile? && files[Lock(id)].acquiredAt == tries[n - 1].acquiredAt
  {
    hide RunOk, Attempts, Backoff, Least;
    RunIdInv(c, ys, id);
    LastOf(c, Attempts(ys, id));
    BackoffShape(c, |Attempts(ys, id)| - 1);
  }

  predicate OnFileAs(content: Content, copy: Event, status: Status, retries: nat) {
    && content.EventFile? && content.event.id == copy.id && content.event.account == copy.account
    && content.event.kind == copy.kind && content.event.status == status && content.event.retries == retries
  }

  // ----- A cycle that acquires something uses up retries -----

  /** Retries an event has left, plus one, while it is pending. */
  ghost function Left(c: Config, files: Files, id: EventId): int {
    var p := SlotOf(files, id).pending;
    if p.Some? && p.value.EventFile? then c.maxRetry + 1 - p.value.event.retries else 0
  }

  ghost function LeftSum(c: Config, files: Files, ids: set<EventId>): int {
    if ids == {} then 0 else
    var id :| id in ids;
    Left(c, files, id) + LeftSum(c, files, ids - {id})
  }

  lemma {:induction false} LeftSumPick(c: Config, files: Files, ids: set<EventId>, id: EventId)
    requires id in ids
    ensures LeftSum(c, files, ids) == Left(c, files, id) + LeftSum(c, files, ids - {id})
    decreases |ids|
  {
    hide Left;
    var x :| x in ids && LeftSum(c, files, ids) == Left(c, files, x) + LeftSum(c, files, ids - {x});
    if x != id {
      LeftSumPick(c, files, ids - {x}, id);
      LeftSumPick(c, files, ids - {id}, x);
      assert ids - {x} - {id} == ids - {id} - {x};
    }
  }

  lemma {:induction false} LeftSumFalls(c: Config, before: Files, after: Files, ids: set<EventId>, hit: set<EventId>)
    requires forall id :: id in ids ==> Left(c, after, id) + (if id in hit then 1 else 0) <= Left(c, before, id)
    ensures LeftSum(c, after, ids) + |ids * hit| <= LeftSum(c, before, ids)
    decreases |ids|
  {
    hide Left;
    if ids != {} {
      var id :| id in ids;
      LeftSumPick(c, before, ids, id);
      LeftSumPick(c, after, ids, id);
      LeftSumFalls(c, before, after, ids - {id}, hit);
      if id in hit {
        assert ids * hit == (ids - {id}) * hit + {id};
      } else {
        assert ids * hit == (ids - {id}) * hit;
      }
    }
  }

  /** The retries left over all pending events fall by at least one for every event
      the cycle acquired, and are never negative. */
  lemma CycleUsesRetries(c: Config, ys: seq<Cycle>, y: Cycle, ids: set<EventId>)
    requires RunOk(c, ys + [y]) && y.attempts.Keys <= ids
    ensures 0 <= LeftSum(c, y.after, ids) <= LeftSum(c, y.before, ids) - |y.attempts|
  {
    var run := ys + [y];
    assert run[..|run| - 1] == ys;
    forall id | id in ids
      ensures 0 <= Left(c, y.after, id)
      ensures Left(c, y.after, id) + (if id in y.attempts.Keys then 1 else 0) <= Left(c, y.before, id)
    {
      RetryCountIsBounded(c, run, id);
      LeftFalls(c, ys, y, id);
    }
    LeftSumFalls(c, y.before, y.after, ids, y.attempts.Keys);
    assert ids * y.attempts.Keys == y.attempts.Keys;
    LeftSumNonNegative(c, y.after, ids);
  }

  lemma LeftFalls(c: Config, ys: seq<Cycle>, y: Cycle, id: EventId)
    requires RunOk(c, ys) && CycleOk(c, y)
    requires Unchanged(ys, y.before, id) || NewlyRegistered(ys, y.before, id)
    ensures Left(c, y.after, id) + (if id in y.attempts then 1 else 0) <= Left(c, y.before, id)
  {
    RetryCountIsBounded(c, ys, id);
    if id in y.attempts { assert AttemptOk(c, y, id); }
  }

  lemma {:induction false} LeftSumNonNegative(c: Config, files: Files, ids: set<EventId>)
    requires forall id :: id in ids ==> 0 <= Left(c, files, id)
    ensures 0 <= LeftSum(c, files, ids)
    decreases |ids|
  {
    if ids != {} {
      var id :| id in ids;
      LeftSumPick(c, files, ids, id);
      LeftSumNonNegative(c, files, ids - {id});
    }
  }

  // ----- Every event is settled in the end -----

  /** The event has succeeded or was given up. */
  ghost predicate IsSettled(ys: seq<Cycle>, id: EventId) {
    var tries := Attempts(ys, id);
    tries != [] && !tries[|tries| - 1].outcome.Failed?
  }

  predicate IsPending(files: Files, id: EventId) {
    SlotOf(files, id).pending.Some?
  }

  /** An attempted event that is no longer pending is done or a dead letter. */
  lemma NotPendingIsSettled(c: Config, ys: seq<Cycle>, id: EventId)
    requires RunOk(c, ys) && Attempts(ys, id) != []
    ensures !IsPending(FilesAfter(ys), id) <==> IsSettled(ys, id)
    ensures IsSettled(ys, id) ==>
      SlotOf(FilesAfter(ys), id) == NOTHING || SlotOf(FilesAfter(ys), id).dlq.Some?
  {
    hide Spaced;
    RunIdInv(c, ys, id);
  }

  lemma LastCycle(c: Config, ys: seq<Cycle>)
    requires RunOk(c, ys) && ys != []
    ensures var init, y := ys[..|ys| - 1], ys[|ys| - 1];
      && RunOk(c, init) && CycleOk(c, y) && EndOf(init) <= y.start <= y.end == EndOf(ys) && FilesAfter(ys) == y.after
      && forall id :: Unchanged(init, y.before, id) || NewlyRegistered(init, y.before, id)
  {
  }

  lemma AttemptsMore(ys: seq<Cycle>, id: EventId)
    requires ys != []
    ensures var init, y := ys[..|ys| - 1], ys[|ys| - 1];
      Attempts(ys, id) == if id in y.attempts then Attempts(init, id) + [y.attempts[id]] else Attempts(init, id)
  {
  }

  lemma {:induction false} StillPendingWasTried(c: Config, ys: seq<Cycle>, k: nat, id: EventId)
    requires RunOk(c, ys) && k < |ys| && IsPending(ys[k].before, id)
    requires forall j :: k <= j < |ys| ==> TakesIfPending(ys[j], id)
    ensures Attempts(ys, id) != []
    ensures IsPending(FilesAfter(ys), id) ==> |Attempts(ys, id)| >= |ys| - k
  {
    hide RunOk, CycleOk, Attempts, SlotOf;
    var init, y := ys[..|ys| - 1], ys[|ys| - 1];
    LastCycle(c, ys);
    AttemptsMore(ys, id);
    assert TakesIfPending(ys[|ys| - 1], id);
    AttemptedWas(c, y, id);
    if k < |ys| - 1 {
      assert init[k] == ys[k];
      StillPendingWasTried(c, init, k, id);
      assert Unchanged(init, y.before, id) || NewlyRegistered(init, y.before, id);
    }
  }

  predicate TakesIfPending(y: Cycle, id: EventId) {
    IsPending(y.before, id) ==> id in y.attempts
  }

  lemma AttemptedWas(c: Config, y: Cycle, id: EventId)
    requires CycleOk(c, y)
    ensures id in y.attempts ==> IsPending(y.before, id)
    ensures id !in y.attempts ==> SlotOf(y.after, id) == SlotOf(y.before, id)
  {
    assert id in y.attempts ==> AttemptOk(c, y, id);
  }

  /** An event that every cycle from the k-th on takes while it is pending is settled
      after at most maxRetry + 1 of them. */
  lemma SettledAfterEnough(c: Config, ys: seq<Cycle>, k: nat, id: EventId)
    requires RunOk(c, ys) && IsPendingAt(ys, k, id) && k + c.maxRetry + 1 <= |ys|
    requires forall j :: k <= j < |ys| ==> TakesIfPending(ys[j], id)
    ensures IsSettled(ys, id)
    ensures SlotOf(FilesAfter(ys), id) == NOTHING || SlotOf(FilesAfter(ys), id).dlq.Some?
  {
    hide RunOk, Attempts, SlotOf;
    StillPendingWasTried(c, ys, k, id);
    RetryCountIsBounded(c, ys, id);
    NotPendingIsSettled(c, ys, id);
  }

  predicate IsPendingAt(ys: seq<Cycle>, k: nat, id: EventId) {
    k < |ys| && IsPending(ys[k].before, id)
  }

  /** Nothing is registered before cycle j. */
  ghost predicate NoNews(ys: seq<Cycle>, j: nat)
    requires j < |ys|
  {
    forall id :: Unchanged(ys[..j], ys[j].before, id)
  }

  lemma NewsIs(ys: seq<Cycle>, y: Cycle)
    requires NoNews(ys + [y], |ys|)
    ensures forall id :: Unchanged(ys, y.before, id)
  {
    var more := ys + [y];
    assert more[..|ys|] == ys && more[|ys|] == y;
    forall id ensures Unchanged(ys, y.before, id) {
      assert Unchanged(more[..|ys|], more[|ys|].before, id);
    }
  }

  ghost predicate SomePending(files: Files) {
    exists id :: IsPending(files, id)
  }

  /** As long as something is pending, a cycle takes something. */
  ghost predicate Productive(y: Cycle) {
    SomePending(y.before) ==> y.attempts != map[]
  }

  ghost predicate GoesOn(ys: seq<Cycle>, k: nat) {
    forall j :: k <= j < |ys| ==> NoNews(ys, j) && Productive(ys[j])
  }

  lemma GoesOnBefore(ys: seq<Cycle>, k: nat)
    requires GoesOn(ys, k) && k < |ys|
    ensures GoesOn(ys[..|ys| - 1], k) && NoNews(ys, |ys| - 1) && Productive(ys[|ys| - 1])
  {
    hide Productive;
    var init := ys[..|ys| - 1];
    forall j | k <= j < |init| ensures NoNews(init, j) && Productive(init[j]) {
      assert init[..j] == ys[..j] && init[j] == ys[j] && NoNews(ys, j) && Productive(ys[j]);
    }
  }

  ghost predicate PendingIn(files: Files, ids: set<EventId>) {
    forall id :: IsPending(files, id) ==> id in ids
  }

  /** Every cycle that finds something pending takes at least one retry from the sum of
      those that were left after k cycles. */
  lemma {:induction false} RetriesRunOut(c: Config, ys: seq<Cycle>, k: nat, ids: set<EventId>)
    requires RunOk(c, ys) && k <= |ys| && GoesOn(ys, k) && PendingIn(FilesAfter(ys[..k]), ids)
    ensures PendingIn(FilesAfter(ys), ids)
    ensures SomePending(FilesAfter(ys)) ==>
      LeftSum(c, FilesAfter(ys), ids) + |ys| - k <= LeftSum(c, FilesAfter(ys[..k]), ids)
  {
    hide RunOk, CycleOk, GoesOn, NoNews, LeftSum, SlotOf;
    if k == |ys| {
      assert ys[..k] == ys;
    } else {
      var init, y := ys[..|ys| - 1], ys[|ys| - 1];
      assert init[..k] == ys[..k] && init + [y] == ys;
      LastCycle(c, ys);
      GoesOnBefore(ys, k);
      RetriesRunOut(c, init, k, ids);
      assert forall id :: Unchanged(init, y.before, id) by { NewsIs(init, y); }
      QuietCycle(c, init, y, ids);
      CycleUsesRetries(c, init, y, ids);
    }
  }

  /** What is pending before and after a cycle without news. */
  lemma QuietCycle(c: Config, ys: seq<Cycle>, y: Cycle, ids: set<EventId>)
    requires CycleOk(c, y) && PendingIn(FilesAfter(ys), ids) && Productive(y)
    requires forall id :: Unchanged(ys, y.before, id)
    ensures y.attempts.Keys <= ids && PendingIn(y.after, ids)
    ensures LeftSum(c, y.before, ids) == LeftSum(c, FilesAfter(ys), ids)
    ensures SomePending(y.after) ==> SomePending(FilesAfter(ys)) && |y.attempts| >= 1
  {
    hide SlotOf, CycleOk, LeftSum;
    forall id ensures IsPending(y.before, id) <==> IsPending(FilesAfter(ys), id) {
      assert Unchanged(ys, y.before, id);
    }
    forall id ensures id in y.attempts ==> IsPending(y.before, id)
      ensures IsPending(y.after, id) ==> IsPending(y.before, id)
    {
      AttemptedWas(c, y, id);
    }
    forall id | id in ids ensures SlotOf(y.before, id) == SlotOf(FilesAfter(ys), id) {
      assert Unchanged(ys, y.before, id);
    }
    LeftSumSame(c, y.before, FilesAfter(ys), ids);
    if id :| IsPending(y.after, id) {
      assert IsPending(y.before, id) && IsPending(FilesAfter(ys), id);
      assert y.attempts != map[];
      assert |y.attempts| != 0;
    }
  }

  lemma {:induction false} LeftSumSame(c: Config, a: Files, b: Files, ids: set<EventId>)
    requires forall id :: id in ids ==> SlotOf(a, id) == SlotOf(b, id)
    ensures LeftSum(c, a, ids) == LeftSum(c, b, ids)
    decreases |ids|
  {
    hide Left;
    if ids != {} {
      var id :| id in ids;
      LeftSumPick(c, a, ids, id);
      LeftSumPick(c, b, ids, id);
      LeftSumSame(c, a, b, ids - {id});
      assert Left(c, a, id) == Left(c, b, id) by { LeftSame(c, a, b, id); }
    }
  }

  lemma LeftSame(c: Config, a: Files, b: Files, id: EventId)
    requires SlotOf(a, id) == SlotOf(b, id)
    ensures Left(c, a, id) == Left(c, b, id)
  {
  }

  lemma {:induction false} LeftSumAtMost(c: Config, files: Files, ids: set<EventId>)
    requires forall id :: id in ids ==> Left(c, files, id) <= c.maxRetry + 1
    ensures LeftSum(c, files, ids) <= (c.maxRetry + 1) * |ids|
    decreases |ids|
  {
    hide Left;
    if ids != {} {
      var id :| id in ids;
      LeftSumPick(c, files, ids, id);
      LeftSumAtMost(c, files, ids - {id});
      assert |ids - {id}| == |ids| - 1;
      assert (c.maxRetry + 1) * |ids| == (c.maxRetry + 1) * (|ids| - 1) + (c.maxRetry + 1);
    }
  }

  /** Once nothing new is registered, maxRetry + 1 cycles for each pending event are
      enough, provided each takes something as long as something is pending: then
      nothing is pending any more, and every event that was has succeeded or lies in
      the dead-letter queue. */
  lemma AllSettleInTheEnd(c: Config, ys: seq<Cycle>, k: nat, ids: set<EventId>)
    requires RunOk(c, ys) && k <= |ys| && GoesOn(ys, k) && PendingIn(FilesAfter(ys[..k]), ids)
    requires |ys| - k >= (c.maxRetry + 1) * |ids|
    ensures forall id :: !IsPending(FilesAfter(ys), id)
    ensures forall id :: Attempts(ys, id) != [] ==> IsSettled(ys, id)
  {
    hide RunOk, CycleOk, GoesOn, LeftSum, SlotOf, Attempts, IsSettled;
    RetriesRunOut(c, ys, k, ids);
    PrefixOk(c, ys, k);
    forall id | id in ids ensures Left(c, FilesAfter(ys[..k]), id) <= c.maxRetry + 1 {
      AtMostAll(c, ys[..k], id);
    }
    LeftSumAtMost(c, FilesAfter(ys[..k]), ids);
    forall id ensures !IsPending(FilesAfter(ys), id) {
      if IsPending(FilesAfter(ys), id) { PendingHasLeft(c, ys, ids, id); }
    }
    forall id | Attempts(ys, id) != [] ensures IsSettled(ys, id) {
      NotPendingIsSettled(c, ys, id);
    }
  }

  lemma PendingHasLeft(c: Config, ys: seq<Cycle>, ids: set<EventId>, id: EventId)
    requires RunOk(c, ys) && id in ids && IsPending(FilesAfter(ys), id)
    ensures SomePending(FilesAfter(ys)) && LeftSum(c, FilesAfter(ys), ids) >= 1
  {
    hide RunOk, Attempts, SlotOf, LeftSum;
    RetryCountIsBounded(c, ys, id);
    forall x | x in ids ensures 0 <= Left(c, FilesAfter(ys), x) { AtMostAll(c, ys, x); }
    LeftSumPick(c, FilesAfter(ys), ids, id);
    LeftSumNonNegative(c, FilesAfter(ys), ids - {id});
  }

  lemma AtMostAll(c: Config, ys: seq<Cycle>, id: EventId)
    requires RunOk(c, ys)
    ensures 0 <= Left(c, FilesAfter(ys), id) <= c.maxRetry + 1
  {
    hide RunOk, Attempts, SlotOf;
    RetryCountIsBounded(c, ys, id);
  }

  // ----- When an event is due again -----

  lemma {:induction false} FailedBefore(c: Config, ys: seq<Cycle>, id: EventId)
    requires RunOk(c, ys)
    ensures forall i :: 0 <= i < |Attempts(ys, id)| && Attempts(ys, id)[i].outcome.Failed? ==>
      Attempts(ys, id)[i].outcome.at <= EndOf(ys)
  {
    hide CycleOk, SlotOf;
    if ys != [] {
      var init, y := ys[..|ys| - 1], ys[|ys| - 1];
      LastCycle(c, ys);
      FailedBefore(c, init, id);
      assert id in y.attempts && y.attempts[id].outcome.Failed? ==> y.attempts[id].outcome.at <= y.end by {
        AttemptInTime(c, y, id);
      }
    }
  }

  lemma AttemptInTime(c: Config, y: Cycle, id: EventId)
    requires CycleOk(c, y)
    ensures id in y.attempts && y.attempts[id].outcome.Failed? ==> y.attempts[id].outcome.at <= y.end
  {
    assert id in y.attempts ==> AttemptOk(c, y, id);
  }

  /** After the longest delay every pending event is due, and none is locked. */
  lemma PendingIsDue(c: Config, ys: seq<Cycle>, before: Files, id: EventId, now: Time)
    requires RunOk(c, ys) && (Unchanged(ys, before, id) || NewlyRegistered(ys, before, id))
    requires IsPending(before, id) && EndOf(ys) + c.maxDelay <= now
    ensures var slot := SlotOf(before, id);
      slot.lock.None? && slot.pending.value.EventFile? && slot.pending.value.event.nextRetryAt <= now
  {
    hide RunOk, Spaced, Attempts;
    RunIdInv(c, ys, id);
    FailedBefore(c, ys, id);
    var tries := Attempts(ys, id);
    if tries != [] && Unchanged(ys, before, id) { BackoffShape(c, |tries| - 1); }
  }
}
