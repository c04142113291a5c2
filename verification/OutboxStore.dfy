/** The store of commit/outbox_store.py on top of a file client that may fail. */
module OutboxStore {
  import opened Wrappers
  import opened OutboxTypes

  function Get(files: Files, p: Path): Option<Content> {
    if p in files then Some(files[p]) else None
  }

  /** The files of one event, apart from a temporary one. */
  datatype Slot = Slot(pending: Option<Content>, dlq: Option<Content>, lock: Option<Content>)

  function SlotOf(files: Files, id: EventId): Slot {
    Slot(Get(files, Pending(id)), Get(files, Dlq(id)), Get(files, Lock(id)))
  }

  /** Only the files of event id may differ. */
  ghost predicate OnlyEvent(files: Files, files': Files, id: EventId) {
    forall x :: x != id ==> SlotOf(files', x) == SlotOf(files, x)
  }

  /** The file client.  `faulty` says whether operations may raise; `tried` is the
      list of all operations that were attempted, in order. */
  class AgfsClient {
    const faulty: bool
    var files: Files
    var now: Time
    ghost var tried: seq<FileOp>

    constructor (files: Files, now: Time, faulty: bool)
      ensures this.files == files && this.now == now && this.faulty == faulty && tried == []
    {
      this.files, this.now, this.faulty, tried := files, now, faulty, [];
    }

    method Perform(op: FileOp) returns (ok: bool)
      modifies `files, `tried
      ensures tried == old(tried) + [op]
      ensures files == if ok then Apply(old(files), op) else old(files)
      ensures !faulty && (op.Rename? ==> op.from in old(files)) ==> ok
    {
      ok := *;
      ok := ok || !faulty;
      match op {
        case Write(p, c) => if ok { files := files[p := c]; }
        case Rename(p, q) =>
          ok := ok && p in files;
          if ok { files := (files - {p})[q := files[p]]; }
        case Rm(p) => if ok { files := files - {p}; }
      }
      tried := tried + [op];
    }

    method Read(p: Path) returns (c: Option<Content>)
      ensures c.Some? ==> p in files && c.value == files[p]
      ensures !faulty && p in files ==> c.Some?
    {
      var ok: bool := *;
      c := if p in files && (ok || !faulty) then Some(files[p]) else None;
    }

    /** The clock, which never runs backwards. */
    method Now() returns (t: Time)
      modifies `now
      ensures t == now && now >= old(now)
    {
      var elapsed: int := *;
      if elapsed > 0 { now := now + elapsed; }
      t := now;
    }

    /** Time passes between two cycles. */
    method Wait(elapsed: nat)
      modifies `now
      ensures now == old(now) + elapsed
    {
      now := now + elapsed;
    }

    /** The names below the outbox directories of one account, in any order. */
    method Ls(account: string) returns (names: seq<Path>)
      ensures forall i, j :: 0 <= i < j < |names| ==> names[i] != names[j]
      ensures forall p :: p in names ==> p in files && InAccount(files[p], account)
      ensures !faulty ==> forall p :: p in files && InAccount(files[p], account) ==> p in names
    {
      names := [];
      var rest := files.Keys;
      while rest != {}
        invariant rest <= files.Keys
        invariant forall i, j :: 0 <= i < j < |names| ==> names[i] != names[j]
        invariant forall p :: p in names ==> p in files && p !in rest && InAccount(files[p], account)
        invariant forall p :: p in files && p !in rest && InAccount(files[p], account) ==> p in names
        decreases |rest|
      {
        var p :| p in rest;
        rest := rest - {p};
        if InAccount(files[p], account) { names := names + [p]; }
      }
      var ok: bool := *;
      if faulty && !ok { names := []; }
    }
  }

  predicate InAccount(c: Content, account: string) {
    c.EventFile? ==> c.event.account == account
  }

  /** What the scan takes: an event that is due and not actively locked. */
  predicate DueAt(files: Files, now: Time, e: Event) {
    !ActiveLock(files, e.id, now) && e.nextRetryAt <= now
  }

  /** The event carries a readable lock that is less than five minutes old. */
  predicate YoungLock(files: Files, id: EventId, now: Time) {
    Lock(id) in files && files[Lock(id)].LockFile? && now - files[Lock(id)].acquiredAt < 5 * 60 * 1000
  }

  /** Due means that its time has come and that no young lock is on it. */
  lemma DueIs(files: Files, now: Time, e: Event)
    ensures DueAt(files, now, e) <==> now >= e.nextRetryAt && !YoungLock(files, e.id, now)
  {
  }

  datatype Acquisition = Locked | Acquired(at: Time) | Raised

  class OutboxStore {
    const client: AgfsClient

    constructor (client: AgfsClient)
      ensures this.client == client
    {
      this.client := client;
    }

    /** Register an event: all or nothing at its pending path, whichever operation
        fails, and no other event is touched. */
    method WriteEvent(e: Event) returns (ok: bool)
      modifies client`files, client`tried
      ensures ok ==> Get(client.files, Pending(e.id)) == Some(EventFile(e))
      ensures !ok ==> Get(client.files, Pending(e.id)) == old(Get(client.files, Pending(e.id)))
      ensures forall p :: p != Temp(e.id) && p != Pending(e.id) ==> Get(client.files, p) == old(Get(client.files, p))
      ensures !client.faulty ==>
        && ok && client.files == ApplyAll(old(client.files), RegisterOps(e))
        && client.tried == old(client.tried) + RegisterOps(e)
      ensures || (client.tried == old(client.tried) + RegisterOps(e)[..1] && !ok)
              || (client.tried == old(client.tried) + RegisterOps(e) && ok)
              || client.tried == old(client.tried) + RegisterOps(e) + DirectOps(e)
    {
      ok := client.Perform(RegisterOps(e)[0]);
      if !ok { return; }
      assert RegisterOps(e) == RegisterOps(e)[..1] + [RegisterOps(e)[1]];
      ok := client.Perform(RegisterOps(e)[1]);
      TwoOps(old(client.files), RegisterOps(e)[0], RegisterOps(e)[1]);
      assert [RegisterOps(e)[0], RegisterOps(e)[1]] == RegisterOps(e);
      if !ok {
        var _ := client.Perform(DirectOps(e)[0]);
        ok := client.Perform(DirectOps(e)[1]);
        assert DirectOps(e) == [DirectOps(e)[0]] + [DirectOps(e)[1]];
      }
    }

    /** mark_done: the pending file goes before the lock; failures are ignored. */
    method MarkDone(e: Event)
      modifies client`files, client`tried
      ensures client.tried == old(client.tried) + DoneOps(e.id)
      ensures OnlyEvent(old(client.files), client.files, e.id)
      ensures var slot, slot' := SlotOf(old(client.files), e.id), SlotOf(client.files, e.id);
        slot'.dlq == slot.dlq && (slot'.pending == slot.pending || slot'.pending.None?)
      ensures !client.faulty ==>
        client.files == ApplyAll(old(client.files), DoneOps(e.id)) &&
        SlotOf(client.files, e.id) == SlotOf(old(client.files), e.id).(pending := None, lock := None)
    {
      var _ := client.Perform(DoneOps(e.id)[0]);
      var _ := client.Perform(DoneOps(e.id)[1]);
      TwoOps(old(client.files), DoneOps(e.id)[0], DoneOps(e.id)[1]);
      assert DoneOps(e.id) == [DoneOps(e.id)[0], DoneOps(e.id)[1]];
    }

    /** move_to_dlq: the pending file is removed only once the copy is written; the
        lock stays. */
    method MoveToDlq(e: Event) returns (changed: Event, ok: bool)
      modifies client`files, client`tried
      ensures changed == Buried(e)
      ensures client.tried == old(client.tried) + if ok then DlqOps(changed) else DlqOps(changed)[..1]
      ensures ok ==>
        SlotOf(client.files, e.id) == SlotOf(old(client.files), e.id).(dlq := Some(EventFile(changed))) ||
        SlotOf(client.files, e.id) == SlotOf(old(client.files), e.id).(dlq := Some(EventFile(changed)), pending := None)
      ensures !ok ==> client.faulty && client.files == old(client.files)
      ensures OnlyEvent(old(client.files), client.files, e.id)
      ensures !client.faulty ==>
        client.files == ApplyAll(old(client.files), DlqOps(changed)) &&
        SlotOf(client.files, e.id) == SlotOf(old(client.files), e.id).(pending := None, dlq := Some(EventFile(changed)))
    {
      changed := e.(status := FAILED);
      ok := client.Perform(DlqOps(changed)[0]);
      assert DlqOps(changed) == [DlqOps(changed)[0], DlqOps(changed)[1]];
      if ok {
        var _ := client.Perform(DlqOps(changed)[1]);
        TwoOps(old(client.files), DlqOps(changed)[0], DlqOps(changed)[1]);
      }
    }

    /** increment_retry: the event changes in memory even when the write raises. */
    method IncrementRetry(e: Event, next: Time) returns (changed: Event, ok: bool)
      modifies client`files, client`tried
      ensures changed == Retried(e, next)
      ensures client.tried == old(client.tried) + RetryOps(changed)[..1]
      ensures ok || client.faulty
      ensures client.files == if ok then old(client.files)[Pending(e.id) := EventFile(changed)] else old(client.files)
      ensures OnlyEvent(old(client.files), client.files, e.id)
      ensures ok ==> SlotOf(client.files, e.id) == SlotOf(old(client.files), e.id).(pending := Some(EventFile(changed)))
    {
      changed := e.(retries := e.retries + 1, status := PENDING, nextRetryAt := next);
      ok := client.Perform(Write(Pending(e.id), EventFile(changed)));
    }

    method Release(e: Event)
      modifies client`files, client`tried
      ensures client.tried == old(client.tried) + [Rm(Lock(e.id))]
      ensures OnlyEvent(old(client.files), client.files, e.id)
      ensures SlotOf(client.files, e.id) == SlotOf(old(client.files), e.id).(lock := SlotOf(client.files, e.id).lock)
      ensures !client.faulty ==> SlotOf(client.files, e.id) == SlotOf(old(client.files), e.id).(lock := None)
    {
      var _ := client.Perform(Rm(Lock(e.id)));
    }

    /** try_acquire: refused exactly while a readable lock is younger than the
        timeout; otherwise the caller's lock replaces whatever was there. */
    method TryAcquire(e: Event, worker: string) returns (r: Acquisition)
      modifies client`files, client`tried, client`now
      ensures client.now >= old(client.now)
      ensures r.Locked? ==>
        YoungLock(client.files, e.id, client.now) && client.files == old(client.files) &&
          client.tried == old(client.tried)
      ensures r.Raised? ==> client.faulty && client.files == old(client.files)
      ensures r.Acquired? ==>
        old(client.now) <= r.at <= client.now && client.files == old(client.files)[Lock(e.id) := LockFile(worker, r.at)]
      ensures r.Acquired? && !client.faulty ==> !YoungLock(old(client.files), e.id, r.at)
      ensures OnlyEvent(old(client.files), client.files, e.id)
      ensures r.Acquired? ==>
        SlotOf(client.files, e.id) == SlotOf(old(client.files), e.id).(lock := Some(LockFile(worker, r.at)))
    {
      var found := client.Read(Lock(e.id));
      if found.Some? && found.value.LockFile? {
        var t := client.Now();
        if t < found.value.acquiredAt + LOCK_TIMEOUT { return Locked; }
      }
      var at := client.Now();
      var ok := client.Perform(Write(Lock(e.id), LockFile(worker, at)));
      r := if ok then Acquired(at) else Raised;
    }

    /** list_pending: exactly the due events, each once. */
    method ListPending(account: string) returns (events: seq<Event>)
      modifies client`now
      ensures client.now >= old(client.now)
      ensures forall e :: e in events ==> Listable(client.files, account, e) && e.nextRetryAt <= client.now
      ensures !client.faulty ==> forall e :: e in events ==>
        DueAt(client.files, client.now, e) && !YoungLock(client.files, e.id, client.now)
      ensures !client.faulty ==>
        forall e :: Listable(client.files, account, e) && DueAt(client.files, old(client.now), e) ==> e in events
      ensures Sound(client.files) ==> forall i, j :: 0 <= i < j < |events| ==> events[i].id != events[j].id
    {
      var names := client.Ls(account);
      events := [];
      ghost var kept: seq<Path> := [];
      for k := 0 to |names|
        invariant client.now >= old(client.now)
        invariant |kept| == |events|
        invariant forall i :: 0 <= i < |kept| ==>
          kept[i] in names[..k] && TakenAt(client.files, client.faulty, client.now, kept[i], events[i])
        invariant forall i, j :: 0 <= i < j < |kept| ==> kept[i] != kept[j]
        invariant !client.faulty ==>
          forall p, e :: p in names[..k] && TakenAt(client.files, client.faulty, old(client.now), p, e) ==> p in kept
      {
        var p := names[k];
        forall e | !client.faulty && TakenAt(client.files, client.faulty, old(client.now), p, e)
          ensures TakenAt(client.files, client.faulty, client.now, p, e)
        {
        }
        assert names[..k + 1] == names[..k] + [p];
        var due, e := Inspect(p);
        if due {
          assert p !in kept;
          events, kept := events + [e], kept + [p];
        }
      }
      assert names[..|names|] == names;
      forall e | !client.faulty && Listable(client.files, account, e) && DueAt(client.files, old(client.now), e)
        ensures e in events
      {
        var p: Path :| p.Pending? && Get(client.files, p) == Some(EventFile(e)) && e.account == account;
        assert p in names && TakenAt(client.files, client.faulty, old(client.now), p, e);
      }
      forall e | e in events
        ensures Listable(client.files, account, e) && e.nextRetryAt <= client.now
        ensures (!client.faulty ==> DueAt(client.files, client.now, e))
      {
        var i :| 0 <= i < |events| && events[i] == e;
        assert TakenAt(client.files, client.faulty, client.now, kept[i], e) && kept[i] in names;
      }
    }

    /** One entry of the scan. */
    method Inspect(p: Path) returns (due: bool, e: Event)
      modifies client`now
      ensures client.now >= old(client.now)
      ensures due ==> TakenAt(client.files, client.faulty, client.now, p, e)
      ensures !due && !client.faulty ==> forall x :: !TakenAt(client.files, client.faulty, old(client.now), p, x)
    {
      e, due := Event("", "", Other, PENDING, 0, 0), false;
      if !p.Pending? { return; }
      var raw := client.Read(p);
      if raw.None? || raw.value.LockFile? { return; }
      e := raw.value.event;
      var lock := client.Read(Lock(e.id));
      if lock.Some? && lock.value.LockFile? {
        var t := client.Now();
        if t < lock.value.acquiredAt + LOCK_TIMEOUT { return; }
      }
      var now := client.Now();
      due := e.nextRetryAt <= now;
    }
  }

  ghost predicate Listable(files: Files, account: string, e: Event) {
    exists p: Path :: p.Pending? && Get(files, p) == Some(EventFile(e)) && e.account == account
  }

  /** The entry's event is due; an unreadable lock counts as none. */
  ghost predicate TakenAt(files: Files, faulty: bool, now: Time, p: Path, e: Event) {
    p.Pending? && Get(files, p) == Some(EventFile(e)) && e.nextRetryAt <= now && (faulty || DueAt(files, now, e))
  }

  /** A file carries the id of its path. */
  ghost predicate Sound(files: Files) {
    forall p :: p in files && p.Pending? ==> files[p].EventFile? && files[p].event.id == p.id
  }

  lemma TwoOps(files: Files, a: FileOp, b: FileOp)
    ensures ApplyAll(files, [a, b]) == Apply(Apply(files, a), b)
  {
    assert [a, b][1..] == [b] && [b][1..] == [];
    assert ApplyAll(Apply(Apply(files, a), b), []) == Apply(Apply(files, a), b);
  }
}
