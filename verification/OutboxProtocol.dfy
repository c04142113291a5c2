/** The outbox with any number of workers, one file operation at a time.

    A job is one event in the hands of one worker, or one event being
    registered.  A worker may hold a copy that has long become stale; every
    operation may fail; a job may vanish between any two file operations, which is
    a crash, or the end of its worker's batch.  The upsert events a worker acquired
    form its batch: a write that fails while one of them is settled makes all of them
    fail again, also those already settled.  The filters of the scan on locks and
    retry times are left out: they only remove candidates. */
module OutboxProtocol {
  import opened Wrappers
  import opened OutboxTypes

  datatype Stage =
    | Listed                                     // copied from the pending file
    | Checked                                    // no active lock was found
    | Held(at: Time)                             // the lock file was written
    | Settling(at: Time, ops: seq<FileOp>)       // file operations still to do
    | Failing(at: Time)                          // to be failed, after a write raised
    | Over(at: Time)                             // settled, but still in the batch

  datatype Job =
    | Registering(event: Event, ops: seq<FileOp>)
    | Working(worker: string, copy: Event, stage: Stage)

  /** The files, the index, the clock and the jobs; then the history: what was
      registered, what a worker processed successfully, what reached the index. */
  datatype State = State(files: Files, index: map<RecordId, Indexed>, now: Time, jobs: map<nat, Job>,
                         registered: map<EventId, Event>, processed: set<EventId>, applied: set<EventId>)

  /** How processing an event ends. */
  datatype Result =
    | Success                       // the handler returned
    | Failure(reached: bool)        // it raised, before or after the index changed

  datatype Action =
    | Register(job: nat, event: Event)
    | List(job: nat, worker: string, id: EventId)
    | Acquire(job: nat, readable: bool)                     // check and write in one step
    | CheckLock(job: nat, readable: bool) | WriteLock(job: nat)   // the same in two
    | Process(job: nat, result: Result, other: map<RecordId, Indexed>, given: Option<nat>)
    | Step(job: nat, ok: bool)                              // the next file operation
    | FailAgain(job: nat)                                   // handle the failure once more
    | Crash(job: nat)
    | Tick(elapsed: nat)

  datatype Env = Env(config: Config, embed: string -> Vector)

  function Drop(s: State, j: nat): State {
    s.(jobs := s.jobs - {j})
  }

  function Put(s: State, j: nat, job: Job): State {
    s.(jobs := s.jobs[j := job])
  }

  /** Has this event id been used before? Ids are fresh random UUIDs. */
  predicate Unused(s: State, id: EventId) {
    && id !in s.registered && Pending(id) !in s.files && Dlq(id) !in s.files
    && forall j :: j in s.jobs && s.jobs[j].Registering? ==> s.jobs[j].event.id != id
  }

  predicate Enabled(s: State, a: Action) {
    match a
    case Register(j, e) => j !in s.jobs && Unused(s, e.id) && e.retries == 0 && e.status == PENDING
    case List(j, _, id) => j !in s.jobs && Pending(id) in s.files && s.files[Pending(id)].EventFile?
    case Acquire(j, _) => j in s.jobs && s.jobs[j].Working? && s.jobs[j].stage.Listed?
    case CheckLock(j, _) => j in s.jobs && s.jobs[j].Working? && s.jobs[j].stage.Listed?
    case WriteLock(j) => j in s.jobs && s.jobs[j].Working? && s.jobs[j].stage.Checked?
    case Process(j, r, _, _) => j in s.jobs && s.jobs[j].Working? && s.jobs[j].stage.Held?
                             && (s.jobs[j].copy.kind.Malformed? ==> r == Failure(false))
    case Step(j, _) => j in s.jobs && (s.jobs[j].Registering? || s.jobs[j].stage.Settling?) && JobOps(s.jobs[j]) != []
    case FailAgain(j) => j in s.jobs && s.jobs[j].Working? && s.jobs[j].stage.Failing?
    case Crash(j) => j in s.jobs
    case Tick(_) => true
  }

  function JobOps(job: Job): seq<FileOp> {
    match job
    case Registering(_, ops) => ops
    case Working(_, _, stage) => if stage.Settling? then stage.ops else []
  }

  /** Part of the batch of its worker: empty events are settled before there is one. */
  predicate InBatch(job: Job) {
    job.Working? && job.copy.kind.Upsert? && job.copy.kind.records != []
  }

  /** Does this step end the batch of its worker with a failed write? */
  predicate BreaksBatch(s: State, a: Action)
    requires Enabled(s, a)
  {
    a.Step? && !a.ok && InBatch(s.jobs[a.job]) && JobOps(s.jobs[a.job])[0].Write?
  }

  /** An event of the batch is to fail again, whatever became of it. */
  function Doomed(job: Job, worker: string): Job {
    if InBatch(job) && job.worker == worker && (job.stage.Held? || job.stage.Settling? || job.stage.Over?)
    then job.(stage := Failing(job.stage.at)) else job
  }

  function Abort(s: State, worker: string): State {
    s.(jobs := map j | j in s.jobs :: Doomed(s.jobs[j], worker))
  }

  /** try_acquire: give up while somebody's lock is active, else write one's own. */
  function TakeLock(s: State, j: nat): State
    requires j in s.jobs && s.jobs[j].Working?
  {
    var job := s.jobs[j];
    Put(s.(files := s.files[Lock(job.copy.id) := LockFile(job.worker, s.now)]), j, job.(stage := Held(s.now)))
  }

  /** After a failure: retry while the count allows it, otherwise the DLQ. */
  function FailureOps(c: Config, copy: Event, now: Time): seq<FileOp> {
    if copy.retries >= c.maxRetry then DlqOps(Buried(copy))
    else RetryOps(Retried(copy, now + Backoff(c, copy.retries)))
  }

  function Settle(s: State, j: nat, ops: seq<FileOp>): State
    requires j in s.jobs && s.jobs[j].Working? && s.jobs[j].stage.Held?
  {
    Put(s, j, s.jobs[j].(stage := Settling(s.jobs[j].stage.at, ops)))
  }

  /** The records an upsert stores.  An embedder that answers with too few vectors
      gives only the first `given` of them one, and the others are dropped. */
  function Stored(env: Env, k: Kind, given: Option<nat>): seq<Indexed>
    requires k.Upsert?
  {
    var all := AugmentAll(k.records, env.embed);
    if given.Some? && given.value < |all| then all[..given.value] else all
  }

  function DoProcess(env: Env, s: State, j: nat, r: Result, other: map<RecordId, Indexed>, given: Option<nat>): State
    requires j in s.jobs && s.jobs[j].Working? && s.jobs[j].stage.Held?
  {
    var copy := s.jobs[j].copy;
    var reached := r == Success || r == Failure(true);
    var s1 := if !reached then s
              else if copy.kind.Upsert?
              then s.(index := UpsertAll(s.index, Stored(env, copy.kind, given)), applied := s.applied + {copy.id})
              else s.(index := other);
    if r == Success then Settle(s1.(processed := s1.processed + {copy.id}), j, DoneOps(copy.id))
    else Settle(s1, j, FailureOps(env.config, copy, s.now))
  }

  /** The event in memory after an operation: what is to be written is changed there
      first, whether or not the write raises. */
  function InMemory(copy: Event, op: FileOp): Event {
    if op.Write? && op.content.EventFile? then op.content.event else copy
  }

  /** One file operation of job j; ok says whether the client raised.  A failed
      removal is ignored.  A failed write aborts a registration; in a worker it
      makes the event fail again.  An event of a batch is remembered after it was
      settled, as it is in memory by then. */
  function DoStep(env: Env, s: State, j: nat, ok: bool): State
    requires j in s.jobs && JobOps(s.jobs[j]) != []
  {
    var job := s.jobs[j];
    var op := JobOps(job)[0];
    var s1 := if ok then s.(files := Apply(s.files, op)) else s;
    match job
    case Registering(e, ops) =>
      if !ok && op.Rename? then Put(s1, j, Registering(e, DirectOps(e)))
      else if !ok && op.Write? then Drop(s1, j)
      else if |ops| == 1 then Drop(s1, j).(registered := s.registered[e.id := e])
      else Put(s1, j, Registering(e, ops[1..]))
    case Working(w, copy, stage) =>
      var changed := InMemory(copy, op);
      if !ok && op.Write? then Put(s1, j, Working(w, changed, Failing(stage.at)))
      else if |stage.ops| == 1 then
        if InBatch(job) then Put(s1, j, Working(w, changed, Over(stage.at))) else Drop(s1, j)
      else Put(s1, j, Working(w, changed, Settling(stage.at, stage.ops[1..])))
  }

  function Next(env: Env, s: State, a: Action): State
    requires Enabled(s, a)
  {
    match a
    case Register(j, e) => Put(s, j, Registering(e, RegisterOps(e)))
    case List(j, w, id) => Put(s, j, Working(w, s.files[Pending(id)].event, Listed))
    case Acquire(j, readable) =>
      if readable && ActiveLock(s.files, s.jobs[j].copy.id, s.now) then Drop(s, j) else TakeLock(s, j)
    case CheckLock(j, readable) =>
      if readable && ActiveLock(s.files, s.jobs[j].copy.id, s.now) then Drop(s, j)
        else Put(s, j, s.jobs[j].(stage := Checked))
    case WriteLock(j) => TakeLock(s, j)
    case Process(j, r, other, given) => DoProcess(env, s, j, r, other, given)
    case Step(j, ok) => if BreaksBatch(s, a) then Abort(DoStep(env, s, j, ok), s.jobs[j].worker)
      else DoStep(env, s, j, ok)
    case FailAgain(j) =>
      var job := s.jobs[j];
      Put(s, j, job.(stage := Settling(job.stage.at, FailureOps(env.config, job.copy, s.now))))
    case Crash(j) => Drop(s, j)
    case Tick(d) => s.(now := s.now + d)
  }

  const START: State := State(map[], map[], 0, map[], map[], {}, {})

  predicate ValidRun(env: Env, acts: seq<Action>)
    decreases |acts|, 0
  {
    acts == [] ||
    (var init := acts[..|acts| - 1]; ValidRun(env, init) && Enabled(After(env, init), acts[|acts| - 1]))
  }

  function After(env: Env, acts: seq<Action>): State
    requires ValidRun(env, acts)
    decreases |acts|, 1
  {
    if acts == [] then START else Next(env, After(env, acts[..|acts| - 1]), acts[|acts| - 1])
  }

  // ----- No event is lost -----

  /** A copy anywhere still carries the payload that was registered. */
  ghost predicate Faithful(s: State, e: Event) {
    e.id in s.registered && e.kind == s.registered[e.id].kind
  }

  ghost predicate FileOk(s: State, p: Path)
    requires p in s.files
  {
    match p
    case Pending(id) => s.files[p].EventFile? && s.files[p].event.id == id && Faithful(s, s.files[p].event)
    case Dlq(id) => s.files[p].EventFile? && s.files[p].event.id == id && Faithful(s, s.files[p].event)
    case Temp(id) => s.files[p].EventFile? && s.files[p].event.id == id
    case Lock(id) => s.files[p].LockFile?
  }

  /** What a job may still do: it removes the pending file only after success or
      with the DLQ copy in place. */
  ghost predicate JobOk(s: State, job: Job) {
    match job
    case Registering(e, ops) =>
      && e.id !in s.registered && Pending(e.id) !in s.files && Dlq(e.id) !in s.files
      && (ops == RegisterOps(e) || (ops == RegisterOps(e)[1..] && Temp(e.id) in s.files &&
        s.files[Temp(e.id)] == EventFile(e))
          || ops == DirectOps(e) || ops == DirectOps(e)[1..])
    case Working(_, copy, stage) =>
      Faithful(s, copy) && (stage.Settling? ==> OpsOk(s, copy, stage.ops))
  }

  ghost predicate OpsOk(s: State, copy: Event, ops: seq<FileOp>) {
    var id := copy.id;
    || (ops == DoneOps(id) && id in s.processed)
    || ops == DoneOps(id)[1..]
    || (exists e :: ops == RetryOps(e) && e.id == id && e.kind == copy.kind)
    || (exists e :: ops == DlqOps(e) && e.id == id && e.kind == copy.kind)
    || (ops == [Rm(Pending(id))] && Dlq(id) in s.files)
  }

  ghost predicate Kept(s: State, id: EventId) {
    id in s.processed || Pending(id) in s.files || Dlq(id) in s.files
  }

  ghost predicate Distinct(s: State) {
    forall j, k :: j in s.jobs && k in s.jobs && j != k && s.jobs[j].Registering? && s.jobs[k].Registering?
      ==> s.jobs[j].event.id != s.jobs[k].event.id
  }

  ghost predicate Inv(s: State) {
    && (forall p :: p in s.files ==> FileOk(s, p))
    && (forall j :: j in s.jobs ==> JobOk(s, s.jobs[j]))
    && (forall id :: id in s.registered ==> Kept(s, id) && s.registered[id].id == id)
    && s.processed <= s.registered.Keys
    && Distinct(s)
  }

  // ----- Every action keeps the invariant -----

  /** Only job j changed, appeared or disappeared. */
  ghost predicate OnlyJob(s: State, s': State, j: nat) {
    forall k :: k != j ==> (k in s'.jobs <==> k in s.jobs) && (k in s.jobs ==> s'.jobs[k] == s.jobs[k])
  }

  ghost predicate SameFile(s: State, s': State, p: Path) {
    (p in s'.files <==> p in s.files) && (p in s.files ==> s'.files[p] == s.files[p])
  }

  /** A worker's job touched at most the files of one registered event. */
  lemma WorkerStep(s: State, s': State, j: nat, id: EventId)
    requires Inv(s) && OnlyJob(s, s', j) && id in s.registered
    requires forall p: Path :: p.id != id ==> SameFile(s, s', p)
    requires Dlq(id) in s.files ==> Dlq(id) in s'.files
    requires forall p: Path :: p.id == id && p in s'.files ==> FileOk(s', p)
    requires Kept(s', id)
    requires s'.registered == s.registered && s.processed <= s'.processed <= s.registered.Keys
    requires j in s'.jobs ==> s'.jobs[j].Working? && JobOk(s', s'.jobs[j])
    ensures Inv(s')
  {
    forall p | p in s'.files ensures FileOk(s', p) {
      if p.id != id { assert SameFile(s, s', p) && FileOk(s, p); }
    }
    forall k | k in s'.jobs ensures JobOk(s', s'.jobs[k]) {
      if k != j { OtherJob(s, s', s.jobs[k], id); }
    }
    forall x | x in s'.registered ensures Kept(s', x) && s'.registered[x].id == x {
      assert Kept(s, x);
      if x != id { assert SameFile(s, s', Pending(x)) && SameFile(s, s', Dlq(x)); }
    }
  }

  lemma OtherJob(s: State, s': State, job: Job, id: EventId)
    requires JobOk(s, job) && id in s.registered
    requires forall p: Path :: p.id != id ==> SameFile(s, s', p)
    requires Dlq(id) in s.files ==> Dlq(id) in s'.files
    requires s'.registered == s.registered && s.processed <= s'.processed
    ensures JobOk(s', job)
  {
    if job.Registering? {
      var e := job.event;
      assert SameFile(s, s', Pending(e.id)) && SameFile(s, s', Dlq(e.id)) && SameFile(s, s', Temp(e.id));
    } else if job.stage.Settling? {
      assert OpsOk(s, job.copy, job.stage.ops);
      assert job.copy.id != id ==> SameFile(s, s', Dlq(job.copy.id));
    }
  }

  /** Nothing but a lock, the clock, the index or the job itself changed. */
  lemma QuietStep(s: State, s': State, j: nat, id: EventId)
    requires Inv(s) && OnlyJob(s, s', j) && id in s.registered
    requires forall p: Path :: p != Lock(id) ==> SameFile(s, s', p)
    requires Lock(id) in s'.files ==> s'.files[Lock(id)].LockFile?
    requires s'.registered == s.registered && s.processed <= s'.processed <= s.registered.Keys
    requires j in s'.jobs ==> s'.jobs[j].Working? && JobOk(s', s'.jobs[j])
    ensures Inv(s')
  {
    forall p: Path | p.id == id && p in s'.files ensures FileOk(s', p) {
      if p != Lock(id) { assert SameFile(s, s', p) && FileOk(s, p); }
    }
    assert SameFile(s, s', Pending(id)) && SameFile(s, s', Dlq(id)) && Kept(s, id);
    WorkerStep(s, s', j, id);
  }

  lemma FailureOpsOk(c: Config, s: State, copy: Event, changed: Event, now: Time)
    requires changed.id == copy.id && changed.kind == copy.kind
    ensures OpsOk(s, copy, FailureOps(c, changed, now))
  {
    var ops := FailureOps(c, changed, now);
    if changed.retries >= c.maxRetry {
      assert ops == DlqOps(Buried(changed));
    } else {
      assert ops == RetryOps(Retried(changed, now + Backoff(c, changed.retries)));
    }
  }

  lemma ProcessInv(env: Env, s: State, j: nat, r: Result, other: map<RecordId, Indexed>, given: Option<nat>)
    requires Inv(s) && Enabled(s, Process(j, r, other, given))
    ensures Inv(DoProcess(env, s, j, r, other, given))
  {
    hide Inv, Stored, UpsertAll, FailureOps;
    var s' := DoProcess(env, s, j, r, other, given);
    var copy := s.jobs[j].copy;
    JobIsOk(s, j);
    if r != Success { FailureOpsOk(env.config, s', copy, copy, s.now); }
    QuietStep(s, s', j, copy.id);
  }

  lemma JobIsOk(s: State, j: nat)
    requires Inv(s) && j in s.jobs
    ensures JobOk(s, s.jobs[j])
    ensures s.jobs[j].Working? ==> s.jobs[j].copy.id in s.registered && Kept(s, s.jobs[j].copy.id)
    ensures s.processed <= s.registered.Keys
    ensures forall p :: p in s.files ==> FileOk(s, p)
  {
  }

  lemma LockInv(env: Env, s: State, a: Action)
    requires Inv(s) && Enabled(s, a) && (a.Acquire? || a.CheckLock? || a.WriteLock?)
    ensures Inv(Next(env, s, a))
  {
    hide Inv;
    JobIsOk(s, a.job);
    QuietStep(s, Next(env, s, a), a.job, s.jobs[a.job].copy.id);
  }

  lemma ListInv(env: Env, s: State, a: Action)
    requires Inv(s) && Enabled(s, a) && a.List?
    ensures Inv(Next(env, s, a))
  {
    hide Inv;
    PendingIsFaithful(s, a.id);
    QuietStep(s, Next(env, s, a), a.job, a.id);
  }

  lemma PendingIsFaithful(s: State, id: EventId)
    requires Inv(s) && Pending(id) in s.files
    ensures FileOk(s, Pending(id)) && id in s.registered && Kept(s, id) && s.processed <= s.registered.Keys
    ensures Lock(id) in s.files ==> FileOk(s, Lock(id))
  {
  }

  /** The operations a worker can have at the head of its list. */
  ghost predicate HeadOk(s: State, copy: Event, op: FileOp) {
    match op
    case Rm(p) => p == Lock(copy.id) || (p == Pending(copy.id) && (copy.id in s.processed || Dlq(copy.id) in s.files))
    case Write(p, c) => (p == Pending(copy.id) || p == Dlq(copy.id)) && c.EventFile?
                        && c.event.id == copy.id && c.event.kind == copy.kind
    case Rename(_, _) => false
  }

  lemma OpsHead(s: State, copy: Event, ops: seq<FileOp>)
    requires OpsOk(s, copy, ops) && ops != []
    ensures HeadOk(s, copy, ops[0])
    ensures |ops| > 1 ==> ops == DoneOps(copy.id) || ops[1..] == [Rm(Lock(copy.id))]
                          || (ops[1..] == [Rm(Pending(copy.id))] && ops[0].Write? && ops[0].path == Dlq(copy.id))
  {
  }

  /** The list of operations stays in order as it is worked off. */
  lemma OpsTail(s: State, s': State, copy: Event, ops: seq<FileOp>, ok: bool)
    requires OpsOk(s, copy, ops) && |ops| > 1 && (ops[0].Write? ==> ok)
    requires s'.files == (if ok then Apply(s.files, ops[0]) else s.files)
    ensures OpsOk(s', copy, ops[1..])
  {
    OpsHead(s, copy, ops);
    if ops == DoneOps(copy.id) {
      assert ops[1..] == DoneOps(copy.id)[1..];
    } else if ops[1..] == [Rm(Lock(copy.id))] {
      assert ops[1..] == DoneOps(copy.id)[1..];
    }
  }

  /** One file operation keeps the event's files sound and the event kept. */
  lemma HeadKeeps(s: State, s': State, copy: Event, op: FileOp)
    requires Inv(s) && HeadOk(s, copy, op) && Faithful(s, copy)
    requires s'.files == Apply(s.files, op) && s'.registered == s.registered && s'.processed == s.processed
    ensures forall p: Path :: p.id != copy.id ==> SameFile(s, s', p)
    ensures Dlq(copy.id) in s.files ==> Dlq(copy.id) in s'.files
    ensures forall p: Path :: p.id == copy.id && p in s'.files ==> FileOk(s', p)
    ensures Kept(s', copy.id)
  {
    forall p: Path | p.id == copy.id && p in s'.files ensures FileOk(s', p) {
      if p in s.files { assert FileOk(s, p); }
    }
    assert Kept(s, copy.id);
  }

  /** One operation of a worker: the pending file goes only when it may. */
  lemma WorkInv(env: Env, s: State, j: nat, ok: bool)
    requires Inv(s) && Enabled(s, Step(j, ok)) && s.jobs[j].Working?
    ensures Inv(DoStep(env, s, j, ok))
  {
    hide Inv, FailureOps, OpsOk, HeadOk, Apply, InMemory;
    var s', job := DoStep(env, s, j, ok), s.jobs[j];
    var copy, ops := job.copy, job.stage.ops;
    JobIsOk(s, j);
    OpsHead(s, copy, ops);
    StaysFaithful(s', copy, ops[0], s);
    if ok { HeadKeeps(s, s', copy, ops[0]); }
    if |ops| > 1 && (ok || !ops[0].Write?) {
      OpsTail(s, s', copy, ops, ok);
      SameOps(s', copy, InMemory(copy, ops[0]), ops[1..]);
    }
    if !ok { UnchangedFiles(s, s', copy.id); }
    WorkerStep(s, s', j, copy.id);
  }

  lemma UnchangedFiles(s: State, s': State, id: EventId)
    requires Inv(s) && s'.files == s.files && s'.registered == s.registered && s'.processed == s.processed
    requires id in s.registered
    ensures forall p: Path :: p.id == id && p in s'.files ==> FileOk(s', p)
    ensures Kept(s', id)
  {
    forall p: Path | p.id == id && p in s'.files ensures FileOk(s', p) {
      assert FileOk(s, p);
    }
    assert Kept(s, id);
  }

  lemma StaysFaithful(s': State, copy: Event, op: FileOp, s: State)
    requires HeadOk(s, copy, op) && Faithful(s, copy) && s'.registered == s.registered
    ensures var changed := InMemory(copy, op);
      changed.id == copy.id && changed.kind == copy.kind && Faithful(s', changed)
  {
  }

  lemma SameOps(s: State, copy: Event, changed: Event, ops: seq<FileOp>)
    requires OpsOk(s, copy, ops) && changed.id == copy.id && changed.kind == copy.kind
    ensures OpsOk(s, changed, ops)
  {
  }

  /** A broken batch leaves the files alone. */
  lemma AbortInv(s: State, worker: string)
    requires Inv(s)
    ensures Inv(Abort(s, worker))
  {
    var s' := Abort(s, worker);
    forall k | k in s'.jobs ensures JobOk(s', s'.jobs[k]) { assert JobOk(s, s.jobs[k]); }
    forall p | p in s'.files ensures FileOk(s', p) { assert FileOk(s, p); }
    forall id | id in s'.registered ensures Kept(s', id) && s'.registered[id].id == id { assert Kept(s, id); }
  }

  lemma FailAgainInv(env: Env, s: State, j: nat)
    requires Inv(s) && Enabled(s, FailAgain(j))
    ensures Inv(Next(env, s, FailAgain(j)))
  {
    hide Inv, FailureOps;
    var s', copy := Next(env, s, FailAgain(j)), s.jobs[j].copy;
    JobIsOk(s, j);
    LockIsOk(s, copy.id);
    FailureOpsOk(env.config, s', copy, copy, s.now);
    QuietStep(s, s', j, copy.id);
  }

  lemma LockIsOk(s: State, id: EventId)
    requires Inv(s)
    ensures Lock(id) in s.files ==> FileOk(s, Lock(id))
  {
  }

  // ----- Registration -----

  lemma RegisterInv(env: Env, s: State, j: nat, e: Event)
    requires Inv(s) && Enabled(s, Register(j, e))
    ensures Inv(Next(env, s, Register(j, e)))
  {
    var s' := Next(env, s, Register(j, e));
    forall k | k in s'.jobs ensures JobOk(s', s'.jobs[k]) {
      if k != j { assert JobOk(s, s.jobs[k]); }
    }
    forall p | p in s'.files ensures FileOk(s', p) { assert FileOk(s, p); }
    forall id | id in s'.registered ensures Kept(s', id) && s'.registered[id].id == id { assert Kept(s, id); }
  }

  /** A registration in progress owns its temporary file and nothing else. */
  lemma RegisterFilesInv(s: State, s': State, j: nat, e: Event)
    requires Inv(s) && OnlyJob(s, s', j) && j in s.jobs && s.jobs[j].Registering? && s.jobs[j].event == e
    requires forall p: Path :: p != Temp(e.id) ==> SameFile(s, s', p)
    requires Temp(e.id) in s'.files ==> s'.files[Temp(e.id)].EventFile? && s'.files[Temp(e.id)].event.id == e.id
    requires s'.registered == s.registered && s'.processed == s.processed
    requires j in s'.jobs ==> s'.jobs[j].Registering? && s'.jobs[j].event == e && JobOk(s', s'.jobs[j])
    ensures Inv(s')
  {
    assert JobOk(s, s.jobs[j]);
    forall p | p in s'.files ensures FileOk(s', p) {
      if p != Temp(e.id) { assert SameFile(s, s', p) && FileOk(s, p); }
    }
    forall k | k in s'.jobs ensures JobOk(s', s'.jobs[k]) {
      if k != j { JobElsewhere(s, s', s.jobs[k], e.id); }
    }
    forall id | id in s'.registered ensures Kept(s', id) && s'.registered[id].id == id {
      assert Kept(s, id) && SameFile(s, s', Pending(id)) && SameFile(s, s', Dlq(id));
    }
  }

  lemma JobElsewhere(s: State, s': State, job: Job, id: EventId)
    requires JobOk(s, job) && (job.Registering? ==> job.event.id != id)
    requires forall p: Path :: p != Temp(id) ==> SameFile(s, s', p)
    requires s'.registered == s.registered && s'.processed == s.processed
    ensures JobOk(s', job)
  {
    if job.Registering? {
      var e := job.event;
      assert SameFile(s, s', Pending(e.id)) && SameFile(s, s', Dlq(e.id)) && SameFile(s, s', Temp(e.id));
    } else if job.stage.Settling? {
      assert OpsOk(s, job.copy, job.stage.ops) && SameFile(s, s', Dlq(job.copy.id));
    }
  }

  /** The pending file appears: from here on the event counts as registered. */
  lemma RegisteredInv(s: State, s': State, j: nat, e: Event)
    requires Inv(s) && OnlyJob(s, s', j) && j in s.jobs && s.jobs[j].Registering? && s.jobs[j].event == e
    requires j !in s'.jobs
    requires forall p: Path :: p != Temp(e.id) && p != Pending(e.id) ==> SameFile(s, s', p)
    requires Temp(e.id) in s'.files ==> s'.files[Temp(e.id)].EventFile? && s'.files[Temp(e.id)].event.id == e.id
    requires Pending(e.id) in s'.files && s'.files[Pending(e.id)] == EventFile(e)
    requires s'.registered == s.registered[e.id := e] && s'.processed == s.processed
    ensures Inv(s')
  {
    assert JobOk(s, s.jobs[j]);
    forall p | p in s'.files ensures FileOk(s', p) {
      if p != Temp(e.id) && p != Pending(e.id) { assert SameFile(s, s', p) && FileOk(s, p); }
    }
    forall k | k in s'.jobs ensures JobOk(s', s'.jobs[k]) {
      assert k != j;
      JobBeside(s, s', s.jobs[k], e);
    }
    forall id | id in s'.registered ensures Kept(s', id) && s'.registered[id].id == id {
      if id != e.id { assert Kept(s, id) && SameFile(s, s', Pending(id)) && SameFile(s, s', Dlq(id)); }
    }
  }

  lemma JobBeside(s: State, s': State, job: Job, e: Event)
    requires JobOk(s, job) && (job.Registering? ==> job.event.id != e.id) && e.id !in s.registered
    requires forall p: Path :: p != Temp(e.id) && p != Pending(e.id) ==> SameFile(s, s', p)
    requires s'.registered == s.registered[e.id := e] && s'.processed == s.processed
    ensures JobOk(s', job)
  {
    if job.Registering? {
      var x := job.event;
      assert SameFile(s, s', Pending(x.id)) && SameFile(s, s', Dlq(x.id)) && SameFile(s, s', Temp(x.id));
    } else if job.stage.Settling? {
      assert OpsOk(s, job.copy, job.stage.ops) && SameFile(s, s', Dlq(job.copy.id));
    }
  }

  lemma RegisterStepInv(env: Env, s: State, j: nat, ok: bool)
    requires Inv(s) && Enabled(s, Step(j, ok)) && s.jobs[j].Registering?
    ensures Inv(DoStep(env, s, j, ok))
  {
    hide Inv, FailureOps;
    var s', e, ops := DoStep(env, s, j, ok), s.jobs[j].event, s.jobs[j].ops;
    JobIsOk(s, j);
    TempIsOk(s, e.id);
    if ops == RegisterOps(e) || ops == DirectOps(e) || !ok {
      RegisterFilesInv(s, s', j, e);
    } else {
      RegisteredInv(s, s', j, e);
    }
  }

  lemma TempIsOk(s: State, id: EventId)
    requires Inv(s)
    ensures Temp(id) in s.files ==> FileOk(s, Temp(id))
  {
  }

  lemma StepInv(env: Env, s: State, a: Action)
    requires Inv(s) && Enabled(s, a)
    ensures Inv(Next(env, s, a))
  {
    hide Inv, DoStep, DoProcess, Abort;
    match a
    case Register(j, e) => RegisterInv(env, s, j, e);
    case List(_, _, _) => ListInv(env, s, a);
    case Acquire(_, _) => LockInv(env, s, a);
    case CheckLock(_, _) => LockInv(env, s, a);
    case WriteLock(_) => LockInv(env, s, a);
    case Process(j, r, other, given) => ProcessInv(env, s, j, r, other, given);
    case Step(j, ok) =>
      if s.jobs[j].Registering? { RegisterStepInv(env, s, j, ok); } else { WorkInv(env, s, j, ok); }
      if BreaksBatch(s, a) { AbortInv(DoStep(env, s, j, ok), s.jobs[j].worker); }
    case FailAgain(j) => FailAgainInv(env, s, j);
    case Crash(j) => CrashInv(env, s, j);
    case Tick(d) => TickInv(s, d);
  }

  lemma CrashInv(env: Env, s: State, j: nat)
    requires Inv(s) && j in s.jobs
    ensures Inv(Drop(s, j))
  {
    var s' := Drop(s, j);
    forall k | k in s'.jobs ensures JobOk(s', s'.jobs[k]) { assert JobOk(s, s.jobs[k]); }
    forall p | p in s'.files ensures FileOk(s', p) { assert FileOk(s, p); }
    forall id | id in s'.registered ensures Kept(s', id) && s'.registered[id].id == id { assert Kept(s, id); }
  }

  lemma TickInv(s: State, d: nat)
    requires Inv(s)
    ensures Inv(s.(now := s.now + d))
  {
    var s' := s.(now := s.now + d);
    forall k | k in s'.jobs ensures JobOk(s', s'.jobs[k]) { assert JobOk(s, s.jobs[k]); }
    forall p | p in s'.files ensures FileOk(s', p) { assert FileOk(s, p); }
    forall id | id in s'.registered ensures Kept(s', id) && s'.registered[id].id == id { assert Kept(s, id); }
  }

  lemma {:induction false} RunInv(env: Env, acts: seq<Action>)
    requires ValidRun(env, acts)
    ensures Inv(After(env, acts))
  {
    hide Next, Enabled;
    if acts == [] {
      assert Inv(START);
    } else {
      RunInv(env, acts[..|acts| - 1]);
      StepInv(env, After(env, acts[..|acts| - 1]), acts[|acts| - 1]);
    }
  }

  /** Whatever workers, failures, stale copies and crashes do, an event that was
      registered and that nobody processed successfully still has a pending or
      dead-letter file, and that file carries the payload it was registered with. */
  lemma NoEventIsLost(env: Env, acts: seq<Action>, id: EventId)
    requires ValidRun(env, acts)
    ensures var s := After(env, acts);
      id in s.registered && id !in s.processed ==>
        exists p :: p in s.files && (p == Pending(id) || p == Dlq(id)) && s.files[p].EventFile?
                    && s.files[p].event.id == id && s.files[p].event.kind == s.registered[id].kind
  {
    hide Next, Enabled;
    RunInv(env, acts);
    var s := After(env, acts);
    if id in s.registered && id !in s.processed {
      assert Kept(s, id);
      var p := if Pending(id) in s.files then Pending(id) else Dlq(id);
      assert FileOk(s, p);
    }
  }
}
