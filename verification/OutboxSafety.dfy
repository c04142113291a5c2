/** Two more properties of every run of the outbox: what the index may contain,
    and when at most one worker processes an event. */
module OutboxSafety {
  import opened Wrappers
  import opened OutboxTypes
  import opened OutboxProtocol

  // ----- The index holds whole record sets -----

  ghost predicate OnlyUpserts(s: State) {
    forall id :: id in s.registered ==> !s.registered[id].kind.Other?
  }

  ghost function RecordsOf(env: Env, s: State, id: EventId): map<RecordId, Indexed> {
    if id in s.registered then RecordSet(s.registered[id].kind, env.embed) else map[]
  }

  ghost predicate Disjoint(env: Env, s: State) {
    forall x, y, rid :: x in s.registered && y in s.registered && x != y
      ==> !(rid in RecordsOf(env, s, x) && rid in RecordsOf(env, s, y))
  }

  ghost predicate FromApplied(env: Env, s: State, rid: RecordId) {
    rid in s.index && exists id ::
      id in s.applied && rid in RecordsOf(env, s, id) && s.index[rid] == RecordsOf(env, s, id)[rid]
  }

  ghost predicate Present(env: Env, s: State, id: EventId) {
    forall rid :: rid in RecordsOf(env, s, id) ==> rid in s.index
  }

  ghost predicate IndexInv(env: Env, s: State) {
    && s.applied <= s.registered.Keys && s.processed <= s.applied
    && (forall rid :: rid in s.index ==> FromApplied(env, s, rid))
    && (forall id :: id in s.applied ==> Present(env, s, id))
  }

  /** Events, index and history as before: nothing to show. */
  lemma SameIndex(env: Env, s: State, s': State)
    requires IndexInv(env, s) && s'.index == s.index && s'.applied == s.applied && s'.processed == s.processed
    requires s.registered.Keys <= s'.registered.Keys
    requires forall id :: id in s.registered ==> s'.registered[id] == s.registered[id]
    ensures IndexInv(env, s')
  {
    forall id | id in s.applied ensures RecordsOf(env, s', id) == RecordsOf(env, s, id) {
    }
    forall rid | rid in s'.index ensures FromApplied(env, s', rid) {
      assert FromApplied(env, s, rid);
    }
    forall id | id in s'.applied ensures Present(env, s', id) {
      assert Present(env, s, id);
    }
  }

  /** An upsert adds the complete record set of its event. */
  lemma UpsertIndex(env: Env, s: State, s': State, id: EventId)
    requires IndexInv(env, s) && id in s.registered && s'.registered == s.registered
    requires s'.index == s.index + RecordsOf(env, s, id) && s'.applied == s.applied + {id}
    requires s'.processed <= s.processed + {id}
    ensures IndexInv(env, s')
  {
    forall rid | rid in s'.index ensures FromApplied(env, s', rid) {
      if rid in RecordsOf(env, s, id) {
        assert rid in RecordsOf(env, s', id) && s'.index[rid] == RecordsOf(env, s', id)[rid];
      } else {
        assert FromApplied(env, s, rid);
        var x :| x in s.applied && rid in RecordsOf(env, s, x) && s.index[rid] == RecordsOf(env, s, x)[rid];
        assert x in s'.applied && rid in RecordsOf(env, s', x) && s'.index[rid] == RecordsOf(env, s', x)[rid];
      }
    }
    forall x | x in s'.applied ensures Present(env, s', x) {
      if x != id { assert Present(env, s, x); }
    }
  }

  lemma ProcessIndex(env: Env, s: State, a: Action)
    requires Inv(s) && IndexInv(env, s) && OnlyUpserts(s) && Enabled(s, a) && a.Process? && a.given.None?
    ensures IndexInv(env, Next(env, s, a))
  {
    hide Inv, IndexInv, FailureOps, AugmentAll, UpsertAll;
    var copy, s' := s.jobs[a.job].copy, Next(env, s, a);
    JobIsOk(s, a.job);
    if copy.kind.Upsert? && (a.result == Success || a.result == Failure(true)) {
      UpsertIsUnion(s.index, AugmentAll(copy.kind.records, env.embed));
      UpsertIndex(env, s, s', copy.id);
    } else {
      SameIndex(env, s, s');
    }
  }

  lemma QuietHistory(env: Env, s: State, a: Action)
    requires Inv(s) && Enabled(s, a) && !a.Process?
    ensures var s' := Next(env, s, a); s'.index == s.index && s'.applied == s.applied && s'.processed == s.processed
  {
    hide Inv, FailureOps, Apply;
  }

  lemma StepIndex(env: Env, s: State, a: Action)
    requires Inv(s) && IndexInv(env, s) && OnlyUpserts(s) && Enabled(s, a) && (a.Process? ==> a.given.None?)
    ensures IndexInv(env, Next(env, s, a))
  {
    hide Inv, IndexInv, DoProcess;
    if a.Process? {
      ProcessIndex(env, s, a);
    } else {
      hide Next, Enabled;
      QuietHistory(env, s, a);
      OneStepGrows(env, s, a);
      SameIndex(env, s, Next(env, s, a));
    }
  }

  lemma {:induction false} RegisteredGrows(env: Env, acts: seq<Action>, k: nat)
    requires ValidRun(env, acts) && k <= |acts|
    ensures ValidRun(env, acts[..k])
    ensures forall id :: id in After(env, acts[..k]).registered ==>
      id in After(env, acts).registered && After(env, acts).registered[id] == After(env, acts[..k]).registered[id]
  {
    hide Inv, FailureOps, DoProcess;
    if k < |acts| {
      var init := acts[..|acts| - 1];
      RegisteredGrows(env, init, k);
      assert init[..k] == acts[..k];
      RunInv(env, init);
      var a := acts[|acts| - 1];
      if a.Step? && After(env, init).jobs[a.job].Registering? { JobIsOk(After(env, init), a.job); }
      OneStepGrows(env, After(env, init), a);
    } else {
      assert acts[..k] == acts;
    }
  }

  lemma OneStepGrows(env: Env, s: State, a: Action)
    requires Inv(s) && Enabled(s, a)
    ensures forall id :: id in s.registered ==>
      id in Next(env, s, a).registered && Next(env, s, a).registered[id] == s.registered[id]
  {
    hide Inv, FailureOps;
    if a.Step? && s.jobs[a.job].Registering? { JobIsOk(s, a.job); }
  }

  /** The embedder always answers with one vector per record. */
  ghost predicate EveryVector(acts: seq<Action>) {
    forall a :: a in acts && a.Process? ==> a.given.None?
  }

  lemma {:induction false} RunIndex(env: Env, acts: seq<Action>)
    requires ValidRun(env, acts) && OnlyUpserts(After(env, acts)) && EveryVector(acts)
    ensures IndexInv(env, After(env, acts))
  {
    hide Inv, Next, Enabled;
    if acts != [] {
      var k := |acts| - 1;
      RegisteredGrows(env, acts, k);
      RunIndex(env, acts[..k]);
      RunInv(env, acts[..k]);
      assert acts[k] in acts;
      StepIndex(env, After(env, acts[..k]), acts[k]);
    }
  }

  /** With events that only upsert, whose record ids are pairwise disjoint, and an
      embedder that answers with a vector for every record,
        the index is at every moment the union of the complete record sets of some
      registered events, among them every event that was processed successfully. */
  lemma IndexIsUnionOfRecordSets(env: Env, acts: seq<Action>)
    requires ValidRun(env, acts)
    requires OnlyUpserts(After(env, acts)) && Disjoint(env, After(env, acts)) && EveryVector(acts)
    ensures var s := After(env, acts);
      exists done :: s.processed <= done <= s.registered.Keys
        && (forall rid :: rid in s.index <==> exists id :: id in done && rid in RecordsOf(env, s, id))
        && (forall id, rid :: id in done && rid in RecordsOf(env, s, id) ==>
          rid in s.index && s.index[rid] == RecordsOf(env, s, id)[rid])
  {
    hide Next, Enabled;
    RunIndex(env, acts);
    var s := After(env, acts);
    var done := s.applied;
    forall rid ensures rid in s.index <==> exists id :: id in done && rid in RecordsOf(env, s, id) {
      if rid in s.index { assert FromApplied(env, s, rid); }
      if id :| id in done && rid in RecordsOf(env, s, id) { assert Present(env, s, id); }
    }
    forall id, rid | id in done && rid in RecordsOf(env, s, id)
      ensures rid in s.index && s.index[rid] == RecordsOf(env, s, id)[rid]
    {
      assert Present(env, s, id) && FromApplied(env, s, rid);
      var x :| x in s.applied && rid in RecordsOf(env, s, x) && s.index[rid] == RecordsOf(env, s, x)[rid];
      assert x == id;
    }
  }

  // ----- Retry counts, delays, dead letters -----

  /** A dead letter is exhausted and marked; a pending event that was tried before is due
      after the delay that goes with its count, counted from when it failed. */
  ghost predicate ContentBounded(c: Config, now: Time, p: Path, x: Content) {
    x.EventFile? ==>
      var e := x.event;
      && e.retries <= c.maxRetry
      && if p.Dlq? then e.retries == c.maxRetry && e.status == FAILED
         else e.status == PENDING && (e.retries > 0 ==> Delayed(c, now, e.retries - 1, e.nextRetryAt))
  }

  /** Due some time after a failure by now: base * 2^k later, or as late as the cap. */
  ghost predicate Delayed(c: Config, now: Time, k: nat, due: Time) {
    var delay := Least(c.baseDelay * Power2(k), c.maxDelay);
    delay <= due <= now + delay
  }

  ghost predicate OpBounded(c: Config, now: Time, op: FileOp) {
    match op
    case Write(p, x) => ContentBounded(c, now, p, x)
    case Rename(from, to) => from.Temp? && to.Pending?
    case Rm(_) => true
  }

  ghost predicate JobBounded(c: Config, now: Time, job: Job) {
    && (job.Registering? ==> job.event.retries == 0 && job.event.status == PENDING)
    && (job.Working? ==> job.copy.retries <= c.maxRetry)
    && forall op :: op in JobOps(job) ==> OpBounded(c, now, op)
  }

  ghost predicate Bounded(c: Config, s: State) {
    && (forall p :: p in s.files ==> ContentBounded(c, s.now, p, s.files[p]))
    && (forall j :: j in s.jobs ==> JobBounded(c, s.now, s.jobs[j]))
  }

  lemma LaterBounded(c: Config, now: Time, now': Time, p: Path, x: Content)
    requires ContentBounded(c, now, p, x) && now <= now'
    ensures ContentBounded(c, now', p, x)
  {
  }

  lemma FailureBounded(c: Config, copy: Event, now: Time)
    requires copy.retries <= c.maxRetry
    ensures forall op :: op in FailureOps(c, copy, now) ==> OpBounded(c, now, op)
  {
    hide Backoff, Power2;
    BackoffShape(c, copy.retries);
    assert Delayed(c, now, copy.retries, now + Backoff(c, copy.retries));
  }

  lemma ApplyBounded(c: Config, now: Time, files: Files, op: FileOp)
    requires (forall p :: p in files ==> ContentBounded(c, now, p, files[p])) && OpBounded(c, now, op)
    ensures forall p :: p in Apply(files, op) ==> ContentBounded(c, now, p, Apply(files, op)[p])
  {
    hide Delayed;
  }

  lemma WorkBounded(env: Env, s: State, j: nat, ok: bool)
    requires Bounded(env.config, s) && Enabled(s, Step(j, ok))
    ensures Bounded(env.config, DoStep(env, s, j, ok))
  {
    hide Apply, OpBounded, ContentBounded, DoStep;
    var job, s', c := s.jobs[j], DoStep(env, s, j, ok), env.config;
    StepFrame(env, s, j, ok);
    var op := JobOps(job)[0];
    assert op in JobOps(job) && JobBounded(c, s.now, job);
    ApplyBounded(c, s.now, s.files, op);
    if j in s'.jobs { StepJobBounded(env, s, j, ok); }
    forall k | k in s'.jobs ensures JobBounded(c, s.now, s'.jobs[k]) {
      if k != j { assert s'.jobs[k] == s.jobs[k] && JobBounded(c, s.now, s.jobs[k]); }
    }
  }

  lemma StepFrame(env: Env, s: State, j: nat, ok: bool)
    requires Enabled(s, Step(j, ok))
    ensures var s' := DoStep(env, s, j, ok);
      OnlyJob(s, s', j) && s'.now == s.now && s'.files == if ok then Apply(s.files, JobOps(s.jobs[j])[0]) else s.files
  {
    hide Apply, RegisterOps, DirectOps;
  }

  lemma StepJobBounded(env: Env, s: State, j: nat, ok: bool)
    requires Enabled(s, Step(j, ok)) && JobBounded(env.config, s.now, s.jobs[j]) && j in DoStep(env, s, j, ok).jobs
    ensures JobBounded(env.config, s.now, DoStep(env, s, j, ok).jobs[j])
  {
    hide DoStep, JobBounded;
    if s.jobs[j].Registering? { RegistrationBounded(env, s, j, ok); } else { SettlingBounded(env, s, j, ok); }
  }

  lemma RegistrationBounded(env: Env, s: State, j: nat, ok: bool)
    requires Enabled(s, Step(j, ok)) && s.jobs[j].Registering? && JobBounded(env.config, s.now, s.jobs[j])
    requires j in DoStep(env, s, j, ok).jobs
    ensures JobBounded(env.config, s.now, DoStep(env, s, j, ok).jobs[j])
  {
    hide Apply, OpBounded, JobBounded, DirectOps;
    var c, job, job' := env.config, s.jobs[j], DoStep(env, s, j, ok).jobs[j];
    DirectBounded(c, s.now, job);
    assert job' == Registering(job.event, DirectOps(job.event)) || job' == Registering(job.event, job.ops[1..]);
    FewerBounded(c, s.now, job, job', 1);
  }

  lemma SettlingBounded(env: Env, s: State, j: nat, ok: bool)
    requires Enabled(s, Step(j, ok)) && s.jobs[j].Working? && JobBounded(env.config, s.now, s.jobs[j])
    requires j in DoStep(env, s, j, ok).jobs
    ensures JobBounded(env.config, s.now, DoStep(env, s, j, ok).jobs[j])
  {
    hide Apply, OpBounded, JobBounded, DirectOps;
    var c, job, job' := env.config, s.jobs[j], DoStep(env, s, j, ok).jobs[j];
    FewerBounded(c, s.now, job, job', if job'.stage.Settling? then 1 else |job.stage.ops|);
  }

  lemma DirectBounded(c: Config, now: Time, job: Job)
    requires job.Registering? && JobBounded(c, now, job)
    ensures JobBounded(c, now, Registering(job.event, DirectOps(job.event)))
  {
  }

  /** Some operations are done, and the event in memory is as the first one had it. */
  lemma FewerBounded(c: Config, now: Time, job: Job, job': Job, n: nat)
    requires JobBounded(c, now, job) && n <= |JobOps(job)| && JobOps(job) != []
    requires job.Registering? && job'.Registering? ==> job'.event == job.event
    requires job.Working? <==> job'.Working?
    requires job.Working? ==> job'.copy == InMemory(job.copy, JobOps(job)[0])
    ensures JobOps(job') == JobOps(job)[n..] ==> JobBounded(c, now, job')
  {
    hide Delayed;
    assert OpBounded(c, now, JobOps(job)[0]);
    if JobOps(job') == JobOps(job)[n..] {
      forall op | op in JobOps(job') ensures OpBounded(c, now, op) { assert op in JobOps(job); }
    }
  }

  lemma StepBounded(env: Env, s: State, a: Action)
    requires Bounded(env.config, s) && Enabled(s, a)
    ensures Bounded(env.config, Next(env, s, a))
  {
    hide DoStep, DoProcess, FailureOps, Apply;
    match a
    case Step(j, ok) =>
      WorkBounded(env, s, j, ok);
      if BreaksBatch(s, a) { AbortBounded(env.config, DoStep(env, s, j, ok), s.jobs[j].worker); }
    case Process(j, r, other, given) => ProcessBounded(env, s, a);
    case FailAgain(j) =>
      assert JobBounded(env.config, s.now, s.jobs[j]);
      FailureBounded(env.config, s.jobs[j].copy, s.now);
    case _ => OtherBounded(env, s, a);
  }

  lemma AbortBounded(c: Config, s: State, worker: string)
    requires Bounded(c, s)
    ensures Bounded(c, Abort(s, worker))
  {
    hide OpBounded, ContentBounded;
    forall j | j in s.jobs ensures JobBounded(c, s.now, Doomed(s.jobs[j], worker)) {
      assert JobBounded(c, s.now, s.jobs[j]);
    }
  }

  lemma ProcessBounded(env: Env, s: State, a: Action)
    requires Bounded(env.config, s) && Enabled(s, a) && a.Process?
    ensures Bounded(env.config, Next(env, s, a))
  {
    hide FailureOps, Stored, UpsertAll, OpBounded, ContentBounded;
    var c, job, s' := env.config, s.jobs[a.job], Next(env, s, a);
    assert JobBounded(c, s.now, job);
    FailureBounded(c, job.copy, s.now);
    DoneBounded(c, s.now, job.copy.id);
    forall j | j in s'.jobs ensures JobBounded(c, s.now, s'.jobs[j]) {
      if j != a.job { assert JobBounded(c, s.now, s.jobs[j]); }
    }
  }

  lemma DoneBounded(c: Config, now: Time, id: EventId)
    ensures forall op :: op in DoneOps(id) ==> OpBounded(c, now, op)
  {
  }

  lemma OtherBounded(env: Env, s: State, a: Action)
    requires Bounded(env.config, s) && Enabled(s, a) && !a.Step? && !a.Process? && !a.FailAgain?
    ensures Bounded(env.config, Next(env, s, a))
  {
    hide Delayed;
    var c, s' := env.config, Next(env, s, a);
    forall j | j in s'.jobs ensures JobBounded(c, s'.now, s'.jobs[j]) {
      if j in s.jobs { LaterJob(c, s.now, s'.now, s.jobs[j]); }
      if a.List? { assert ContentBounded(c, s.now, Pending(a.id), s.files[Pending(a.id)]); }
    }
    forall p | p in s'.files ensures ContentBounded(c, s'.now, p, s'.files[p]) {
      if p in s.files && s'.files[p] == s.files[p] { LaterBounded(c, s.now, s'.now, p, s.files[p]); }
    }
  }

  lemma LaterJob(c: Config, now: Time, now': Time, job: Job)
    requires JobBounded(c, now, job) && now <= now'
    ensures JobBounded(c, now', job)
  {
    hide ContentBounded;
    forall op | op in JobOps(job) ensures OpBounded(c, now', op) {
      assert OpBounded(c, now, op);
      if op.Write? { LaterBounded(c, now, now', op.path, op.content); }
    }
  }

  lemma {:induction false} RunBounded(env: Env, acts: seq<Action>)
    requires ValidRun(env, acts)
    ensures Bounded(env.config, After(env, acts))
  {
    hide Next, Enabled, Bounded;
    if acts == [] {
      assert Bounded(env.config, START) by { NothingBounded(env.config); }
    } else {
      RunBounded(env, acts[..|acts| - 1]);
      StepBounded(env, After(env, acts[..|acts| - 1]), acts[|acts| - 1]);
    }
  }

  lemma NothingBounded(c: Config)
    ensures Bounded(c, START)
  {
  }

  /** However many workers retry an event from stale copies, and however often a batch
      fails again: no retry count, on file or in memory, ever exceeds the maximum; a dead
      letter has reached it and is marked as failed; and a pending event that was tried k
      times is due base * 2^(k - 1), or the cap, after some moment in the past. */
  lemma RetriesStayBounded(env: Env, acts: seq<Action>)
    requires ValidRun(env, acts)
    ensures var s, c := After(env, acts), env.config;
      && (forall p :: p in s.files && s.files[p].EventFile? ==> s.files[p].event.retries <= c.maxRetry)
      && (forall j :: j in s.jobs && s.jobs[j].Working? ==> s.jobs[j].copy.retries <= c.maxRetry)
    ensures var s, c := After(env, acts), env.config;
      && (forall id :: Dlq(id) in s.files && s.files[Dlq(id)].EventFile? ==> IsExhausted(c, s.files[Dlq(id)].event))
      && (forall id :: Pending(id) in s.files && s.files[Pending(id)].EventFile? ==>
            IsScheduled(c, s.now, s.files[Pending(id)].event))
  {
    hide Next, Enabled, Delayed;
    RunBounded(env, acts);
    var s := After(env, acts);
    forall p | p in s.files && s.files[p].EventFile?
      ensures s.files[p].event.retries <= env.config.maxRetry
      ensures p.Dlq? ==> IsExhausted(env.config, s.files[p].event)
      ensures p.Pending? ==> IsScheduled(env.config, s.now, s.files[p].event)
    {
      assert ContentBounded(env.config, s.now, p, s.files[p]);
    }
    forall j | j in s.jobs && s.jobs[j].Working? ensures s.jobs[j].copy.retries <= env.config.maxRetry {
      assert JobBounded(env.config, s.now, s.jobs[j]);
    }
  }

  ghost predicate IsExhausted(c: Config, e: Event) {
    e.retries == c.maxRetry && e.status == FAILED
  }

  ghost predicate IsScheduled(c: Config, now: Time, e: Event) {
    e.status == PENDING && (e.retries > 0 ==> Delayed(c, now, e.retries - 1, e.nextRetryAt))
  }

  // ----- At most one worker at a time -----

  predicate Holds(job: Job) {
    job.Working? && (job.stage.Held? || job.stage.Settling? || job.stage.Failing?)
  }

  /** The holder's own lock file is there, as old as its acquisition. */
  ghost predicate Guarded(s: State, job: Job)
    requires Holds(job)
  {
    && Lock(job.copy.id) in s.files && s.files[Lock(job.copy.id)] == LockFile(job.worker, job.stage.at)
  }

  ghost predicate Exclusive(s: State) {
    forall j, k :: j in s.jobs && k in s.jobs && j != k && Holds(s.jobs[j]) && Holds(s.jobs[k])
      ==> s.jobs[j].copy.id != s.jobs[k].copy.id
  }

  ghost predicate MutexInv(s: State) {
    Exclusive(s) && forall j :: j in s.jobs && Holds(s.jobs[j]) ==> Guarded(s, s.jobs[j])
  }

  /** Nobody has held an event for as long as the lock timeout. */
  ghost predicate Timely(s: State) {
    forall j :: j in s.jobs && Holds(s.jobs[j]) ==> s.now < s.jobs[j].stage.at + LOCK_TIMEOUT
  }

  ghost predicate TimelyRun(env: Env, acts: seq<Action>) {
    forall k :: 0 <= k <= |acts| && ValidRun(env, acts[..k]) ==> Timely(After(env, acts[..k]))
  }

  ghost predicate AtomicAcquire(acts: seq<Action>) {
    forall a :: a in acts ==> !a.CheckLock? && !a.WriteLock?
  }

  /** No lock file is taken for missing because it could not be read. */
  ghost predicate LocksReadable(acts: seq<Action>) {
    forall a :: a in acts && a.Acquire? ==> a.readable
  }

  /** No batch is cut short by a write that fails. */
  ghost predicate BatchesComplete(env: Env, acts: seq<Action>) {
    forall k :: 0 <= k < |acts| ==> BatchGoesOn(env, acts, k)
  }

  ghost predicate BatchGoesOn(env: Env, acts: seq<Action>, k: nat)
    requires k < |acts|
  {
    ValidRun(env, acts[..k]) && Enabled(After(env, acts[..k]), acts[k]) ==> !BreaksBatch(After(env, acts[..k]), acts[k])
  }

  lemma AcquireMutex(env: Env, s: State, a: Action)
    requires MutexInv(s) && Timely(s) && Enabled(s, a) && a.Acquire? && a.readable
    ensures MutexInv(Next(env, s, a))
  {
    var s', id := Next(env, s, a), s.jobs[a.job].copy.id;
    forall j | j in s'.jobs && j != a.job && Holds(s'.jobs[j])
      ensures Guarded(s', s'.jobs[j]) && (a.job in s'.jobs ==> s'.jobs[j].copy.id != id)
    {
      assert Guarded(s, s.jobs[j]);
    }
  }

  /** What one file operation does to jobs and locks. */
  ghost predicate LockEffect(s: State, s': State, j: nat)
    requires j in s.jobs
  {
    var job := s.jobs[j];
    && OnlyJob(s, s', j)
    && (j in s'.jobs && Holds(s'.jobs[j]) ==>
          Holds(job) && s'.jobs[j].copy.id == job.copy.id && s'.jobs[j].worker == job.worker
          && s'.jobs[j].stage.at == job.stage.at && SameFile(s, s', Lock(job.copy.id)))
    && (forall id :: SameFile(s, s', Lock(id)) || (Holds(job) && id == job.copy.id))
  }

  lemma StepEffect(env: Env, s: State, j: nat, ok: bool)
    requires Inv(s) && Enabled(s, Step(j, ok))
    ensures LockEffect(s, DoStep(env, s, j, ok), j)
  {
    hide Inv, FailureOps, OpsOk, Faithful, DoStep, LockEffect;
    JobIsOk(s, j);
    var job := s.jobs[j];
    if job.Working? {
      OpsHead(s, job.copy, job.stage.ops);
      OpsLast(s, job.copy, job.stage.ops);
      WorkEffect(env, s, j, ok);
    } else {
      RegisterEffect(env, s, j, ok);
    }
  }

  lemma WorkEffect(env: Env, s: State, j: nat, ok: bool)
    requires Enabled(s, Step(j, ok)) && s.jobs[j].Working? && s.jobs[j].stage.Settling?
    requires var job := s.jobs[j];
      HeadOk(s, job.copy, job.stage.ops[0]) && (job.stage.ops[0] == Rm(Lock(job.copy.id)) ==> |job.stage.ops| == 1)
    ensures LockEffect(s, DoStep(env, s, j, ok), j)
  {
    hide FailureOps;
  }

  lemma RegisterEffect(env: Env, s: State, j: nat, ok: bool)
    requires Enabled(s, Step(j, ok)) && s.jobs[j].Registering? && JobOk(s, s.jobs[j])
    ensures LockEffect(s, DoStep(env, s, j, ok), j)
  {
  }

  lemma StepMutex(env: Env, s: State, a: Action)
    requires Inv(s) && MutexInv(s) && Enabled(s, a) && a.Step? && !BreaksBatch(s, a)
    ensures MutexInv(Next(env, s, a))
  {
    hide Inv, DoStep;
    var s', job := Next(env, s, a), s.jobs[a.job];
    StepEffect(env, s, a.job, a.ok);
    forall j | j in s'.jobs && Holds(s'.jobs[j]) ensures Guarded(s', s'.jobs[j]) && j in s.jobs && Holds(s.jobs[j]) {
      assert Guarded(s, s.jobs[j]);
      if j != a.job { assert SameFile(s, s', Lock(s.jobs[j].copy.id)); }
    }
  }

  /** A lock is removed only by the last operation of its holder. */
  lemma OpsLast(s: State, copy: Event, ops: seq<FileOp>)
    requires OpsOk(s, copy, ops) && ops != []
    ensures ops[0] == Rm(Lock(copy.id)) ==> |ops| == 1
  {
  }

  lemma ProcessMutex(env: Env, s: State, a: Action)
    requires MutexInv(s) && Enabled(s, a) && a.Process?
    ensures MutexInv(Next(env, s, a))
  {
    hide FailureOps, UpsertAll, AugmentAll;
    var s' := Next(env, s, a);
    forall j | j in s'.jobs && Holds(s'.jobs[j]) ensures Guarded(s', s'.jobs[j]) && j in s.jobs && Holds(s.jobs[j]) {
      assert Guarded(s, s.jobs[j]);
    }
  }

  lemma OtherMutex(env: Env, s: State, a: Action)
    requires MutexInv(s) && Enabled(s, a) && (a.Register? || a.List? || a.FailAgain? || a.Crash? || a.Tick?)
    ensures MutexInv(Next(env, s, a))
  {
    var s' := Next(env, s, a);
    forall j | j in s'.jobs && Holds(s'.jobs[j]) ensures Guarded(s', s'.jobs[j]) && j in s.jobs && Holds(s.jobs[j]) {
      assert Guarded(s, s.jobs[j]);
    }
  }

  lemma StepsMutex(env: Env, s: State, a: Action)
    requires Inv(s) && MutexInv(s) && Timely(s) && Enabled(s, a) && !a.CheckLock? && !a.WriteLock?
    requires (a.Acquire? ==> a.readable) && !BreaksBatch(s, a)
    ensures MutexInv(Next(env, s, a))
  {
    hide Inv, Next, Enabled, MutexInv, BreaksBatch;
    if a.Acquire? { AcquireMutex(env, s, a); }
    else if a.Step? { StepMutex(env, s, a); }
    else if a.Process? { ProcessMutex(env, s, a); }
    else { OtherMutex(env, s, a); }
  }

  /** The conditions carry over to the run without its last action. */
  lemma Shorter(env: Env, acts: seq<Action>)
    requires acts != [] && AtomicAcquire(acts) && LocksReadable(acts) && BatchesComplete(env, acts)
    requires TimelyRun(env, acts)
    ensures var init := acts[..|acts| - 1];
      AtomicAcquire(init) && LocksReadable(init) && BatchesComplete(env, init) && TimelyRun(env, init)
  {
    hide ValidRun, After, Enabled, BreaksBatch, Timely;
    var k := |acts| - 1;
    forall i | 0 <= i <= k && ValidRun(env, acts[..k][..i]) ensures Timely(After(env, acts[..k][..i])) {
      assert acts[..k][..i] == acts[..i];
    }
    forall i | 0 <= i < k ensures BatchGoesOn(env, acts[..k], i) {
      assert acts[..k][..i] == acts[..i] && acts[..k][i] == acts[i] && BatchGoesOn(env, acts, i);
    }
  }

  lemma {:induction false} RunMutex(env: Env, acts: seq<Action>)
    requires ValidRun(env, acts) && AtomicAcquire(acts) && LocksReadable(acts) && BatchesComplete(env, acts)
    requires TimelyRun(env, acts)
    ensures MutexInv(After(env, acts))
  {
    hide Inv, Next, Enabled, MutexInv, BreaksBatch;
    if acts == [] {
      assert MutexInv(START) by { EmptyMutex(); }
    } else {
      var k := |acts| - 1;
      Shorter(env, acts);
      RunMutex(env, acts[..k]);
      RunInv(env, acts[..k]);
      assert acts[k] in acts && Timely(After(env, acts[..k])) && BatchGoesOn(env, acts, k);
      StepsMutex(env, After(env, acts[..k]), acts[k]);
    }
  }

  lemma EmptyMutex()
    ensures MutexInv(START)
  {
  }

  /** No two workers ever hold the same event, although a lock file is removed without
      looking at its owner, provided that taking a lock is one step, lock files can be
      read, no batch is cut short by a failed write, and every holder is done before
      the timeout counted from its own acquisition. */
  lemma OneWorkerPerEvent(env: Env, acts: seq<Action>)
    requires ValidRun(env, acts) && AtomicAcquire(acts) && LocksReadable(acts) && BatchesComplete(env, acts)
    requires TimelyRun(env, acts)
    ensures Exclusive(After(env, acts))
  {
    hide Next, Enabled, BreaksBatch;
    RunMutex(env, acts);
  }

  // ----- Each condition is needed -----

  /** One action more. */
  lemma Then(env: Env, acts: seq<Action>, s: State, a: Action, s': State)
    requires ValidRun(env, acts) && After(env, acts) == s && Enabled(s, a) && Next(env, s, a) == s'
    ensures ValidRun(env, acts + [a]) && After(env, acts + [a]) == s'
  {
    hide Next, Enabled;
    assert (acts + [a])[..|acts|] == acts;
  }

  /** What a step leaves behind, as far as the runs below need it. */
  ghost predicate Reached(env: Env, acts: seq<Action>, jobs: map<nat, Job>, files: Files) {
    ValidRun(env, acts) && After(env, acts).jobs == jobs && After(env, acts).files == files && After(env, acts).now == 0
  }

  /** An event is registered. */
  lemma ThenRegisters(env: Env, acts: seq<Action>, files: Files, e: Event) returns (acts': seq<Action>)
    requires Reached(env, acts, map[], files) && Unused(After(env, acts), e.id) && e.retries == 0 && e.status == PENDING
    requires Temp(e.id) !in files
    ensures Reached(env, acts', map[], files[Pending(e.id) := EventFile(e)])
    ensures forall id :: id != e.id && Unused(After(env, acts), id) ==> Unused(After(env, acts'), id)
    ensures acts' == acts + [Register(0, e)] + [Step(0, true)] + [Step(0, true)]
  {
    var ops, s := RegisterOps(e), After(env, acts);
    var s1 := s.(jobs := map[0 := Registering(e, ops)]);
    var s2 := s.(files := files[Temp(e.id) := EventFile(e)], jobs := map[0 := Registering(e, ops[1..])]);
    var s3 := s.(files := files[Pending(e.id) := EventFile(e)], registered := s.registered[e.id := e]);
    Then(env, acts, s, Register(0, e), s1);
    Then(env, acts + [Register(0, e)], s1, Step(0, true), s2);
    RenameDone(env, e, s2, s3, files);
    Then(env, acts + [Register(0, e)] + [Step(0, true)], s2, Step(0, true), s3);
    acts' := acts + [Register(0, e)] + [Step(0, true)] + [Step(0, true)];
  }

  lemma RenameDone(env: Env, e: Event, s: State, s': State, files: Files)
    requires Temp(e.id) !in files
    requires s.files == files[Temp(e.id) := EventFile(e)] && s.jobs == map[0 := Registering(e, RegisterOps(e)[1..])]
    requires s' == s.(files := files[Pending(e.id) := EventFile(e)], jobs := map[],
      registered := s.registered[e.id := e])
    ensures Enabled(s, Step(0, true)) && Next(env, s, Step(0, true)) == s'
  {
    assert Apply(s.files, RegisterOps(e)[1]) == s'.files;
    assert s.jobs - {0} == map[];
  }

  /** A worker lists the pending event. */
  lemma ThenLists(env: Env, acts: seq<Action>, jobs: map<nat, Job>, files: Files, j: nat, w: string, e: Event)
    requires Reached(env, acts, jobs, files) && j !in jobs
    requires Pending(e.id) in files && files[Pending(e.id)] == EventFile(e)
    ensures Reached(env, acts + [List(j, w, e.id)], jobs[j := Working(w, e, Listed)], files)
  {
    var s := After(env, acts);
    Then(env, acts, s, List(j, w, e.id), s.(jobs := jobs[j := Working(w, e, Listed)]));
  }

  /** Worker j finds no lock; nothing else moves. */
  lemma ThenChecks(env: Env, acts: seq<Action>, jobs: map<nat, Job>, files: Files, j: nat, w: string, e: Event)
    requires Reached(env, acts, jobs, files) && j in jobs && jobs[j] == Working(w, e, Listed) && Lock(e.id) !in files
    ensures Reached(env, acts + [CheckLock(j, true)], jobs[j := Working(w, e, Checked)], files)
  {
    var s := After(env, acts);
    Then(env, acts, s, CheckLock(j, true), s.(jobs := jobs[j := Working(w, e, Checked)]));
  }

  /** Worker j writes the lock: it had checked before, or there is none, or it cannot
      read the one there is. */
  lemma ThenTakes(env: Env, acts: seq<Action>, jobs: map<nat, Job>, files: Files, j: nat, a: Action, w: string,
                  e: Event)
    requires Reached(env, acts, jobs, files) && j in jobs
    requires || (a == WriteLock(j) && jobs[j] == Working(w, e, Checked))
             || (a == Acquire(j, true) && jobs[j] == Working(w, e, Listed) && Lock(e.id) !in files)
             || (a == Acquire(j, false) && jobs[j] == Working(w, e, Listed))
    ensures Reached(env, acts + [a], jobs[j := Working(w, e, Held(0))], files[Lock(e.id) := LockFile(w, 0)])
  {
    Then(env, acts, After(env, acts), a, TakeLock(After(env, acts), j));
  }

  /** The handler of job j ends. */
  lemma ThenProcesses(env: Env, acts: seq<Action>, jobs: map<nat, Job>, files: Files, j: nat, r: Result, w: string,
                      e: Event)
    requires Reached(env, acts, jobs, files) && j in jobs && jobs[j] == Working(w, e, Held(0)) && e.kind.Upsert?
    ensures var ops := if r == Success then DoneOps(e.id) else FailureOps(env.config, e, 0);
      Reached(env, acts + [Process(j, r, map[], None)], jobs[j := Working(w, e, Settling(0, ops))], files)
  {
    hide UpsertAll, AugmentAll, FailureOps;
    Then(env, acts, After(env, acts), Process(j, r, map[], None), DoProcess(env, After(env, acts), j, r, map[], None));
  }

  /** The next operation of job j takes effect. */
  lemma ThenSteps(env: Env, acts: seq<Action>, jobs: map<nat, Job>, files: Files, j: nat, w: string, e: Event,
                  ops: seq<FileOp>)
    requires Reached(env, acts, jobs, files) && j in jobs && jobs[j] == Working(w, e, Settling(0, ops)) && ops != []
    requires InBatch(jobs[j])
    ensures var stage := if |ops| == 1 then Over(0) else Settling(0, ops[1..]);
      Reached(env, acts + [Step(j, true)], jobs[j := Working(w, InMemory(e, ops[0]), stage)], Apply(files, ops[0]))
  {
    hide Apply;
    Then(env, acts, After(env, acts), Step(j, true), DoStep(env, After(env, acts), j, true));
  }

  /** The next operation of job j is a write and fails: its whole batch fails again. */
  lemma ThenBreaks(env: Env, acts: seq<Action>, jobs: map<nat, Job>, files: Files, j: nat, w: string, e: Event,
                   ops: seq<FileOp>)
    requires Reached(env, acts, jobs, files) && j in jobs && jobs[j] == Working(w, e, Settling(0, ops))
    requires InBatch(jobs[j])
    requires ops != [] && ops[0].Write? && ops[0].content.EventFile?
    ensures var jobs1 := jobs[j := Working(w, ops[0].content.event, Failing(0))];
      Reached(env, acts + [Step(j, false)], map k | k in jobs1 :: Doomed(jobs1[k], w), files)
  {
    var s := After(env, acts);
    Then(env, acts, s, Step(j, false), Abort(DoStep(env, s, j, false), w));
  }

  lemma ThenFailsAgain(env: Env, acts: seq<Action>, jobs: map<nat, Job>, files: Files, j: nat, w: string, e: Event)
    requires Reached(env, acts, jobs, files) && j in jobs && jobs[j] == Working(w, e, Failing(0))
    ensures Reached(env, acts + [FailAgain(j)], jobs[j := Working(w, e, Settling(0, FailureOps(env.config, e, 0)))],
      files)
  {
    hide FailureOps;
    var s := After(env, acts);
    Then(env, acts, s, FailAgain(j), s.(jobs := jobs[j := Working(w, e, Settling(0, FailureOps(env.config, e, 0)))]));
  }

  lemma NothingYet(env: Env)
    ensures Reached(env, [], map[], map[]) && forall id :: Unused(After(env, []), id)
  {
  }

  ghost predicate BothHold(s: State, v: string, w: string, e: Event) {
    exists j, k, at, at' :: j in s.jobs && k in s.jobs && j != k && s.jobs[j] == Working(v, e, Held(at)) &&
      s.jobs[k] == Working(w, e, Held(at'))
  }

  lemma BothAre(s: State, j: nat, k: nat, v: string, w: string, e: Event, at: Time, at': Time)
    requires j in s.jobs && k in s.jobs && j != k && s.jobs[j] == Working(v, e, Held(at))
    requires s.jobs[k] == Working(w, e, Held(at'))
    ensures BothHold(s, v, w, e)
  {
  }

  ghost predicate Still(acts: seq<Action>) {
    forall a :: a in acts ==> !a.Tick?
  }

  /** A run in which no time passes is timely. */
  lemma {:induction false} StillIsNow(env: Env, acts: seq<Action>)
    requires ValidRun(env, acts) && Still(acts)
    ensures After(env, acts).now == 0
  {
    hide Next, Enabled;
    if acts != [] {
      StillIsNow(env, acts[..|acts| - 1]);
      assert acts[|acts| - 1] in acts;
      SameTime(env, After(env, acts[..|acts| - 1]), acts[|acts| - 1]);
    }
  }

  lemma SameTime(env: Env, s: State, a: Action)
    requires Enabled(s, a)
    ensures Next(env, s, a).now == s.now + if a.Tick? then a.elapsed else 0
  {
    hide FailureOps, Apply, UpsertAll, AugmentAll;
  }

  lemma StillIsTimely(env: Env, acts: seq<Action>)
    requires Still(acts)
    ensures TimelyRun(env, acts)
  {
    hide ValidRun, After;
    forall k | 0 <= k <= |acts| && ValidRun(env, acts[..k]) ensures Timely(After(env, acts[..k])) {
      StillIsNow(env, acts[..k]);
    }
  }

  ghost predicate StepsSucceed(acts: seq<Action>) {
    forall a :: a in acts && a.Step? ==> a.ok
  }

  lemma StepsSucceedComplete(env: Env, acts: seq<Action>)
    requires StepsSucceed(acts)
    ensures BatchesComplete(env, acts)
  {
    hide ValidRun, After;
    forall k | 0 <= k < |acts| ensures BatchGoesOn(env, acts, k) {
      assert acts[k] in acts;
    }
  }

  /** Which conditions an action keeps. */
  lemma Appended(acts: seq<Action>, a: Action)
    ensures AtomicAcquire(acts) && !a.CheckLock? && !a.WriteLock? ==> AtomicAcquire(acts + [a])
    ensures LocksReadable(acts) && (a.Acquire? ==> a.readable) ==> LocksReadable(acts + [a])
    ensures Still(acts) && !a.Tick? ==> Still(acts + [a])
    ensures StepsSucceed(acts) && (a.Step? ==> a.ok) ==> StepsSucceed(acts + [a])
  {
  }

  /** Nothing special happened so far. */
  ghost predicate Plain(acts: seq<Action>) {
    AtomicAcquire(acts) && LocksReadable(acts) && Still(acts) && StepsSucceed(acts)
  }

  lemma PlainMore(acts: seq<Action>, a: Action)
    requires Plain(acts) && !a.CheckLock? && !a.WriteLock? && (a.Acquire? ==> a.readable) && !a.Tick?
    requires (a.Step? ==> a.ok)
    ensures Plain(acts + [a])
  {
    Appended(acts, a);
  }

  ghost predicate NewEvent(e: Event) {
    e.retries == 0 && e.status == PENDING
  }

  /** One event on file, listed by two workers. */
  lemma TwoListed(env: Env, v: string, w: string, e: Event) returns (acts: seq<Action>)
    requires NewEvent(e)
    ensures Plain(acts)
    ensures Reached(env, acts, map[1 := Working(v, e, Listed), 2 := Working(w, e, Listed)],
      map[Pending(e.id) := EventFile(e)])
  {
    hide Reached, AtomicAcquire, LocksReadable, Still, StepsSucceed;
    NothingYet(env);
    var a0 := ThenRegisters(env, [], map[], e);
    var files: Files := map[Pending(e.id) := EventFile(e)];
    EmptyIsPlain();
    PlainMore([], Register(0, e));
    PlainMore([] + [Register(0, e)], Step(0, true));
    PlainMore([] + [Register(0, e)] + [Step(0, true)], Step(0, true));
    ThenLists(env, a0, map[], files, 1, v, e);
    PlainMore(a0, List(1, v, e.id));
    var a1 := a0 + [List(1, v, e.id)];
    ThenLists(env, a1, map[1 := Working(v, e, Listed)], files, 2, w, e);
    PlainMore(a1, List(2, w, e.id));
    acts := a1 + [List(2, w, e.id)];
  }

  lemma EmptyIsPlain()
    ensures Plain([])
  {
  }

  /** When check and write are two steps, as they are in the program, any two
      workers can hold one event at the very moment they acquired it. */
  lemma TwoStepAcquireAdmitsTwo(env: Env, v: string, w: string, e: Event)
    requires NewEvent(e)
    ensures exists acts ::
      && ValidRun(env, acts) && LocksReadable(acts) && BatchesComplete(env, acts) && TimelyRun(env, acts)
      && BothHold(After(env, acts), v, w, e)
  {
    hide ValidRun, After, AtomicAcquire, LocksReadable, Still, StepsSucceed, BatchesComplete, TimelyRun, BothHold;
    var a0 := TwoListed(env, v, w, e);
    var files: Files := map[Pending(e.id) := EventFile(e)];
    var jobs := map[1 := Working(v, e, Listed), 2 := Working(w, e, Listed)];
    var locked := files[Lock(e.id) := LockFile(v, 0)];
    ThenChecks(env, a0, jobs, files, 1, v, e);
    var a1, jobs1 := a0 + [CheckLock(1, true)], jobs[1 := Working(v, e, Checked)];
    ThenChecks(env, a1, jobs1, files, 2, w, e);
    var a2, jobs2 := a1 + [CheckLock(2, true)], jobs1[2 := Working(w, e, Checked)];
    ThenTakes(env, a2, jobs2, files, 1, WriteLock(1), v, e);
    var a3, jobs3 := a2 + [WriteLock(1)], jobs2[1 := Working(v, e, Held(0))];
    ThenTakes(env, a3, jobs3, locked, 2, WriteLock(2), w, e);
    var a4 := a3 + [WriteLock(2)];
    Appended(a0, CheckLock(1, true));
    Appended(a1, CheckLock(2, true));
    Appended(a2, WriteLock(1));
    Appended(a3, WriteLock(2));
    StepsSucceedComplete(env, a4);
    StillIsTimely(env, a4);
    BothAre(After(env, a4), 1, 2, v, w, e, 0, 0);
  }

  /** A lock file that cannot be read counts as none: a second worker joins. */
  lemma UnreadableLockAdmitsTwo(env: Env, v: string, w: string, e: Event)
    requires NewEvent(e)
    ensures exists acts ::
      && ValidRun(env, acts) && AtomicAcquire(acts) && BatchesComplete(env, acts) && TimelyRun(env, acts)
      && BothHold(After(env, acts), v, w, e)
  {
    hide ValidRun, After, AtomicAcquire, LocksReadable, Still, StepsSucceed, BatchesComplete, TimelyRun, BothHold;
    var a0 := TwoListed(env, v, w, e);
    var files: Files := map[Pending(e.id) := EventFile(e)];
    var jobs := map[1 := Working(v, e, Listed), 2 := Working(w, e, Listed)];
    ThenTakes(env, a0, jobs, files, 1, Acquire(1, true), v, e);
    var a1, jobs1 := a0 + [Acquire(1, true)], jobs[1 := Working(v, e, Held(0))];
    ThenTakes(env, a1, jobs1, files[Lock(e.id) := LockFile(v, 0)], 2, Acquire(2, false), w, e);
    var a2 := a1 + [Acquire(2, false)];
    Appended(a0, Acquire(1, true));
    Appended(a1, Acquire(2, false));
    StepsSucceedComplete(env, a2);
    StillIsTimely(env, a2);
    BothAre(After(env, a2), 1, 2, v, w, e, 0, 0);
  }

  /** A holder that outlives the timeout is joined by a second one. */
  lemma SlowHolderAdmitsTwo(env: Env, v: string, w: string, e: Event)
    requires NewEvent(e)
    ensures exists acts ::
      && ValidRun(env, acts) && AtomicAcquire(acts) && LocksReadable(acts) && BatchesComplete(env, acts)
      && BothHold(After(env, acts), v, w, e)
  {
    hide ValidRun, After, AtomicAcquire, LocksReadable, Still, StepsSucceed, BatchesComplete, BothHold;
    var a0 := TwoListed(env, v, w, e);
    var files: Files := map[Pending(e.id) := EventFile(e)];
    var jobs := map[1 := Working(v, e, Listed), 2 := Working(w, e, Listed)];
    ThenTakes(env, a0, jobs, files, 1, Acquire(1, true), v, e);
    var a1 := a0 + [Acquire(1, true)];
    ThenOvertakes(env, a1, jobs[1 := Working(v, e, Held(0))], files[Lock(e.id) := LockFile(v, 0)], 2, v, w, e);
    var a2, a3 := a1 + [Tick(LOCK_TIMEOUT)], a1 + [Tick(LOCK_TIMEOUT)] + [Acquire(2, true)];
    Appended(a0, Acquire(1, true));
    Appended(a1, Tick(LOCK_TIMEOUT));
    Appended(a2, Acquire(2, true));
    StepsSucceedComplete(env, a3);
    BothAre(After(env, a3), 1, 2, v, w, e, 0, LOCK_TIMEOUT);
  }

  /** The timeout passes, and worker w takes the lock of v. */
  lemma ThenOvertakes(env: Env, acts: seq<Action>, jobs: map<nat, Job>, files: Files, j: nat, v: string, w: string,
                      e: Event)
    requires Reached(env, acts, jobs, files) && j in jobs && jobs[j] == Working(w, e, Listed)
    requires Lock(e.id) in files && files[Lock(e.id)] == LockFile(v, 0)
    ensures var acts' := acts + [Tick(LOCK_TIMEOUT)] + [Acquire(j, true)];
      ValidRun(env, acts') && After(env, acts').jobs == jobs[j := Working(w, e, Held(LOCK_TIMEOUT))]
  {
    var s := After(env, acts);
    var s1 := s.(now := LOCK_TIMEOUT);
    Then(env, acts, s, Tick(LOCK_TIMEOUT), s1);
    Then(env, acts + [Tick(LOCK_TIMEOUT)], s1, Acquire(j, true), TakeLock(s1, j));
  }

  // ----- A batch cut short -----

  ghost predicate BatchEvent(e: Event) {
    NewEvent(e) && e.kind.Upsert? && e.kind.records != []
  }

  /** Two events on file; worker v lists both, workers w and x only the first. */
  lemma FourListed(env: Env, v: string, w: string, x: string, e: Event, f: Event) returns (acts: seq<Action>)
    requires NewEvent(e) && NewEvent(f) && e.id != f.id
    ensures Plain(acts)
    ensures Reached(env, acts,
      map[1 := Working(v, e, Listed), 2 := Working(v, f, Listed), 3 := Working(w, e, Listed),
        4 := Working(x, e, Listed)],
      map[Pending(e.id) := EventFile(e), Pending(f.id) := EventFile(f)])
  {
    hide Reached, AtomicAcquire, LocksReadable, Still, StepsSucceed, Unused;
    NothingYet(env);
    EmptyIsPlain();
    var a0 := ThenRegisters(env, [], map[], e);
    PlainMore([], Register(0, e));
    PlainMore([] + [Register(0, e)], Step(0, true));
    PlainMore([] + [Register(0, e)] + [Step(0, true)], Step(0, true));
    var a1 := ThenRegisters(env, a0, map[Pending(e.id) := EventFile(e)], f);
    PlainMore(a0, Register(0, f));
    PlainMore(a0 + [Register(0, f)], Step(0, true));
    PlainMore(a0 + [Register(0, f)] + [Step(0, true)], Step(0, true));
    var files: Files := map[Pending(e.id) := EventFile(e), Pending(f.id) := EventFile(f)];
    ThenLists(env, a1, map[], files, 1, v, e);
    var a2, jobs2 := a1 + [List(1, v, e.id)], map[1 := Working(v, e, Listed)];
    ThenLists(env, a2, jobs2, files, 2, v, f);
    var a3, jobs3 := a2 + [List(2, v, f.id)], jobs2[2 := Working(v, f, Listed)];
    ThenLists(env, a3, jobs3, files, 3, w, e);
    var a4, jobs4 := a3 + [List(3, w, e.id)], jobs3[3 := Working(w, e, Listed)];
    ThenLists(env, a4, jobs4, files, 4, x, e);
    PlainMore(a1, List(1, v, e.id));
    PlainMore(a2, List(2, v, f.id));
    PlainMore(a3, List(3, w, e.id));
    PlainMore(a4, List(4, x, e.id));
    acts := a4 + [List(4, x, e.id)];
  }

  /** Worker v holds both events and finishes the first; w takes over the first. */
  lemma FirstIsDone(env: Env, v: string, w: string, x: string, e: Event, f: Event) returns (acts: seq<Action>)
    requires BatchEvent(e) && BatchEvent(f) && e.id != f.id
    ensures Plain(acts)
    ensures Reached(env, acts,
      map[1 := Working(v, e, Over(0)), 2 := Working(v, f, Held(0)), 3 := Working(w, e, Held(0)),
        4 := Working(x, e, Listed)],
      map[Pending(f.id) := EventFile(f), Lock(f.id) := LockFile(v, 0), Lock(e.id) := LockFile(w, 0)])
  {
    hide Reached, AtomicAcquire, LocksReadable, Still, StepsSucceed;
    var p, q: Content := EventFile(e), EventFile(f);
    var a0 := FourListed(env, v, w, x, e, f);
    var j0 := map[1 := Working(v, e, Listed), 2 := Working(v, f, Listed), 3 := Working(w, e, Listed),
      4 := Working(x, e, Listed)];
    var f0: Files := map[Pending(e.id) := p, Pending(f.id) := q];
    ThenTakes(env, a0, j0, f0, 1, Acquire(1, true), v, e);
    PlainMore(a0, Acquire(1, true));
    var a1, j1, f1 := a0 + [Acquire(1, true)], j0[1 := Working(v, e, Held(0))], f0[Lock(e.id) := LockFile(v, 0)];
    ThenTakes(env, a1, j1, f1, 2, Acquire(2, true), v, f);
    PlainMore(a1, Acquire(2, true));
    var a2, j2, f2 := a1 + [Acquire(2, true)], j1[2 := Working(v, f, Held(0))], f1[Lock(f.id) := LockFile(v, 0)];
    ThenProcesses(env, a2, j2, f2, 1, Success, v, e);
    PlainMore(a2, Process(1, Success, map[], None));
    var a3 := a2 + [Process(1, Success, map[], None)];
    acts := ThenDone(env, a3, j2, f2, 1, v, e);
    var f3: Files := map[Pending(f.id) := q, Lock(f.id) := LockFile(v, 0)];
    assert f2 - {Pending(e.id)} - {Lock(e.id)} == f3;
    var j3 := j2[1 := Working(v, e, Over(0))];
    ThenTakes(env, acts, j3, f3, 3, Acquire(3, true), w, e);
    PlainMore(acts, Acquire(3, true));
    acts := acts + [Acquire(3, true)];
    assert f3[Lock(e.id) := LockFile(w, 0)] ==
      map[Pending(f.id) := q, Lock(f.id) := LockFile(v, 0), Lock(e.id) := LockFile(w, 0)];
    assert j3[3 := Working(w, e, Held(0))]
        == map[1 := Working(v, e, Over(0)), 2 := Working(v, f, Held(0)), 3 := Working(w, e, Held(0)),
          4 := Working(x, e, Listed)];
  }

  /** A successful event is done: pending file and lock go. */
  lemma ThenDone(env: Env, acts: seq<Action>, jobs: map<nat, Job>, files: Files, j: nat, w: string, e: Event)
    returns (acts': seq<Action>)
    requires Plain(acts) && j in jobs && BatchEvent(e)
    requires Reached(env, acts, jobs[j := Working(w, e, Settling(0, DoneOps(e.id)))], files)
    ensures Plain(acts')
    ensures Reached(env, acts', jobs[j := Working(w, e, Over(0))], files - {Pending(e.id)} - {Lock(e.id)})
  {
    hide Reached, AtomicAcquire, LocksReadable, Still, StepsSucceed;
    var ops := DoneOps(e.id);
    ThenSteps(env, acts, jobs[j := Working(w, e, Settling(0, ops))], files, j, w, e, ops);
    PlainMore(acts, Step(j, true));
    var a1 := acts + [Step(j, true)];
    assert jobs[j := Working(w, e, Settling(0, ops))][j := Working(w, e, Settling(0, ops[1..]))] ==
      jobs[j := Working(w, e, Settling(0, ops[1..]))];
    ThenSteps(env, a1, jobs[j := Working(w, e, Settling(0, ops[1..]))], files - {Pending(e.id)}, j, w, e, ops[1..]);
    PlainMore(a1, Step(j, true));
    assert jobs[j := Working(w, e, Settling(0, ops[1..]))][j := Working(w, e, Over(0))] ==
      jobs[j := Working(w, e, Over(0))];
    acts' := a1 + [Step(j, true)];
  }

  /** The conditions that a failed step leaves alone. */
  ghost predicate Calm(acts: seq<Action>) {
    AtomicAcquire(acts) && LocksReadable(acts) && Still(acts)
  }

  lemma CalmMore(acts: seq<Action>, a: Action)
    requires Calm(acts) && !a.CheckLock? && !a.WriteLock? && (a.Acquire? ==> a.readable) && !a.Tick?
    ensures Calm(acts + [a])
  {
    Appended(acts, a);
  }

  /** Worker v fails to record a retry of its second event, and so fails its whole
      batch again: it brings the finished first event back, and its release removes
      the lock that w holds on it by now.  Then x can take the event as well. */
  lemma BrokenBatchAdmitsTwo(env: Env, v: string, w: string, x: string, e: Event, f: Event)
    requires BatchEvent(e) && BatchEvent(f) && e.id != f.id && v != w && v != x && env.config.maxRetry >= 1
    ensures exists acts :: ValidRun(env, acts) && AtomicAcquire(acts) && LocksReadable(acts) && TimelyRun(env, acts)
                           && BothHold(After(env, acts), w, x, e)
  {
    hide Reached, AtomicAcquire, LocksReadable, Still, StepsSucceed, BothHold, TimelyRun, Backoff;
    var a0 := FirstIsDone(env, v, w, x, e, f);
    var j0 := map[1 := Working(v, e, Over(0)), 2 := Working(v, f, Held(0)), 3 := Working(w, e, Held(0)),
      4 := Working(x, e, Listed)];
    var f0: Files := map[Pending(f.id) := EventFile(f), Lock(f.id) := LockFile(v, 0), Lock(e.id) := LockFile(w, 0)];
    var a1 := ThenBatchFails(env, a0, j0, f0, 2, v, f);
    var f' := Retried(f, Backoff(env.config, 0));
    var j1 := map[1 := Working(v, e, Failing(0)), 2 := Working(v, f', Failing(0)), 3 := Working(w, e, Held(0)),
      4 := Working(x, e, Listed)];
    var j0' := j0[2 := Working(v, f', Failing(0))];
    assert (map k | k in j0' :: Doomed(j0'[k], v)) == j1;
    var a2 := ThenRetried(env, a1, j1, f0, 1, v, e);
    var e' := Retried(e, Backoff(env.config, 0));
    var j2 := j1[1 := Working(v, e', Over(0))];
    var f2 := f0[Pending(e.id) := EventFile(e')] - {Lock(e.id)};
    ThenTakes(env, a2, j2, f2, 4, Acquire(4, true), x, e);
    CalmMore(a2, Acquire(4, true));
    var a3 := a2 + [Acquire(4, true)];
    StillIsTimely(env, a3);
    EndsWith(env, a3, j2[4 := Working(x, e, Held(0))], f2[Lock(e.id) := LockFile(x, 0)], w, x, e);
  }

  lemma EndsWith(env: Env, acts: seq<Action>, jobs: map<nat, Job>, files: Files, w: string, x: string, e: Event)
    requires Reached(env, acts, jobs, files) && 3 in jobs && 4 in jobs
    requires jobs[3] == Working(w, e, Held(0)) && jobs[4] == Working(x, e, Held(0))
    ensures ValidRun(env, acts) && BothHold(After(env, acts), w, x, e)
  {
    BothAre(After(env, acts), 3, 4, w, x, e, 0, 0);
  }

  /** The upsert of an event fails, and then the write of its retry. */
  lemma ThenBatchFails(env: Env, acts: seq<Action>, jobs: map<nat, Job>, files: Files, j: nat, w: string, e: Event)
    returns (acts': seq<Action>)
    requires Plain(acts) && Reached(env, acts, jobs, files) && j in jobs && jobs[j] == Working(w, e, Held(0))
    requires BatchEvent(e) && env.config.maxRetry >= 1
    ensures Calm(acts')
    ensures var jobs1 := jobs[j := Working(w, Retried(e, Backoff(env.config, 0)), Failing(0))];
      Reached(env, acts', map k | k in jobs1 :: Doomed(jobs1[k], w), files)
  {
    hide Reached, AtomicAcquire, LocksReadable, Still, StepsSucceed, Backoff, Doomed;
    var ops := RetryOps(Retried(e, 0 + Backoff(env.config, 0)));
    ThenProcesses(env, acts, jobs, files, j, Failure(false), w, e);
    CalmMore(acts, Process(j, Failure(false), map[], None));
    var a1, jobs1 := acts + [Process(j, Failure(false), map[], None)], jobs[j := Working(w, e, Settling(0, ops))];
    ThenBreaks(env, a1, jobs1, files, j, w, e, ops);
    CalmMore(a1, Step(j, false));
    var jobs2 := jobs[j := Working(w, Retried(e, Backoff(env.config, 0)), Failing(0))];
    assert jobs1[j := Working(w, ops[0].content.event, Failing(0))] == jobs2;
    acts' := a1 + [Step(j, false)];
  }

  /** An event is failed again, and this time its retry is recorded. */
  lemma ThenRetried(env: Env, acts: seq<Action>, jobs: map<nat, Job>, files: Files, j: nat, w: string, e: Event)
    returns (acts': seq<Action>)
    requires Calm(acts) && Reached(env, acts, jobs, files) && j in jobs && jobs[j] == Working(w, e, Failing(0))
    requires BatchEvent(e) && env.config.maxRetry >= 1
    ensures Calm(acts')
    ensures var e' := Retried(e, Backoff(env.config, 0));
      Reached(env, acts', jobs[j := Working(w, e', Over(0))], files[Pending(e.id) := EventFile(e')] - {Lock(e.id)})
  {
    hide Reached, AtomicAcquire, LocksReadable, Still, StepsSucceed, Backoff;
    var e' := Retried(e, Backoff(env.config, 0));
    var ops := RetryOps(e');
    ThenFailsAgain(env, acts, jobs, files, j, w, e);
    CalmMore(acts, FailAgain(j));
    var a1, jobs1 := acts + [FailAgain(j)], jobs[j := Working(w, e, Settling(0, ops))];
    ThenSteps(env, a1, jobs1, files, j, w, e, ops);
    CalmMore(a1, Step(j, true));
    var a2, jobs2 := a1 + [Step(j, true)], jobs[j := Working(w, e', Settling(0, ops[1..]))];
    assert jobs1[j := Working(w, e', Settling(0, ops[1..]))] == jobs2;
    ThenSteps(env, a2, jobs2, Apply(files, ops[0]), j, w, e', ops[1..]);
    CalmMore(a2, Step(j, true));
    assert jobs2[j := Working(w, e', Over(0))] == jobs[j := Working(w, e', Over(0))];
    acts' := a2 + [Step(j, true)];
  }
}
