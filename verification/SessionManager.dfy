/** The classes of session/session_manager.py, tied to the operations on values. */
module SessionManager {
  import opened SessionHistory

  class DoneEvent {
    var isSet: bool

    constructor ()
      ensures !isSet
    {
      isSet := false;
    }
  }

  class SessionBuffer {
    var messages: seq<Message>
    var turnCount: nat
    var messageCount: nat
    var watermark: nat
    var commitInProgress: bool
    var commitCount: nat
    var extracting: bool
    var active: nat
    var done: DoneEvent?

    constructor ()
      ensures Value() == EMPTY && Extractions() && active == 0 && fresh(this)
    {
      messages, turnCount, messageCount, watermark, commitInProgress, commitCount := [], 0, 0, 0, false, 0;
      extracting, active, done := false, 0, null;
    }

    function Value(): Buffer
      reads this
    {
      Buffer(messages, turnCount, messageCount, watermark, commitInProgress, commitCount)
    }

    /** While extractions are active their event exists and is not set; otherwise
        whoever waits has been woken. */
    ghost predicate Extractions()
      reads this, done
    {
      && (extracting <==> active > 0)
      && (active > 0 ==> done != null && !done.isSet)
      && (active == 0 && done != null ==> done.isSet)
    }

    method Add(m: Message)
      modifies this
      ensures Value() == Added(old(Value()), m)
      ensures active == old(active) && extracting == old(extracting) && done == old(done)
    {
      messages := messages + [m];
      if m.role == "user" { turnCount := turnCount + 1; }
      messageCount := |messages|;
    }

    method SnapshotAndClear() returns (snapshot: seq<Message>)
      modifies this
      ensures snapshot == old(messages) && Value() == Cleared(old(Value()))
      ensures active == old(active) && extracting == old(extracting) && done == old(done)
    {
      snapshot := messages;
      messages, turnCount, messageCount, watermark := [], 0, 0, 0;
    }

    method StartCommit() returns (snapshot: seq<Message>)
      modifies this
      ensures snapshot == old(messages) && Value() == Cleared(old(Value()).(commitBusy := true))
      ensures active == old(active) && extracting == old(extracting) && done == old(done)
    {
      commitInProgress := true;
      snapshot := SnapshotAndClear();
    }

    method FinishCommit()
      modifies this`commitInProgress, this`commitCount
      ensures Value() == Committed(old(Value()))
    {
      commitInProgress := false;
      commitCount := commitCount + 1;
    }

    /** All overlapping extractions share one event. */
    method BeginExtraction() returns (event: DoneEvent)
      requires Extractions()
      modifies this
      ensures Extractions() && Value() == old(Value())
      ensures active == old(active) + 1 && event == done && !event.isSet
      ensures old(active) > 0 ==> event == old(done)
      ensures old(active) == 0 ==> fresh(event)
    {
      if done == null || !extracting || done.isSet { done := new DoneEvent(); }
      active := active + 1;
      extracting := true;
      event := done;
    }

    /** The event is set by the last extraction to end, not before. */
    method EndExtraction()
      requires Extractions()
      modifies this, done
      ensures Extractions() && Value() == old(Value()) && done == old(done)
      ensures active == if old(active) > 0 then old(active) - 1 else 0
      ensures done != null ==> (done.isSet <==> active == 0)
    {
      if active > 0 { active := active - 1; }
      if active <= 0 {
        active, extracting := 0, false;
        if done != null { done.isSet := true; }
      }
    }

    method RemoveMessagesById(ids: set<MessageId>) returns (removed: nat)
      requires watermark <= |messages|
      modifies this
      ensures Value() == Removed(old(Value()), ids) && removed == |old(messages)| - |Kept(old(messages), ids)|
      ensures active == old(active) && extracting == old(extracting) && done == old(done)
    {
      hide Kept, Removed, Lowered, UserTurns, SessionBuffer.Extractions;
      KeptAll(messages, ids);
      if ids == {} {
        NothingNamed(Value());
        return 0;
      }
      var kept, below;
      kept, removed, below := Partition(messages, watermark, ids);
      RemovedIs(Value(), ids, removed, below);
      if removed > 0 {
        var turns := CountTurns(kept);
        messages, turnCount, messageCount := kept, turns, |kept|;
        watermark := Max(0, Min(|messages|, watermark - below));
      }
    }

    /** One pass: what stays, how many go, and how many of those from below the mark. */
    static method Partition(ms: seq<Message>, mark: nat, ids: set<MessageId>)
      returns (kept: seq<Message>, removed: nat, below: nat)
      requires mark <= |ms|
      ensures kept == Kept(ms, ids) && removed == |ms| - |kept| && below == mark - |Kept(ms[..mark], ids)|
    {
      hide Kept;
      kept, removed, below := [], 0, 0;
      NoMessages(ms, ids);
      for i := 0 to |ms|
        invariant kept == Kept(ms[..i], ids) && removed == i - |kept|
        invariant below == if i <= mark then removed else mark - |Kept(ms[..mark], ids)|
      {
        assert ms[..i + 1] == ms[..i] + [ms[i]];
        KeptMore(ms[..i], ms[i], ids);
        if ms[i].id in ids {
          removed := removed + 1;
          if i < mark { below := below + 1; }
        } else {
          kept := kept + [ms[i]];
        }
      }
      assert ms[..|ms|] == ms;
    }

    static lemma RemovedIs(b: Buffer, ids: set<MessageId>, removed: nat, below: int)
      requires b.watermark <= |b.messages|
      requires removed == |b.messages| - |Kept(b.messages, ids)|
      requires below == b.watermark - |Kept(b.messages[..b.watermark], ids)|
      ensures var kept := Kept(b.messages, ids);
        Removed(b, ids) == if removed == 0 then b
                           else b.(messages := kept, turns := UserTurns(kept), count := |kept|,
                             watermark := Max(0, Min(|kept|, b.watermark - below)))
    {
      hide Kept, UserTurns;
    }

    static lemma NoMessages(ms: seq<Message>, ids: set<MessageId>)
      ensures Kept(ms[..0], ids) == []
    {
    }

    method CountTurns(ms: seq<Message>) returns (turns: nat)
      ensures turns == UserTurns(ms)
    {
      turns := 0;
      for i := 0 to |ms|
        invariant turns == UserTurns(ms[..i])
      {
        assert ms[..i + 1][..i] == ms[..i];
        if ms[i].role == "user" { turns := turns + 1; }
      }
      assert ms[..|ms|] == ms;
    }

    static lemma NothingNamed(b: Buffer)
      ensures Removed(b, {}) == b && Kept(b.messages, {}) == b.messages
    {
      KeepsAll(b.messages);
    }

    static lemma KeepsAll(ms: seq<Message>)
      ensures Kept(ms, {}) == ms
    {
      if ms != [] { KeepsAll(ms[..|ms| - 1]); }
    }

    method RewindWatermarkToIds(ids: set<MessageId>) returns (changed: bool)
      requires watermark <= |messages|
      modifies this`watermark
      ensures Value() == Rewound(old(Value()), ids)
      ensures changed <==> watermark != old(watermark)
    {
      if ids == {} { return false; }
      for i := 0 to |messages|
        invariant forall j :: 0 <= j < i ==> messages[j].id !in ids
      {
        if messages[i].id in ids {
          if i < watermark {
            watermark := i;
            return true;
          }
          return false;
        }
      }
      changed := false;
    }
  }

  // ----- The manager -----

  type SessionId = string
  type TaskId = string

  datatype TaskInfo = TaskInfo(session: SessionId, status: Status, archived: bool)

  datatype Status = Processing | Completed | Failed

  /** What became of processing a snapshot. */
  datatype Outcome = Archived(success: bool) | Raised

  /** A call of _process_snapshot, and how it ended. */
  datatype Call = Call(session: SessionId, task: TaskId, snapshot: seq<Message>, outcome: Outcome)

  /** A commit in the background: the entry it will complete, and what it works on. */
  datatype Job = Job(task: TaskId, snapshot: seq<Message>)

  datatype Reply =
    | EmptyBuffer | InProgress
    | Started(task: TaskId)
    | Done(task: TaskId, archived: bool)
    | Error

  /** The snapshots of x that processing was called with. */
  ghost function ProcessedFor(log: seq<Call>, x: SessionId): seq<seq<Message>> {
    if log == [] then [] else
    ProcessedFor(log[..|log| - 1], x) + if log[|log| - 1].session == x then [log[|log| - 1].snapshot] else []
  }

  lemma ProcessedMore(log: seq<Call>, c: Call, x: SessionId)
    ensures ProcessedFor(log + [c], x) == ProcessedFor(log, x) + if c.session == x then [c.snapshot] else []
  {
    assert (log + [c])[..|log|] == log;
  }

  lemma {:induction false} NothingProcessed(log: seq<Call>, x: SessionId)
    requires forall c :: c in log ==> c.session != x
    ensures ProcessedFor(log, x) == []
  {
    if log != [] { NothingProcessed(log[..|log| - 1], x); }
  }

  class SessionManager {
    var sessions: map<SessionId, SessionBuffer>
    var tasks: map<TaskId, TaskInfo>
    /** Background commits that have not ended. */
    var background: map<SessionId, Job>
    /** Sessions whose snapshot is being processed by a call that waits for it. */
    ghost var waiting: map<SessionId, seq<Message>>
    /** Every call of ProcessSnapshot so far. */
    ghost var log: seq<Call>

    constructor ()
      ensures Consistent() && sessions == map[] && tasks == map[]
      ensures background == map[] && waiting == map[] && log == []
    {
      sessions, tasks, background, waiting, log := map[], map[], map[], map[], [];
    }

    ghost predicate Consistent()
      reads this, sessions.Values
    {
      && (forall x, y :: x in sessions && y in sessions && x != y ==> sessions[x] != sessions[y])
      && (forall c :: c in log ==> c.session in sessions)
      && (forall x :: x in background ==> x in sessions && sessions[x].commitInProgress && TaskOf(x))
      && waiting.Keys !! background.Keys
      && (forall x :: x in waiting ==> x in sessions && sessions[x].commitInProgress)
    }

    ghost predicate TaskOf(x: SessionId)
      reads this
      requires x in background
    {
      background[x].task in tasks && tasks[background[x].task] == TaskInfo(x, Processing, false)
    }

    /** The session as a value; one that nobody asked for yet is new. */
    ghost function View(x: SessionId): Session
      reads this, sessions.Values
    {
      if x in sessions then Session(sessions[x].Value(), WorkOn(x), ProcessedFor(log, x)) else NEW
    }

    ghost function WorkOn(x: SessionId): Work
      reads this
    {
      if x in background then InThread(background[x].snapshot)
      else if x in waiting then InCall(waiting[x]) else Idle
    }

    method GetOrCreate(x: SessionId) returns (b: SessionBuffer)
      requires Consistent()
      modifies this`sessions
      ensures Consistent() && x in sessions && b == sessions[x]
      ensures forall y :: y != x ==> (y in sessions <==> y in old(sessions))
      ensures forall y :: y in old(sessions) ==> y in sessions && sessions[y] == old(sessions[y])
      ensures x !in old(sessions) ==> fresh(b)
      ensures forall y :: View(y) == old(View(y))
    {
      hide SessionBuffer.Extractions;
      if x !in sessions {
        b := new SessionBuffer();
        NothingProcessed(log, x);
        sessions := sessions[x := b];
      }
      b := sessions[x];
    }

    method AddMessage(x: SessionId, m: Message)
      requires Consistent()
      modifies this`sessions, sessions.Values
      ensures Consistent() && x in sessions && log == old(log)
      ensures View(x) == Next(old(View(x)), Op.Add(m))
      ensures forall y :: y != x ==> View(y) == old(View(y))
    {
      var b := GetOrCreate(x);
      b.Add(m);
    }

    /** The session takes the messages out of the buffer and marks it busy; these messages
        are processed here, or by a background thread that ends later. */
    method Commit(x: SessionId, task: TaskId, wait: bool) returns (r: Reply)
      requires Consistent() && task !in tasks
      modifies this, sessions.Values
      ensures Consistent() && x in sessions
      ensures !r.Done? && !r.Error? ==> View(x) == Next(old(View(x)), Op.Commit(wait))
      ensures r.Done? || r.Error? ==> View(x) == Next(Next(old(View(x)), Op.Commit(true)), Op.Finish(r.Error?))
      ensures forall y :: y != x ==> View(y) == old(View(y))
      ensures r.EmptyBuffer? <==> old(View(x)).buffer.messages == []
      ensures r.InProgress? <==> old(View(x)).buffer.messages != [] && old(View(x)).buffer.commitBusy
      ensures r.EmptyBuffer? || r.InProgress? ==>
        log == old(log) && tasks == old(tasks) && background == old(background)
      ensures r.Started? ==>
        !wait && Launched(old(log), old(tasks), old(background), x, task, old(View(x)).buffer.messages)
      ensures r.Done? || r.Error? ==> wait && background == old(background)
      ensures r.Done? || r.Error? ==> Finished(old(log), old(tasks), x, task, old(View(x)).buffer.messages, r)
    {
      hide Removed, Rewound, Added, Advanced, Cleared, Committed, FinishCommit, SessionBuffer.Extractions, ProcessedFor;
      hide Consistent, Launched, Finished;
      var b := GetOrCreate(x);
      if b.messages == [] { return EmptyBuffer; }
      if b.commitInProgress { return InProgress; }
      r := Proceed(x, task, wait);
    }

    /** A thread was started that will process exactly this snapshot; nothing was
        processed yet. */
    ghost predicate Launched(log0: seq<Call>, tasks0: map<TaskId, TaskInfo>, background0: map<SessionId, Job>,
                             x: SessionId, task: TaskId, snapshot: seq<Message>)
      reads this
    {
      && log == log0 && tasks == tasks0[task := TaskInfo(x, Processing, false)]
      && background == background0[x := Job(task, snapshot)]
    }

    /** Exactly this snapshot was processed, and reply and entry say how that ended. */
    ghost predicate Finished(log0: seq<Call>, tasks0: map<TaskId, TaskInfo>, x: SessionId, task: TaskId,
                             snapshot: seq<Message>, r: Reply)
      reads this
    {
      if r.Done? then
        && r.task == task && log == log0 + [Call(x, task, snapshot, Archived(r.archived))]
        && tasks == tasks0[task := TaskInfo(x, Completed, r.archived)]
      else
        log == log0 + [Call(x, task, snapshot, Raised)] && tasks == tasks0[task := TaskInfo(x, Processing, false)]
    }

    /** The commit of a session that has messages and is not busy. */
    method Proceed(x: SessionId, task: TaskId, wait: bool) returns (r: Reply)
      requires Consistent() && x in sessions && task !in tasks && Commits(sessions[x].Value())
      modifies this`tasks, this`background, this`waiting, this`log, sessions[x]
      ensures Consistent() && !r.EmptyBuffer? && !r.InProgress?
      ensures r.Started? ==> View(x) == StartCommit(old(View(x)), wait)
      ensures r.Done? || r.Error? ==> View(x) == FinishCommit(StartCommit(old(View(x)), true), r.Error?)
      ensures forall y :: y != x ==> View(y) == old(View(y))
      ensures r.Started? ==>
        !wait && Launched(old(log), old(tasks), old(background), x, task, old(sessions[x].messages))
      ensures r.Done? || r.Error? ==> wait && background == old(background)
      ensures r.Done? || r.Error? ==> Finished(old(log), old(tasks), x, task, old(sessions[x].messages), r)
    {
      hide Cleared, Committed, SessionBuffer.Extractions, FinishCommit, UserTurns, ProcessedFor, Consistent;
      NotBusy(x);
      var snapshot := TakeSnapshot(x, task);
      if wait {
        EnterCall(x, snapshot);
        r := ProcessHere(x, task, snapshot);
      } else {
        StartThread(x, task, snapshot);
        r := Started(task);
      }
    }

    lemma NotBusy(x: SessionId)
      requires Consistent() && x in sessions && !sessions[x].Value().commitBusy
      ensures x !in background && x !in waiting && WorkOn(x) == Idle
    {
      hide SessionBuffer.Extractions;
    }

    /** The caller waits for the result; the session is busy meanwhile, and stays so if
        processing raises. */
    method ProcessHere(x: SessionId, task: TaskId, snapshot: seq<Message>) returns (r: Reply)
      requires Consistent() && x in waiting && waiting[x] == snapshot
      requires task in tasks && tasks[task] == TaskInfo(x, Processing, false)
      modifies this`tasks, this`waiting, this`log, sessions[x]
      ensures Consistent() && (r.Done? || r.Error?)
      ensures View(x) == FinishCommit(old(View(x)), r.Error?)
      ensures forall y :: y != x ==> View(y) == old(View(y))
      ensures Finished(old(log), old(tasks), x, task, snapshot, r)
    {
      hide Committed, SessionBuffer.Extractions, ProcessedFor;
      var p := ProcessSnapshot(x, task, snapshot);
      LeaveCall(x);
      if p.Raised? { return Error; }
      CompleteTask(x, task, p.success);
      FreeBuffer(x);
      r := Done(task, p.success);
    }

    method CompleteTask(x: SessionId, task: TaskId, success: bool)
      requires Consistent() && x in sessions && x !in background && task in tasks && tasks[task].session == x
      modifies this`tasks
      ensures Consistent() && tasks == old(tasks)[task := TaskInfo(x, Completed, success)]
      ensures forall y :: View(y) == old(View(y))
    {
      hide SessionBuffer.Extractions, ProcessedFor;
      tasks := tasks[task := TaskInfo(x, Completed, success)];
    }

    /** From here on other threads see a synchronous commit under way. */
    ghost method EnterCall(x: SessionId, snapshot: seq<Message>)
      requires Consistent() && x in sessions && x !in background && sessions[x].commitInProgress
      modifies this`waiting
      ensures Consistent() && waiting == old(waiting)[x := snapshot]
      ensures View(x) == old(View(x)).(work := InCall(snapshot))
      ensures forall y :: y != x ==> View(y) == old(View(y))
    {
      hide SessionBuffer.Extractions, ProcessedFor;
      waiting := waiting[x := snapshot];
    }

    /** Processing is over, one way or the other. */
    ghost method LeaveCall(x: SessionId)
      requires Consistent() && x in waiting
      modifies this`waiting
      ensures Consistent() && waiting == old(waiting) - {x}
      ensures View(x) == old(View(x)).(work := Idle)
      ensures forall y :: y != x ==> View(y) == old(View(y))
    {
      hide SessionBuffer.Extractions, ProcessedFor;
      waiting := waiting - {x};
    }

    /** First phase: the snapshot leaves the buffer and a task is on record. */
    method TakeSnapshot(x: SessionId, task: TaskId) returns (snapshot: seq<Message>)
      requires Consistent() && x in sessions && x !in background && x !in waiting && task !in tasks
      modifies this`tasks, sessions[x]
      ensures Consistent() && snapshot == old(sessions[x].messages) && sessions[x].commitInProgress
      ensures tasks == old(tasks)[task := TaskInfo(x, Processing, false)]
      ensures View(x) == old(View(x)).(buffer := Cleared(old(View(x)).buffer.(commitBusy := true)))
      ensures forall y :: y != x ==> View(y) == old(View(y))
    {
      hide SessionBuffer.Extractions, ProcessedFor;
      snapshot := sessions[x].StartCommit();
      tasks := tasks[task := TaskInfo(x, Processing, false)];
    }

    method StartThread(x: SessionId, task: TaskId, snapshot: seq<Message>)
      requires Consistent() && x in sessions && x !in waiting && sessions[x].commitInProgress
      requires task in tasks && tasks[task] == TaskInfo(x, Processing, false)
      modifies this`background
      ensures Consistent() && background == old(background)[x := Job(task, snapshot)]
      ensures View(x) == old(View(x)).(work := InThread(snapshot))
      ensures forall y :: y != x ==> View(y) == old(View(y))
    {
      hide SessionBuffer.Extractions, ProcessedFor;
      background := background[x := Job(task, snapshot)];
    }

    method FreeBuffer(x: SessionId)
      requires Consistent() && x in sessions && x !in background && x !in waiting
      modifies sessions[x]
      ensures Consistent() && View(x) == old(View(x)).(buffer := Committed(old(View(x)).buffer))
      ensures forall y :: y != x ==> View(y) == old(View(y))
    {
      hide Committed, SessionBuffer.Extractions, ProcessedFor;
      sessions[x].FinishCommit();
    }

    /** The body of the background thread: it processes the snapshot it was started with,
        and whatever happens, the buffer is free again. */
    method FinishBackground(x: SessionId)
      requires Consistent() && x in background
      modifies this, sessions.Values
      ensures Consistent() && sessions == old(sessions) && background == old(background) - {x}
      ensures |log| == |old(log)| + 1
      ensures var job, p := old(background[x]), log[|log| - 1].outcome;
        && log == old(log) + [Call(x, job.task, job.snapshot, p)]
        && tasks == old(tasks)[job.task :=
             if p.Raised? then TaskInfo(x, Failed, false) else TaskInfo(x, Completed, p.success)]
        && View(x) == Next(old(View(x)), Op.Finish(p.Raised?))
      ensures forall y :: y != x ==> View(y) == old(View(y))
    {
      hide Removed, Rewound, Added, Advanced, StartCommit, Committed, SessionBuffer.Extractions, ProcessedFor;
      var job := background[x];
      var p := ProcessSnapshot(x, job.task, job.snapshot);
      EndThread(x, if p.Raised? then TaskInfo(x, Failed, false) else TaskInfo(x, Completed, p.success));
      FreeBuffer(x);
    }

    method EndThread(x: SessionId, info: TaskInfo)
      requires Consistent() && x in background
      modifies this`tasks, this`background
      ensures Consistent() && background == old(background) - {x}
      ensures tasks == old(tasks)[old(background[x]).task := info]
      ensures View(x) == old(View(x)).(work := Idle)
      ensures forall y :: y != x ==> View(y) == old(View(y))
    {
      hide SessionBuffer.Extractions, ProcessedFor;
      tasks := tasks[background[x].task := info];
      background := background - {x};
    }

    /** Compress and archive; the services behind it may fail in any way. */
    method ProcessSnapshot(x: SessionId, task: TaskId, snapshot: seq<Message>) returns (p: Outcome)
      requires Consistent() && x in sessions
      modifies this`log
      ensures Consistent() && log == old(log) + [Call(x, task, snapshot, p)]
      ensures View(x) == old(View(x)).(processed := old(View(x)).processed + [snapshot])
      ensures forall y :: y != x ==> View(y) == old(View(y))
    {
      hide SessionBuffer.Extractions, ProcessedFor;
      var raises: bool, success: bool := *, *;
      p := if raises then Raised else Archived(success);
      ghost var call := Call(x, task, snapshot, p);
      forall y ensures ProcessedFor(log + [call], y) == ProcessedFor(log, y) + if y == x then [snapshot] else [] {
        ProcessedMore(log, call, y);
      }
      log := log + [call];
    }
  }
}
