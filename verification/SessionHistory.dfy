/** Message buffer of one session, session/session_manager.py, as a value.

    `Buffer` holds what a session remembers; the functions are the operations on it,
    and a run is any sequence of them.  The watermark is the number of messages that
    were already extracted. */
module SessionHistory {
  import opened Selections

  type MessageId = string

  datatype Message = Message(id: MessageId, role: string, content: string)

  datatype Buffer = Buffer(messages: seq<Message>, turns: nat, count: nat, watermark: nat, commitBusy: bool,
                           commits: nat)

  const EMPTY: Buffer := Buffer([], 0, 0, 0, false, 0)

  function UserTurns(ms: seq<Message>): nat {
    if ms == [] then 0 else UserTurns(ms[..|ms| - 1]) + if ms[|ms| - 1].role == "user" then 1 else 0
  }

  /** The messages whose id is not among the given ones. */
  function Kept(ms: seq<Message>, ids: set<MessageId>): seq<Message> {
    if ms == [] then [] else Kept(ms[..|ms| - 1], ids) + Rest(ms[|ms| - 1], ids)
  }

  function Rest(m: Message, ids: set<MessageId>): seq<Message> {
    if m.id in ids then [] else [m]
  }

  // ----- Operations -----

  function Added(b: Buffer, m: Message): Buffer {
    b.(messages := b.messages + [m], turns := if m.role == "user" then b.turns + 1 else b.turns,
      count := |b.messages| + 1)
  }

  function Cleared(b: Buffer): Buffer {
    b.(messages := [], turns := 0, count := 0, watermark := 0)
  }

  /** The extraction has caught up with the first n messages. */
  function Advanced(b: Buffer, n: nat): Buffer {
    b.(watermark := n)
  }

  function Min(x: int, y: int): int {
    if x <= y then x else y
  }

  function Max(x: int, y: int): int {
    if x >= y then x else y
  }

  /** The watermark after a removal, clamped as the program does it. */
  function Lowered(b: Buffer, ids: set<MessageId>): nat {
    var below := if b.watermark <= |b.messages| then b.messages[..b.watermark] else b.messages;
    Max(0, Min(|Kept(b.messages, ids)|, b.watermark - (|below| - |Kept(below, ids)|)))
  }

  function Removed(b: Buffer, ids: set<MessageId>): Buffer {
    var kept := Kept(b.messages, ids);
    if |kept| == |b.messages| then b
    else b.(messages := kept, turns := UserTurns(kept), count := |kept|, watermark := Lowered(b, ids))
  }

  /** The position of the first message with one of the ids. */
  function FirstOf(ms: seq<Message>, ids: set<MessageId>): (i: nat)
    ensures i <= |ms| && (i < |ms| ==> ms[i].id in ids)
    ensures forall j :: 0 <= j < i ==> ms[j].id !in ids
  {
    if ms == [] then 0 else if ms[0].id in ids then 0 else 1 + FirstOf(ms[1..], ids)
  }

  function Rewound(b: Buffer, ids: set<MessageId>): Buffer {
    var i := FirstOf(b.messages, ids);
    if i < |b.messages| && i < b.watermark then b.(watermark := i) else b
  }

  // ----- What the operations keep -----

  ghost predicate Valid(b: Buffer) {
    b.watermark <= |b.messages| && b.turns == UserTurns(b.messages) && b.count == |b.messages|
  }

  lemma KeptMore(ms: seq<Message>, m: Message, ids: set<MessageId>)
    ensures Kept(ms + [m], ids) == Kept(ms, ids) + Rest(m, ids)
  {
    assert (ms + [m])[..|ms|] == ms;
  }

  lemma {:induction false} KeptSplit(ms: seq<Message>, ns: seq<Message>, ids: set<MessageId>)
    ensures Kept(ms + ns, ids) == Kept(ms, ids) + Kept(ns, ids)
  {
    if ns == [] {
      assert ms + ns == ms;
    } else {
      hide Kept, Rest;
      var init, last := ns[..|ns| - 1], ns[|ns| - 1];
      KeptSplit(ms, init, ids);
      KeptMore(ms + init, last, ids);
      KeptMore(init, last, ids);
      Regroup(ms, init, [last]);
      Regroup(Kept(ms, ids), Kept(init, ids), Rest(last, ids));
      assert ns == init + [last];
    }
  }

  lemma Regroup<T>(a: seq<T>, b: seq<T>, c: seq<T>)
    ensures (a + b) + c == a + (b + c)
  {
  }

  ghost function Unnamed(ids: set<MessageId>): Message -> bool {
    (m: Message) => m.id !in ids
  }

  /** Exactly the messages with other ids stay, as often and in the order they came. */
  lemma {:induction false} KeptAre(ms: seq<Message>, ids: set<MessageId>)
    ensures Selects(Kept(ms, ids), ms, (m: Message) => m.id !in ids)
    ensures forall m :: m in Kept(ms, ids) <==> m in ms && m.id !in ids
  {
    hide Selects;
    KeptSelects(ms, ids);
    assert Selects(Kept(ms, ids), ms, (m: Message) => m.id !in ids) by { SameTest(ms, ids); }
    forall m ensures m in Kept(ms, ids) <==> m in ms && m.id !in ids {
      SelectsMembers(Kept(ms, ids), ms, Unnamed(ids), m);
    }
  }

  lemma SameTest(ms: seq<Message>, ids: set<MessageId>)
    requires Selects(Kept(ms, ids), ms, Unnamed(ids))
    ensures Selects(Kept(ms, ids), ms, (m: Message) => m.id !in ids)
  {
    var at: seq<nat> :| Picks(Kept(ms, ids), ms, Unnamed(ids), at);
    assert Picks(Kept(ms, ids), ms, (m: Message) => m.id !in ids, at);
  }

  lemma {:induction false} KeptSelects(ms: seq<Message>, ids: set<MessageId>)
    ensures Selects(Kept(ms, ids), ms, Unnamed(ids))
  {
    hide Selects;
    if ms == [] {
      SelectsNone(Unnamed(ids));
    } else {
      var init, last := ms[..|ms| - 1], ms[|ms| - 1];
      KeptSelects(init, ids);
      SelectsMore(Kept(init, ids), init, Unnamed(ids), last);
      assert ms == init + [last];
      assert Kept(ms, ids) == if Unnamed(ids)(last) then Kept(init, ids) + [last] else Kept(init, ids);
    }
  }

  lemma {:induction false} KeptAll(ms: seq<Message>, ids: set<MessageId>)
    ensures |Kept(ms, ids)| <= |ms|
    ensures |Kept(ms, ids)| == |ms| ==> Kept(ms, ids) == ms
  {
    if ms != [] { KeptAll(ms[..|ms| - 1], ids); }
  }

  /** A removal filters the messages, and what lies below the new watermark is
      exactly what lay below the old one, filtered. */
  lemma RemovalKeepsExtracted(b: Buffer, ids: set<MessageId>)
    requires Valid(b)
    ensures var b' := Removed(b, ids);
      && Valid(b') && b'.messages == Kept(b.messages, ids)
      && b'.messages[..b'.watermark] == Kept(b.messages[..b.watermark], ids)
      && b'.messages[b'.watermark..] == Kept(b.messages[b.watermark..], ids)
  {
    hide Kept, UserTurns;
    var below, above := b.messages[..b.watermark], b.messages[b.watermark..];
    KeptSplit(below, above, ids);
    KeptAll(b.messages, ids);
    assert b.messages == below + above;
    KeptAll(below, ids);
    KeptAll(above, ids);
    Halves(Kept(below, ids), Kept(above, ids));
  }

  lemma Halves<T>(a: seq<T>, b: seq<T>)
    ensures (a + b)[..|a|] == a && (a + b)[|a|..] == b
  {
  }

  /** A rewind is the least one after which none of the given messages counts as
      extracted. */
  lemma RewindIsExact(b: Buffer, ids: set<MessageId>, n: nat)
    requires Valid(b) && n <= b.watermark
    ensures var b' := Rewound(b, ids);
      && Valid(b') && b' == b.(watermark := b'.watermark) && b'.watermark <= b.watermark
      && ((forall j :: 0 <= j < n ==> b.messages[j].id !in ids) <==> n <= b'.watermark)
  {
    var i := FirstOf(b.messages, ids);
    if n > Rewound(b, ids).watermark { assert b.messages[i].id in ids; }
  }

  // ----- Runs -----

  datatype Op =
    | Add(message: Message)
    | Advance(n: nat)
    | Remove(ids: set<MessageId>)
    | Rewind(ids: set<MessageId>)
    | Commit(wait: bool)
    | Finish(raises: bool)        // the snapshot was processed, or processing it failed

  /** Who is processing a snapshot: nobody, a background thread, or the thread that
      called commit and waits for the result. */
  datatype Work = Idle | InThread(snapshot: seq<Message>) | InCall(snapshot: seq<Message>)

  function InFlight(w: Work): seq<seq<Message>> {
    if w.Idle? then [] else [w.snapshot]
  }

  /** A buffer, the commit that is under way, and the snapshots that were processed
      already, successfully or not. */
  datatype Session = Session(buffer: Buffer, work: Work, processed: seq<seq<Message>>)

  const NEW: Session := Session(EMPTY, Idle, [])

  predicate Enabled(s: Session, op: Op) {
    match op
    case Advance(n) => s.buffer.watermark <= n <= |s.buffer.messages|
    case Finish(_) => !s.work.Idle?
    case _ => true
  }

  /** Does a commit go ahead? */
  predicate Commits(b: Buffer) {
    b.messages != [] && !b.commitBusy
  }

  function Committed(b: Buffer): Buffer {
    b.(commitBusy := false, commits := b.commits + 1)
  }

  function StartCommit(s: Session, wait: bool): Session {
    if !Commits(s.buffer) then s
    else Session(Cleared(s.buffer.(commitBusy := true)),
      if wait then InCall(s.buffer.messages) else InThread(s.buffer.messages), s.processed)
  }

  /** The thread frees the buffer in any case; the call only if it did not raise. */
  function FinishCommit(s: Session, raises: bool): Session {
    s.(work := Idle, processed := s.processed + InFlight(s.work),
       buffer := if s.work.InCall? && raises then s.buffer else Committed(s.buffer))
  }

  function Next(s: Session, op: Op): Session {
    match op
    case Add(m) => s.(buffer := Added(s.buffer, m))
    case Advance(n) => s.(buffer := Advanced(s.buffer, n))
    case Remove(ids) => s.(buffer := Removed(s.buffer, ids))
    case Rewind(ids) => s.(buffer := Rewound(s.buffer, ids))
    case Commit(wait) => StartCommit(s, wait)
    case Finish(raises) => FinishCommit(s, raises)
  }

  ghost predicate ValidRun(ops: seq<Op>)
    decreases |ops|, 0
  {
    ops == [] || (ValidRun(ops[..|ops| - 1]) && Enabled(After(ops[..|ops| - 1]), ops[|ops| - 1]))
  }

  ghost function After(ops: seq<Op>): Session
    requires ValidRun(ops)
    decreases |ops|, 1
  {
    if ops == [] then NEW else Next(After(ops[..|ops| - 1]), ops[|ops| - 1])
  }

  /** The last step of a run. */
  lemma LastStep(ops: seq<Op>)
    requires ValidRun(ops) && ops != []
    ensures var init, op := ops[..|ops| - 1], ops[|ops| - 1];
      ValidRun(init) && Enabled(After(init), op) && After(ops) == Next(After(init), op)
  {
    hide Enabled, Next;
  }

  lemma StepValid(s: Session, op: Op)
    requires Valid(s.buffer) && Enabled(s, op)
    ensures Valid(Next(s, op).buffer)
  {
    match op
    case Remove(ids) => RemovalKeepsExtracted(s.buffer, ids);
    case Rewind(ids) => RewindIsExact(s.buffer, ids, 0);
    case Add(m) => assert (s.buffer.messages + [m])[..|s.buffer.messages|] == s.buffer.messages;
    case _ =>
  }

  ghost function UserPositions(ms: seq<Message>): set<nat> {
    set i: nat | i < |ms| && ms[i].role == "user"
  }

  lemma {:induction false} TurnsAreCounted(ms: seq<Message>)
    ensures UserTurns(ms) == |UserPositions(ms)|
  {
    if ms == [] {
      assert UserPositions(ms) == {};
    } else {
      hide UserPositions;
      TurnsAreCounted(ms[..|ms| - 1]);
      OneMorePosition(ms);
    }
  }

  lemma OneMorePosition(ms: seq<Message>)
    requires ms != []
    ensures |UserPositions(ms)| == |UserPositions(ms[..|ms| - 1])| + if ms[|ms| - 1].role == "user" then 1 else 0
  {
    var init, n := ms[..|ms| - 1], |ms| - 1;
    assert n !in UserPositions(init);
    assert UserPositions(ms) == UserPositions(init) + if ms[n].role == "user" then {n} else {};
  }

  /** After any run the watermark lies within the messages, the turn count is the
      number of user messages, and the message count is the number of messages. */
  lemma {:induction false} BufferStaysValid(ops: seq<Op>)
    requires ValidRun(ops)
    ensures var b := After(ops).buffer;
      b.watermark <= |b.messages| && b.turns == |UserPositions(b.messages)| && b.count == |b.messages|
    ensures Valid(After(ops).buffer)
  {
    hide UserTurns, UserPositions;
    StaysValid(ops);
    TurnsAreCounted(After(ops).buffer.messages);
  }

  lemma {:induction false} StaysValid(ops: seq<Op>)
    requires ValidRun(ops)
    ensures Valid(After(ops).buffer)
  {
    hide Next, Enabled, Valid;
    if ops == [] {
      assert Valid(EMPTY) by { NewIsValid(); }
    } else {
      StaysValid(ops[..|ops| - 1]);
      StepValid(After(ops[..|ops| - 1]), ops[|ops| - 1]);
    }
  }

  lemma NewIsValid()
    ensures Valid(EMPTY)
  {
  }

  function Flatten(parts: seq<seq<Message>>): seq<Message> {
    if parts == [] then [] else Flatten(parts[..|parts| - 1]) + parts[|parts| - 1]
  }

  lemma FlattenMore(parts: seq<seq<Message>>, part: seq<Message>)
    ensures Flatten(parts + [part]) == Flatten(parts) + part
  {
    assert (parts + [part])[..|parts|] == parts;
  }

  function AddHistory(ops: seq<Op>): seq<Message> {
    if ops == [] then [] else
    AddHistory(ops[..|ops| - 1]) + if ops[|ops| - 1].Add? then [ops[|ops| - 1].message] else []
  }

  /** What lay in the buffer at each commit that went ahead. */
  ghost function Snapshots(ops: seq<Op>): seq<seq<Message>>
    requires ValidRun(ops)
  {
    if ops == [] then [] else
    var init, op := ops[..|ops| - 1], ops[|ops| - 1];
    var b := After(init).buffer;
    Snapshots(init) + if op.Commit? && b.messages != [] && !b.commitBusy then [b.messages] else []
  }

  ghost function HandedOver(s: Session): seq<seq<Message>> {
    s.processed + InFlight(s.work)
  }

  lemma StepHands(s: Session, op: Op)
    requires Enabled(s, op) && (!s.buffer.commitBusy ==> s.work.Idle?)
    ensures HandedOver(Next(s, op)) ==
      HandedOver(s) + if op.Commit? && Commits(s.buffer) then [s.buffer.messages] else []
  {
    hide Added, Advanced, Removed, Rewound, Cleared, Committed;
  }

  lemma StepBuffers(s: Session, op: Op)
    requires Enabled(s, op) && !op.Remove?
    ensures Next(s, op).buffer.messages ==
      if op.Commit? && Commits(s.buffer) then []
      else s.buffer.messages + if op.Add? then [op.message] else []
  {
  }

  /** The snapshots taken are, in order, those that were processed and the one that is
      being processed now.  Unless messages are removed, these snapshots followed by the
      buffer are exactly the messages added, whatever else happened. */
  lemma NothingIsLostOrRepeated(ops: seq<Op>)
    requires ValidRun(ops)
    ensures Snapshots(ops) == After(ops).processed + InFlight(After(ops).work)
    ensures (forall op :: op in ops ==> !op.Remove?) ==>
      Flatten(Snapshots(ops)) + After(ops).buffer.messages == AddHistory(ops)
  {
    hide ValidRun, After, Snapshots, Flatten, AddHistory;
    HandedOverAre(ops);
    if forall op :: op in ops ==> !op.Remove? { SnapshotsTile(ops); }
  }

  lemma {:induction false} HandedOverAre(ops: seq<Op>)
    requires ValidRun(ops)
    ensures Snapshots(ops) == HandedOver(After(ops))
  {
    hide Next, Enabled, After, ValidRun;
    if ops == [] {
      assert After(ops) == NEW by { NothingYet(); }
    } else {
      LastStep(ops);
      HandedOverAre(ops[..|ops| - 1]);
      BusyExactlyWhen(ops[..|ops| - 1]);
      StepHands(After(ops[..|ops| - 1]), ops[|ops| - 1]);
    }
  }

  lemma NothingYet()
    ensures ValidRun([]) && After([]) == NEW
  {
  }

  lemma {:induction false} SnapshotsTile(ops: seq<Op>)
    requires ValidRun(ops) && forall op :: op in ops ==> !op.Remove?
    ensures Flatten(Snapshots(ops)) + After(ops).buffer.messages == AddHistory(ops)
  {
    hide Next, Enabled, After, ValidRun, Flatten;
    if ops == [] {
      assert After(ops) == NEW && Flatten([]) == [] by { NothingYet(); FlattenNothing(); }
    } else {
      var init, op := ops[..|ops| - 1], ops[|ops| - 1];
      LastStep(ops);
      SnapshotsTile(init);
      StepBuffers(After(init), op);
      var taken, ms := Snapshots(init), After(init).buffer.messages;
      FlattenMore(taken, ms);
      Regroup(Flatten(taken), ms, if op.Add? then [op.message] else []);
      if op.Commit? && Commits(After(init).buffer) {
        assert Snapshots(ops) == taken + [ms];
      } else {
        assert Snapshots(ops) == taken;
      }
    }
  }

  lemma FlattenNothing()
    ensures Flatten([]) == []
  {
  }

  // ----- What was extracted -----

  /** The messages an extraction went over: from the watermark up to where it moved it. */
  ghost function Extracted(ops: seq<Op>): seq<Message>
    requires ValidRun(ops)
  {
    if ops == [] then [] else
    var init, op := ops[..|ops| - 1], ops[|ops| - 1];
    var b := After(init).buffer;
    Extracted(init) + if op.Advance? && b.watermark <= op.n <= |b.messages| then b.messages[b.watermark..op.n] else []
  }

  /** Commits come when everything in the buffer was extracted. */
  ghost predicate CommitsLate(ops: seq<Op>)
    requires ValidRun(ops)
  {
    forall k :: 0 <= k < |ops| && ops[k].Commit? && ValidRun(ops[..k]) ==>
      After(ops[..k]).buffer.watermark == |After(ops[..k]).buffer.messages|
  }

  lemma CommitsLateBefore(ops: seq<Op>)
    requires ValidRun(ops) && CommitsLate(ops) && ops != []
    ensures CommitsLate(ops[..|ops| - 1])
    ensures ops[|ops| - 1].Commit? ==>
      After(ops[..|ops| - 1]).buffer.watermark == |After(ops[..|ops| - 1]).buffer.messages|
  {
    var init := ops[..|ops| - 1];
    forall k | 0 <= k < |init| && init[k].Commit? && ValidRun(init[..k])
      ensures After(init[..k]).buffer.watermark == |After(init[..k]).buffer.messages|
    {
      assert init[..k] == ops[..k];
    }
  }

  /** As long as nothing is removed or rewound and commits wait for the extraction, every
      message is extracted exactly once and in order, up to those still ahead. */
  lemma {:induction false} ExtractedOnce(ops: seq<Op>)
    requires ValidRun(ops) && CommitsLate(ops) && forall op :: op in ops ==> !op.Remove? && !op.Rewind?
    ensures Valid(After(ops).buffer)
    ensures Extracted(ops) + After(ops).buffer.messages[After(ops).buffer.watermark..] == AddHistory(ops)
  {
    hide Next, Enabled, CommitsLate, Valid, After, ValidRun;
    if ops == [] {
      assert After(ops) == NEW by { NothingYet(); }
      NewIsValid();
    } else {
      var init, op := ops[..|ops| - 1], ops[|ops| - 1];
      LastStep(ops);
      CommitsLateBefore(ops);
      ExtractedOnce(init);
      StaysValid(ops);
      StepExtracts(After(init), op);
      var b, b' := After(init).buffer, After(ops).buffer;
      assert b.watermark <= |b.messages| by { BufferStaysValid(init); }
      var piece := if op.Advance? && b.watermark <= op.n <= |b.messages| then b.messages[b.watermark..op.n] else [];
      Regroup(Extracted(init), piece, b'.messages[b'.watermark..]);
      Regroup(Extracted(init), b.messages[b.watermark..], if op.Add? then [op.message] else []);
    }
  }

  lemma StepExtracts(s: Session, op: Op)
    requires Valid(s.buffer) && Enabled(s, op) && !op.Remove? && !op.Rewind?
    requires op.Commit? ==> s.buffer.watermark == |s.buffer.messages|
    ensures var b, b' := s.buffer, Next(s, op).buffer;
      && b'.watermark <= |b'.messages|
      && (if op.Advance? && b.watermark <= op.n <= |b.messages| then b.messages[b.watermark..op.n] else []) +
           b'.messages[b'.watermark..] ==
         b.messages[b.watermark..] + if op.Add? then [op.message] else []
  {
    hide UserTurns;
  }

  // ----- A synchronous commit that fails -----

  /** Operation k is the end of a synchronous commit whose processing raised. */
  ghost predicate FailsSync(ops: seq<Op>, k: nat)
    requires ValidRun(ops) && k < |ops|
  {
    ops[k] == Finish(true) && ValidRun(ops[..k]) && After(ops[..k]).work.InCall?
  }

  ghost predicate SomeFailsSync(ops: seq<Op>)
    requires ValidRun(ops)
  {
    exists k :: 0 <= k < |ops| && FailsSync(ops, k)
  }

  lemma {:induction false} PrefixValid(ops: seq<Op>, k: nat)
    requires ValidRun(ops) && k <= |ops|
    ensures ValidRun(ops[..k])
  {
    if k == |ops| {
      assert ops[..k] == ops;
    } else {
      PrefixValid(ops[..|ops| - 1], k);
      assert ops[..|ops| - 1][..k] == ops[..k];
    }
  }

  lemma FailsSyncMore(ops: seq<Op>)
    requires ValidRun(ops) && ops != []
    ensures var init := ops[..|ops| - 1];
      SomeFailsSync(ops) <==> SomeFailsSync(init) || (ops[|ops| - 1] == Finish(true) && After(init).work.InCall?)
  {
    var n := |ops| - 1;
    var init := ops[..n];
    if k :| 0 <= k < |ops| && FailsSync(ops, k) {
      if k < n { assert init[..k] == ops[..k] && FailsSync(init, k); }
    }
    if k :| 0 <= k < |init| && FailsSync(init, k) { assert init[..k] == ops[..k] && FailsSync(ops, k); }
    if ops[n] == Finish(true) && After(init).work.InCall? { assert FailsSync(ops, n); }
  }

  lemma StepBusy(s: Session, op: Op)
    ensures var s' := Next(s, op);
      if op.Commit? && Commits(s.buffer) then
        s'.buffer.commitBusy && !s'.work.Idle? && s'.processed == s.processed && s'.buffer.commits == s.buffer.commits
      else if op.Finish? then
        && s'.work.Idle? && s'.buffer.commitBusy == (s.work.InCall? && op.raises && s.buffer.commitBusy)
        && s'.processed == s.processed + InFlight(s.work)
        && s'.buffer.commits == s.buffer.commits + if s.work.InCall? && op.raises then 0 else 1
      else
        && s'.buffer.commitBusy == s.buffer.commitBusy && s'.work == s.work && s'.processed == s.processed
        && s'.buffer.commits == s.buffer.commits
  {
    hide Kept, UserTurns, Lowered, FirstOf;
  }

  /** The session refuses commits as busy exactly while a snapshot is being processed,
      be it in the background or in the call that waits for it, and for ever after one
      call in which processing raised. */
  lemma {:induction false} BusyExactlyWhen(ops: seq<Op>)
    requires ValidRun(ops)
    ensures var s := After(ops); s.buffer.commitBusy <==> !s.work.Idle? || SomeFailsSync(ops)
    ensures SomeFailsSync(ops) ==> After(ops).work.Idle?
  {
    hide Next, After, ValidRun, FailsSync;
    if ops == [] {
      assert After(ops) == NEW by { NothingYet(); }
    } else {
      LastStep(ops);
      StepBusy(After(ops[..|ops| - 1]), ops[|ops| - 1]);
      BusyExactlyWhen(ops[..|ops| - 1]);
      FailsSyncMore(ops);
    }
  }

  /** Every snapshot processed counts as a commit, except the one whose processing raised
      in the call that waited for it. */
  lemma {:induction false} CommitsAreCounted(ops: seq<Op>)
    requires ValidRun(ops)
    ensures |After(ops).processed| == After(ops).buffer.commits + if SomeFailsSync(ops) then 1 else 0
  {
    hide Next, After, ValidRun, FailsSync;
    if ops == [] {
      assert After(ops) == NEW by { NothingYet(); }
    } else {
      var init := ops[..|ops| - 1];
      LastStep(ops);
      StepBusy(After(init), ops[|ops| - 1]);
      CommitsAreCounted(init);
      BusyExactlyWhen(init);
      FailsSyncMore(ops);
    }
  }

  /** After such a failure nothing is ever handed over again: the buffer only grows. */
  lemma {:induction false} StuckForGood(ops: seq<Op>, k: nat)
    requires ValidRun(ops) && k <= |ops| && ValidRun(ops[..k]) && SomeFailsSync(ops[..k])
    ensures After(ops).processed == After(ops[..k]).processed && After(ops).work.Idle?
    ensures After(ops).buffer.commits == After(ops[..k]).buffer.commits
    ensures SomeFailsSync(ops)
  {
    hide Next, After, ValidRun, SomeFailsSync;
    BusyExactlyWhen(ops);
    if k == |ops| {
      assert ops[..k] == ops;
    } else {
      var init := ops[..|ops| - 1];
      assert init[..k] == ops[..k];
      LastStep(ops);
      StepBusy(After(init), ops[|ops| - 1]);
      StuckForGood(init, k);
      BusyExactlyWhen(init);
      FailsSyncMore(ops);
    }
  }
}
