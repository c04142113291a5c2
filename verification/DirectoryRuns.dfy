/** What holds of every run of the scheduler over a tree of directories: for all
    trees, all listings that may fail, all outcomes and all interleavings. */
module DirectoryRuns {
  import opened Wrappers
  import opened DirectoryDag
  import opened DirectoryProgress

  // ----- Phases only move forward -----

  function Rank(p: Phase): nat {
    match p
    case Unseen => 0 case Queued => 1 case Open => 2 case Ready => 3 case Waiting => 4
    case Working => 5 case Saving(_) => 6 case Leaving(_) => 7 case Reported(_) => 8
  }

  function TaskRank(k: Task): nat {
    match k
    case DispatchTask(_, _) => 1 case FileTask(_, _) => 2 case SummaryTask(_) => 3 case AwaitSlot(_, _) => 4
    case Generating(_, _) => 5 case Storing(_, _, _) => 6 case ChildDoneTask(_, _, _) => 7
  }

  /** Two tasks doing the same thing for the same directory or file. */
  predicate SameJob(k: Task, k': Task) {
    TaskRank(k) == TaskRank(k') && Subject(k) == Subject(k') && (k.FileTask? ==> k.file == k'.file)
  }

  ghost predicate Past(g: Progress, k: Task) {
    if k.FileTask? then (k.owner, k.file) in g.filesDone else Rank(Ph(g, Subject(k))) > TaskRank(k)
  }

  ghost predicate NoLater(g: Progress, g': Progress) {
    g.filesDone <= g'.filesDone && forall u :: Rank(Ph(g, u)) <= Rank(Ph(g', u))
  }

  lemma LiveNotPast(env: Env, t: Shape, g: Progress, k: Task)
    requires Live(env, t, g, k)
    ensures !Past(g, k)
    ensures !k.FileTask? ==> Rank(Ph(g, Subject(k))) == TaskRank(k)
  {
    hide SubDirs, Files, Collected;
  }

  lemma HeardForward(env: Env, t: Shape, g: Progress, g': Progress, p: Uri)
    requires Heard(env, t, g, g', p) && g.filesDone <= g'.filesDone
    ensures NoLater(g, g')
  {
    hide SubDirs, Files, Unreported, LooksSame, NoFileDone, Listed;
    forall u ensures Rank(Ph(g, u)) <= Rank(Ph(g', u)) {
      assert SamePhase(g, g', u) || u == p;
    }
  }

  lemma AdvanceForward(env: Env, t: Shape, s: State, g: Progress, a: Action)
    requires Tree(env, t) && Inv(env, t, s, g) && Enabled(s, a)
    ensures NoLater(g, Advance(env, t, g, a)) && Past(Advance(env, t, g, a), a.task)
  {
    hide Tree, Inv, SubDirs, Files, Collected, PhasesOk, PhaseOk, NodeOk, Unreported, UnreportedFiles, Heard;
    SpentTask(env, t, s, g, a.task);
    LiveNotPast(env, t, g, a.task);
    var g' := Advance(env, t, g, a);
    if a.task.FileTask? {
      FileHeard(env, t, g, a.task.owner, a.task.file);
      HeardForward(env, t, g, g', a.task.owner);
    } else if a.task.ChildDoneTask? {
      ChildHeard(env, t, g, a.task.owner, a.task.child, a.task.summary);
      HeardForward(env, t, g, g', a.task.owner);
    } else if a.task.DispatchTask? {
      QueuedFacts(env, t, s, g, a.task.uri);
    }
  }

  // ----- The phases along a run -----

  ghost function PhasesAfter(env: Env, t: Shape, acts: seq<Action>): Progress {
    if acts == [] then Begin(env)
    else Advance(env, t, PhasesAfter(env, t, acts[..|acts| - 1]), acts[|acts| - 1])
  }

  lemma {:induction false} RunInv(env: Env, t: Shape, acts: seq<Action>)
    requires Tree(env, t) && ValidRun(env, acts)
    ensures Inv(env, t, After(env, acts), PhasesAfter(env, t, acts))
  {
    hide Tree, Inv, Next, Advance, Enabled;
    if acts == [] {
      StartInv(env, t);
    } else {
      var init := acts[..|acts| - 1];
      RunInv(env, t, init);
      StepInv(env, t, After(env, init), PhasesAfter(env, t, init), acts[|acts| - 1]);
    }
  }

  lemma {:induction false} PastStays(env: Env, t: Shape, acts: seq<Action>, i: nat)
    requires Tree(env, t) && ValidRun(env, acts) && i < |acts|
    ensures Past(PhasesAfter(env, t, acts), acts[i].task)
  {
    hide Tree, Inv, Next, Advance, Enabled;
    var init, last := acts[..|acts| - 1], acts[|acts| - 1];
    RunInv(env, t, init);
    AdvanceForward(env, t, After(env, init), PhasesAfter(env, t, init), last);
    if i < |init| {
      PastStays(env, t, init, i);
    }
  }

  /** The enabled task of a step is live just before the step. */
  lemma StepLive(env: Env, t: Shape, acts: seq<Action>, i: nat)
    requires Tree(env, t) && ValidRun(env, acts) && i < |acts|
    ensures ValidRun(env, acts[..i]) && Enabled(After(env, acts[..i]), acts[i])
    ensures Inv(env, t, After(env, acts[..i]), PhasesAfter(env, t, acts[..i]))
    ensures Live(env, t, PhasesAfter(env, t, acts[..i]), acts[i].task)
  {
    hide Tree, Inv, Next, Live;
    PrefixValid(env, acts, i + 1);
    assert acts[..i + 1][..i] == acts[..i];
    RunInv(env, t, acts[..i]);
    SpentTask(env, t, After(env, acts[..i]), PhasesAfter(env, t, acts[..i]), acts[i].task);
  }

  // ----- Exactly once -----

  /** No job is done twice in a run: no directory is dispatched, summarised or
      reported twice, and no file is reported twice. */
  lemma JobRunsOnce(env: Env, t: Shape, acts: seq<Action>, i: nat, j: nat)
    requires Tree(env, t) && ValidRun(env, acts) && i < j < |acts|
    ensures !SameJob(acts[i].task, acts[j].task)
  {
    hide Tree, Inv, Live, Advance, Next, Enabled;
    StepLive(env, t, acts, j);
    LiveNotPast(env, t, PhasesAfter(env, t, acts[..j]), acts[j].task);
    PastStays(env, t, acts[..j], i);
  }

  /** A job that was done has no task any more, and no task exists twice. */
  lemma TaskCreatedOnce(env: Env, t: Shape, acts: seq<Action>, k: Task)
    requires Tree(env, t) && ValidRun(env, acts)
    ensures After(env, acts).tasks[k] <= 1
    ensures (exists i :: 0 <= i < |acts| && SameJob(acts[i].task, k)) ==> After(env, acts).tasks[k] == 0
  {
    hide Tree, Live, Advance, Next, Enabled, StatsOk, PhasesOk, NodesOk;
    var g := PhasesAfter(env, t, acts);
    RunInv(env, t, acts);
    assert TaskOk(env, t, After(env, acts), g, k);
    if i :| 0 <= i < |acts| && SameJob(acts[i].task, k) {
      PastStays(env, t, acts, i);
      if Live(env, t, g, k) { LiveNotPast(env, t, g, k); }
    }
  }

  // ----- What the phases say about the past -----

  ghost predicate FileReported(acts: seq<Action>, p: Uri, f: Uri) {
    exists k :: 0 <= k < |acts| && acts[k].task == FileTask(p, f)
  }

  ghost predicate ChildReported(acts: seq<Action>, p: Uri, c: Uri, r: Option<ChildSummary>) {
    exists k :: 0 <= k < |acts| && acts[k].task == ChildDoneTask(p, c, r)
  }

  /** Action a is where directory c comes to its end, with result r. */
  predicate Ends(env: Env, a: Action, c: Uri, r: Option<ChildSummary>) {
    match a.task
    case DispatchTask(u, _) => u == c && Listing(env, u).None? && r == None
    case Generating(u, _) => u == c && a.outcome.Fails? && r == None
    case Storing(u, _, x) => u == c && r == if a.outcome.Succeeds? then Some(ChildSummary(u, x, true)) else None
    case _ => false
  }

  ghost predicate Ended(env: Env, acts: seq<Action>, c: Uri, r: Option<ChildSummary>) {
    exists k :: 0 <= k < |acts| && Ends(env, acts[k], c, r)
  }

  lemma StepCause(env: Env, t: Shape, s: State, g: Progress, a: Action, c: Uri)
    requires Tree(env, t) && Inv(env, t, s, g) && Enabled(s, a)
    ensures var g' := Advance(env, t, g, a);
      && (Settled(g', c) ==>
        (Settled(g, c) && Ph(g, c).result == Ph(g', c).result) || Ends(env, a, c, Ph(g', c).result))
      && (Ph(g', c).Reported? && t.parent(c).Some? ==>
            Ph(g, c) == Ph(g', c) || a.task == ChildDoneTask(t.parent(c).value, c, Ph(g', c).result))
      && (forall p, f :: (p, f) in g'.filesDone <==> (p, f) in g.filesDone || a.task == FileTask(p, f))
  {
    hide Tree, Inv, SubDirs, Files, Collected, PhasesOk, PhaseOk, NodeOk, Unreported, UnreportedFiles;
    SpentTask(env, t, s, g, a.task);
    if a.task.DispatchTask? { QueuedFacts(env, t, s, g, a.task.uri); }
  }

  lemma {:induction false} History(env: Env, t: Shape, acts: seq<Action>, c: Uri)
    requires Tree(env, t) && ValidRun(env, acts)
    ensures var g := PhasesAfter(env, t, acts);
      && (Settled(g, c) ==> Ended(env, acts, c, Ph(g, c).result))
      && (Ph(g, c).Reported? && t.parent(c).Some? ==> ChildReported(acts, t.parent(c).value, c, Ph(g, c).result))
      && (forall p, f :: (p, f) in g.filesDone ==> FileReported(acts, p, f))
  {
    hide Tree, Inv, Advance, Next, Enabled;
    if acts != [] {
      var init, last := acts[..|acts| - 1], acts[|acts| - 1];
      RunInv(env, t, init);
      History(env, t, init, c);
      StepCause(env, t, After(env, init), PhasesAfter(env, t, init), last, c);
      Longer(env, init, acts);
      assert acts[|acts| - 1] == last;
    }
  }

  lemma Longer(env: Env, few: seq<Action>, acts: seq<Action>)
    requires few <= acts
    ensures forall p, f :: FileReported(few, p, f) ==> FileReported(acts, p, f)
    ensures forall p, c, r :: ChildReported(few, p, c, r) ==> ChildReported(acts, p, c, r)
    ensures forall c, r :: Ended(env, few, c, r) ==> Ended(env, acts, c, r)
  {
    forall p, f | FileReported(few, p, f) ensures FileReported(acts, p, f) {
      var k :| 0 <= k < |few| && few[k].task == FileTask(p, f);
      assert acts[k] == few[k];
    }
    forall p, c, r | ChildReported(few, p, c, r) ensures ChildReported(acts, p, c, r) {
      var k :| 0 <= k < |few| && few[k].task == ChildDoneTask(p, c, r);
      assert acts[k] == few[k];
    }
    forall c, r | Ended(env, few, c, r) ensures Ended(env, acts, c, r) {
      var k :| 0 <= k < |few| && Ends(env, few[k], c, r);
      assert acts[k] == few[k];
    }
  }

  /** Conversely, a report that was made is remembered. */
  lemma Remembered(env: Env, t: Shape, acts: seq<Action>, p: Uri, c: Uri, r: Option<ChildSummary>)
    requires Tree(env, t) && ValidRun(env, acts) && ChildReported(acts, p, c, r)
    ensures Ph(PhasesAfter(env, t, acts), c).Reported?
  {
    hide Tree, Advance, Next, Enabled;
    var k :| 0 <= k < |acts| && acts[k].task == ChildDoneTask(p, c, r);
    PastStays(env, t, acts, k);
  }

  // ----- The counter -----

  ghost predicate SomeReport(acts: seq<Action>, p: Uri, c: Uri) {
    exists r :: ChildReported(acts, p, c, r)
  }

  /** Throughout every run, `pending` is the number of children that have not
      reported, and the summary is scheduled exactly when that number is zero. */
  lemma PendingCountsUnreported(env: Env, t: Shape, acts: seq<Action>, u: Uri)
    requires Tree(env, t) && ValidRun(env, acts) && u in After(env, acts).nodes
    ensures var n := After(env, acts).nodes[u];
      && n.pending == |set c | c in SubDirs(env, u) && !SomeReport(acts, u, c)|
                      + |set f | f in Files(env, u) && !FileReported(acts, u, f)|
      && (n.scheduled <==> n.pending == 0)
  {
    hide Tree, Advance, Next, Enabled, TasksOk, StatsOk, SubDirs, Files, ChildReported;
    var g := PhasesAfter(env, t, acts);
    RunInv(env, t, acts);
    assert NodeOk(env, After(env, acts), g, u) && PhaseOk(env, t, g, u);
    forall c | c in SubDirs(env, u) ensures Ph(g, c).Reported? <==> SomeReport(acts, u, c) {
      assert Fits(env, t, u) by { FitsOf(env, t, u); }
      History(env, t, acts, c);
      if r :| ChildReported(acts, u, c, r) { Remembered(env, t, acts, u, c, r); }
    }
    forall f | f in Files(env, u) ensures (u, f) in g.filesDone <==> FileReported(acts, u, f) {
      History(env, t, acts, u);
      if FileReported(acts, u, f) {
        var k :| 0 <= k < |acts| && acts[k].task == FileTask(u, f);
        PastStays(env, t, acts, k);
      }
    }
    assert UnreportedDirs(env, g, u) == set c | c in SubDirs(env, u) && !SomeReport(acts, u, c);
    assert UnreportedFiles(env, g, u) == set f | f in Files(env, u) && !FileReported(acts, u, f);
  }

  lemma FitsOf(env: Env, t: Shape, u: Uri)
    requires Tree(env, t) && u in t.dirs
    ensures Fits(env, t, u)
  {
  }

  // ----- Bottom-up order -----

  /** The entry the parent keeps for a child that ended with r. */
  function Entry(c: Uri, r: Option<ChildSummary>): ChildSummary {
    if r.Some? then r.value else Missing(c)
  }

  /** All that u's summary needs has happened within acts, and `collected` says so. */
  ghost predicate AllReported(env: Env, acts: seq<Action>, u: Uri, collected: seq<ChildSummary>) {
    && (forall f :: f in Files(env, u) ==> FileReported(acts, u, f))
    && |collected| == |SubDirs(env, u)|
    && (forall i :: 0 <= i < |collected| ==> EntryOf(env, acts, u, SubDirs(env, u)[i], collected[i]))
  }

  ghost predicate EntryOf(env: Env, acts: seq<Action>, u: Uri, c: Uri, e: ChildSummary) {
    exists r :: Ended(env, acts, c, r) && ChildReported(acts, u, c, r) && e == Entry(c, r)
  }

  /** Nothing is unreported once a directory is past Open. */
  lemma PastOpen(env: Env, t: Shape, g: Progress, u: Uri)
    requires PhasesOk(env, t, g) && Listed(env, g, u) && Ph(g, u) != Open
    ensures forall c :: c in SubDirs(env, u) ==> Ph(g, c).Reported?
    ensures forall f :: f in Files(env, u) ==> (u, f) in g.filesDone
  {
    hide SubDirs, Files;
    assert PhaseOk(env, t, g, u);
    assert forall c :: c in SubDirs(env, u) && !Ph(g, c).Reported? ==> c in UnreportedDirs(env, g, u);
    assert forall f :: f in Files(env, u) && (u, f) !in g.filesDone ==> f in UnreportedFiles(env, g, u);
  }

  lemma CollectedIs(env: Env, g: Progress, u: Uri)
    ensures |Collected(env, g, u)| == |SubDirs(env, u)|
    ensures forall i :: 0 <= i < |SubDirs(env, u)| ==>
      Collected(env, g, u)[i] == Entry(SubDirs(env, u)[i], Result(g, SubDirs(env, u)[i]))
  {
    hide SubDirs;
  }

  lemma AllReportedInside(env: Env, t: Shape, acts: seq<Action>, u: Uri)
    requires Tree(env, t) && ValidRun(env, acts) && u in t.dirs
    requires var g := PhasesAfter(env, t, acts); Listed(env, g, u) && Ph(g, u) != Open
    ensures AllReported(env, acts, u, Collected(env, PhasesAfter(env, t, acts), u))
  {
    hide Tree, Advance, Next, Enabled, SubDirs, Files, TasksOk, NodesOk, StatsOk, PhasesOk, Collected;
    var g := PhasesAfter(env, t, acts);
    RunInv(env, t, acts);
    PastOpen(env, t, g, u);
    FitsOf(env, t, u);
    CollectedIs(env, g, u);
    History(env, t, acts, u);
    var collected := Collected(env, g, u);
    forall i | 0 <= i < |collected| ensures EntryOf(env, acts, u, SubDirs(env, u)[i], collected[i]) {
      var c := SubDirs(env, u)[i];
      History(env, t, acts, c);
      assert Ended(env, acts, c, Result(g, c)) && ChildReported(acts, u, c, Result(g, c));
    }
  }

  /** The summary task starts only after every file and every sub-directory of u
      has reported, and each of these sub-directories had come to its end. */
  lemma SummaryWaitsForChildren(env: Env, t: Shape, acts: seq<Action>, i: nat)
    requires Tree(env, t) && ValidRun(env, acts) && i < |acts| && acts[i].task.SummaryTask?
    ensures var u := acts[i].task.uri; exists cs :: AllReported(env, acts[..i], u, cs)
  {
    hide Tree, Advance, Next, Enabled, SubDirs, Files, TasksOk, NodesOk, StatsOk, AllReported;
    StepLive(env, t, acts, i);
    var u, g := acts[i].task.uri, PhasesAfter(env, t, acts[..i]);
    assert PhaseOk(env, t, g, u);
    AllReportedInside(env, t, acts[..i], u);
  }

  /** What the summary is generated from: exactly one entry per sub-directory, in
      listing order, and for a failed child an entry without an abstract. */
  lemma CollectsEachChildInOrder(env: Env, t: Shape, acts: seq<Action>, i: nat)
    requires Tree(env, t) && ValidRun(env, acts) && i < |acts|
    requires acts[i].task.AwaitSlot? || acts[i].task.Generating? || acts[i].task.Storing?
    ensures AllReported(env, acts[..i], acts[i].task.uri, acts[i].task.collected)
  {
    hide Tree, Advance, Next, Enabled, SubDirs, Files, TasksOk, NodesOk, StatsOk, AllReported, Collected;
    StepLive(env, t, acts, i);
    var u, g := acts[i].task.uri, PhasesAfter(env, t, acts[..i]);
    assert PhaseOk(env, t, g, u);
    AllReportedInside(env, t, acts[..i], u);
  }

  /** Bottom-up: a listed directory ends only after all its sub-directories ended. */
  lemma EndsBottomUp(env: Env, t: Shape, acts: seq<Action>, j: nat, p: Uri, r: Option<ChildSummary>, c: Uri)
    requires Tree(env, t) && ValidRun(env, acts) && j < |acts| && Ends(env, acts[j], p, r) && c in SubDirs(env, p)
    ensures exists i, q :: 0 <= i < j && Ends(env, acts[i], c, q)
  {
    hide Tree, Advance, Next, Enabled, Files, Listing;
    assert Listing(env, p).Some? by { NonEmptyListing(env, p); }
    CollectsEachChildInOrder(env, t, acts, j);
    var k :| 0 <= k < |SubDirs(env, p)| && SubDirs(env, p)[k] == c;
    assert EntryOf(env, acts[..j], p, c, acts[j].task.collected[k]);
    var q :| Ended(env, acts[..j], c, q);
    var i :| 0 <= i < j && Ends(env, acts[..j][i], c, q);
    assert acts[i] == acts[..j][i];
  }

  lemma NonEmptyListing(env: Env, p: Uri)
    requires SubDirs(env, p) != []
    ensures Listing(env, p).Some?
  {
  }

  // ----- No deadlock -----

  /** Below every open directory something can still run. */
  lemma {:induction false} OpenHasWork(env: Env, t: Shape, s: State, g: Progress, u: Uri)
    requires Tree(env, t) && Inv(env, t, s, g) && env.llmSlots > 0
    requires u in t.dirs && !Ph(g, u).Unseen? && !Ph(g, u).Reported?
    ensures exists a :: Enabled(s, a)
    decreases t.rank(u)
  {
    hide Tree, NodesOk, StatsOk, TasksOk, SubDirs, Files, Collected, Enabled, Live;
    FitsOf(env, t, u);
    assert PhaseOk(env, t, g, u);
    if Ph(g, u) == Open {
      if f :| f in UnreportedFiles(env, g, u) {
        assert Live(env, t, g, FileTask(u, f)) by { FileIsLive(env, t, g, u, f); }
        LiveIsEnabled(env, t, s, g, FileTask(u, f));
      } else {
        var c :| c in UnreportedDirs(env, g, u);
        assert KidsInStep(env, g, u);
        OpenHasWork(env, t, s, g, c);
      }
    } else {
      HasTask(env, t, g, u);
      LiveIsEnabled(env, t, s, g, TaskOf(env, t, g, u).value);
    }
  }

  lemma FileIsLive(env: Env, t: Shape, g: Progress, u: Uri, f: Uri)
    requires u in t.dirs && Listed(env, g, u) && f in UnreportedFiles(env, g, u)
    ensures Live(env, t, g, FileTask(u, f))
  {
  }

  lemma HasTask(env: Env, t: Shape, g: Progress, u: Uri)
    requires Tree(env, t) && PhasesOk(env, t, g) && u in t.dirs
    requires !Ph(g, u).Unseen? && !Ph(g, u).Reported? && Ph(g, u) != Open
    ensures TaskOf(env, t, g, u).Some? && Live(env, t, g, TaskOf(env, t, g, u).value)
  {
    hide SubDirs, Files, Collected, PhaseOk;
    assert HasParent(env, t, u) || u == env.root;
  }

  /** A live task can run, or it waits for a slot that a live generation holds. */
  lemma LiveIsEnabled(env: Env, t: Shape, s: State, g: Progress, k: Task)
    requires Inv(env, t, s, g) && env.llmSlots > 0 && Live(env, t, g, k)
    ensures exists a :: Enabled(s, a)
  {
    hide PhasesOk, NodesOk, StatsOk, SubDirs, Files, Collected;
    assert TaskOk(env, t, s, g, k);
    if k.AwaitSlot? && s.slots == 0 {
      var w :| w in WorkingDirs(t, g);
      var busy := Generating(w, Collected(env, g, w));
      assert Live(env, t, g, busy) && TaskOk(env, t, s, g, busy);
      assert Enabled(s, Action(busy, Fails));
    } else {
      assert Enabled(s, Action(k, Fails));
    }
  }

  /** Until the root event is set some task can run. */
  lemma NeverStuck(env: Env, t: Shape, acts: seq<Action>)
    requires Tree(env, t) && ValidRun(env, acts) && env.llmSlots > 0 && !After(env, acts).rootDone
    ensures exists a :: ValidRun(env, acts + [a])
  {
    hide Tree, Next, Advance, Enabled, NodesOk, StatsOk, TasksOk;
    RunInv(env, t, acts);
    OpenHasWork(env, t, After(env, acts), PhasesAfter(env, t, acts), env.root) by { RootIn(env, t); }
    var a :| Enabled(After(env, acts), a);
    Extend(env, acts, a);
  }

  lemma Extend(env: Env, acts: seq<Action>, a: Action)
    requires ValidRun(env, acts) && Enabled(After(env, acts), a)
    ensures ValidRun(env, acts + [a])
  {
    hide Next, Enabled;
    assert (acts + [a])[..|acts + [a]| - 1] == acts;
  }

  lemma RootIn(env: Env, t: Shape)
    requires Tree(env, t)
    ensures env.root in t.dirs && t.parent(env.root).None?
  {
  }

  // ----- Termination -----

  ghost function Below(t: Shape, g: Progress, k: nat): set<Uri> {
    set u | u in t.dirs && Rank(Ph(g, u)) < k
  }

  ghost function FilesLeft(env: Env, t: Shape, g: Progress): set<(Uri, Uri)> {
    set u, f | u in t.dirs && f in Files(env, u) && (u, f) !in g.filesDone :: (u, f)
  }

  /** Each directory counts the phases still ahead of it, each file one. */
  ghost function Remaining(env: Env, t: Shape, g: Progress): nat {
    PhasesLeft(t, g, 8) + |FilesLeft(env, t, g)|
  }

  ghost function PhasesLeft(t: Shape, g: Progress, k: nat): nat {
    if k == 0 then 0 else PhasesLeft(t, g, k - 1) + |Below(t, g, k)|
  }

  lemma {:induction false} PhasesLeftDrops(t: Shape, g: Progress, g': Progress, k: nat)
    requires NoLater(g, g')
    ensures PhasesLeft(t, g', k) <= PhasesLeft(t, g, k)
    ensures forall u :: u in t.dirs && Rank(Ph(g, u)) < Rank(Ph(g', u)) <= k ==>
      PhasesLeft(t, g', k) < PhasesLeft(t, g, k)
    ensures PhasesLeft(t, g, k) <= k * |t.dirs|
  {
    if k > 0 {
      PhasesLeftDrops(t, g, g', k - 1);
      Subset(Below(t, g', k), Below(t, g, k));
      Subset(Below(t, g, k), t.dirs);
      forall u | u in t.dirs && Rank(Ph(g, u)) < Rank(Ph(g', u)) == k
        ensures |Below(t, g', k)| < |Below(t, g, k)|
      {
        assert u in Below(t, g, k) && u !in Below(t, g', k);
        Subset(Below(t, g', k), Below(t, g, k) - {u});
      }
      assert k * |t.dirs| == (k - 1) * |t.dirs| + |t.dirs|;
    }
  }

  lemma {:induction false} Subset<T>(a: set<T>, b: set<T>)
    requires a <= b
    ensures |a| <= |b|
    decreases |a|
  {
    if x :| x in a {
      Subset(a - {x}, b - {x});
    }
  }

  /** Every step uses up part of a bounded amount of work. */
  lemma StepUsesWork(env: Env, t: Shape, s: State, g: Progress, a: Action)
    requires Tree(env, t) && Inv(env, t, s, g) && Enabled(s, a)
    ensures Remaining(env, t, Advance(env, t, g, a)) < Remaining(env, t, g)
  {
    hide Tree, Inv, Advance, SubDirs, Files, PhaseOk, Below, PhasesLeft;
    var g' := Advance(env, t, g, a);
    SpentTask(env, t, s, g, a.task);
    AdvanceForward(env, t, s, g, a);
    LiveNotPast(env, t, g, a.task);
    PhasesLeftDrops(t, g, g', 8);
    Subset(FilesLeft(env, t, g'), FilesLeft(env, t, g));
    if a.task.FileTask? {
      var x := (a.task.owner, a.task.file);
      assert x in FilesLeft(env, t, g) && x !in FilesLeft(env, t, g');
      Subset(FilesLeft(env, t, g'), FilesLeft(env, t, g) - {x});
    }
  }

  ghost function AllFiles(env: Env, t: Shape): set<(Uri, Uri)> {
    set u, f | u in t.dirs && f in Files(env, u) :: (u, f)
  }

  /** A run over d directories and n files has at most 8d + n steps. */
  lemma {:induction false} RunsAreBounded(env: Env, t: Shape, acts: seq<Action>)
    requires Tree(env, t) && ValidRun(env, acts)
    ensures |acts| + Remaining(env, t, PhasesAfter(env, t, acts)) <= 8 * |t.dirs| + |AllFiles(env, t)|
  {
    hide Tree, Inv, Advance, Next, Enabled, Files, Remaining;
    if acts == [] {
      var g := Begin(env);
      PhasesLeftDrops(t, g, g, 8);
      WorkAtStart(env, t);
    } else {
      var init := acts[..|acts| - 1];
      RunsAreBounded(env, t, init);
      RunInv(env, t, init);
      StepUsesWork(env, t, After(env, init), PhasesAfter(env, t, init), acts[|acts| - 1]);
    }
  }

  lemma WorkAtStart(env: Env, t: Shape)
    ensures Remaining(env, t, Begin(env)) <= 8 * |t.dirs| + |AllFiles(env, t)|
  {
    PhasesLeftDrops(t, Begin(env), Begin(env), 8);
    assert FilesLeft(env, t, Begin(env)) == AllFiles(env, t);
  }

  // ----- The end -----

  /** The directories whose listing failed when they were dispatched. */
  ghost function DispatchFailures(env: Env, t: Shape): set<Uri> {
    set u | u in t.dirs && Listing(env, u).None?
  }

  lemma {:induction false} AllReportedBelow(env: Env, t: Shape, s: State, g: Progress, u: Uri)
    requires Tree(env, t) && Inv(env, t, s, g) && Ph(g, env.root).Reported? && u in t.dirs
    ensures Ph(g, u).Reported?
    decreases |set v | v in t.dirs && t.rank(v) > t.rank(u)|
  {
    hide NodesOk, StatsOk, TasksOk, SubDirs, Files, Unreported;
    if u != env.root {
      assert HasParent(env, t, u);
      var p := t.parent(u).value;
      assert Fits(env, t, p);
      var above := set v | v in t.dirs && t.rank(v) > t.rank(u);
      var further := set v | v in t.dirs && t.rank(v) > t.rank(p);
      assert p in above && p !in further;
      Subset(further, above - {p});
      AllReportedBelow(env, t, s, g, p);
      assert Listed(env, g, p) by { NonEmptyListing(env, p); }
      PastOpen(env, t, g, p);
    }
  }

  /** When the root event is set everything has ended: no task is left, every
      directory of the tree was dispatched and has a result, none is pending, and
      completed plus failed is the total plus the failed dispatches. */
  lemma DoneMeansAllDone(env: Env, t: Shape, acts: seq<Action>)
    requires Tree(env, t) && ValidRun(env, acts) && After(env, acts).rootDone
    ensures var s := After(env, acts);
      && s.tasks == multiset{} && s.stats.pending == 0 && s.slots == env.llmSlots
      && s.parents.Keys == t.dirs
      && s.stats.total == |t.dirs| - |DispatchFailures(env, t)|
      && s.stats.completed + s.stats.failed == s.stats.total + |DispatchFailures(env, t)|
    ensures forall u :: u in t.dirs ==> exists r :: Ended(env, acts, u, r)
  {
    hide Tree, Advance, Next, Enabled, SubDirs, Files, NodeOk, Listing;
    var s, g := After(env, acts), PhasesAfter(env, t, acts);
    RunInv(env, t, acts);
    forall u | u in t.dirs ensures Ph(g, u).Reported? && exists r :: Ended(env, acts, u, r) {
      AllReportedBelow(env, t, s, g, u);
      History(env, t, acts, u);
    }
    EverythingReported(env, t, s, g);
  }

  lemma EverythingReported(env: Env, t: Shape, s: State, g: Progress)
    requires Inv(env, t, s, g) && forall u :: u in t.dirs ==> Ph(g, u).Reported?
    ensures s.tasks == multiset{} && s.stats.pending == 0 && s.slots == env.llmSlots && s.parents.Keys == t.dirs
    ensures s.stats.total == |t.dirs| - |DispatchFailures(env, t)|
    ensures s.stats.completed + s.stats.failed == |t.dirs|
  {
    hide NodeOk, SubDirs, Files, Listing, ListedDirs, CompletedDirs, FailedDirs, DispatchFailures, TasksOk, PhasesOk;
    NothingRuns(env, t, s, g);
    AllSettled(env, t, g);
    assert s.parents.Keys == t.dirs by { ParentsAre(env, t, s, g); }
    assert WorkingDirs(t, g) == {};
  }

  lemma ParentsAre(env: Env, t: Shape, s: State, g: Progress)
    requires PhasesOk(env, t, g) && NodesOk(env, t, s, g) && forall u :: u in t.dirs ==> Ph(g, u).Reported?
    ensures s.parents.Keys == t.dirs
  {
    hide NodeOk, SubDirs, Files, Listing;
    forall u ensures u in s.parents <==> u in t.dirs {
      assert ParentOk(t, s, g, u) && PhaseOk(env, t, g, u);
    }
  }

  lemma NothingRuns(env: Env, t: Shape, s: State, g: Progress)
    requires PhasesOk(env, t, g) && TasksOk(env, t, s, g) && forall u :: u in t.dirs ==> Ph(g, u).Reported?
    ensures s.tasks == multiset{}
  {
    hide PhasesOk, Live;
    forall k ensures s.tasks[k] == 0 {
      assert TaskOk(env, t, s, g, k);
      NoneLive(env, t, g, k);
    }
  }

  lemma AllSettled(env: Env, t: Shape, g: Progress)
    requires forall u :: u in t.dirs ==> Ph(g, u).Reported?
    ensures UnsettledDirs(env, t, g) == {}
    ensures |ListedDirs(env, t, g)| == |t.dirs| - |DispatchFailures(env, t)|
    ensures |CompletedDirs(t, g)| + |FailedDirs(t, g)| == |t.dirs|
  {
    hide Listing;
    assert ListedDirs(env, t, g) == t.dirs - DispatchFailures(env, t);
    ResultsSplit(t, g);
  }

  lemma ResultsSplit(t: Shape, g: Progress)
    requires forall u :: u in t.dirs ==> Ph(g, u).Reported?
    ensures |CompletedDirs(t, g)| + |FailedDirs(t, g)| == |t.dirs|
  {
    assert FailedDirs(t, g) == t.dirs - CompletedDirs(t, g);
  }

  lemma NoneLive(env: Env, t: Shape, g: Progress, k: Task)
    requires PhasesOk(env, t, g) && forall u :: u in t.dirs ==> Ph(g, u).Reported?
    ensures !Live(env, t, g, k)
  {
    hide SubDirs, Files;
    var u := Subject(k);
    if u in t.dirs && Listed(env, g, u) {
      PastOpen(env, t, g, u);
    }
  }

  // ----- Exactly when the scheduler finishes -----

  ghost predicate Maximal(env: Env, acts: seq<Action>) {
    ValidRun(env, acts) && forall a :: !ValidRun(env, acts + [a])
  }

  /** Every run can be driven until nothing is left to do. */
  lemma {:induction false} DriveOn(env: Env, t: Shape, acts: seq<Action>) returns (full: seq<Action>)
    requires Tree(env, t) && ValidRun(env, acts)
    ensures acts <= full && Maximal(env, full)
    decreases 8 * |t.dirs| + |AllFiles(env, t)| - |acts|
  {
    hide Tree, Next, Enabled, Files;
    if a :| ValidRun(env, acts + [a]) {
      RunsAreBounded(env, t, acts + [a]);
      full := DriveOn(env, t, acts + [a]);
    } else {
      full := acts;
    }
  }

  /** Without a slot no listed directory gets past waiting for one. */
  lemma {:induction false} NoSlotsNoSummary(env: Env, t: Shape, acts: seq<Action>)
    requires Tree(env, t) && ValidRun(env, acts) && env.llmSlots == 0
    ensures forall u :: Listed(env, PhasesAfter(env, t, acts), u) ==> Rank(Ph(PhasesAfter(env, t, acts), u)) <= 4
  {
    hide Tree, Next, Advance, Enabled, Listing;
    if acts != [] {
      var init, last := acts[..|acts| - 1], acts[|acts| - 1];
      NoSlotsNoSummary(env, t, init);
      RunInv(env, t, init);
      NoSlotsStep(env, t, After(env, init), PhasesAfter(env, t, init), last);
    }
  }

  lemma NoSlotsStep(env: Env, t: Shape, s: State, g: Progress, a: Action)
    requires Tree(env, t) && Inv(env, t, s, g) && Enabled(s, a) && env.llmSlots == 0
    requires forall u :: Listed(env, g, u) ==> Rank(Ph(g, u)) <= 4
    ensures forall u :: Listed(env, Advance(env, t, g, a), u) ==> Rank(Ph(Advance(env, t, g, a), u)) <= 4
  {
    hide Tree, PhasesOk, NodesOk, StatsOk, TasksOk, NodeOk, PhaseOk, SubDirs, Files, Collected, Unreported,
      UnreportedFiles;
    SpentTask(env, t, s, g, a.task);
    LiveNotPast(env, t, g, a.task);
    if a.task.ChildDoneTask? { ChildHeard(env, t, g, a.task.owner, a.task.child, a.task.summary); }
    if a.task.FileTask? { FileHeard(env, t, g, a.task.owner, a.task.file); }
    if a.task.DispatchTask? { QueuedFacts(env, t, s, g, a.task.uri); }
    forall u | Listed(env, Advance(env, t, g, a), u) ensures Rank(Ph(Advance(env, t, g, a), u)) <= 4 {
      assert Listed(env, g, u) ==> Rank(Ph(g, u)) <= 4;
    }
  }

  /** The scheduler always finishes exactly when there is a slot for the LLM, or
      when it never needs one because the root itself cannot be listed. */
  lemma FinishesExactlyWithASlot(env: Env, t: Shape)
    requires Tree(env, t)
    ensures (forall acts :: Maximal(env, acts) ==> After(env, acts).rootDone)
        <==> env.llmSlots > 0 || Listing(env, env.root).None?
  {
    hide Tree, Next, Enabled, Advance, Files, Listing, ValidRun, StatsOk, TasksOk, NodesOk;
    forall acts | Maximal(env, acts) ensures Tree(env, t) && env.llmSlots > 0 ==> After(env, acts).rootDone {
      if env.llmSlots > 0 && !After(env, acts).rootDone { NeverStuck(env, t, acts); }
    }
    if env.llmSlots == 0 {
      if Listing(env, env.root).Some? {
        var full := DriveOn(env, t, []) by { assert ValidRun(env, []) by { EmptyValid(env); } }
        NoSlotsNoSummary(env, t, full);
        RunInv(env, t, full);
      } else {
        forall acts | Maximal(env, acts) ensures After(env, acts).rootDone {
          RootFails(env, t, acts);
        }
      }
    }
  }

  lemma EmptyValid(env: Env)
    ensures ValidRun(env, [])
  {
  }

  lemma RootFails(env: Env, t: Shape, acts: seq<Action>)
    requires Tree(env, t) && Maximal(env, acts) && Listing(env, env.root).None?
    ensures After(env, acts).rootDone
  {
    hide Tree, Next, Advance, Files, Listing, StatsOk, NodesOk;
    var g := PhasesAfter(env, t, acts);
    RunInv(env, t, acts);
    assert PhaseOk(env, t, g, env.root);
    RootIn(env, t);
    if Ph(g, env.root) == Queued {
      var k := DispatchTask(env.root, None);
      assert TaskOk(env, t, After(env, acts), g, k) && Live(env, t, g, k);
      Extend(env, acts, Action(k, Fails));
      assert false;
    }
  }
}
