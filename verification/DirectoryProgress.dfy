/** Why the scheduler of DirectoryDag works on a tree of directories.

    Every directory moves through the phases below, one way only.  The counters,
    flags, task set, summary slots and statistics of the running program are all
    functions of these phases (`Inv`), and every step keeps that so. */
module DirectoryProgress {
  import opened Wrappers
  import opened DirectoryDag

  datatype Phase =
    | Unseen
    | Queued                                   // its dispatch task exists
    | Open                                     // listed, some child has not reported
    | Ready | Waiting | Working | Saving(text: string)
    | Leaving(result: Option<ChildSummary>)    // its report to the parent is under way
    | Reported(result: Option<ChildSummary>)

  datatype Progress = Progress(phase: map<Uri, Phase>, filesDone: set<(Uri, Uri)>)

  /** The directories under the root, each with its only parent; `rank` falls
      towards the leaves. */
  datatype Shape = Shape(dirs: set<Uri>, parent: Uri -> Option<Uri>, rank: Uri -> nat)

  ghost predicate Distinct<T>(xs: seq<T>) {
    forall i, j :: 0 <= i < j < |xs| ==> xs[i] != xs[j]
  }

  ghost predicate Tree(env: Env, t: Shape) {
    && env.root in t.dirs && t.parent(env.root) == None
    && (forall u {:trigger Fits(env, t, u)} :: u in t.dirs ==> Fits(env, t, u))
    && (forall c {:trigger HasParent(env, t, c)} :: c in t.dirs && c != env.root ==> HasParent(env, t, c))
  }

  /** A directory's own part of being a tree: distinct children that know it. */
  ghost predicate Fits(env: Env, t: Shape, u: Uri) {
    && IsDirectoryUri(u) && Distinct(SubDirs(env, u)) && Distinct(Files(env, u))
    && forall c :: c in SubDirs(env, u) ==>
         c in t.dirs && t.parent(c) == Some(u) && t.rank(c) < t.rank(u)
  }

  ghost predicate HasParent(env: Env, t: Shape, c: Uri) {
    t.parent(c).Some? && t.parent(c).value in t.dirs && c in SubDirs(env, t.parent(c).value)
  }

  // ----- Reading the phases -----

  ghost function Ph(g: Progress, u: Uri): Phase {
    if u in g.phase then g.phase[u] else Unseen
  }

  ghost predicate Dispatched(g: Progress, u: Uri) {
    !Ph(g, u).Unseen? && !Ph(g, u).Queued?
  }

  ghost predicate Listed(env: Env, g: Progress, u: Uri) {
    Dispatched(g, u) && Listing(env, u).Some?
  }

  ghost predicate Settled(g: Progress, u: Uri) {
    Ph(g, u).Leaving? || Ph(g, u).Reported?
  }

  ghost function Result(g: Progress, c: Uri): Option<ChildSummary> {
    if Ph(g, c).Reported? then Ph(g, c).result else None
  }

  ghost function Results(g: Progress, ds: seq<Uri>): (rs: seq<Option<ChildSummary>>)
    ensures |rs| == |ds| && forall i :: 0 <= i < |ds| ==> rs[i] == Result(g, ds[i])
  {
    seq(|ds|, i requires 0 <= i < |ds| => Result(g, ds[i]))
  }

  ghost function UnreportedDirs(env: Env, g: Progress, u: Uri): set<Uri> {
    set c | c in SubDirs(env, u) && !Ph(g, c).Reported?
  }

  ghost function UnreportedFiles(env: Env, g: Progress, u: Uri): set<Uri> {
    set f | f in Files(env, u) && (u, f) !in g.filesDone
  }

  ghost function Unreported(env: Env, g: Progress, u: Uri): nat {
    |UnreportedDirs(env, g, u)| + |UnreportedFiles(env, g, u)|
  }

  /** The node the program must hold for u. */
  ghost function NodeOf(env: Env, g: Progress, u: Uri): Node {
    var ds := SubDirs(env, u);
    Node(ds, Files(env, u), IndexOf(ds), Results(g, ds), Unreported(env, g, u), Ph(g, u) != Open)
  }

  ghost function Collected(env: Env, g: Progress, u: Uri): seq<ChildSummary> {
    Collect(SubDirs(env, u), Results(g, SubDirs(env, u)))
  }

  function Subject(k: Task): Uri {
    match k case FileTask(p, _) => p case ChildDoneTask(_, c, _) => c case _ => k.uri
  }

  /** The one task that stands for u in its present phase. */
  ghost function TaskOf(env: Env, t: Shape, g: Progress, u: Uri): (k: Option<Task>)
    ensures k.Some? ==> Subject(k.value) == u && !k.value.FileTask?
  {
    match Ph(g, u)
    case Queued => Some(DispatchTask(u, t.parent(u)))
    case Ready => Some(SummaryTask(u))
    case Waiting => Some(AwaitSlot(u, Collected(env, g, u)))
    case Working => Some(Generating(u, Collected(env, g, u)))
    case Saving(x) => Some(Storing(u, Collected(env, g, u), x))
    case Leaving(r) => if t.parent(u).Some? then Some(ChildDoneTask(t.parent(u).value, u, r)) else None
    case _ => None
  }

  /** Which tasks exist: one for each child that is on its way to reporting. */
  ghost predicate Live(env: Env, t: Shape, g: Progress, k: Task) {
    var u := Subject(k);
    u in t.dirs &&
    if k.FileTask? then Listed(env, g, u) && k.file in UnreportedFiles(env, g, u)
    else TaskOf(env, t, g, u) == Some(k)
  }

  ghost function ListedDirs(env: Env, t: Shape, g: Progress): set<Uri> {
    set u | u in t.dirs && Listed(env, g, u)
  }

  ghost function UnsettledDirs(env: Env, t: Shape, g: Progress): set<Uri> {
    set u | u in t.dirs && Listed(env, g, u) && !Settled(g, u)
  }

  ghost function CompletedDirs(t: Shape, g: Progress): set<Uri> {
    set u | u in t.dirs && Settled(g, u) && Ph(g, u).result.Some?
  }

  ghost function FailedDirs(t: Shape, g: Progress): set<Uri> {
    set u | u in t.dirs && Settled(g, u) && Ph(g, u).result.None?
  }

  ghost function WorkingDirs(t: Shape, g: Progress): set<Uri> {
    set u | u in t.dirs && Ph(g, u) == Working
  }

  // ----- The invariant -----

  /** Sub-directories are heard of when their directory is dispatched. */
  ghost predicate KidsInStep(env: Env, g: Progress, u: Uri) {
    forall c :: c in SubDirs(env, u) ==> (Ph(g, c).Unseen? <==> !Dispatched(g, u))
  }

  ghost predicate PhaseOk(env: Env, t: Shape, g: Progress, u: Uri) {
    && (!Ph(g, u).Unseen? ==> u in t.dirs)
    && (u in t.dirs ==> KidsInStep(env, g, u))
    && (Dispatched(g, u) && !Listed(env, g, u) ==> Settled(g, u) && Ph(g, u).result.None?)
    && (Listed(env, g, u) ==> (Ph(g, u) == Open <==> Unreported(env, g, u) > 0))
    && (!Dispatched(g, u) ==> NoFileDone(g, u))
  }

  ghost predicate NoFileDone(g: Progress, u: Uri) {
    forall f :: (u, f) !in g.filesDone
  }

  ghost predicate NodeOk(env: Env, s: State, g: Progress, u: Uri) {
    (u in s.nodes <==> Listed(env, g, u)) && (u in s.nodes ==> s.nodes[u] == NodeOf(env, g, u))
  }

  ghost predicate ParentOk(t: Shape, s: State, g: Progress, u: Uri) {
    (u in s.parents <==> Dispatched(g, u)) && (u in s.parents ==> s.parents[u] == t.parent(u))
  }

  ghost predicate TaskOk(env: Env, t: Shape, s: State, g: Progress, k: Task) {
    s.tasks[k] == if Live(env, t, g, k) then 1 else 0
  }

  ghost predicate PhasesOk(env: Env, t: Shape, g: Progress) {
    && (forall u :: PhaseOk(env, t, g, u))
    && !Ph(g, env.root).Unseen? && !Ph(g, env.root).Leaving?
  }

  ghost predicate NodesOk(env: Env, t: Shape, s: State, g: Progress) {
    forall u :: NodeOk(env, s, g, u) && ParentOk(t, s, g, u)
  }

  ghost predicate TasksOk(env: Env, t: Shape, s: State, g: Progress) {
    forall k :: TaskOk(env, t, s, g, k)
  }

  ghost predicate StatsOk(env: Env, t: Shape, s: State, g: Progress) {
    && s.stats.total == |ListedDirs(env, t, g)|
    && s.stats.pending == |UnsettledDirs(env, t, g)|
    && s.stats.completed == |CompletedDirs(t, g)|
    && s.stats.failed == |FailedDirs(t, g)|
  }

  ghost predicate Inv(env: Env, t: Shape, s: State, g: Progress) {
    && PhasesOk(env, t, g)
    && NodesOk(env, t, s, g)
    && TasksOk(env, t, s, g)
    && StatsOk(env, t, s, g)
    && (s.rootDone <==> Ph(g, env.root).Reported?)
    && s.slots + |WorkingDirs(t, g)| == env.llmSlots
  }

  // ----- How a step moves the phases -----

  ghost function Finish(t: Shape, g: Progress, u: Uri, r: Option<ChildSummary>): Progress {
    g.(phase := g.phase[u := if t.parent(u).None? then Reported(r) else Leaving(r)])
  }

  ghost function MaybeReady(env: Env, g: Progress, p: Uri): Progress {
    if Unreported(env, g, p) == 0 then g.(phase := g.phase[p := Ready]) else g
  }

  ghost function Advance(env: Env, t: Shape, g: Progress, a: Action): Progress {
    match a.task
    case DispatchTask(u, _) =>
      if Listing(env, u).None? then Finish(t, g, u, None)
      else
        var ds := SubDirs(env, u);
        g.(phase := (g.phase + map c | c in ds :: Queued)
                    [u := if ds == [] && Files(env, u) == [] then Ready else Open])
    case FileTask(p, f) => MaybeReady(env, g.(filesDone := g.filesDone + {(p, f)}), p)
    case ChildDoneTask(p, c, r) => MaybeReady(env, g.(phase := g.phase[c := Reported(r)]), p)
    case SummaryTask(u) => g.(phase := g.phase[u := Waiting])
    case AwaitSlot(u, _) => g.(phase := g.phase[u := Working])
    case Generating(u, _) =>
      if a.outcome.Succeeds? then g.(phase := g.phase[u := Saving(a.outcome.text)]) else Finish(t, g, u, None)
    case Storing(u, _, x) =>
      Finish(t, g, u, if a.outcome.Succeeds? then Some(ChildSummary(u, x, true)) else None)
  }

  ghost function Begin(env: Env): Progress {
    Progress(map[env.root := Queued], {})
  }

  // ----- Counting -----

  lemma {:induction false} DistinctCount(xs: seq<Uri>)
    requires Distinct(xs)
    ensures |set x | x in xs| == |xs|
  {
    if xs != [] {
      var init, last := xs[..|xs| - 1], xs[|xs| - 1];
      DistinctCount(init);
      assert xs == init + [last];
      assert (set x | x in xs) == (set x | x in init) + {last};
    }
  }

  lemma {:induction false} DispatchTasksCount(u: Uri, ds: seq<Uri>, k: Task)
    requires Distinct(ds)
    ensures DispatchTasks(u, ds)[k] == if k.DispatchTask? && k.parent == Some(u) && k.uri in ds then 1 else 0
  {
    if ds != [] {
      DispatchTasksCount(u, ds[..|ds| - 1], k);
      assert ds == ds[..|ds| - 1] + [ds[|ds| - 1]];
    }
  }

  lemma {:induction false} FileTasksCount(u: Uri, fs: seq<Uri>, k: Task)
    requires Distinct(fs)
    ensures FileTasks(u, fs)[k] == if k.FileTask? && k.owner == u && k.file in fs then 1 else 0
  {
    if fs != [] {
      FileTasksCount(u, fs[..|fs| - 1], k);
      assert fs == fs[..|fs| - 1] + [fs[|fs| - 1]];
    }
  }

  lemma StartInv(env: Env, t: Shape)
    requires Tree(env, t)
    ensures Inv(env, t, Start(env), Begin(env))
  {
    var g := Begin(env);
    forall u ensures PhaseOk(env, t, g, u) && !Dispatched(g, u) {
      if u in t.dirs { assert Fits(env, t, u); }
    }
    assert ListedDirs(env, t, g) == {} && UnsettledDirs(env, t, g) == {} && WorkingDirs(t, g) == {};
    assert CompletedDirs(t, g) == {} && FailedDirs(t, g) == {};
    assert NodesOk(env, t, Start(env), g);
    assert TasksOk(env, t, Start(env), g);
  }

  // ----- What a node can notice -----

  ghost predicate LooksSame(env: Env, g: Progress, g': Progress, v: Uri) {
    && (forall c :: c in SubDirs(env, v) ==> Ph(g', c).Reported? == Ph(g, c).Reported? && Result(g', c) == Result(g, c))
    && (forall f :: f in Files(env, v) ==> ((v, f) in g'.filesDone <==> (v, f) in g.filesDone))
  }

  lemma SameCounts(env: Env, g: Progress, g': Progress, v: Uri)
    requires LooksSame(env, g, g', v)
    ensures UnreportedDirs(env, g', v) == UnreportedDirs(env, g, v)
    ensures UnreportedFiles(env, g', v) == UnreportedFiles(env, g, v)
  {
  }

  lemma SameResults(env: Env, g: Progress, g': Progress, v: Uri)
    requires LooksSame(env, g, g', v)
    ensures Results(g', SubDirs(env, v)) == Results(g, SubDirs(env, v))
  {
  }

  lemma SameNode(env: Env, g: Progress, g': Progress, v: Uri)
    requires LooksSame(env, g, g', v)
    ensures UnreportedFiles(env, g', v) == UnreportedFiles(env, g, v)
    ensures Unreported(env, g', v) == Unreported(env, g, v) && Collected(env, g', v) == Collected(env, g, v)
    ensures (Ph(g', v) == Open <==> Ph(g, v) == Open) ==> NodeOf(env, g', v) == NodeOf(env, g, v)
  {
    hide SubDirs, Files, IndexOf;
    SameCounts(env, g, g', v);
    SameResults(env, g, g', v);
  }

  // ----- Steps that move one directory without a report being received -----

  ghost predicate Moved(g: Progress, g': Progress, u: Uri) {
    g' == g.(phase := g.phase[u := Ph(g', u)])
  }

  /** u was and is past Open; if it becomes Reported it is the root, which no
      node counts as a child. */
  ghost predicate Alone(env: Env, t: Shape, g: Progress, g': Progress, u: Uri) {
    && u in t.dirs && Moved(g, g', u)
    && Listed(env, g, u) && Ph(g, u) != Open && !Settled(g, u)
    && Dispatched(g', u) && Ph(g', u) != Open
    && (Ph(g', u).Reported? ==> t.parent(u).None?)
  }

  lemma AloneLooksSame(env: Env, t: Shape, g: Progress, g': Progress, u: Uri, v: Uri)
    requires Tree(env, t) && Alone(env, t, g, g', u) && v in t.dirs
    ensures UnreportedFiles(env, g', v) == UnreportedFiles(env, g, v) && Unreported(env, g', v) == Unreported(env, g, v)
    ensures NodeOf(env, g', v) == NodeOf(env, g, v) && Collected(env, g', v) == Collected(env, g, v)
  {
    hide SubDirs, Files, NodeOf, Collected, Unreported;
    assert Fits(env, t, v);
    SameNode(env, g, g', v);
  }

  lemma AlonePhases(env: Env, t: Shape, g: Progress, g': Progress, u: Uri)
    requires Tree(env, t) && Alone(env, t, g, g', u) && PhasesOk(env, t, g) && !Ph(g', env.root).Leaving?
    ensures PhasesOk(env, t, g')
  {
    hide SubDirs, Files, LooksSame, NodeOf, Collected, Unreported, HasParent, Fits;
    forall v ensures PhaseOk(env, t, g', v) {
      assert PhaseOk(env, t, g, v);
      if v in t.dirs { AloneLooksSame(env, t, g, g', u, v); }
    }
  }

  lemma AloneNodes(env: Env, t: Shape, s: State, s': State, g: Progress, g': Progress, u: Uri)
    requires Tree(env, t) && Alone(env, t, g, g', u) && PhasesOk(env, t, g) && NodesOk(env, t, s, g)
    requires s'.nodes == s.nodes && s'.parents == s.parents
    ensures NodesOk(env, t, s', g')
  {
    hide SubDirs, Files, LooksSame, NodeOf, Collected, Unreported, KidsInStep, HasParent, Fits;
    forall v ensures NodeOk(env, s', g', v) && ParentOk(t, s', g', v) {
      assert NodeOk(env, s, g, v) && ParentOk(t, s, g, v) && PhaseOk(env, t, g, v);
      if v in t.dirs { AloneLooksSame(env, t, g, g', u, v); }
    }
  }

  /** A directory's own task changes with its phase and no other task does. */
  lemma AloneLive(env: Env, t: Shape, g: Progress, g': Progress, u: Uri, k: Task)
    requires Tree(env, t) && Alone(env, t, g, g', u)
    requires k.FileTask? || Subject(k) != u
    ensures Live(env, t, g', k) <==> Live(env, t, g, k)
  {
    hide SubDirs, Files, LooksSame, NodeOf, Collected, UnreportedFiles, Unreported, HasParent, Fits;
    if Subject(k) in t.dirs { AloneLooksSame(env, t, g, g', u, Subject(k)); }
  }

  /** The exchange of u's task for the task of its next phase. */
  lemma SwapTasks(env: Env, t: Shape, s: State, s': State, g: Progress, g': Progress, u: Uri, spent: Task)
    requires forall x: Task :: x.FileTask? || Subject(x) != u ==> (Live(env, t, g', x) <==> Live(env, t, g, x))
    requires TasksOk(env, t, s, g) && u in t.dirs
    requires TaskOf(env, t, g, u) == Some(spent) && TaskOf(env, t, g', u) != Some(spent)
    requires s'.tasks == s.tasks - multiset{spent} +
      (match TaskOf(env, t, g', u) case None => multiset{} case Some(k) => multiset{k})
    ensures TasksOk(env, t, s', g')
  {
    hide TaskOf, Listed, UnreportedFiles;
    assert TaskOk(env, t, s, g, spent);
    forall k ensures TaskOk(env, t, s', g', k) {
      assert TaskOk(env, t, s, g, k);
    }
  }

  lemma AloneTasks(env: Env, t: Shape, s: State, s': State, g: Progress, g': Progress, u: Uri, spent: Task)
    requires Tree(env, t) && Alone(env, t, g, g', u) && Ph(g', u) != Ph(g, u)
    requires TasksOk(env, t, s, g) && TaskOf(env, t, g, u) == Some(spent)
    requires s'.tasks == s.tasks - multiset{spent} +
      (match TaskOf(env, t, g', u) case None => multiset{} case Some(k) => multiset{k})
    ensures TasksOk(env, t, s', g')
  {
    hide Tree, TasksOk, Live;
    forall x: Task | x.FileTask? || Subject(x) != u ensures Live(env, t, g', x) <==> Live(env, t, g, x) {
      AloneLive(env, t, g, g', u, x);
    }
    SwapTasks(env, t, s, s', g, g', u, spent);
  }

  lemma InsideStats(env: Env, t: Shape, s: State, s': State, g: Progress, g': Progress, u: Uri)
    requires StatsOk(env, t, s, g) && s'.stats == s.stats
    requires Alone(env, t, g, g', u) && !Settled(g', u)
    ensures StatsOk(env, t, s', g')
  {
    hide SubDirs, Files;
    assert ListedDirs(env, t, g') == ListedDirs(env, t, g);
    assert UnsettledDirs(env, t, g') == UnsettledDirs(env, t, g);
    assert CompletedDirs(t, g') == CompletedDirs(t, g);
    assert FailedDirs(t, g') == FailedDirs(t, g);
  }

  /** Collecting, taking a slot and generating: one task is exchanged. */
  lemma InsideStep(env: Env, t: Shape, s: State, s': State, g: Progress, g': Progress, u: Uri, spent: Task)
    requires Tree(env, t) && Inv(env, t, s, g) && TaskOf(env, t, g, u) == Some(spent)
    requires Alone(env, t, g, g', u) && !Settled(g', u) && Ph(g', u) != Ph(g, u) && TaskOf(env, t, g', u).Some?
    requires s'.tasks == s.tasks - multiset{spent} + multiset{TaskOf(env, t, g', u).value}
    requires s'.nodes == s.nodes && s'.parents == s.parents && s'.stats == s.stats && s'.rootDone == s.rootDone
    requires s'.slots + |WorkingDirs(t, g')| == env.llmSlots
    ensures Inv(env, t, s', g')
  {
    hide PhaseOk, NodeOk, ParentOk, TasksOk, StatsOk, HasParent, Fits;
    AlonePhases(env, t, g, g', u);
    AloneNodes(env, t, s, s', g, g', u);
    InsideStats(env, t, s, s', g, g', u);
    AloneTasks(env, t, s, s', g, g', u, spent);
  }

  lemma CollectStep(env: Env, t: Shape, s: State, g: Progress, a: Action)
    requires Tree(env, t) && Inv(env, t, s, g) && Enabled(s, a) && a.task.SummaryTask?
    ensures Inv(env, t, Next(env, s, a), Advance(env, t, g, a))
  {
    hide Inv, Tree, ParentOk, PhaseOk, SubDirs, Files, Unreported, UnreportedFiles, Collect;
    var s', g', u := Next(env, s, a), Advance(env, t, g, a), a.task.uri;
    SpentTask(env, t, s, g, a.task);
    assert NodeOk(env, s, g, u);
    AloneLooksSame(env, t, g, g', u, u);
    assert WorkingDirs(t, g') == WorkingDirs(t, g);
    InsideStep(env, t, s, s', g, g', u, a.task);
  }

  /** A task that exists stands for its directory, which is inside its node. */
  lemma SpentTask(env: Env, t: Shape, s: State, g: Progress, k: Task)
    requires Inv(env, t, s, g) && k in s.tasks
    ensures Live(env, t, g, k) && Subject(k) in t.dirs
    ensures NodeOk(env, s, g, Subject(k)) && ParentOk(t, s, g, Subject(k)) && PhaseOk(env, t, g, Subject(k))
    ensures !k.FileTask? ==> TaskOf(env, t, g, Subject(k)) == Some(k)
    ensures !k.DispatchTask? && !k.ChildDoneTask? ==> Listed(env, g, Subject(k)) && Subject(k) in s.nodes
    ensures PhasesOk(env, t, g) && s.slots + |WorkingDirs(t, g)| == env.llmSlots
  {
    assert TaskOk(env, t, s, g, k);
    assert PhaseOk(env, t, g, Subject(k));
    assert NodeOk(env, s, g, Subject(k)) && ParentOk(t, s, g, Subject(k));
  }

  lemma SlotStep(env: Env, t: Shape, s: State, g: Progress, a: Action)
    requires Tree(env, t) && Inv(env, t, s, g) && Enabled(s, a) && a.task.AwaitSlot?
    ensures Inv(env, t, Next(env, s, a), Advance(env, t, g, a))
  {
    hide Inv, Tree, NodeOk, ParentOk, PhaseOk, SubDirs, Files, NodeOf, Unreported, UnreportedFiles, AfterDecrement,
      Dispatch, Settle, Finish;
    var s', g', u := Next(env, s, a), Advance(env, t, g, a), a.task.uri;
    SpentTask(env, t, s, g, a.task);
    AloneLooksSame(env, t, g, g', u, u);
    assert WorkingDirs(t, g') == WorkingDirs(t, g) + {u};
    InsideStep(env, t, s, s', g, g', u, a.task);
  }

  lemma GenerateStep(env: Env, t: Shape, s: State, g: Progress, a: Action)
    requires Tree(env, t) && Inv(env, t, s, g) && Enabled(s, a) && a.task.Generating? && a.outcome.Succeeds?
    ensures Inv(env, t, Next(env, s, a), Advance(env, t, g, a))
  {
    hide Inv, Tree, NodeOk, ParentOk, PhaseOk, SubDirs, Files, NodeOf, Unreported, UnreportedFiles, AfterDecrement,
      Dispatch, Settle, Finish;
    var s', g', u := Next(env, s, a), Advance(env, t, g, a), a.task.uri;
    SpentTask(env, t, s, g, a.task);
    AloneLooksSame(env, t, g, g', u, u);
    assert WorkingDirs(t, g') == WorkingDirs(t, g) - {u};
    InsideStep(env, t, s, s', g, g', u, a.task);
  }

  // ----- The end of a summary task -----

  lemma SettleSets(env: Env, t: Shape, g: Progress, g': Progress, u: Uri)
    requires Alone(env, t, g, g', u) && Settled(g', u)
    ensures ListedDirs(env, t, g') == ListedDirs(env, t, g)
    ensures u in UnsettledDirs(env, t, g) && UnsettledDirs(env, t, g') == UnsettledDirs(env, t, g) - {u}
  {
    hide Listing;
  }

  lemma CompletedSet(env: Env, t: Shape, g: Progress, g': Progress, u: Uri)
    requires Moved(g, g', u) && u in t.dirs && !Settled(g, u) && Settled(g', u)
    ensures CompletedDirs(t, g') == CompletedDirs(t, g) + (if Ph(g', u).result.Some? then {u} else {})
    ensures u !in CompletedDirs(t, g)
  {
  }

  lemma FailedSet(env: Env, t: Shape, g: Progress, g': Progress, u: Uri)
    requires Moved(g, g', u) && u in t.dirs && !Settled(g, u) && Settled(g', u)
    ensures FailedDirs(t, g') == FailedDirs(t, g) + (if Ph(g', u).result.None? then {u} else {})
    ensures u !in FailedDirs(t, g)
  {
  }

  lemma SettleStats(env: Env, t: Shape, s: State, s': State, g: Progress, g': Progress, u: Uri, r: Option<ChildSummary>)
    requires StatsOk(env, t, s, g) && s'.stats == Settle(s, u, r).stats
    requires Alone(env, t, g, g', u) && g' == Finish(t, g, u, r)
    ensures StatsOk(env, t, s', g')
  {
    hide ListedDirs, UnsettledDirs, CompletedDirs, FailedDirs;
    FinishEffect(env, t, g, g', u, r);
    hide Alone, Finish;
    SettleCounts(env, t, g, g', u, r);
  }

  lemma FinishEffect(env: Env, t: Shape, g: Progress, g': Progress, u: Uri, r: Option<ChildSummary>)
    requires Alone(env, t, g, g', u) && g' == Finish(t, g, u, r)
    ensures Moved(g, g', u) && u in t.dirs && !Settled(g, u) && Settled(g', u) && Ph(g', u).result == r
  {
  }

  lemma SettleCounts(env: Env, t: Shape, g: Progress, g': Progress, u: Uri, r: Option<ChildSummary>)
    requires Alone(env, t, g, g', u) && Moved(g, g', u) && u in t.dirs && !Settled(g, u) && Settled(g', u)
    requires Ph(g', u).result == r
    ensures |ListedDirs(env, t, g')| == |ListedDirs(env, t, g)|
    ensures |UnsettledDirs(env, t, g')| == |UnsettledDirs(env, t, g)| - 1
    ensures |CompletedDirs(t, g')| == |CompletedDirs(t, g)| + if r.Some? then 1 else 0
    ensures |FailedDirs(t, g')| == |FailedDirs(t, g)| + if r.None? then 1 else 0
  {
    hide ListedDirs, UnsettledDirs, CompletedDirs, FailedDirs, Alone, Moved, Ph;
    SettleSets(env, t, g, g', u);
    CompletedSet(env, t, g, g', u);
    FailedSet(env, t, g, g', u);
  }

  /** Finishing is the root's own affair or a report to the only parent. */
  lemma FinishFacts(env: Env, t: Shape, g: Progress, u: Uri, r: Option<ChildSummary>)
    requires Tree(env, t) && PhasesOk(env, t, g) && u in t.dirs && !Settled(g, u)
    ensures Moved(g, Finish(t, g, u, r), u) && Settled(Finish(t, g, u, r), u) && Ph(Finish(t, g, u, r), u).result == r
    ensures Ph(Finish(t, g, u, r), u).Reported? <==> t.parent(u).None?
    ensures !Ph(Finish(t, g, u, r), env.root).Leaving? && !Ph(Finish(t, g, u, r), env.root).Unseen?
    ensures t.parent(u).None? <==> u == env.root
    ensures u != env.root ==> Ph(Finish(t, g, u, r), env.root) == Ph(g, env.root)
    ensures t.parent(u).Some? ==> t.parent(u).value in t.dirs && IsDirectoryUri(t.parent(u).value)
  {
    hide PhaseOk, SubDirs, Files;
    assert HasParent(env, t, u) || u == env.root;
    if u != env.root { assert Fits(env, t, t.parent(u).value); }
  }

  lemma WorkingSet(t: Shape, g: Progress, g': Progress, u: Uri)
    requires Moved(g, g', u) && u in t.dirs && Ph(g', u) != Working
    ensures WorkingDirs(t, g') == WorkingDirs(t, g) - {u}
    ensures u in WorkingDirs(t, g) <==> Ph(g, u) == Working
  {
  }

  /** s1 is the state in which the task has already been taken. */
  lemma SettleStep(env: Env, t: Shape, s: State, s1: State, g: Progress, u: Uri, k: Task, r: Option<ChildSummary>)
    requires Tree(env, t) && Inv(env, t, s, g) && k in s.tasks && Subject(k) == u && (k.Generating? || k.Storing?)
    requires s1 == s.(tasks := s.tasks - multiset{k}, slots := if k.Generating? then s.slots + 1 else s.slots)
    ensures Inv(env, t, Settle(s1, u, r), Finish(t, g, u, r))
  {
    hide Live, Tree, NodesOk, StatsOk, TasksOk, PhasesOk, NodeOk, PhaseOk, SubDirs, Files, UnreportedFiles, Collected,
      Finish, WorkingDirs, Moved;
    var s', g' := Settle(s1, u, r), Finish(t, g, u, r);
    SpentTask(env, t, s, g, k);
    FinishFacts(env, t, g, u, r);
    AlonePhases(env, t, g, g', u);
    AloneNodes(env, t, s, s', g, g', u);
    SettleStats(env, t, s, s', g, g', u, r);
    WorkingSet(t, g, g', u);
    SettleTasks(env, t, s, s', g, g', u, k);
  }

  lemma SettleTasks(env: Env, t: Shape, s: State, s': State, g: Progress, g': Progress, u: Uri, k: Task)
    requires Tree(env, t) && Alone(env, t, g, g', u) && Settled(g', u) && (Ph(g', u).Reported? <==> t.parent(u).None?)
    requires TasksOk(env, t, s, g) && TaskOf(env, t, g, u) == Some(k)
    requires s'.tasks == s.tasks - multiset{k} + (if t.parent(u).None? then multiset{}
                         else multiset{ChildDoneTask(t.parent(u).value, u, Ph(g', u).result)})
    ensures TasksOk(env, t, s', g')
  {
    hide Tree, TasksOk, Collected;
    AloneTasks(env, t, s, s', g, g', u, k);
  }

  // ----- A report arrives at p -----

  /** Exactly one more child of p has reported; p is Ready once none is left. */
  ghost predicate Heard(env: Env, t: Shape, g: Progress, g': Progress, p: Uri) {
    && p in t.dirs && Listed(env, g, p) && Ph(g, p) == Open
    && Unreported(env, g', p) == Unreported(env, g, p) - 1
    && Ph(g', p) == (if Unreported(env, g', p) == 0 then Ready else Open)
    && (forall v :: v in t.dirs && v != p ==> LooksSame(env, g, g', v))
    && (forall v :: v != p ==> SamePhase(g, g', v))
    && (forall v :: v != p && NoFileDone(g, v) ==> NoFileDone(g', v))
  }

  /** Nothing happens to v, or the report it sent is received. */
  ghost predicate SamePhase(g: Progress, g': Progress, v: Uri) {
    Ph(g', v) == Ph(g, v) || (Ph(g, v).Leaving? && Ph(g', v) == Reported(Ph(g, v).result))
  }

  lemma HeardPhases(env: Env, t: Shape, g: Progress, g': Progress, p: Uri)
    requires Heard(env, t, g, g', p) && PhasesOk(env, t, g)
    ensures PhasesOk(env, t, g')
  {
    hide SubDirs, Files, NodeOf, Collected, Unreported, LooksSame;
    forall v ensures PhaseOk(env, t, g', v) {
      assert PhaseOk(env, t, g, v);
      if v in t.dirs && v != p { SameNode(env, g, g', v); }
      assert SamePhase(g, g', v) || v == p;
      if v in t.dirs { HeardKids(env, t, g, g', p, v); }
    }
    assert SamePhase(g, g', env.root) || env.root == p;
  }

  lemma HeardKids(env: Env, t: Shape, g: Progress, g': Progress, p: Uri, v: Uri)
    requires Heard(env, t, g, g', p) && KidsInStep(env, g, v)
    ensures KidsInStep(env, g', v)
  {
    hide SubDirs, Files, LooksSame, Unreported;
    forall c | c in SubDirs(env, v) ensures Ph(g', c).Unseen? <==> !Dispatched(g', v) {
      assert (SamePhase(g, g', c) || c == p) && (SamePhase(g, g', v) || v == p);
    }
  }

  lemma HeardNodes(env: Env, t: Shape, s: State, s': State, g: Progress, g': Progress, p: Uri)
    requires Heard(env, t, g, g', p) && PhasesOk(env, t, g) && NodesOk(env, t, s, g)
    requires s'.nodes == s.nodes[p := NodeOf(env, g', p)] && s'.parents == s.parents
    ensures NodesOk(env, t, s', g')
  {
    hide SubDirs, Files, NodeOf, Collected, Unreported, LooksSame;
    forall v ensures NodeOk(env, s', g', v) && ParentOk(t, s', g', v) {
      assert NodeOk(env, s, g, v) && ParentOk(t, s, g, v);
      assert PhaseOk(env, t, g, v) && (SamePhase(g, g', v) || v == p);
      if v in t.dirs && v != p { SameNode(env, g, g', v); }
    }
  }

  lemma HeardStats(env: Env, t: Shape, s: State, s': State, g: Progress, g': Progress, p: Uri)
    requires Heard(env, t, g, g', p) && StatsOk(env, t, s, g) && s'.stats == s.stats
    ensures StatsOk(env, t, s', g') && WorkingDirs(t, g') == WorkingDirs(t, g)
  {
    hide Listing, LooksSame, Unreported;
    forall v
      ensures Dispatched(g', v) == Dispatched(g, v) && Settled(g', v) == Settled(g, v)
      ensures Settled(g, v) ==> Ph(g', v).result == Ph(g, v).result
      ensures (Ph(g', v) == Working) == (Ph(g, v) == Working)
    {
      assert SamePhase(g, g', v) || v == p;
    }
    assert ListedDirs(env, t, g') == ListedDirs(env, t, g);
    assert UnsettledDirs(env, t, g') == UnsettledDirs(env, t, g);
    assert CompletedDirs(t, g') == CompletedDirs(t, g);
    assert FailedDirs(t, g') == FailedDirs(t, g);
  }

  /** The tasks of a directory other than p and the reporting child stay. */
  lemma HeardLive(env: Env, t: Shape, g: Progress, g': Progress, p: Uri, k: Task)
    requires Heard(env, t, g, g', p)
    requires Subject(k) != p && Ph(g', Subject(k)) == Ph(g, Subject(k))
    ensures Live(env, t, g', k) <==> Live(env, t, g, k)
  {
    hide SubDirs, Files, NodeOf, Collected, Unreported, LooksSame, SamePhase, UnreportedFiles;
    if Subject(k) in t.dirs { SameNode(env, g, g', Subject(k)); }
  }

  ghost predicate HeardTasks(env: Env, t: Shape, s: State, s': State, g': Progress, p: Uri, k: Task) {
    k in s.tasks && s'.tasks == s.tasks - multiset{k} +
      (if Unreported(env, g', p) == 0 then multiset{SummaryTask(p)} else multiset{})
  }

  lemma HeardTask(env: Env, t: Shape, s: State, s': State, g: Progress, g': Progress, p: Uri, k: Task)
    requires Heard(env, t, g, g', p) && TasksOk(env, t, s, g) && HeardTasks(env, t, s, s', g', p, k)
    requires (k.FileTask? && k.owner == p && UnreportedFiles(env, g', p) == UnreportedFiles(env, g, p) - {k.file}
              && forall v :: v != p ==> Ph(g', v) == Ph(g, v))
          || (k.ChildDoneTask? && k.owner == p && k.child != p &&
            UnreportedFiles(env, g', p) == UnreportedFiles(env, g, p)
              && Ph(g', k.child).Reported? && forall v :: v != p && v != k.child ==> Ph(g', v) == Ph(g, v))
    ensures TasksOk(env, t, s', g')
  {
    hide SubDirs, Files, NodeOf, Collected, Unreported, LooksSame, SamePhase, UnreportedFiles;
    assert TaskOk(env, t, s, g, k);
    forall x ensures TaskOk(env, t, s', g', x) {
      assert TaskOk(env, t, s, g, x);
      if Subject(x) != p && (k.FileTask? || Subject(x) != k.child) { HeardLive(env, t, g, g', p, x); }
      if x.FileTask? && x.owner in t.dirs && x.owner != p { SameNode(env, g, g', x.owner); }
    }
  }

  lemma FileHeard(env: Env, t: Shape, g: Progress, p: Uri, f: Uri)
    requires PhasesOk(env, t, g) && p in t.dirs && Listed(env, g, p) && f in UnreportedFiles(env, g, p)
    ensures var g' := MaybeReady(env, g.(filesDone := g.filesDone + {(p, f)}), p);
      Heard(env, t, g, g', p) && UnreportedFiles(env, g', p) == UnreportedFiles(env, g, p) - {f}
      && Results(g', SubDirs(env, p)) == Results(g, SubDirs(env, p)) && forall v :: v != p ==> Ph(g', v) == Ph(g, v)
  {
    hide SubDirs, Files;
    var g1 := g.(filesDone := g.filesDone + {(p, f)});
    var g' := MaybeReady(env, g1, p);
    assert PhaseOk(env, t, g, p);
    assert UnreportedFiles(env, g1, p) == UnreportedFiles(env, g, p) - {f};
    assert UnreportedDirs(env, g1, p) == UnreportedDirs(env, g, p);
    assert UnreportedFiles(env, g', p) == UnreportedFiles(env, g1, p);
    assert UnreportedDirs(env, g', p) == UnreportedDirs(env, g1, p);
  }

  lemma ChildHeard(env: Env, t: Shape, g: Progress, p: Uri, c: Uri, r: Option<ChildSummary>)
    requires Tree(env, t) && PhasesOk(env, t, g) && c in t.dirs && t.parent(c) == Some(p) && Ph(g, c) == Leaving(r)
    ensures var g' := MaybeReady(env, g.(phase := g.phase[c := Reported(r)]), p);
      Heard(env, t, g, g', p) && UnreportedFiles(env, g', p) == UnreportedFiles(env, g, p)
      && c != p && c != env.root && c in SubDirs(env, p) && Ph(g', c) == Reported(r)
      && forall v :: v != p && v != c ==> Ph(g', v) == Ph(g, v)
  {
    hide SubDirs, Files;
    var g1 := g.(phase := g.phase[c := Reported(r)]);
    var g' := MaybeReady(env, g1, p);
    assert HasParent(env, t, c) && Fits(env, t, p);
    assert PhaseOk(env, t, g, p) && KidsInStep(env, g, p);
    assert Listed(env, g, p) by { assert SubDirs(env, p) != []; ListedHasListing(env, g, p); }
    ChildCounts(env, t, g, g1, g', p, c, r);
    forall v | v in t.dirs && v != p ensures LooksSame(env, g, g', v) {
      assert Fits(env, t, v);
    }
  }

  lemma ChildCounts(env: Env, t: Shape, g: Progress, g1: Progress, g': Progress, p: Uri, c: Uri,
                    r: Option<ChildSummary>)
    requires Fits(env, t, p) && c in SubDirs(env, p) && Ph(g, c) == Leaving(r)
    requires g1 == g.(phase := g.phase[c := Reported(r)]) && g' == MaybeReady(env, g1, p)
    ensures UnreportedFiles(env, g', p) == UnreportedFiles(env, g, p)
    ensures Unreported(env, g1, p) == Unreported(env, g, p) - 1 && Unreported(env, g', p) == Unreported(env, g1, p)
  {
    hide SubDirs, Files;
    assert UnreportedDirs(env, g1, p) == UnreportedDirs(env, g, p) - {c};
    assert UnreportedFiles(env, g1, p) == UnreportedFiles(env, g, p);
    assert UnreportedFiles(env, g', p) == UnreportedFiles(env, g1, p);
    assert UnreportedDirs(env, g', p) == UnreportedDirs(env, g1, p);
  }

  lemma ListedHasListing(env: Env, g: Progress, p: Uri)
    requires Dispatched(g, p) && SubDirs(env, p) != []
    ensures Listed(env, g, p)
  {
  }

  /** The decrement, the flag and the new task are what Heard calls for. */
  lemma FileNode(env: Env, t: Shape, g: Progress, p: Uri, f: Uri)
    requires PhasesOk(env, t, g) && p in t.dirs && Listed(env, g, p) && f in UnreportedFiles(env, g, p)
    ensures var g' := MaybeReady(env, g.(filesDone := g.filesDone + {(p, f)}), p);
      var n := NodeOf(env, g, p);
      NodeOf(env, g', p) == n.(pending := n.pending - 1, scheduled := n.pending == 1) && !n.scheduled
  {
    hide SubDirs, Files, IndexOf, Unreported, UnreportedFiles, PhaseOk, LooksSame, SamePhase;
    FileHeard(env, t, g, p, f);
  }

  lemma FileStep(env: Env, t: Shape, s: State, g: Progress, a: Action)
    requires Tree(env, t) && Inv(env, t, s, g) && Enabled(s, a) && a.task.FileTask?
    ensures Inv(env, t, Next(env, s, a), Advance(env, t, g, a))
  {
    hide Inv, Heard, Tree, PhasesOk, NodesOk, StatsOk, TasksOk, PhaseOk, SubDirs, Files, NodeOf, Unreported,
      LooksSame, SamePhase, MaybeReady, UnreportedFiles, WorkingDirs, AfterDecrement;
    var s', g', p := Next(env, s, a), Advance(env, t, g, a), a.task.owner;
    SpentTask(env, t, s, g, a.task);
    FileHeard(env, t, g, p, a.task.file);
    FileNode(env, t, g, p, a.task.file);
    DecrementEffect(env, s.(tasks := s.tasks - multiset{a.task}), g', p,
      s.nodes[p].(pending := s.nodes[p].pending - 1));
    assert s'.nodes == s.nodes[p := NodeOf(env, g', p)];
    assert HeardTasks(env, t, s, s', g', p, a.task);
    HeardAll(env, t, s, s', g, g', p, a.task);
  }

  lemma DecrementEffect(env: Env, s: State, g: Progress, p: Uri, n: Node)
    requires !n.scheduled && NodeOf(env, g, p) == n.(scheduled := n.pending == 0)
    ensures var s' := AfterDecrement(s, p, n);
      s' == s.(nodes := s.nodes[p := NodeOf(env, g, p)],
               tasks := s.tasks + if Unreported(env, g, p) == 0 then multiset{SummaryTask(p)} else multiset{})
  {
    hide SubDirs, Files, IndexOf, Unreported;
  }

  lemma HeardAll(env: Env, t: Shape, s: State, s': State, g: Progress, g': Progress, p: Uri, k: Task)
    requires Heard(env, t, g, g', p) && Inv(env, t, s, g) && HeardTasks(env, t, s, s', g', p, k)
    requires s'.nodes == s.nodes[p := NodeOf(env, g', p)] && s'.parents == s.parents && s'.stats == s.stats
    requires s'.rootDone == s.rootDone && s'.slots == s.slots
    requires (k.FileTask? && k.owner == p && UnreportedFiles(env, g', p) == UnreportedFiles(env, g, p) - {k.file}
              && forall v :: v != p ==> Ph(g', v) == Ph(g, v))
          || (k.ChildDoneTask? && k.owner == p && k.child != p && k.child != env.root
              && UnreportedFiles(env, g', p) == UnreportedFiles(env, g, p)
              && Ph(g', k.child).Reported? && forall v :: v != p && v != k.child ==> Ph(g', v) == Ph(g, v))
    ensures Inv(env, t, s', g')
  {
    hide PhasesOk, NodesOk, StatsOk, TasksOk, SubDirs, Files, NodeOf, Unreported, LooksSame, SamePhase,
      UnreportedFiles, WorkingDirs;
    HeardPhases(env, t, g, g', p);
    HeardNodes(env, t, s, s', g, g', p);
    HeardStats(env, t, s, s', g, g', p);
    HeardTask(env, t, s, s', g, g', p, k);
  }

  lemma ChildNode(env: Env, t: Shape, g: Progress, p: Uri, c: Uri, r: Option<ChildSummary>)
    requires Tree(env, t) && PhasesOk(env, t, g) && c in t.dirs && t.parent(c) == Some(p) && Ph(g, c) == Leaving(r)
    ensures var g' := MaybeReady(env, g.(phase := g.phase[c := Reported(r)]), p);
      var n := NodeOf(env, g, p);
      NodeOf(env, g', p) == Record(n, c, r).(pending := n.pending - 1, scheduled := n.pending == 1) && !n.scheduled
      && !Record(n, c, r).scheduled && p in t.dirs && Listed(env, g, p)
  {
    hide SubDirs, Files, Unreported, UnreportedFiles, PhaseOk, LooksSame, SamePhase;
    var g' := MaybeReady(env, g.(phase := g.phase[c := Reported(r)]), p);
    ChildHeard(env, t, g, p, c, r);
    hide MaybeReady;
    assert HasParent(env, t, c) && Fits(env, t, p);
    ChildResults(env, t, g, g', p, c, r);
  }

  lemma ChildResults(env: Env, t: Shape, g: Progress, g': Progress, p: Uri, c: Uri, r: Option<ChildSummary>)
    requires Fits(env, t, p) && c in SubDirs(env, p) && Ph(g', c) == Reported(r)
    requires forall v :: v != p && v != c ==> Ph(g', v) == Ph(g, v)
    ensures var ds := SubDirs(env, p);
      c in IndexOf(ds) && IndexOf(ds)[c] < |ds| && Results(g', ds) == Results(g, ds)[IndexOf(ds)[c] := r]
  {
    hide SubDirs, Files, IndexOf;
    var ds := SubDirs(env, p);
    var idx := IndexOf(ds)[c];
    forall i | 0 <= i < |ds| ensures Result(g', ds[i]) == if i == idx then r else Result(g, ds[i]) {
      assert t.parent(ds[i]) == Some(p) && t.rank(ds[i]) < t.rank(p);
    }
    assert Results(g', ds) == Results(g, ds)[idx := r];
  }

  lemma ChildDoneStep(env: Env, t: Shape, s: State, g: Progress, a: Action)
    requires Tree(env, t) && Inv(env, t, s, g) && Enabled(s, a) && a.task.ChildDoneTask?
    ensures Inv(env, t, Next(env, s, a), Advance(env, t, g, a))
  {
    hide Inv, Tree, Heard, PhasesOk, NodesOk, StatsOk, TasksOk, PhaseOk, SubDirs, Files, NodeOf, Unreported,
      LooksSame, SamePhase, MaybeReady, UnreportedFiles, WorkingDirs, Record, AfterDecrement;
    var s', g', p, c := Next(env, s, a), Advance(env, t, g, a), a.task.owner, a.task.child;
    SpentTask(env, t, s, g, a.task);
    ChildHeard(env, t, g, p, c, a.task.summary);
    ChildNode(env, t, g, p, c, a.task.summary);
    assert NodeOk(env, s, g, p) by { NodeOfInv(env, t, s, g, p); }
    DecrementEffect(env, s.(tasks := s.tasks - multiset{a.task}), g', p,
      Record(s.nodes[p], c, a.task.summary).(pending := s.nodes[p].pending - 1));
    assert s'.nodes == s.nodes[p := NodeOf(env, g', p)];
    assert HeardTasks(env, t, s, s', g', p, a.task);
    HeardAll(env, t, s, s', g, g', p, a.task);
  }

  lemma NodeOfInv(env: Env, t: Shape, s: State, g: Progress, p: Uri)
    requires Inv(env, t, s, g)
    ensures NodeOk(env, s, g, p)
  {
  }

  // ----- Dispatching a directory -----

  /** u was queued by its parent, or it is the root at the start. */
  lemma QueuedFacts(env: Env, t: Shape, s: State, g: Progress, u: Uri)
    requires Tree(env, t) && Inv(env, t, s, g) && u in t.dirs && Ph(g, u) == Queued
    ensures u !in s.nodes && u !in s.parents
    ensures forall c :: c in SubDirs(env, u) ==> c in t.dirs && t.parent(c) == Some(u) && Ph(g, c).Unseen?
    ensures Distinct(SubDirs(env, u)) && Distinct(Files(env, u))
  {
    hide SubDirs, Files, NodeOf, HasParent, Unreported, StatsOk, TasksOk;
    assert NodeOk(env, s, g, u) && ParentOk(t, s, g, u) && PhaseOk(env, t, g, u) && Fits(env, t, u);
    assert KidsInStep(env, g, u);
  }

  /** A directory that cannot be listed fails at once. */
  lemma DispatchFailStep(env: Env, t: Shape, s: State, g: Progress, a: Action)
    requires Tree(env, t) && Inv(env, t, s, g) && Enabled(s, a) && a.task.DispatchTask?
    requires Listing(env, a.task.uri).None?
    ensures Inv(env, t, Next(env, s, a), Advance(env, t, g, a))
  {
    hide NodesOk, StatsOk, TasksOk, PhasesOk, NodeOk, PhaseOk, SubDirs, Files, UnreportedFiles, Collected, Finish,
      WorkingDirs, Moved;
    var s', g', u := Next(env, s, a), Advance(env, t, g, a), a.task.uri;
    SpentTask(env, t, s, g, a.task);
    QueuedFacts(env, t, s, g, u);
    FinishFacts(env, t, g, u, None);
    LostPhases(env, t, g, g', u);
    LostNodes(env, t, s, s', g, g', u);
    LostStats(env, t, s, s', g, g', u);
    LostTasks(env, t, s, s', g, g', u, a.task);
  }

  ghost predicate Lost(env: Env, t: Shape, g: Progress, g': Progress, u: Uri) {
    && u in t.dirs && Moved(g, g', u) && Ph(g, u) == Queued && Listing(env, u).None?
    && Settled(g', u) && Ph(g', u).result.None? && (Ph(g', u).Reported? <==> t.parent(u).None?)
  }

  lemma LostLooksSame(env: Env, t: Shape, g: Progress, g': Progress, u: Uri, v: Uri)
    requires Tree(env, t) && Lost(env, t, g, g', u) && v in t.dirs
    ensures UnreportedFiles(env, g', v) == UnreportedFiles(env, g, v) && Unreported(env, g', v) == Unreported(env, g, v)
    ensures v != u ==> NodeOf(env, g', v) == NodeOf(env, g, v)
    ensures Collected(env, g', v) == Collected(env, g, v)
  {
    hide SubDirs, Files, NodeOf, Collected, Unreported;
    assert Fits(env, t, v);
    SameNode(env, g, g', v);
  }

  lemma LostPhases(env: Env, t: Shape, g: Progress, g': Progress, u: Uri)
    requires Tree(env, t) && Lost(env, t, g, g', u) && PhasesOk(env, t, g)
    requires !Ph(g', env.root).Leaving? && !Ph(g', env.root).Unseen?
    ensures PhasesOk(env, t, g')
  {
    hide Files, LooksSame, NodeOf, Collected, Unreported, HasParent, Fits;
    forall v ensures PhaseOk(env, t, g', v) {
      assert PhaseOk(env, t, g, v);
      if v in t.dirs { LostLooksSame(env, t, g, g', u, v); }
    }
  }

  lemma LostNodes(env: Env, t: Shape, s: State, s': State, g: Progress, g': Progress, u: Uri)
    requires Tree(env, t) && Lost(env, t, g, g', u) && PhasesOk(env, t, g) && NodesOk(env, t, s, g)
    requires s'.nodes == s.nodes && s'.parents == s.parents[u := t.parent(u)]
    ensures NodesOk(env, t, s', g')
  {
    hide SubDirs, Files, LooksSame, NodeOf, Collected, Unreported, KidsInStep, HasParent, Fits;
    forall v ensures NodeOk(env, s', g', v) && ParentOk(t, s', g', v) {
      assert NodeOk(env, s, g, v) && ParentOk(t, s, g, v) && PhaseOk(env, t, g, v);
      if v in t.dirs { LostLooksSame(env, t, g, g', u, v); }
    }
  }

  lemma LostStats(env: Env, t: Shape, s: State, s': State, g: Progress, g': Progress, u: Uri)
    requires Lost(env, t, g, g', u) && StatsOk(env, t, s, g)
    requires s'.stats == s.stats.(failed := s.stats.failed + 1)
    ensures StatsOk(env, t, s', g') && WorkingDirs(t, g') == WorkingDirs(t, g)
  {
    hide ListedDirs, UnsettledDirs, CompletedDirs, FailedDirs, WorkingDirs;
    LostSets(env, t, g, g', u);
    CompletedSet(env, t, g, g', u);
    FailedSet(env, t, g, g', u);
  }

  lemma LostSets(env: Env, t: Shape, g: Progress, g': Progress, u: Uri)
    requires Lost(env, t, g, g', u)
    ensures ListedDirs(env, t, g') == ListedDirs(env, t, g) && UnsettledDirs(env, t, g') == UnsettledDirs(env, t, g)
    ensures WorkingDirs(t, g') == WorkingDirs(t, g)
  {
    forall v
      ensures Listed(env, g', v) <==> Listed(env, g, v)
      ensures Listed(env, g, v) ==> (Settled(g', v) <==> Settled(g, v))
      ensures Ph(g', v) == Working <==> Ph(g, v) == Working
    {
    }
  }

  lemma LostTasks(env: Env, t: Shape, s: State, s': State, g: Progress, g': Progress, u: Uri, k: Task)
    requires Tree(env, t) && Lost(env, t, g, g', u) && TasksOk(env, t, s, g) && TaskOf(env, t, g, u) == Some(k)
    requires s'.tasks == s.tasks - multiset{k} + (if t.parent(u).None? then multiset{}
                         else multiset{ChildDoneTask(t.parent(u).value, u, None)})
    ensures TasksOk(env, t, s', g')
  {
    hide Tree, TasksOk, Live;
    forall x: Task | x.FileTask? || Subject(x) != u ensures Live(env, t, g', x) <==> Live(env, t, g, x) {
      LostLive(env, t, g, g', u, x);
    }
    SwapTasks(env, t, s, s', g, g', u, k);
  }

  lemma LostLive(env: Env, t: Shape, g: Progress, g': Progress, u: Uri, k: Task)
    requires Tree(env, t) && Lost(env, t, g, g', u)
    requires k.FileTask? || Subject(k) != u
    ensures Live(env, t, g', k) <==> Live(env, t, g, k)
  {
    hide SubDirs, Files, LooksSame, NodeOf, Collected, UnreportedFiles, Unreported, HasParent, Fits;
    if Subject(k) in t.dirs { LostLooksSame(env, t, g, g', u, Subject(k)); }
  }

  /** u is listed: it opens, or is ready at once, and its sub-directories are queued. */
  ghost predicate Expanded(env: Env, t: Shape, g: Progress, g': Progress, u: Uri) {
    && u in t.dirs && Ph(g, u) == Queued && Listing(env, u).Some? && g'.filesDone == g.filesDone
    && NoFileDone(g, u)
    && Ph(g', u) == (if SubDirs(env, u) == [] && Files(env, u) == [] then Ready else Open)
    && (forall c :: c in SubDirs(env, u) ==>
          c in t.dirs && t.parent(c) == Some(u) && Ph(g, c).Unseen? && Ph(g', c) == Queued)
    && (forall v :: v != u && v !in SubDirs(env, u) ==> Ph(g', v) == Ph(g, v))
  }

  lemma ExpandedCounts(env: Env, t: Shape, g: Progress, g': Progress, u: Uri)
    requires Expanded(env, t, g, g', u) && Distinct(SubDirs(env, u)) && Distinct(Files(env, u))
    ensures Unreported(env, g', u) == |SubDirs(env, u)| + |Files(env, u)|
    ensures UnreportedFiles(env, g', u) == set f | f in Files(env, u)
    ensures NodeOf(env, g', u) == FreshNode(env, u).(scheduled := FreshNode(env, u).pending == 0)
  {
    hide SubDirs, Files, IndexOf;
    DistinctCount(SubDirs(env, u));
    DistinctCount(Files(env, u));
    assert UnreportedDirs(env, g', u) == set c | c in SubDirs(env, u);
    assert UnreportedFiles(env, g', u) == set f | f in Files(env, u);
    assert Results(g', SubDirs(env, u)) == FreshNode(env, u).summaries;
  }

  lemma ExpandedLooksSame(env: Env, t: Shape, g: Progress, g': Progress, u: Uri, v: Uri)
    requires Expanded(env, t, g, g', u)
    ensures UnreportedFiles(env, g', v) == UnreportedFiles(env, g, v) && Unreported(env, g', v) == Unreported(env, g, v)
    ensures v != u ==> NodeOf(env, g', v) == NodeOf(env, g, v)
    ensures Collected(env, g', v) == Collected(env, g, v)
  {
    hide SubDirs, Files, NodeOf, Collected, Unreported;
    SameNode(env, g, g', v);
  }

  lemma ExpandedPhase(env: Env, t: Shape, g: Progress, g': Progress, u: Uri, v: Uri)
    requires Expanded(env, t, g, g', u) && PhaseOk(env, t, g, v)
    requires v in t.dirs ==> Fits(env, t, v)
    requires Unreported(env, g', u) == |SubDirs(env, u)| + |Files(env, u)|
    ensures PhaseOk(env, t, g', v)
  {
    hide SubDirs, Files, LooksSame, NodeOf, Collected, Unreported;
    ExpandedLooksSame(env, t, g, g', u, v);
    assert Ph(g', v) == Ph(g, v) || v == u || v in SubDirs(env, u);
    if v in t.dirs { ExpandedKids(env, t, g, g', u, v); }
  }

  lemma ExpandedKids(env: Env, t: Shape, g: Progress, g': Progress, u: Uri, v: Uri)
    requires Expanded(env, t, g, g', u) && KidsInStep(env, g, v) && Fits(env, t, v)
    ensures KidsInStep(env, g', v)
  {
    hide SubDirs, Files, Listing;
    assert Ph(g', v) == Ph(g, v) || v == u || v in SubDirs(env, u);
    forall c | c in SubDirs(env, v) ensures Ph(g', c).Unseen? <==> !Dispatched(g', v) {
      assert Ph(g', c) == Ph(g, c) || c == u || c in SubDirs(env, u);
      assert t.parent(c) == Some(v);
    }
  }

  lemma ExpandedPhases(env: Env, t: Shape, g: Progress, g': Progress, u: Uri)
    requires Tree(env, t) && Expanded(env, t, g, g', u) && PhasesOk(env, t, g)
    requires Unreported(env, g', u) == |SubDirs(env, u)| + |Files(env, u)|
    ensures PhasesOk(env, t, g')
  {
    hide SubDirs, Files, PhaseOk, Unreported, HasParent;
    forall v ensures PhaseOk(env, t, g', v) {
      assert v in t.dirs ==> Fits(env, t, v);
      ExpandedPhase(env, t, g, g', u, v);
    }
    assert Ph(g', env.root) == Ph(g, env.root) || env.root == u || env.root in SubDirs(env, u);
  }

  lemma ExpandedNodes(env: Env, t: Shape, s: State, s': State, g: Progress, g': Progress, u: Uri)
    requires Expanded(env, t, g, g', u) && NodesOk(env, t, s, g)
    requires s'.nodes == s.nodes[u := NodeOf(env, g', u)] && s'.parents == s.parents[u := t.parent(u)]
    ensures NodesOk(env, t, s', g')
  {
    hide SubDirs, Files, NodeOf, Collected, Unreported;
    forall v ensures NodeOk(env, s', g', v) && ParentOk(t, s', g', v) {
      assert NodeOk(env, s, g, v) && ParentOk(t, s, g, v);
      ExpandedLooksSame(env, t, g, g', u, v);
      assert Ph(g', v) == Ph(g, v) || v == u || v in SubDirs(env, u);
    }
  }

  lemma ExpandedStats(env: Env, t: Shape, s: State, s': State, g: Progress, g': Progress, u: Uri)
    requires Expanded(env, t, g, g', u) && StatsOk(env, t, s, g)
    requires s'.stats == s.stats.(total := s.stats.total + 1, pending := s.stats.pending + 1)
    ensures StatsOk(env, t, s', g') && WorkingDirs(t, g') == WorkingDirs(t, g)
  {
    hide SubDirs, Files, Listing, Expanded, ListedDirs, UnsettledDirs, CompletedDirs, FailedDirs, WorkingDirs,
      StatusKept;
    forall v ensures StatusKept(env, g, g', u, v) {
      ExpandedStatus(env, t, g, g', u, v);
    }
    OpenedFirst(env, t, g, g', u);
    ListedGrow(env, t, g, g', u);
    EndsKept(env, t, g, g', u);
  }

  /** Being listed, settled or at work changes at u only, which gets listed. */
  ghost predicate StatusKept(env: Env, g: Progress, g': Progress, u: Uri, v: Uri) {
    && (v != u ==> (Listed(env, g', v) <==> Listed(env, g, v)))
    && (Settled(g', v) <==> Settled(g, v)) && (Settled(g, v) ==> Ph(g', v).result == Ph(g, v).result)
    && (Ph(g', v) == Working <==> Ph(g, v) == Working)
  }

  lemma ExpandedStatus(env: Env, t: Shape, g: Progress, g': Progress, u: Uri, v: Uri)
    requires Expanded(env, t, g, g', u)
    ensures StatusKept(env, g, g', u, v)
  {
    hide SubDirs, Files, Listing;
    assert Ph(g', v) == Ph(g, v) || v == u || v in SubDirs(env, u);
  }

  lemma OpenedFirst(env: Env, t: Shape, g: Progress, g': Progress, u: Uri)
    requires Expanded(env, t, g, g', u)
    ensures u in t.dirs && !Listed(env, g, u) && Listed(env, g', u) && !Settled(g', u)
  {
    hide SubDirs, Files, Listing;
  }

  lemma ListedGrow(env: Env, t: Shape, g: Progress, g': Progress, u: Uri)
    requires (forall v :: StatusKept(env, g, g', u, v)) && u in t.dirs && !Listed(env, g, u) && Listed(env, g', u)
    requires !Settled(g', u)
    ensures ListedDirs(env, t, g') == ListedDirs(env, t, g) + {u} && u !in ListedDirs(env, t, g)
    ensures UnsettledDirs(env, t, g') == UnsettledDirs(env, t, g) + {u} && u !in UnsettledDirs(env, t, g)
  {
    hide Listed, Settled;
    forall v ensures v != u ==> (Listed(env, g', v) <==> Listed(env, g, v)) ensures Settled(g', v) <==> Settled(g, v) {
      assert StatusKept(env, g, g', u, v);
    }
  }

  lemma EndsKept(env: Env, t: Shape, g: Progress, g': Progress, u: Uri)
    requires forall v :: StatusKept(env, g, g', u, v)
    ensures CompletedDirs(t, g') == CompletedDirs(t, g) && FailedDirs(t, g') == FailedDirs(t, g)
    ensures WorkingDirs(t, g') == WorkingDirs(t, g)
  {
    hide Listed;
    forall v ensures Settled(g', v) <==> Settled(g, v) ensures Settled(g, v) ==> Ph(g', v).result == Ph(g, v).result
      ensures Ph(g', v) == Working <==> Ph(g, v) == Working
    {
      assert StatusKept(env, g, g', u, v);
    }
  }

  ghost function NewTasks(env: Env, u: Uri): multiset<Task> {
    if SubDirs(env, u) == [] && Files(env, u) == [] then multiset{SummaryTask(u)}
    else FileTasks(u, Files(env, u)) + DispatchTasks(u, SubDirs(env, u))
  }

  lemma NewTasksCount(env: Env, u: Uri, k: Task)
    requires Distinct(SubDirs(env, u)) && Distinct(Files(env, u))
    ensures NewTasks(env, u)[k] ==
      if (k == SummaryTask(u) && SubDirs(env, u) == [] && Files(env, u) == [])
         || (k.FileTask? && k.owner == u && k.file in Files(env, u))
         || (k.DispatchTask? && k.parent == Some(u) && k.uri in SubDirs(env, u)) then 1 else 0
  {
    hide SubDirs, Files;
    FileTasksCount(u, Files(env, u), k);
    DispatchTasksCount(u, SubDirs(env, u), k);
  }

  lemma ExpandedLive(env: Env, t: Shape, g: Progress, g': Progress, u: Uri, k: Task)
    requires Expanded(env, t, g, g', u) && UnreportedFiles(env, g', u) == set f | f in Files(env, u)
    requires Subject(k) == u || Subject(k) in SubDirs(env, u)
    ensures Live(env, t, g', k) <==>
      || (k == SummaryTask(u) && SubDirs(env, u) == [] && Files(env, u) == [])
      || (k.FileTask? && k.owner == u && k.file in Files(env, u))
      || (k.DispatchTask? && k.parent == Some(u) && k.uri in SubDirs(env, u))
    ensures Live(env, t, g, k) <==> k == DispatchTask(u, t.parent(u))
  {
    hide SubDirs, Files, UnreportedFiles, Collected;
    assert u !in SubDirs(env, u);
  }

  lemma ExpandedTasks(env: Env, t: Shape, s: State, s': State, g: Progress, g': Progress, u: Uri)
    requires Expanded(env, t, g, g', u) && TasksOk(env, t, s, g)
    requires Distinct(SubDirs(env, u)) && Distinct(Files(env, u))
    requires s'.tasks == s.tasks - multiset{DispatchTask(u, t.parent(u))} + NewTasks(env, u)
    ensures TasksOk(env, t, s', g')
  {
    hide SubDirs, Files, UnreportedFiles, Unreported, Live, Collected, NewTasks, NodeOf;
    ExpandedCounts(env, t, g, g', u);
    assert TaskOk(env, t, s, g, DispatchTask(u, t.parent(u)));
    forall k ensures TaskOk(env, t, s', g', k) {
      assert TaskOk(env, t, s, g, k);
      NewTasksCount(env, u, k);
      if Subject(k) == u || Subject(k) in SubDirs(env, u) { ExpandedLive(env, t, g, g', u, k); }
      else { ExpandedElsewhere(env, t, g, g', u, k); }
    }
  }

  lemma ExpandedElsewhere(env: Env, t: Shape, g: Progress, g': Progress, u: Uri, k: Task)
    requires Expanded(env, t, g, g', u)
    requires Subject(k) != u && Subject(k) !in SubDirs(env, u)
    ensures Live(env, t, g', k) <==> Live(env, t, g, k)
  {
    hide SubDirs, Files, UnreportedFiles, Unreported, Collected, NodeOf;
    ExpandedLooksSame(env, t, g, g', u, Subject(k));
  }

  lemma DispatchEffect(env: Env, s: State, g: Progress, u: Uri, parent: Option<Uri>)
    requires u !in s.nodes && Listing(env, u).Some?
    requires NodeOf(env, g, u) == FreshNode(env, u).(scheduled := FreshNode(env, u).pending == 0)
    ensures var s' := Dispatch(env, s, u, parent);
      s' == s.(nodes := s.nodes[u := NodeOf(env, g, u)], parents := s.parents[u := parent],
               stats := s.stats.(total := s.stats.total + 1, pending := s.stats.pending + 1),
               tasks := s.tasks + NewTasks(env, u))
  {
    hide SubDirs, Files, NodeOf, IndexOf, FileTasks, DispatchTasks;
    var n := FreshNode(env, u);
    if n.pending == 0 {
      assert s.nodes[u := n][u := n.(scheduled := true)] == s.nodes[u := n.(scheduled := true)];
    } else {
      assert s.tasks + FileTasks(u, n.files) + DispatchTasks(u, n.dirs) == s.tasks + NewTasks(env, u);
    }
  }

  lemma DispatchStep(env: Env, t: Shape, s: State, g: Progress, a: Action)
    requires Tree(env, t) && Inv(env, t, s, g) && Enabled(s, a) && a.task.DispatchTask?
    requires Listing(env, a.task.uri).Some?
    ensures Inv(env, t, Next(env, s, a), Advance(env, t, g, a))
  {
    hide Tree, NodesOk, StatsOk, TasksOk, PhasesOk, NodeOk, SubDirs, Files, Unreported, UnreportedFiles, Collected,
      NodeOf, WorkingDirs, Dispatch, NewTasks, FreshNode;
    var s', g', u := Next(env, s, a), Advance(env, t, g, a), a.task.uri;
    SpentTask(env, t, s, g, a.task);
    QueuedFacts(env, t, s, g, u);
    assert Expanded(env, t, g, g', u);
    ExpandedCounts(env, t, g, g', u);
    DispatchEffect(env, s.(tasks := s.tasks - multiset{a.task}), g', u, a.task.parent);
    ExpandedPhases(env, t, g, g', u);
    ExpandedNodes(env, t, s, s', g, g', u);
    ExpandedStats(env, t, s, s', g, g', u);
    ExpandedTasks(env, t, s, s', g, g', u);
  }

  /** Every step keeps the invariant. */
  lemma StepInv(env: Env, t: Shape, s: State, g: Progress, a: Action)
    requires Tree(env, t) && Inv(env, t, s, g) && Enabled(s, a)
    ensures Inv(env, t, Next(env, s, a), Advance(env, t, g, a))
  {
    hide Tree, Inv;
    match a.task
    case DispatchTask(u, _) =>
      if Listing(env, u).None? { DispatchFailStep(env, t, s, g, a); } else { DispatchStep(env, t, s, g, a); }
    case FileTask(_, _) => FileStep(env, t, s, g, a);
    case ChildDoneTask(_, _, _) => ChildDoneStep(env, t, s, g, a);
    case SummaryTask(_) => CollectStep(env, t, s, g, a);
    case AwaitSlot(_, _) => SlotStep(env, t, s, g, a);
    case Generating(u, _) =>
      if a.outcome.Succeeds? { GenerateStep(env, t, s, g, a); }
      else { SettleStep(env, t, s, s.(tasks := s.tasks - multiset{a.task}, slots := s.slots + 1), g, u, a.task, None); }
    case Storing(u, _, x) =>
      SettleStep(env, t, s, s.(tasks := s.tasks - multiset{a.task}), g, u, a.task,
                 if a.outcome.Succeeds? then Some(ChildSummary(u, x, true)) else None);
  }
}
