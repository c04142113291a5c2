/** How long the scheduler can run on a listing that need not be a tree: every step
    uses up a part of what the directories within reach can cause at most. */
module DirectoryBounds {
  import opened Wrappers
  import opened DirectoryDag
  import opened DirectoryListings
  import DirectoryProgress
  import DirectoryRuns

  /** Finitely many directories, the root among them, list only one another. */
  ghost predicate Closed(env: Env, dirs: set<Uri>) {
    env.root in dirs && forall u, c :: u in dirs && c in SubDirs(env, u) ==> c in dirs
  }

  lemma {:induction false} PathStaysIn(env: Env, dirs: set<Uri>, p: seq<Uri>)
    requires Closed(env, dirs) && Path(env, p)
    ensures p[|p| - 1] in dirs
  {
    hide SubDirs, Listing;
    if |p| > 1 {
      PathStaysIn(env, dirs, p[..|p| - 1]);
    }
  }

  lemma ReachedIsIn(env: Env, dirs: set<Uri>, u: Uri)
    requires Closed(env, dirs) && Reaches(env, u)
    ensures u in dirs
  {
    hide Closed;
    var p :| Path(env, p) && p[|p| - 1] == u;
    PathStaysIn(env, dirs, p);
  }

  lemma NodesStayIn(env: Env, dirs: set<Uri>, s: State, g: Trace)
    requires Inv(env, s, g) && Closed(env, dirs)
    ensures s.nodes.Keys <= dirs
  {
    hide Inv, Closed;
    forall u | u in s.nodes ensures u in dirs {
      NodeIsReached(env, s, g, u);
      ReachedIsIn(env, dirs, u);
    }
  }

  // ----- What is left to be done -----

  /** The steps a task can still cause on its own. */
  function Weight(k: Task): nat {
    match k
    case FileTask(_, _) => 1
    case ChildDoneTask(_, _, _) => 1
    case DispatchTask(_, _) => 2
    case Storing(_, _, _) => 2
    case Generating(_, _) => 3
    case AwaitSlot(_, _) => 4
    case SummaryTask(_) => 5
  }

  ghost function Weigh(m: multiset<Task>): nat
    decreases |m|
  {
    if m == multiset{} then 0 else
    var k :| k in m;
    Weight(k) + Weigh(m - multiset{k})
  }

  lemma {:induction false} WeighPick(m: multiset<Task>, k: Task)
    requires k in m
    ensures Weigh(m) == Weight(k) + Weigh(m - multiset{k})
    decreases |m|
  {
    hide Weight;
    var x :| x in m && Weigh(m) == Weight(x) + Weigh(m - multiset{x});
    if x != k {
      WeighPick(m - multiset{x}, k);
      WeighPick(m - multiset{k}, x);
      assert m - multiset{x} - multiset{k} == m - multiset{k} - multiset{x};
    }
  }

  lemma WeighAdd(m: multiset<Task>, k: Task)
    ensures Weigh(m + multiset{k}) == Weigh(m) + Weight(k)
  {
    hide Weight;
    WeighPick(m + multiset{k}, k);
    assert m + multiset{k} - multiset{k} == m;
  }

  lemma {:induction false} WeighUnion(m: multiset<Task>, n: multiset<Task>)
    ensures Weigh(m + n) == Weigh(m) + Weigh(n)
    decreases |n|
  {
    hide Weight;
    if n == multiset{} {
      assert m + n == m;
    } else {
      var k :| k in n;
      WeighPick(n, k);
      WeighUnion(m, n - multiset{k});
      assert m + n == m + (n - multiset{k}) + multiset{k};
      WeighAdd(m + (n - multiset{k}), k);
    }
  }

  /** A directory that is not registered yet: its summary and its children. */
  function Credit(env: Env, u: Uri): nat {
    5 + |Files(env, u)| + 2 * |SubDirs(env, u)|
  }

  ghost function CreditSum(env: Env, us: set<Uri>): nat
    decreases |us|
  {
    if us == {} then 0 else
    var u :| u in us;
    Credit(env, u) + CreditSum(env, us - {u})
  }

  lemma {:induction false} CreditPick(env: Env, us: set<Uri>, u: Uri)
    requires u in us
    ensures CreditSum(env, us) == Credit(env, u) + CreditSum(env, us - {u})
    decreases |us|
  {
    hide Credit;
    var x :| x in us && CreditSum(env, us) == Credit(env, x) + CreditSum(env, us - {x});
    if x != u {
      CreditPick(env, us - {x}, u);
      CreditPick(env, us - {u}, x);
      assert us - {x} - {u} == us - {u} - {x};
    }
  }

  /** Registered directories whose summary task is still to be created. */
  ghost function Unscheduled(s: State): set<Uri> {
    set u | u in s.nodes && !s.nodes[u].scheduled
  }

  ghost function Potential(env: Env, dirs: set<Uri>, s: State): nat {
    CreditSum(env, dirs - s.nodes.Keys) + 5 * |Unscheduled(s)| + Weigh(s.tasks)
  }

  // ----- Every step uses some of it -----

  /** A task gives way to lighter ones. */
  lemma LighterFalls(env: Env, dirs: set<Uri>, s: State, s': State, k: Task, more: multiset<Task>)
    requires k in s.tasks && s'.tasks == s.tasks - multiset{k} + more && Weigh(more) < Weight(k)
    requires s'.nodes == s.nodes
    ensures Potential(env, dirs, s') < Potential(env, dirs, s)
  {
    hide Weight, Weigh, CreditSum;
    WeighPick(s.tasks, k);
    WeighUnion(s.tasks - multiset{k}, more);
  }

  lemma WeighOne(k: Task)
    ensures Weigh(multiset{k}) == Weight(k) && Weigh(multiset{}) == 0
  {
    hide Weight;
    WeighPick(multiset{k}, k);
    assert multiset{k} - multiset{k} == multiset{};
  }

  lemma ReportFalls(env: Env, dirs: set<Uri>, s: State, s': State, k: Task, p: Uri)
    requires ReportsTo(s, s', k, p) && !s.nodes[p].scheduled
    ensures Potential(env, dirs, s') < Potential(env, dirs, s)
  {
    hide Weigh, CreditSum, Tally;
    WeighPick(s.tasks, k);
    if s'.nodes[p].pending == 0 {
      WeighAdd(s.tasks - multiset{k}, SummaryTask(p));
      assert Unscheduled(s') == Unscheduled(s) - {p};
      assert p in Unscheduled(s);
    } else {
      assert s.tasks - multiset{k} + multiset{} == s.tasks - multiset{k};
      assert Unscheduled(s') == Unscheduled(s);
    }
  }

  lemma {:induction false} FilesWeigh(u: Uri, fs: seq<Uri>)
    ensures Weigh(FileTasks(u, fs)) == |fs|
  {
    if fs != [] {
      hide Weigh;
      FilesWeigh(u, fs[..|fs| - 1]);
      WeighAdd(FileTasks(u, fs[..|fs| - 1]), FileTask(u, fs[|fs| - 1]));
    }
  }

  lemma {:induction false} DispatchesWeigh(u: Uri, ds: seq<Uri>)
    ensures Weigh(DispatchTasks(u, ds)) == 2 * |ds|
  {
    if ds != [] {
      hide Weigh;
      DispatchesWeigh(u, ds[..|ds| - 1]);
      WeighAdd(DispatchTasks(u, ds[..|ds| - 1]), DispatchTask(ds[|ds| - 1], Some(u)));
    }
  }

  lemma NewWeigh(env: Env, u: Uri)
    ensures var n := |SubDirs(env, u)| + |Files(env, u)|;
      Weigh(NewTasks(env, u)) + (if n == 0 then 0 else 5) == Credit(env, u)
  {
    hide Weigh, SubDirs, Files;
    FilesWeigh(u, Files(env, u));
    DispatchesWeigh(u, SubDirs(env, u));
    WeighUnion(FileTasks(u, Files(env, u)), DispatchTasks(u, SubDirs(env, u)));
    WeighOne(SummaryTask(u));
  }

  lemma OpenFalls(env: Env, dirs: set<Uri>, s: State, s': State, g: Trace, g': Trace, k: Task)
    requires Opens(env, s, s', g, g', k) && k.uri in dirs
    ensures Potential(env, dirs, s') < Potential(env, dirs, s)
  {
    hide Weigh, CreditSum, SubDirs, Files, Listing, NewTasks, Credit;
    var u := k.uri;
    NewWeigh(env, u);
    WeighPick(s.tasks, k);
    WeighUnion(s.tasks - multiset{k}, NewTasks(env, u));
    CreditPick(env, dirs - s.nodes.Keys, u);
    assert dirs - s'.nodes.Keys == dirs - s.nodes.Keys - {u};
    OpenUnscheduled(env, s, s', g, g', k);
  }

  lemma OpenUnscheduled(env: Env, s: State, s': State, g: Trace, g': Trace, k: Task)
    requires Opens(env, s, s', g, g', k)
    ensures |Unscheduled(s')| == |Unscheduled(s)| + if |SubDirs(env, k.uri)| + |Files(env, k.uri)| == 0 then 0 else 1
  {
    hide SubDirs, Files, Listing, NewTasks;
    assert k.uri !in Unscheduled(s);
    if |SubDirs(env, k.uri)| + |Files(env, k.uri)| == 0 {
      assert Unscheduled(s') == Unscheduled(s);
    } else {
      assert Unscheduled(s') == Unscheduled(s) + {k.uri};
    }
  }

  lemma StepFalls(env: Env, dirs: set<Uri>, s: State, g: Trace, a: Action)
    requires Inv(env, s, g) && Enabled(s, a) && Closed(env, dirs)
    ensures Potential(env, dirs, Next(env, s, a)) < Potential(env, dirs, s)
  {
    hide Inv, Potential, Closed;
    match a.task
    case DispatchTask(_, _) => DispatchStepFalls(env, dirs, s, g, a);
    case FileTask(_, _) => ReportStepFalls(env, dirs, s, g, a);
    case ChildDoneTask(_, _, _) => ReportStepFalls(env, dirs, s, g, a);
    case _ => SummaryStepFalls(env, dirs, s, g, a);
  }

  lemma ReportStepFalls(env: Env, dirs: set<Uri>, s: State, g: Trace, a: Action)
    requires Inv(env, s, g) && Enabled(s, a) && (a.task.FileTask? || a.task.ChildDoneTask?)
    ensures Potential(env, dirs, Next(env, s, a)) < Potential(env, dirs, s)
  {
    hide Inv, Potential, ReportsTo;
    OwnerKnown(env, s, g, a.task);
    ReportIs(env, s, a);
    ReportFalls(env, dirs, s, Next(env, s, a), a.task, a.task.owner);
  }

  lemma ReportIs(env: Env, s: State, a: Action)
    requires Enabled(s, a) && (a.task.FileTask? || a.task.ChildDoneTask?)
    requires a.task.owner in s.nodes && !s.nodes[a.task.owner].scheduled
    ensures ReportsTo(s, Next(env, s, a), a.task, a.task.owner)
  {
    hide Dispatch, Settle, StartSummary, AfterDecrement, ReportsTo, Record;
    var k, n := a.task, s.nodes[a.task.owner];
    if k.FileTask? {
      DecrementIs(s, k, k.owner, n.(pending := n.pending - 1));
    } else {
      RecordKeeps(n, k.child, k.summary);
      DecrementIs(s, k, k.owner, Record(n, k.child, k.summary).(pending := n.pending - 1));
    }
  }

  lemma DispatchStepFalls(env: Env, dirs: set<Uri>, s: State, g: Trace, a: Action)
    requires Inv(env, s, g) && Enabled(s, a) && Closed(env, dirs) && a.task.DispatchTask?
    ensures Potential(env, dirs, Next(env, s, a)) < Potential(env, dirs, s)
  {
    hide Inv, Potential, Listing, Register, FailDispatch, Opens, Weigh, Closed;
    var k := a.task;
    var s0 := s.(tasks := s.tasks - multiset{k});
    WeighOne(k);
    if k.uri in s.nodes {
      assert s0.tasks == s.tasks - multiset{k} + multiset{};
      LighterFalls(env, dirs, s, s0, k, multiset{});
    } else if Listing(env, k.uri).None? {
      FailFalls(env, dirs, s, k);
    } else {
      DispatchFacts(env, s, g, k);
      DispatchOpens(env, s, g, k);
      StepInv(env, s, g, a);
      NodesStayIn(env, dirs, Next(env, s, a), Advance(env, s, g, a));
      assert k.uri in Next(env, s, a).nodes by {
        OpensIts(env, s, Next(env, s, a), g, Advance(env, s, g, a), k);
      }
      OpenFalls(env, dirs, s, Next(env, s, a), g, Advance(env, s, g, a), k);
    }
  }

  lemma OpensIts(env: Env, s: State, s': State, g: Trace, g': Trace, k: Task)
    requires Opens(env, s, s', g, g', k)
    ensures k.uri in s'.nodes
  {
    hide SubDirs, Files, Listing, NewTasks;
    assert k.uri in s'.nodes.Keys;
  }

  lemma FailFalls(env: Env, dirs: set<Uri>, s: State, k: Task)
    requires k in s.tasks && k.DispatchTask?
    ensures Potential(env, dirs, FailDispatch(s.(tasks := s.tasks - multiset{k}), k.uri, k.parent)) <
      Potential(env, dirs, s)
  {
    hide Potential, Weigh;
    var s' := FailDispatch(s.(tasks := s.tasks - multiset{k}), k.uri, k.parent);
    WeighOne(k);
    if k.parent.Some? && k.parent.value != "" {
      WeighOne(ChildDoneTask(k.parent.value, k.uri, None));
      LighterFalls(env, dirs, s, s', k, multiset{ChildDoneTask(k.parent.value, k.uri, None)});
    } else {
      assert s'.tasks == s.tasks - multiset{k} + multiset{};
      LighterFalls(env, dirs, s, s', k, multiset{});
    }
  }

  lemma SummaryStepFalls(env: Env, dirs: set<Uri>, s: State, g: Trace, a: Action)
    requires Inv(env, s, g) && Enabled(s, a) && IsStage(a.task)
    ensures Potential(env, dirs, Next(env, s, a)) < Potential(env, dirs, s)
  {
    hide Inv, Potential, Next;
    StageFacts(env, s, g, a.task);
    if a.task.SummaryTask? || a.task.AwaitSlot? {
      EarlyStageFalls(env, dirs, s, a);
    } else {
      LateStageFalls(env, dirs, s, a);
    }
  }

  lemma EarlyStageFalls(env: Env, dirs: set<Uri>, s: State, a: Action)
    requires Enabled(s, a) && (a.task.SummaryTask? || a.task.AwaitSlot?) && a.task.uri in s.nodes
    ensures Potential(env, dirs, Next(env, s, a)) < Potential(env, dirs, s)
  {
    hide Potential, Collect;
    match a.task
    case SummaryTask(u) =>
      Lighter(env, dirs, s, Next(env, s, a), a.task, AwaitSlot(u, Collect(s.nodes[u].dirs, s.nodes[u].summaries)));
    case AwaitSlot(u, c) => Lighter(env, dirs, s, Next(env, s, a), a.task, Generating(u, c));
  }

  lemma LateStageFalls(env: Env, dirs: set<Uri>, s: State, a: Action)
    requires Enabled(s, a) && (a.task.Generating? || a.task.Storing?)
    ensures Potential(env, dirs, Next(env, s, a)) < Potential(env, dirs, s)
  {
    hide Potential, Settle;
    var k := a.task;
    match k
    case Generating(u, c) =>
      if a.outcome.Succeeds? { Lighter(env, dirs, s, Next(env, s, a), k, Storing(u, c, a.outcome.text)); }
      else { SettleFalls(env, dirs, s, s.(tasks := s.tasks - multiset{k}, slots := s.slots + 1), k, None); }
    case Storing(u, _, text) =>
      var r := if a.outcome.Succeeds? then Some(ChildSummary(u, text, true)) else None;
      SettleFalls(env, dirs, s, s.(tasks := s.tasks - multiset{k}), k, r);
  }

  lemma Lighter(env: Env, dirs: set<Uri>, s: State, s': State, k: Task, k': Task)
    requires k in s.tasks && s'.tasks == s.tasks - multiset{k} + multiset{k'} && Weight(k') < Weight(k)
    requires s'.nodes == s.nodes
    ensures Potential(env, dirs, s') < Potential(env, dirs, s)
  {
    hide Potential, Weigh, Weight;
    WeighOne(k');
    LighterFalls(env, dirs, s, s', k, multiset{k'});
  }

  lemma SettleFalls(env: Env, dirs: set<Uri>, s: State, s1: State, k: Task, r: Option<ChildSummary>)
    requires k in s.tasks && (k.Generating? || k.Storing?)
    requires s1.tasks == s.tasks - multiset{k} && s1.nodes == s.nodes
    ensures Potential(env, dirs, Settle(s1, k.uri, r)) < Potential(env, dirs, s)
  {
    hide Potential, Weigh;
    var s' := Settle(s1, k.uri, r);
    if k.uri !in s1.parents || s1.parents[k.uri].None? {
      WeighOne(k);
      assert s'.tasks == s.tasks - multiset{k} + multiset{};
      LighterFalls(env, dirs, s, s', k, multiset{});
    } else {
      Lighter(env, dirs, s, s', k, ChildDoneTask(s1.parents[k.uri].value, k.uri, r));
    }
  }

  // ----- Every run ends -----

  /** A run takes at most five steps for the summary of each directory within reach,
      one for each of its files, two for each listed sub-directory, and two for the root. */
  lemma {:induction false} RunsAreBounded(env: Env, dirs: set<Uri>, acts: seq<Action>)
    requires IsDirectoryUri(env.root) && Closed(env, dirs) && ValidRun(env, acts)
    ensures |acts| + Potential(env, dirs, After(env, acts)) <= 2 + CreditSum(env, dirs)
  {
    hide Next, Enabled, Closed, Potential, CreditSum, Inv;
    if acts == [] {
      PotentialAtStart(env, dirs);
    } else {
      var init := acts[..|acts| - 1];
      RunsAreBounded(env, dirs, init);
      RunInv(env, init);
      StepFalls(env, dirs, After(env, init), TraceOf(env, init), acts[|acts| - 1]);
    }
  }

  lemma PotentialAtStart(env: Env, dirs: set<Uri>)
    ensures Potential(env, dirs, Start(env)) == 2 + CreditSum(env, dirs)
  {
    hide CreditSum, Weigh;
    WeighOne(DispatchTask(env.root, None));
    assert dirs - Start(env).nodes.Keys == dirs && Unscheduled(Start(env)) == {};
  }

  /** Every run can be driven to its end, and how it ends depends on the listing alone. */
  lemma {:induction false} DriveOn(env: Env, dirs: set<Uri>, acts: seq<Action>) returns (full: seq<Action>)
    requires IsDirectoryUri(env.root) && Closed(env, dirs) && ValidRun(env, acts)
    ensures acts <= full && ValidRun(env, full) && Exhausted(After(env, full))
    ensures After(env, full).rootDone <==> Finishing(env)
    decreases 2 + CreditSum(env, dirs) - |acts|
  {
    hide Next, Enabled, Closed, Potential, CreditSum, Finishing;
    if a :| Enabled(After(env, acts), a) {
      assert (acts + [a])[..|acts|] == acts;
      RunsAreBounded(env, dirs, acts + [a]);
      full := DriveOn(env, dirs, acts + [a]);
    } else {
      full := acts;
      FinishesExactlyWhenListedOnce(env, acts);
    }
  }

  /** On finitely many directories, whatever they list: the scheduler sets the root
      event however its steps interleave and whatever fails, if and only if the root
      cannot be listed, or there is a slot and nothing within reach is listed twice. */
  lemma AlwaysFinishesExactlyWhenListedOnce(env: Env, dirs: set<Uri>)
    requires IsDirectoryUri(env.root) && Closed(env, dirs)
    ensures (forall acts :: ValidRun(env, acts) && Exhausted(After(env, acts)) ==> After(env, acts).rootDone) <==>
      Finishing(env)
  {
    hide Next, Enabled, Closed, Finishing, Exhausted, ValidRun, After;
    assert ValidRun(env, []) by { DirectoryRuns.EmptyValid(env); }
    var full := DriveOn(env, dirs, []);
    forall acts | ValidRun(env, acts) && Exhausted(After(env, acts)) && Finishing(env)
      ensures After(env, acts).rootDone
    {
      FinishesExactlyWhenListedOnce(env, acts);
    }
  }

  // ----- Trees -----

  lemma {:induction false} OnceEach(xs: seq<Uri>, x: Uri)
    requires DirectoryProgress.Distinct(xs) && x in xs
    ensures multiset(xs)[x] == 1
  {
    var init, last := xs[..|xs| - 1], xs[|xs| - 1];
    assert xs == init + [last];
    assert multiset(xs) == multiset(init) + multiset{last};
    if x != last {
      OnceEach(init, x);
    }
  }

  lemma ChildFacts(env: Env, t: DirectoryProgress.Shape, u: Uri, c: Uri)
    requires DirectoryProgress.Tree(env, t) && u in t.dirs && c in SubDirs(env, u)
    ensures c in t.dirs && t.parent(c) == Some(u) && multiset(SubDirs(env, u))[c] == 1
  {
    hide SubDirs;
    assert DirectoryProgress.Fits(env, t, u);
    OnceEach(SubDirs(env, u), c);
  }

  /** A tree is the special case in which nothing is listed twice. */
  lemma TreeIsListedOnce(env: Env, t: DirectoryProgress.Shape)
    requires DirectoryProgress.Tree(env, t)
    ensures Closed(env, t.dirs) && ListedOnce(env)
  {
    hide SubDirs, Listing, Reaches, DirectoryProgress.Fits, DirectoryProgress.HasParent;
    forall u, c | u in t.dirs && c in SubDirs(env, u) ensures c in t.dirs {
      ChildFacts(env, t, u, c);
    }
    assert Closed(env, t.dirs);
    forall u | Reaches(env, u) ensures u in t.dirs && env.root !in SubDirs(env, u) {
      ReachedIsIn(env, t.dirs, u);
      if env.root in SubDirs(env, u) { ChildFacts(env, t, u, env.root); }
    }
    forall u, v, c | Reaches(env, u) && Reaches(env, v) && Names(env, u, c) && Names(env, v, c) ensures u == v {
      ChildFacts(env, t, u, c);
      ChildFacts(env, t, v, c);
    }
    forall u, c | Reaches(env, u) && Names(env, u, c) ensures multiset(SubDirs(env, u))[c] == 1 {
      ChildFacts(env, t, u, c);
    }
  }
}
