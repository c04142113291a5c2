/** The scheduler as the objects of index/directory_event_handler.py: node
    objects updated in place, dictionaries, counters and the set of tasks the
    event loop still has to resume.  Each method is tied to the step of the same
    name in DirectoryDag, so the theorems of DirectoryRuns hold of it. */
module DirectoryEventHandler {
  import opened Wrappers
  import opened DirectoryDag
  import opened DirectoryProgress
  import opened DirectoryRuns
  import Bounds = DirectoryBounds
  import Contents = DirectoryContents
  import Listings = DirectoryListings

  class DirNode {
    const uri: Uri
    const dirs: seq<Uri>
    const files: seq<Uri>
    const childIndex: map<Uri, nat>
    var summaries: seq<Option<ChildSummary>>
    var pending: int
    var scheduled: bool

    ghost predicate Valid()
      reads this
    {
      |summaries| == |dirs| && forall c :: c in childIndex ==> childIndex[c] < |dirs|
    }

    ghost function Value(): Node
      reads this
      requires Valid()
    {
      Node(dirs, files, childIndex, summaries, pending, scheduled)
    }

    constructor (uri: Uri, dirs: seq<Uri>, files: seq<Uri>)
      ensures Valid() && this.uri == uri
      ensures Value() == Node(dirs, files, IndexOf(dirs), seq(|dirs|, _ => None), |dirs| + |files|, false)
    {
      this.uri := uri;
      this.dirs := dirs;
      this.files := files;
      childIndex := IndexOf(dirs);
      summaries := seq(|dirs|, _ => None);
      pending := |dirs| + |files|;
      scheduled := false;
    }

    /** Fill the child's slot and count its report. */
    method HearChild(child: Uri, summary: Option<ChildSummary>)
      requires Valid()
      modifies this
      ensures Valid() && Value() == Record(old(Value()), child, summary).(pending := old(pending) - 1)
    {
      if child in childIndex {
        summaries := summaries[childIndex[child] := summary];
      }
      pending := pending - 1;
    }
  }

  lemma ValuesAfterInsert<K, V>(m: map<K, V>, k: K, v: V)
    requires k !in m
    ensures m[k := v].Values == m.Values + {v}
  {
    var m' := m[k := v];
    assert k in m';
    forall x | x in m.Values ensures x in m'.Values {
      var y :| y in m && m[y] == x;
      assert y in m' && m'[y] == x;
    }
  }

  lemma ListingParts(env: Env, u: Uri)
    requires Listing(env, u).Some?
    ensures SubDirs(env, u) == DirsOf(Listing(env, u).value) && Files(env, u) == FilesOf(Listing(env, u).value)
  {
  }

  lemma FreshParts(env: Env, u: Uri)
    ensures var n := FreshNode(env, u);
      && n.dirs == SubDirs(env, u) && n.files == Files(env, u) && n.pending == |n.dirs| + |n.files| && !n.scheduled
  {
  }

  datatype EventResult = EventResult(success: bool, stats: Stats)

  lemma SettleIs(s: State, u: Uri, r: Option<ChildSummary>, s': State)
    requires s' == s.(stats := s'.stats, rootDone := s'.rootDone, tasks := s'.tasks)
    requires var counted := if r.Some? then s.stats.(completed := s.stats.completed + 1)
      else s.stats.(failed := s.stats.failed + 1);
      s'.stats == counted.(pending := if s.stats.pending - 1 > 0 then s.stats.pending - 1 else 0)
    requires if u !in s.parents || s.parents[u].None? then s'.rootDone && s'.tasks == s.tasks
             else s'.rootDone == s.rootDone && s'.tasks == s.tasks + multiset{ChildDoneTask(s.parents[u].value, u, r)}
    ensures s' == DirectoryDag.Settle(s, u, r)
  {
  }

  class Handler {
    const env: Env
    var nodes: map<Uri, DirNode>
    var parents: map<Uri, Option<Uri>>
    var stats: Stats
    var rootDone: bool
    var slots: nat
    var tasks: multiset<Task>

    ghost predicate Valid()
      reads this, nodes.Values
    {
      forall u :: u in nodes ==> nodes[u].Valid() && nodes[u].uri == u
    }

    ghost function Abs(): State
      reads this, nodes.Values
      requires Valid()
    {
      State(AbsNodes(), parents, stats, rootDone, slots, tasks)
    }

    ghost function AbsNodes(): (m: map<Uri, Node>)
      reads this, nodes.Values
      requires Valid()
      ensures m.Keys == nodes.Keys && forall u :: u in nodes ==> m[u] == nodes[u].Value()
    {
      map u | u in nodes :: nodes[u].Value()
    }

    /** The initial state of one run: no node, the root's dispatch pending. */
    constructor (env: Env)
      ensures Valid() && this.env == env && Abs() == Start(env) && nodes == map[]
    {
      this.env := env;
      nodes := map[];
      parents := map[];
      stats := Stats(0, 0, 0, 0);
      rootDone := false;
      slots := env.llmSlots;
      tasks := multiset{DispatchTask(env.root, None)};
    }

    /** Only the object of p changed: the abstract nodes change at p only. */
    twostate lemma OnlyAt(p: Uri)
      requires old(Valid()) && nodes == old(nodes) && p in nodes && nodes[p].Valid()
      requires forall v :: v in nodes && v != p ==> unchanged(nodes[v])
      ensures Valid() && AbsNodes() == old(AbsNodes())[p := nodes[p].Value()]
    {
      hide AbsNodes;
      forall v | v in nodes && v != p ensures nodes[v].Valid() && nodes[v].Value() == old(nodes[v].Value()) {
      }
    }

    /** No node object changed. */
    twostate lemma NodesKept()
      requires old(Valid()) && nodes == old(nodes)
      requires forall v :: v in nodes ==> unchanged(nodes[v])
      ensures Valid() && AbsNodes() == old(AbsNodes())
    {
      hide AbsNodes;
    }

    method ScheduleSummary(u: Uri)
      requires Valid()
      modifies this`tasks, nodes.Values
      ensures Valid() && Abs() == DirectoryDag.ScheduleSummary(old(Abs()), u)
      ensures u in nodes && !old(nodes[u].scheduled) ==> SummaryTask(u) in tasks
    {
      if u !in nodes || nodes[u].scheduled {
        return;
      }
      var node := nodes[u];
      node.scheduled := true;
      tasks := tasks + multiset{SummaryTask(u)};
      OnlyAt(u);
    }

    method OnFileDone(p: Uri)
      requires Valid()
      modifies this`tasks, nodes.Values
      ensures Valid() && Abs() == DirectoryDag.OnFileDone(old(Abs()), p)
    {
      if p !in nodes {
        return;
      }
      var node := nodes[p];
      node.pending := node.pending - 1;
      if node.pending == 0 && !node.scheduled {
        node.scheduled := true;
        tasks := tasks + multiset{SummaryTask(p)};
      }
      OnlyAt(p);
    }

    method OnChildDone(p: Uri, child: Uri, summary: Option<ChildSummary>)
      requires Valid()
      modifies this`tasks, nodes.Values
      ensures Valid() && Abs() == DirectoryDag.OnChildDone(old(Abs()), p, child, summary)
    {
      if p !in nodes {
        return;
      }
      var node := nodes[p];
      node.HearChild(child, summary);
      if node.pending == 0 && !node.scheduled {
        node.scheduled := true;
        tasks := tasks + multiset{SummaryTask(p)};
      }
      OnlyAt(p);
    }

    /** Split a listing into sub-directories and files, in order. */
    static method Split(children: seq<Uri>) returns (dirs: seq<Uri>, files: seq<Uri>)
      ensures dirs == DirsOf(children) && files == FilesOf(children)
    {
      dirs, files := [], [];
      for i := 0 to |children|
        invariant dirs == DirsOf(children[..i]) && files == FilesOf(children[..i])
      {
        assert children[..i + 1][..i] == children[..i];
        if IsDirectoryUri(children[i]) {
          dirs := dirs + [children[i]];
        } else {
          files := files + [children[i]];
        }
      }
      assert children[..|children|] == children;
    }

    method CreateFileTasks(u: Uri, files: seq<Uri>)
      modifies this`tasks
      ensures tasks == old(tasks) + FileTasks(u, files)
    {
      for i := 0 to |files|
        invariant tasks == old(tasks) + FileTasks(u, files[..i])
      {
        assert files[..i + 1][..i] == files[..i];
        tasks := tasks + multiset{FileTask(u, files[i])};
      }
      assert files[..|files|] == files;
    }

    method CreateDispatchTasks(u: Uri, dirs: seq<Uri>)
      modifies this`tasks
      ensures tasks == old(tasks) + DispatchTasks(u, dirs)
    {
      for i := 0 to |dirs|
        invariant tasks == old(tasks) + DispatchTasks(u, dirs[..i])
      {
        assert dirs[..i + 1][..i] == dirs[..i];
        tasks := tasks + multiset{DispatchTask(dirs[i], Some(u))};
      }
      assert dirs[..|dirs|] == dirs;
    }

    method CreateTasks(u: Uri, files: seq<Uri>, dirs: seq<Uri>)
      requires Valid()
      modifies this`tasks
      ensures Valid() && Abs() == old(Abs()).(tasks := old(tasks) + FileTasks(u, files) + DispatchTasks(u, dirs))
      ensures dirs != [] || files != [] ==> OwedBy(u, dirs, files)
    {
      hide AbsNodes, FileTasks, DispatchTasks;
      CreateFileTasks(u, files);
      CreateDispatchTasks(u, dirs);
      NodesKept();
      if dirs != [] || files != [] { OneTaskEach(u, dirs, files); }
    }

    lemma OneTaskEach(u: Uri, dirs: seq<Uri>, files: seq<Uri>)
      requires FileTasks(u, files) + DispatchTasks(u, dirs) <= tasks && (dirs != [] || files != [])
      ensures OwedBy(u, dirs, files)
    {
      hide FileTasks, DispatchTasks;
      forall d ensures DispatchTasks(u, dirs)[DispatchTask(d, Some(u))] == multiset(dirs)[d] {
        DispatchEach(u, dirs, d);
      }
      forall f ensures FileTasks(u, files)[FileTask(u, f)] == multiset(files)[f] {
        FileEach(u, files, f);
      }
    }

    static lemma {:induction false} DispatchEach(u: Uri, ds: seq<Uri>, d: Uri)
      ensures DispatchTasks(u, ds)[DispatchTask(d, Some(u))] == multiset(ds)[d]
    {
      if ds != [] {
        DispatchEach(u, ds[..|ds| - 1], d);
        assert ds == ds[..|ds| - 1] + [ds[|ds| - 1]];
      }
    }

    static lemma {:induction false} FileEach(u: Uri, fs: seq<Uri>, f: Uri)
      ensures FileTasks(u, fs)[FileTask(u, f)] == multiset(fs)[f]
    {
      if fs != [] {
        FileEach(u, fs[..|fs| - 1], f);
        assert fs == fs[..|fs| - 1] + [fs[|fs| - 1]];
      }
    }

    /** The listing raised: count the failure, tell the parent or end the run. */
    method FailDispatch(u: Uri, parent: Option<Uri>)
      requires Valid()
      modifies this`parents, this`stats, this`tasks, this`rootDone
      ensures Valid() && Abs() == DirectoryDag.FailDispatch(old(Abs()), u, parent)
    {
      parents := parents[u := parent];
      stats := stats.(failed := stats.failed + 1);
      if parent.Some? && parent.value != "" {
        tasks := tasks + multiset{ChildDoneTask(parent.value, u, None)};
      } else {
        rootDone := true;
      }
      NodesKept();
    }

    /** The listing succeeded: register the node and count it. */
    method Register(u: Uri, parent: Option<Uri>, dirs: seq<Uri>, files: seq<Uri>)
      requires Valid() && u !in nodes && dirs == SubDirs(env, u) && files == Files(env, u)
      modifies this`parents, this`nodes, this`stats
      ensures Valid() && u in nodes && fresh(nodes[u]) && nodes.Values == old(nodes.Values) + {nodes[u]}
      ensures nodes[u].Value() == FreshNode(env, u) && Abs() == DirectoryDag.Register(env, old(Abs()), u, parent)
    {
      hide AbsNodes, SubDirs, Files;
      parents := parents[u := parent];
      var node := new DirNode(u, dirs, files);
      assert node.Value() == FreshNode(env, u);
      ValuesAfterInsert(nodes, u, node);
      nodes := nodes[u := node];
      stats := stats.(total := stats.total + 1, pending := stats.pending + 1);
      Inserted(u);
    }

    /** A fresh node object was entered under u. */
    twostate lemma Inserted(u: Uri)
      requires old(Valid()) && u !in old(nodes) && u in nodes && nodes.Keys == old(nodes.Keys) + {u}
      requires nodes[u].Valid() && nodes[u].uri == u
      requires forall v :: v in old(nodes) ==> nodes[v] == old(nodes[v]) && unchanged(nodes[v])
      ensures Valid() && AbsNodes() == old(AbsNodes())[u := nodes[u].Value()]
    {
      hide AbsNodes;
      forall v | v in nodes && v != u
        ensures nodes[v].Valid() && nodes[v].uri == v && nodes[v].Value() == old(nodes[v].Value())
      {
        assert v in old(nodes);
      }
    }

    /** The first children of a listing, split into sub-directories and files. */
    method SplitListing(u: Uri, listed: seq<Uri>) returns (dirs: seq<Uri>, files: seq<Uri>)
      requires env.list(u) == Some(listed)
      ensures Listing(env, u).Some? && dirs == SubDirs(env, u) && files == Files(env, u)
      ensures Contents.Taken(env, u, dirs, files)
    {
      var children := listed;
      if |children| > env.maxChildren {
        children := children[..env.maxChildren];
      }
      dirs, files := Split(children);
      ListingParts(env, u);
      Contents.ListingIsCut(env, u);
    }

    method DispatchDir(u: Uri, parent: Option<Uri>)
      requires Valid()
      modifies this, nodes.Values
      ensures Valid() && Abs() == Dispatch(env, old(Abs()), u, parent)
      ensures fresh(nodes.Values - old(nodes.Values))
      ensures u !in old(nodes) && env.list(u).Some? ==>
        u in nodes && Contents.Taken(env, u, nodes[u].dirs, nodes[u].files) && OwedBy(u, nodes[u].dirs, nodes[u].files)
    {
      hide AbsNodes, SubDirs, Files, FreshNode, FileTasks, DispatchTasks, DirectoryDag.ScheduleSummary,
        DirectoryDag.Register, DirectoryDag.FailDispatch, Contents.Taken;
      if u in nodes {
        return;
      }
      var listed := env.list(u);
      if listed.None? {
        FailDispatch(u, parent);
        return;
      }
      var dirs, files := SplitListing(u, listed.value);
      OpenNode(u, parent, dirs, files);
    }

    /** The rest of a dispatch: schedule the summary or one task per child. */
    method OpenNode(u: Uri, parent: Option<Uri>, dirs: seq<Uri>, files: seq<Uri>)
      requires Valid() && u !in nodes && Listing(env, u).Some? && dirs == SubDirs(env, u) && files == Files(env, u)
      modifies this, nodes.Values
      ensures Valid() && Abs() == Dispatch(env, old(Abs()), u, parent)
      ensures fresh(nodes.Values - old(nodes.Values))
      ensures u in nodes && nodes[u].dirs == dirs && nodes[u].files == files
      ensures OwedBy(u, dirs, files)
    {
      hide SubDirs, Files, FreshNode, FileTasks, DispatchTasks, DirectoryDag.ScheduleSummary, DirectoryDag.Register,
        AbsNodes;
      Register(u, parent, dirs, files);
      FreshParts(env, u);
      if nodes[u].pending == 0 {
        ScheduleSummary(u);
      } else {
        CreateTasks(u, files, dirs);
      }
    }

    /** One task for each file and each sub-directory, or the summary task if there are none. */
    ghost predicate OwedBy(u: Uri, dirs: seq<Uri>, files: seq<Uri>)
      reads this`tasks
    {
      && (forall d :: d in dirs ==> tasks[DispatchTask(d, Some(u))] >= multiset(dirs)[d])
      && (forall f :: f in files ==> tasks[FileTask(u, f)] >= multiset(files)[f])
      && (dirs == [] && files == [] ==> SummaryTask(u) in tasks)
    }

    /** The entries a directory's summary is generated from. */
    method CollectChildrenSummaries(node: DirNode) returns (entries: seq<ChildSummary>)
      requires node.Valid()
      ensures entries == Collect(node.dirs, node.summaries)
    {
      entries := [];
      for i := 0 to |node.dirs|
        invariant |entries| == i
        invariant forall j :: 0 <= j < i ==> entries[j] == Collect(node.dirs, node.summaries)[j]
      {
        var item := node.summaries[i];
        if item.Some? {
          entries := entries + [item.value];
        } else {
          entries := entries + [ChildSummary(node.dirs[i], "", false)];
        }
      }
    }

    method StartSummary(u: Uri)
      requires Valid()
      modifies this`tasks
      ensures Valid() && Abs() == DirectoryDag.StartSummary(old(Abs()), u)
    {
      if u !in nodes {
        return;
      }
      var collected := CollectChildrenSummaries(nodes[u]);
      tasks := tasks + multiset{AwaitSlot(u, collected)};
      NodesKept();
    }

    /** The last part of a summary task, after success or failure. */
    method Settle(u: Uri, r: Option<ChildSummary>)
      requires Valid()
      modifies this`stats, this`rootDone, this`tasks
      ensures Valid() && Abs() == DirectoryDag.Settle(old(Abs()), u, r)
    {
      hide AbsNodes, DirectoryDag.Settle;
      ghost var s0 := Abs();
      CountEnd(r);
      Announce(u, r);
      SettleIs(s0, u, r, Abs());
    }

    /** One directory fewer is pending. */
    method CountEnd(r: Option<ChildSummary>)
      requires Valid()
      modifies this`stats
      ensures Valid() && Abs() == old(Abs()).(stats := stats)
      ensures var counted := if r.Some? then old(stats).(completed := old(stats).completed + 1)
        else old(stats).(failed := old(stats).failed + 1);
        stats == counted.(pending := if old(stats).pending - 1 > 0 then old(stats).pending - 1 else 0)
    {
      hide AbsNodes;
      if r.Some? {
        stats := stats.(completed := stats.completed + 1);
      } else {
        stats := stats.(failed := stats.failed + 1);
      }
      stats := stats.(pending := if stats.pending - 1 > 0 then stats.pending - 1 else 0);
      NodesKept();
    }

    /** Set the root event, or report to the parent. */
    method Announce(u: Uri, r: Option<ChildSummary>)
      requires Valid()
      modifies this`rootDone, this`tasks
      ensures Valid() && Abs() == old(Abs()).(rootDone := rootDone, tasks := tasks)
      ensures if u !in parents || parents[u].None? then rootDone && tasks == old(tasks)
              else rootDone == old(rootDone) && tasks == old(tasks) + multiset{ChildDoneTask(parents[u].value, u, r)}
    {
      hide AbsNodes;
      if u !in parents || parents[u].None? {
        rootDone := true;
      } else {
        tasks := tasks + multiset{ChildDoneTask(parents[u].value, u, r)};
      }
      NodesKept();
    }

    method TakeTask(k: Task)
      requires Valid() && k in tasks
      modifies this`tasks
      ensures Valid() && Abs() == old(Abs()).(tasks := old(tasks) - multiset{k})
    {
      tasks := tasks - multiset{k};
      NodesKept();
    }

    /** The LLM call returned or raised; the semaphore is released either way. */
    method FinishGenerating(u: Uri, collected: seq<ChildSummary>, outcome: Outcome)
      requires Valid()
      modifies this`slots, this`stats, this`rootDone, this`tasks
      ensures Valid()
      ensures var s1 := old(Abs()).(slots := old(slots) + 1);
        Abs() == if outcome.Succeeds? then s1.(tasks := s1.tasks + multiset{Storing(u, collected, outcome.text)})
                 else DirectoryDag.Settle(s1, u, None)
    {
      slots := slots + 1;
      NodesKept();
      if outcome.Succeeds? {
        tasks := tasks + multiset{Storing(u, collected, outcome.text)};
        NodesKept();
      } else {
        Settle(u, None);
      }
    }

    method TakeSlot(u: Uri, collected: seq<ChildSummary>)
      requires Valid() && slots > 0
      modifies this`slots, this`tasks
      ensures Valid()
      ensures Abs() == old(Abs()).(slots := old(slots) - 1, tasks := old(tasks) + multiset{Generating(u, collected)})
    {
      slots := slots - 1;
      tasks := tasks + multiset{Generating(u, collected)};
      NodesKept();
    }

    /** The stages of a summary task, each up to its next suspension. */
    method ResumeSummary(a: Action)
      requires Valid() && Enabled(Abs(), a)
      requires a.task.SummaryTask? || a.task.AwaitSlot? || a.task.Generating? || a.task.Storing?
      modifies this`slots, this`stats, this`rootDone, this`tasks
      ensures Valid() && Abs() == Next(env, old(Abs()), a)
    {
      hide AbsNodes, DirectoryDag.StartSummary, DirectoryDag.Settle, Dispatch, DirectoryDag.OnFileDone,
        DirectoryDag.OnChildDone;
      TakeTask(a.task);
      match a.task
      case SummaryTask(u) => StartSummary(u);
      case AwaitSlot(u, c) => TakeSlot(u, c);
      case Generating(u, c) => FinishGenerating(u, c, a.outcome);
      case Storing(u, _, text) => Settle(u, if a.outcome.Succeeds? then Some(ChildSummary(u, text, true)) else None);
    }

    /** A child's report, received under the parent's lock. */
    method ResumeReport(a: Action)
      requires Valid() && Enabled(Abs(), a) && (a.task.FileTask? || a.task.ChildDoneTask?)
      modifies this`tasks, nodes.Values
      ensures Valid() && Abs() == Next(env, old(Abs()), a)
    {
      hide AbsNodes, DirectoryDag.OnFileDone, DirectoryDag.OnChildDone, Dispatch, DirectoryDag.StartSummary,
        DirectoryDag.Settle;
      TakeTask(a.task);
      if a.task.FileTask? {
        OnFileDone(a.task.owner);
      } else {
        OnChildDone(a.task.owner, a.task.child, a.task.summary);
      }
    }

    /** One turn of the event loop: resume task a.task up to its next suspension. */
    method Resume(a: Action)
      requires Valid() && Enabled(Abs(), a)
      modifies this, nodes.Values
      ensures Valid() && Abs() == Next(env, old(Abs()), a)
      ensures fresh(nodes.Values - old(nodes.Values))
    {
      hide AbsNodes, Dispatch, DirectoryDag.OnFileDone, DirectoryDag.OnChildDone, DirectoryDag.StartSummary,
        DirectoryDag.Settle;
      if a.task.DispatchTask? {
        TakeTask(a.task);
        DispatchDir(a.task.uri, a.task.parent);
      } else if a.task.FileTask? || a.task.ChildDoneTask? {
        ResumeReport(a);
      } else {
        ResumeSummary(a);
      }
    }

    /** The event loop: any enabled task may be resumed, with any outcome, until the
        root event is set or nothing can go on, when the call hangs.  On finitely many
        directories, whatever they list, it comes to one of the two, and to which of
        them depends on the listing and the slots alone. */
    method RunDag(ghost dirs: set<Uri>) returns (result: Option<EventResult>, ghost acts: seq<Action>)
      requires Valid() && Abs() == Start(env) && nodes == map[]
      requires IsDirectoryUri(env.root) && Bounds.Closed(env, dirs)
      modifies this
      ensures Valid() && ValidRun(env, acts) && Abs() == After(env, acts)
      ensures rootDone || Listings.Exhausted(Abs())
      ensures rootDone <==> Contents.Finishes(env)
      ensures result == if rootDone then Some(EventResult(true, stats)) else None
      ensures |acts| <= 2 + Bounds.CreditSum(env, dirs)
      ensures forall reached :: Contents.AreWithinReach(env, reached) && rootDone ==>
        nodes.Keys == reached && Contents.CountsOn(env, acts, reached, stats)
      ensures forall i :: 0 <= i < |acts| && Contents.HasCollected(acts[i].task) ==> CollectedAt(acts, i)
      ensures forall t: Shape :: Tree(env, t) && rootDone ==> TreeDone(t, acts)
    {
      hide Next, AbsNodes, Listings.Inv, Listings.Advance, Listings.Finishing, Listings.Exhausted, Bounds.Potential,
        Bounds.Closed, TreeDone, Tree, Contents.Finishes, Contents.AreWithinReach, Contents.CountsOn, CollectedAt,
        Contents.HasCollected;
      acts := [];
      while !rootDone && exists k :: k in tasks && (k.AwaitSlot? ==> slots > 0)
        invariant Valid() && fresh(nodes.Values)
        invariant ValidRun(env, acts) && Abs() == After(env, acts)
        decreases Bounds.Potential(env, dirs, After(env, acts))
      {
        var k: Task :| k in tasks && (k.AwaitSlot? ==> slots > 0);
        var succeeds: bool := *;
        var text: string := *;
        var a := Action(k, if succeeds then Succeeds(text) else Fails);
        Listings.RunInv(env, acts);
        Bounds.StepFalls(env, dirs, After(env, acts), Listings.TraceOf(env, acts), a);
        Resume(a);
        assert (acts + [a])[..|acts|] == acts;
        acts := acts + [a];
      }
      Bounds.RunsAreBounded(env, dirs, acts);
      Decided(acts);
      AtTheEnd(acts);
      result := if rootDone then Some(EventResult(true, stats)) else None;
    }

    /** What the run has come to when the loop ends. */
    lemma AtTheEnd(acts: seq<Action>)
      requires Valid() && IsDirectoryUri(env.root) && ValidRun(env, acts) && Abs() == After(env, acts)
      ensures forall reached :: Contents.AreWithinReach(env, reached) && rootDone ==>
        nodes.Keys == reached && Contents.CountsOn(env, acts, reached, stats)
      ensures forall i :: 0 <= i < |acts| && Contents.HasCollected(acts[i].task) ==> CollectedAt(acts, i)
      ensures forall t: Shape :: Tree(env, t) && rootDone ==> TreeDone(t, acts)
    {
      hide Next, AbsNodes, TreeDone, Tree, Contents.AreWithinReach, Contents.CountsOn, Contents.CollectedOn,
        Contents.HasCollected, ValidRun, After;
      forall reached | Contents.AreWithinReach(env, reached) && rootDone
        ensures nodes.Keys == reached && Contents.CountsOn(env, acts, reached, stats)
      {
        DoneOnReached(reached, acts);
      }
      forall i | 0 <= i < |acts| && Contents.HasCollected(acts[i].task) ensures CollectedAt(acts, i) {
        CollectedIsAt(acts, i);
      }
      forall t: Shape | Tree(env, t) && rootDone ensures TreeDone(t, acts) {
        DoneOnTree(t, acts);
      }
    }

    lemma CollectedIsAt(acts: seq<Action>, i: int)
      requires IsDirectoryUri(env.root) && ValidRun(env, acts) && 0 <= i < |acts| && Contents.HasCollected(acts[i].task)
      ensures CollectedAt(acts, i)
    {
      hide ValidRun, Contents.CollectedOn;
      Contents.CollectsWhatIsListed(env, acts, i);
    }

    /** The entries from which step i goes on come from the listing and the steps before. */
    ghost predicate CollectedAt(acts: seq<Action>, i: int) {
      && 0 <= i < |acts| && Contents.HasCollected(acts[i].task)
      && Contents.CollectedOn(env, acts[..i], acts[i].task.uri, acts[i].task.collected)
    }

    lemma Decided(acts: seq<Action>)
      requires Valid() && IsDirectoryUri(env.root) && ValidRun(env, acts) && Abs() == After(env, acts)
      requires rootDone || forall k :: k in tasks ==> k.AwaitSlot? && slots == 0
      ensures rootDone || Listings.Exhausted(Abs())
      ensures rootDone <==> Contents.Finishes(env)
    {
      hide Next, AbsNodes, Listings.Finishing, Contents.Finishes, ValidRun, After;
      Contents.FinishingIs(env);
      if rootDone {
        Listings.DoneMeansFinishing(env, acts);
      } else {
        Listings.FinishesExactlyWhenListedOnce(env, acts);
      }
    }

    lemma DoneOnReached(reached: set<Uri>, acts: seq<Action>)
      requires Valid() && ValidRun(env, acts) && Abs() == After(env, acts) && rootDone
      requires IsDirectoryUri(env.root) && Contents.AreWithinReach(env, reached)
      ensures nodes.Keys == reached && Contents.CountsOn(env, acts, reached, stats)
    {
      hide Next, AbsNodes, Contents.AreWithinReach, Contents.CountsOn, ValidRun, After;
      Contents.CountsWhatIsListed(env, acts, reached);
    }

    /** What a finished run leaves on a tree. */
    ghost predicate TreeDone(t: Shape, acts: seq<Action>)
      reads this
    {
      && stats.pending == 0 && stats.total == |t.dirs| - |DispatchFailures(env, t)|
      && stats.completed + stats.failed == stats.total + |DispatchFailures(env, t)|
      && forall u :: u in t.dirs ==> exists r :: Ended(env, acts, u, r)
    }

    lemma DoneOnTree(t: Shape, acts: seq<Action>)
      requires Valid() && Tree(env, t) && ValidRun(env, acts) && Abs() == After(env, acts) && rootDone
      ensures TreeDone(t, acts)
    {
      hide Tree, Next, AbsNodes, DispatchFailures, Ended;
      DoneMeansAllDone(env, t, acts);
    }
  }

  /** On a tree the condition is that there is a slot, or that the root cannot be listed. */
  lemma TreesFinish(env: Env, t: Shape)
    requires Tree(env, t)
    ensures Contents.Finishes(env) <==> env.llmSlots > 0 || env.list(env.root).None?
  {
    hide Tree, Listing, Listings.ListedOnce, Contents.NoEntryTwice;
    Bounds.TreeIsListedOnce(env, t);
    assert IsDirectoryUri(env.root) by { RootOfTree(env, t); }
    Contents.ListedOnceIs(env);
  }

  /** The entry point: a URI that is no directory is refused, otherwise the directories
      below it are run to the end, or for ever. */
  method ProcessDirectoryEvent(env: Env, ghost dirs: set<Uri>) returns (result: Option<EventResult>)
    requires IsDirectoryUri(env.root) ==> Bounds.Closed(env, dirs)
    ensures result.None? <==> Contents.NamesDir(env.root) && !Contents.Finishes(env)
    ensures result.Some? ==> (result.value.success <==> Contents.NamesDir(env.root))
    ensures result.Some? && !result.value.success ==> result.value.stats == Stats(0, 0, 0, 0)
    ensures forall reached :: Contents.AreWithinReach(env, reached) && result.Some? && result.value.success ==>
      OnReached(env, reached, result.value)
    ensures forall t: Shape :: Tree(env, t) && result.Some? ==> OnTree(env, t, result.value)
    ensures forall t: Shape :: Tree(env, t) ==> (result.None? <==> env.llmSlots == 0 && env.list(env.root).Some?)
  {
    hide Contents.Finishes, Bounds.Closed, Tree, DispatchFailures, Bounds.CreditSum, Listing, Contents.AreWithinReach,
      Contents.FailingEntries, Contents.StoredIn, Contents.CollectedOn;
    if !IsDirectoryUri(env.root) {
      forall t: Shape ensures !Tree(env, t) {
        RootOfTree(env, t);
      }
      return Some(EventResult(false, Stats(0, 0, 0, 0)));
    }
    var handler := new Handler(env);
    ghost var acts;
    result, acts := handler.RunDag(dirs);
    forall t: Shape | Tree(env, t)
      ensures Contents.Finishes(env) <==> env.llmSlots > 0 || env.list(env.root).None?
    {
      TreesFinish(env, t);
    }
  }

  /** The statistics any listing ends with: nothing pending, every directory within reach
      and every entry that could not be listed accounted for. */
  ghost predicate OnReached(env: Env, reached: set<Uri>, r: EventResult) {
    && r.stats.pending == 0 && r.stats.total == |reached|
    && r.stats.completed + r.stats.failed ==
      |reached| + |Contents.FailingEntries(env, reached)| + (if env.list(env.root).None? then 1 else 0)
  }

  /** The statistics a tree ends with: nothing pending, everything accounted for. */
  ghost predicate OnTree(env: Env, t: Shape, r: EventResult) {
    && r.stats.pending == 0 && r.stats.total == |t.dirs| - |DispatchFailures(env, t)|
    && r.stats.completed + r.stats.failed == |t.dirs|
  }

  lemma RootOfTree(env: Env, t: Shape)
    ensures Tree(env, t) ==> IsDirectoryUri(env.root)
  {
    if Tree(env, t) { assert Fits(env, t, env.root); }
  }
}
