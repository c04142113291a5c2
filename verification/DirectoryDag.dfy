/** The directory-summary scheduler of index/directory_event_handler.py as a
    state machine over its atomic steps.

    The stretch of a coroutine between two suspension points is one step, so an
    interleaving of the asyncio tasks is a sequence of actions.  The listing of
    the file system is an arbitrary function that may fail on any directory;
    every summary may fail while it is generated or while it is stored. */
module DirectoryDag {
  import opened Wrappers

  type Uri = string

  predicate IsDirectoryUri(u: Uri) {
    u != "" && u[|u| - 1] == '/'
  }

  datatype ChildSummary = ChildSummary(uri: Uri, text: string, hasAbstract: bool)

  /** What the parent records for a child that failed. */
  function Missing(u: Uri): ChildSummary {
    ChildSummary(u, "", false)
  }

  datatype Env = Env(root: Uri, list: Uri -> Option<seq<Uri>>, maxChildren: nat, llmSlots: nat)

  /** `summaries` has one slot per sub-directory and `childIndex` points into it. */
  datatype Node = Node(dirs: seq<Uri>, files: seq<Uri>, childIndex: map<Uri, nat>,
                       summaries: seq<Option<ChildSummary>>, pending: int, scheduled: bool)

  datatype Stats = Stats(total: int, pending: int, completed: int, failed: int)

  /** A task of the event loop, named by the point at which it will resume. */
  datatype Task =
    | DispatchTask(uri: Uri, parent: Option<Uri>)
    | FileTask(owner: Uri, file: Uri)
    | ChildDoneTask(owner: Uri, child: Uri, summary: Option<ChildSummary>)
    | SummaryTask(uri: Uri)
    | AwaitSlot(uri: Uri, collected: seq<ChildSummary>)
    | Generating(uri: Uri, collected: seq<ChildSummary>)
    | Storing(uri: Uri, collected: seq<ChildSummary>, text: string)

  datatype State = State(nodes: map<Uri, Node>, parents: map<Uri, Option<Uri>>, stats: Stats,
                         rootDone: bool, slots: nat, tasks: multiset<Task>)

  /** How an external call ends; only Generating and Storing look at it. */
  datatype Outcome = Succeeds(text: string) | Fails

  datatype Action = Action(task: Task, outcome: Outcome)

  // ----- Listings -----

  function Listing(env: Env, u: Uri): Option<seq<Uri>> {
    match env.list(u)
    case None => None
    case Some(cs) => Some(if |cs| > env.maxChildren then cs[..env.maxChildren] else cs)
  }

  function DirsOf(cs: seq<Uri>): (ds: seq<Uri>)
    ensures forall c :: c in ds <==> c in cs && IsDirectoryUri(c)
  {
    if cs == [] then [] else
    var init, last := cs[..|cs| - 1], cs[|cs| - 1];
    DirsOf(init) + if IsDirectoryUri(last) then [last] else []
  }

  function FilesOf(cs: seq<Uri>): (fs: seq<Uri>)
    ensures forall c :: c in fs <==> c in cs && !IsDirectoryUri(c)
    ensures |fs| + |DirsOf(cs)| == |cs|
  {
    if cs == [] then [] else
    var init, last := cs[..|cs| - 1], cs[|cs| - 1];
    FilesOf(init) + if IsDirectoryUri(last) then [] else [last]
  }

  function SubDirs(env: Env, u: Uri): seq<Uri> {
    match Listing(env, u) case None => [] case Some(cs) => DirsOf(cs)
  }

  function Files(env: Env, u: Uri): seq<Uri> {
    match Listing(env, u) case None => [] case Some(cs) => FilesOf(cs)
  }

  /** The dictionary built from the enumerated sub-directories: a later
      occurrence overwrites an earlier one. */
  function IndexOf(ds: seq<Uri>): (m: map<Uri, nat>)
    ensures forall d :: d in m <==> d in ds
    ensures forall d :: d in m ==> m[d] < |ds| && ds[m[d]] == d
  {
    if ds == [] then map[] else IndexOf(ds[..|ds| - 1])[ds[|ds| - 1] := |ds| - 1]
  }

  // ----- Steps -----

  function FreshNode(env: Env, u: Uri): Node {
    var ds, fs := SubDirs(env, u), Files(env, u);
    Node(ds, fs, IndexOf(ds), seq(|ds|, _ => None), |ds| + |fs|, false)
  }

  function DispatchTasks(u: Uri, ds: seq<Uri>): multiset<Task> {
    if ds == [] then multiset{}
    else DispatchTasks(u, ds[..|ds| - 1]) + multiset{DispatchTask(ds[|ds| - 1], Some(u))}
  }

  function FileTasks(u: Uri, fs: seq<Uri>): multiset<Task> {
    if fs == [] then multiset{}
    else FileTasks(u, fs[..|fs| - 1]) + multiset{FileTask(u, fs[|fs| - 1])}
  }

  /** The tail both completion handlers share: when the count reaches zero the
      flag is set and the summary task is created. */
  function AfterDecrement(s: State, p: Uri, n: Node): State {
    if n.pending == 0 && !n.scheduled then
      s.(nodes := s.nodes[p := n.(scheduled := true)], tasks := s.tasks + multiset{SummaryTask(p)})
    else s.(nodes := s.nodes[p := n])
  }

  /** The listing failed: the failure is counted and reported, or ends the run. */
  function FailDispatch(s: State, u: Uri, parent: Option<Uri>): State {
    var s1 := s.(parents := s.parents[u := parent], stats := s.stats.(failed := s.stats.failed + 1));
    if parent.Some? && parent.value != "" then
      s1.(tasks := s1.tasks + multiset{ChildDoneTask(parent.value, u, None)})
    else s1.(rootDone := true)
  }

  function Register(env: Env, s: State, u: Uri, parent: Option<Uri>): State {
    s.(nodes := s.nodes[u := FreshNode(env, u)], parents := s.parents[u := parent],
       stats := s.stats.(total := s.stats.total + 1, pending := s.stats.pending + 1))
  }

  function Dispatch(env: Env, s: State, u: Uri, parent: Option<Uri>): State {
    if u in s.nodes then s
    else if Listing(env, u).None? then FailDispatch(s, u, parent)
    else
      var s1, n := Register(env, s, u, parent), FreshNode(env, u);
      if n.pending == 0 then ScheduleSummary(s1, u)
      else s1.(tasks := s1.tasks + FileTasks(u, n.files) + DispatchTasks(u, n.dirs))
  }

  function ScheduleSummary(s: State, u: Uri): State {
    if u !in s.nodes || s.nodes[u].scheduled then s
    else s.(nodes := s.nodes[u := s.nodes[u].(scheduled := true)],
            tasks := s.tasks + multiset{SummaryTask(u)})
  }

  function OnFileDone(s: State, p: Uri): State {
    if p !in s.nodes then s
    else AfterDecrement(s, p, s.nodes[p].(pending := s.nodes[p].pending - 1))
  }

  function Record(n: Node, child: Uri, r: Option<ChildSummary>): Node {
    if child in n.childIndex && n.childIndex[child] < |n.summaries| then
      n.(summaries := n.summaries[n.childIndex[child] := r])
    else n
  }

  function OnChildDone(s: State, p: Uri, child: Uri, r: Option<ChildSummary>): State {
    if p !in s.nodes then s
    else AfterDecrement(s, p, Record(s.nodes[p], child, r).(pending := s.nodes[p].pending - 1))
  }

  /** One entry per sub-directory, in order; a child without a summary gets an
      entry without an abstract. */
  function Collect(dirs: seq<Uri>, summaries: seq<Option<ChildSummary>>): seq<ChildSummary> {
    seq(|dirs|, i requires 0 <= i < |dirs| =>
      if i < |summaries| && summaries[i].Some? then summaries[i].value else Missing(dirs[i]))
  }

  function StartSummary(s: State, u: Uri): State {
    if u !in s.nodes then s
    else s.(tasks := s.tasks + multiset{AwaitSlot(u, Collect(s.nodes[u].dirs, s.nodes[u].summaries))})
  }

  /** The end of a summary task: statistics, then the root event or the parent. */
  function Settle(s: State, u: Uri, r: Option<ChildSummary>): State {
    var st := s.stats.(pending := if s.stats.pending - 1 > 0 then s.stats.pending - 1 else 0);
    var s1 := s.(stats := if r.Some? then st.(completed := st.completed + 1)
                          else st.(failed := st.failed + 1));
    if u !in s.parents || s.parents[u].None? then s1.(rootDone := true)
    else s1.(tasks := s1.tasks + multiset{ChildDoneTask(s.parents[u].value, u, r)})
  }

  predicate Enabled(s: State, a: Action) {
    a.task in s.tasks && (a.task.AwaitSlot? ==> s.slots > 0)
  }

  function Next(env: Env, s: State, a: Action): State
    requires Enabled(s, a)
  {
    var s0 := s.(tasks := s.tasks - multiset{a.task});
    match a.task
    case DispatchTask(u, p) => Dispatch(env, s0, u, p)
    case FileTask(p, _) => OnFileDone(s0, p)
    case ChildDoneTask(p, c, r) => OnChildDone(s0, p, c, r)
    case SummaryTask(u) => StartSummary(s0, u)
    case AwaitSlot(u, c) => s0.(slots := s0.slots - 1, tasks := s0.tasks + multiset{Generating(u, c)})
    case Generating(u, c) =>
      var s1 := s0.(slots := s0.slots + 1);
      if a.outcome.Succeeds? then s1.(tasks := s1.tasks + multiset{Storing(u, c, a.outcome.text)})
      else Settle(s1, u, None)
    case Storing(u, _, text) =>
      Settle(s0, u, if a.outcome.Succeeds? then Some(ChildSummary(u, text, true)) else None)
  }

  function Start(env: Env): State {
    State(map[], map[], Stats(0, 0, 0, 0), false, env.llmSlots, multiset{DispatchTask(env.root, None)})
  }

  // ----- Runs -----

  predicate ValidRun(env: Env, acts: seq<Action>)
    decreases |acts|, 0
  {
    acts == [] ||
    (var init := acts[..|acts| - 1]; ValidRun(env, init) && Enabled(After(env, init), acts[|acts| - 1]))
  }

  function After(env: Env, acts: seq<Action>): State
    requires ValidRun(env, acts)
    decreases |acts|, 1
  {
    if acts == [] then Start(env) else Next(env, After(env, acts[..|acts| - 1]), acts[|acts| - 1])
  }

  lemma {:induction false} PrefixValid(env: Env, acts: seq<Action>, k: nat)
    requires ValidRun(env, acts) && k <= |acts|
    ensures ValidRun(env, acts[..k])
  {
    if k == |acts| {
      assert acts[..k] == acts;
    } else {
      PrefixValid(env, acts[..|acts| - 1], k);
      assert acts[..|acts| - 1][..k] == acts[..k];
    }
  }
}
