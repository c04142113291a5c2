/** The scheduler on arbitrary listings, which need not form a tree.

    `Trace` is the history the state does not keep: the directories in the order of
    their registration, the ones that ended, and the dispatches that returned without
    a word because the directory was known already. */
module DirectoryListings {
  import opened Wrappers
  import opened DirectoryDag

  datatype Trace = Trace(born: seq<Uri>, ended: set<Uri>, silent: multiset<(Uri, Uri)>, deficit: map<Uri, nat>)

  const NONE: Trace := Trace([], {}, multiset{}, map[])

  function Deficit(g: Trace, u: Uri): nat {
    if u in g.deficit then g.deficit[u] else 0
  }

  function Advance(env: Env, s: State, g: Trace, a: Action): Trace {
    match a.task
    case DispatchTask(u, p) =>
      if u in s.nodes then
        if p.None? then g
        else g.(silent := g.silent + multiset{(u, p.value)}, deficit := g.deficit[p.value := Deficit(g, p.value) + 1])
      else if Listing(env, u).None? then g else g.(born := g.born + [u])
    case Generating(u, _) => if a.outcome.Fails? then g.(ended := g.ended + {u}) else g
    case Storing(u, _, _) => g.(ended := g.ended + {u})
    case _ => g
  }

  // ----- Counting tasks -----

  ghost function Tally(m: multiset<Task>, p: Task -> bool): nat
    decreases |m|
  {
    if m == multiset{} then 0 else
    var k :| k in m;
    (if p(k) then 1 else 0) + Tally(m - multiset{k}, p)
  }

  lemma {:induction false} TallyPick(m: multiset<Task>, p: Task -> bool, k: Task)
    requires k in m
    ensures Tally(m, p) == (if p(k) then 1 else 0) + Tally(m - multiset{k}, p)
    decreases |m|
  {
    var x :| x in m && Tally(m, p) == (if p(x) then 1 else 0) + Tally(m - multiset{x}, p);
    if x != k {
      TallyPick(m - multiset{x}, p, k);
      TallyPick(m - multiset{k}, p, x);
      assert m - multiset{x} - multiset{k} == m - multiset{k} - multiset{x};
    }
  }

  lemma TallyAdd(m: multiset<Task>, p: Task -> bool, k: Task)
    ensures Tally(m + multiset{k}, p) == Tally(m, p) + if p(k) then 1 else 0
  {
    TallyPick(m + multiset{k}, p, k);
    assert m + multiset{k} - multiset{k} == m;
  }

  lemma {:induction false} TallyUnion(m: multiset<Task>, n: multiset<Task>, p: Task -> bool)
    ensures Tally(m + n, p) == Tally(m, p) + Tally(n, p)
    decreases |n|
  {
    if n == multiset{} {
      assert m + n == m;
    } else {
      var k :| k in n;
      TallyPick(n, p, k);
      TallyUnion(m, n - multiset{k}, p);
      assert m + n == m + (n - multiset{k}) + multiset{k};
      TallyAdd(m + (n - multiset{k}), p, k);
    }
  }

  lemma {:induction false} TallyNone(m: multiset<Task>, p: Task -> bool)
    requires forall k :: k in m ==> !p(k)
    ensures Tally(m, p) == 0
    decreases |m|
  {
    if m != multiset{} {
      var k :| k in m;
      TallyPick(m, p, k);
      TallyNone(m - multiset{k}, p);
    }
  }

  lemma TallySome(m: multiset<Task>, p: Task -> bool, k: Task)
    requires k in m && p(k)
    ensures Tally(m, p) >= 1
  {
    TallyPick(m, p, k);
  }

  /** One task is replaced by another. */
  lemma TallySwap(m: multiset<Task>, p: Task -> bool, k: Task, k': Task)
    requires k in m
    ensures Tally(m - multiset{k} + multiset{k'}, p) + (if p(k) then 1 else 0) == Tally(m, p) + if p(k') then 1 else 0
  {
    TallyPick(m, p, k);
    TallyAdd(m - multiset{k}, p, k');
  }

  /** Tasks that end in a report to u. */
  ghost function OwesTo(u: Uri): Task -> bool {
    (k: Task) => (k.FileTask? && k.owner == u) || (k.ChildDoneTask? && k.owner == u) ||
      (k.DispatchTask? && k.parent == Some(u))
  }

  /** The stages of u's summary. */
  ghost function StageOf(u: Uri): Task -> bool {
    (k: Task) => (k.SummaryTask? || k.AwaitSlot? || k.Generating? || k.Storing?) && k.uri == u
  }

  ghost function HoldsSlot(): Task -> bool {
    (k: Task) => k.Generating?
  }

  // ----- The invariant -----

  ghost function Kids(s: State, g: Trace, u: Uri): set<Uri> {
    set c | c in s.nodes && c in s.parents && s.parents[c] == Some(u) && c !in g.ended
  }

  ghost predicate Known(env: Env, s: State, g: Trace, u: Uri) {
    (u in s.nodes <==> u in g.born) && (u in s.nodes ==> u != "" && Listing(env, u).Some?)
  }

  /** Every directory but the root was registered after its recorded parent. */
  ghost predicate Placed(env: Env, s: State, g: Trace, i: nat)
    requires i < |g.born|
  {
    var u := g.born[i];
    && (forall j :: 0 <= j < i ==> g.born[j] != u) && u in s.parents && (u == env.root <==> s.parents[u].None?)
    && (u != env.root ==> s.parents[u].value in g.born[..i])
  }

  /** What is still pending is owed by a task, by a child that has not ended, or was
      lost by a silent dispatch. */
  ghost predicate Counted(s: State, g: Trace, u: Uri) {
    u in s.nodes ==>
      && s.nodes[u].pending == Tally(s.tasks, OwesTo(u)) + |Kids(s, g, u)| + Deficit(g, u)
      && (s.nodes[u].scheduled <==> s.nodes[u].pending == 0)
  }

  ghost predicate IsChildOf(s: State, c: Uri, u: Uri) {
    c in s.nodes && c in s.parents && s.parents[c] == Some(u)
  }

  /** Where the listings of c by u went. */
  ghost predicate Occurs(env: Env, s: State, g: Trace, c: Uri, u: Uri) {
    u in s.nodes && Listing(env, c).Some? ==>
      multiset(SubDirs(env, u))[c] == s.tasks[DispatchTask(c, Some(u))] + g.silent[(c, u)] +
        if IsChildOf(s, c, u) then 1 else 0
  }

  ghost predicate Muted(s: State, g: Trace, u: Uri) {
    && (Deficit(g, u) > 0 <==> exists c :: (c, u) in g.silent)
    && forall c :: (c, u) in g.silent ==> c in s.nodes && u in s.nodes
  }

  ghost predicate Staged(s: State, g: Trace, u: Uri) {
    && Tally(s.tasks, StageOf(u)) == (if u in s.nodes && s.nodes[u].scheduled && u !in g.ended then 1 else 0)
    && (u in g.ended ==> u in s.nodes && s.nodes[u].scheduled)
  }

  ghost predicate Sound(env: Env, s: State, k: Task) {
    k in s.tasks ==>
      match k
      case DispatchTask(c, p) => c != "" && (if p.Some? then p.value in s.nodes else c == env.root && s.nodes == map[])
      case FileTask(p, _) => p in s.nodes
      case ChildDoneTask(p, _, _) => p in s.nodes
      case _ => true
  }

  /** The root is dispatched, or was; its end sets the event. */
  ghost predicate RootOk(env: Env, s: State, g: Trace) {
    && s.slots + Tally(s.tasks, HoldsSlot()) == env.llmSlots
    && (|| (env.root in s.nodes && (s.rootDone <==> env.root in g.ended))
        || (s.nodes == map[] && !s.rootDone && s.tasks == multiset{DispatchTask(env.root, None)})
        || (s.nodes == map[] && s.rootDone && s.tasks == multiset{} && Listing(env, env.root).None?))
  }

  ghost predicate Inv(env: Env, s: State, g: Trace) {
    && (forall u :: Known(env, s, g, u))
    && (forall i :: 0 <= i < |g.born| ==> Placed(env, s, g, i))
    && (forall u :: Counted(s, g, u))
    && (forall c, u :: Occurs(env, s, g, c, u))
    && (forall u :: Muted(s, g, u))
    && (forall u :: Staged(s, g, u))
    && (forall k :: Sound(env, s, k))
    && RootOk(env, s, g)
  }

  // ----- The directories a listing reaches -----

  /** From the root down, each directory listed by the one before; all can be listed. */
  predicate Path(env: Env, p: seq<Uri>) {
    && p != [] && Listing(env, p[|p| - 1]).Some?
    && if |p| == 1 then p[0] == env.root else Path(env, p[..|p| - 1]) && p[|p| - 1] in SubDirs(env, p[|p| - 2])
  }

  ghost predicate Reaches(env: Env, u: Uri) {
    exists p :: Path(env, p) && p[|p| - 1] == u
  }

  /** No listing within reach names the root or a directory that was named before. */
  ghost predicate ListedOnce(env: Env) {
    && (forall u :: Reaches(env, u) ==> env.root !in SubDirs(env, u))
    && (forall u, v, c :: Reaches(env, u) && Reaches(env, v) && Names(env, u, c) && Names(env, v, c) ==> u == v)
    && (forall u, c :: Reaches(env, u) && Names(env, u, c) ==> multiset(SubDirs(env, u))[c] == 1)
  }

  /** c is listed by u, and can be listed itself. */
  predicate Names(env: Env, u: Uri, c: Uri) {
    c in SubDirs(env, u) && Listing(env, c).Some?
  }

  /** Only directories within reach are registered. */
  lemma {:induction false} BornIsReached(env: Env, s: State, g: Trace, i: nat)
    requires Inv(env, s, g) && i < |g.born|
    ensures Reaches(env, g.born[i])
  {
    hide Tally, SubDirs, Listing, Muted, Counted, Staged, Sound, RootOk;
    var u := g.born[i];
    assert Placed(env, s, g, i) && Known(env, s, g, u);
    if u == env.root {
      assert Path(env, [u]);
    } else {
      var v := s.parents[u].value;
      var j :| 0 <= j < i && g.born[j] == v;
      BornIsReached(env, s, g, j);
      assert Known(env, s, g, v) && Occurs(env, s, g, u, v);
      var p :| Path(env, p) && p[|p| - 1] == v;
      assert u in multiset(SubDirs(env, v));
      assert (p + [u])[..|p|] == p;
      assert Path(env, p + [u]);
    }
  }

  lemma NodeIsReached(env: Env, s: State, g: Trace, u: Uri)
    requires Inv(env, s, g) && u in s.nodes
    ensures Reaches(env, u)
  {
    hide Tally, SubDirs, Listing, Muted, Counted, Staged, Sound, RootOk, Occurs, Placed, Reaches;
    assert Known(env, s, g, u);
    var i :| 0 <= i < |g.born| && g.born[i] == u;
    BornIsReached(env, s, g, i);
  }

  ghost predicate NoDispatches(s: State) {
    forall c, u :: u in s.nodes ==> s.tasks[DispatchTask(c, Some(u))] == 0
  }

  /** Once no dispatch is waiting, every directory within reach is registered. */
  lemma {:induction false} PathIsBorn(env: Env, s: State, g: Trace, p: seq<Uri>)
    requires Inv(env, s, g) && NoDispatches(s) && env.root in s.nodes && Path(env, p)
    ensures p[|p| - 1] in s.nodes
  {
    hide Tally, SubDirs, Listing, Counted, Staged, Sound, RootOk;
    if |p| > 1 {
      var u, c := p[|p| - 2], p[|p| - 1];
      PathIsBorn(env, s, g, p[..|p| - 1]);
      assert Occurs(env, s, g, c, u) && Muted(s, g, u);
      assert c in multiset(SubDirs(env, u));
    }
  }

  lemma ReachedIsNode(env: Env, s: State, g: Trace, u: Uri)
    requires Inv(env, s, g) && NoDispatches(s) && env.root in s.nodes && Reaches(env, u)
    ensures u in s.nodes
  {
    hide Inv, NoDispatches;
    var p :| Path(env, p) && p[|p| - 1] == u;
    PathIsBorn(env, s, g, p);
  }

  // ----- What the invariant says at the end -----

  /** A directory that has not ended keeps its recorded parent from ending, and so on
      up to the root. */
  lemma {:induction false} OpenUpwards(env: Env, s: State, g: Trace, i: nat)
    requires Inv(env, s, g) && i < |g.born| && g.born[i] !in g.ended
    ensures env.root !in g.ended
  {
    hide Tally;
    var u := g.born[i];
    assert Placed(env, s, g, i) && Known(env, s, g, u);
    if u != env.root {
      var p := s.parents[u].value;
      var j :| 0 <= j < i && g.born[j] == p;
      assert Known(env, s, g, p) && Counted(s, g, p) && Staged(s, g, p);
      assert u in Kids(s, g, p);
      OpenUpwards(env, s, g, j);
    }
  }

  /** Once the root has ended no listing was lost, so nothing was listed twice. */
  lemma DoneMeansListedOnce(env: Env, s: State, g: Trace)
    requires Inv(env, s, g) && env.root in g.ended
    ensures ListedOnce(env)
  {
    hide Inv, Tally, OwesTo, StageOf, SubDirs, Listing, Reaches;
    forall u | Reaches(env, u) ensures u in s.nodes && env.root !in SubDirs(env, u) {
      RootEndedReached(env, s, g, u);
      if env.root in SubDirs(env, u) {
        RootIsNoChild(env, s, g, u);
        NamedIsChild(env, s, g, u, env.root) by { assert Names(env, u, env.root); }
      }
    }
    forall u, c | Reaches(env, u) && Names(env, u, c)
      ensures IsChildOf(s, c, u) && multiset(SubDirs(env, u))[c] == 1
    {
      NamedIsChild(env, s, g, u, c);
    }
  }

  lemma NamedIsChild(env: Env, s: State, g: Trace, u: Uri, c: Uri)
    requires Inv(env, s, g) && env.root in g.ended && u in s.nodes && Names(env, u, c)
    ensures IsChildOf(s, c, u) && multiset(SubDirs(env, u))[c] == 1
  {
    hide Tally, SubDirs, Listing, Muted, Counted, Staged, Sound, RootOk, Known, Placed;
    EndedCounts(env, s, g, u, c);
    assert Occurs(env, s, g, c, u);
    assert c in multiset(SubDirs(env, u));
  }

  lemma RootEndedReached(env: Env, s: State, g: Trace, u: Uri)
    requires Inv(env, s, g) && env.root in g.ended && Reaches(env, u)
    ensures u in s.nodes
  {
    hide Tally, SubDirs, Listing, Muted, Counted, Sound, RootOk, Known, Placed, Reaches, Occurs;
    assert Staged(s, g, env.root);
    forall c, v | v in s.nodes ensures s.tasks[DispatchTask(c, Some(v))] == 0 {
      EndedCounts(env, s, g, v, c);
    }
    ReachedIsNode(env, s, g, u);
  }

  lemma RootIsNoChild(env: Env, s: State, g: Trace, u: Uri)
    requires Inv(env, s, g) && env.root in g.ended
    ensures !IsChildOf(s, env.root, u) && Listing(env, env.root).Some?
  {
    hide Tally, SubDirs, Listing;
    assert Staged(s, g, env.root) && Known(env, s, g, env.root);
    var i :| 0 <= i < |g.born| && g.born[i] == env.root;
    assert Placed(env, s, g, i);
  }

  lemma EndedCounts(env: Env, s: State, g: Trace, u: Uri, c: Uri)
    requires Inv(env, s, g) && env.root in g.ended && u in s.nodes
    ensures g.silent[(c, u)] == 0 && s.tasks[DispatchTask(c, Some(u))] == 0
  {
    hide Tally, SubDirs, Listing;
    assert Known(env, s, g, u) && Counted(s, g, u) && Staged(s, g, u) && Muted(s, g, u);
    var i :| 0 <= i < |g.born| && g.born[i] == u;
    if u !in g.ended { OpenUpwards(env, s, g, i); }
    if DispatchTask(c, Some(u)) in s.tasks { TallySome(s.tasks, OwesTo(u), DispatchTask(c, Some(u))); }
    assert (c, u) in g.silent ==> Deficit(g, u) > 0;
  }

  // ----- Nothing listed twice, nothing left to do -----

  /** Without double listings no dispatch was silent. */
  lemma NoSilence(env: Env, s: State, g: Trace, u: Uri)
    requires Inv(env, s, g) && ListedOnce(env) && u in s.nodes
    ensures Deficit(g, u) == 0
  {
    hide Tally, SubDirs, Listing, Counted, Staged, Sound, RootOk, ListedOnce;
    assert Muted(s, g, u);
    forall c ensures (c, u) !in g.silent {
      if (c, u) in g.silent { SilentMeansTwice(env, s, g, c, u); }
    }
  }

  lemma SilentMeansTwice(env: Env, s: State, g: Trace, c: Uri, u: Uri)
    requires Inv(env, s, g) && (c, u) in g.silent && u in s.nodes
    ensures !ListedOnce(env)
  {
    hide Tally, SubDirs, Listing, Counted, Staged, Sound, RootOk, Reaches;
    assert Muted(s, g, u) && Known(env, s, g, c) && Occurs(env, s, g, c, u);
    NodeIsReached(env, s, g, u);
    var i :| 0 <= i < |g.born| && g.born[i] == c;
    assert Placed(env, s, g, i);
    assert c in multiset(SubDirs(env, u));
    assert Names(env, u, c);
    if c != env.root {
      var v := s.parents[c].value;
      assert v in g.born && Known(env, s, g, v) && Occurs(env, s, g, c, v);
      NodeIsReached(env, s, g, v);
      assert c in multiset(SubDirs(env, v));
      assert Names(env, v, c) && IsChildOf(s, c, v);
      assert u == v ==> multiset(SubDirs(env, u))[c] >= 2;
    }
  }

  lemma {:induction false} Descend(env: Env, s: State, g: Trace, i: nat)
    requires Inv(env, s, g) && s.tasks == multiset{} && ListedOnce(env) && i < |g.born|
    ensures g.born[i] in g.ended
    decreases |g.born| - i
  {
    hide SubDirs, Listing, Occurs, Muted, ListedOnce;
    var u := g.born[i];
    assert Known(env, s, g, u) && Counted(s, g, u) && Staged(s, g, u);
    NoSilence(env, s, g, u);
    if u !in g.ended {
      var c :| c in Kids(s, g, u);
      assert Known(env, s, g, c);
      var j :| 0 <= j < |g.born| && g.born[j] == c;
      KidIsLater(env, s, g, i, j);
      Descend(env, s, g, j);
    }
  }

  lemma KidIsLater(env: Env, s: State, g: Trace, i: nat, j: nat)
    requires Inv(env, s, g) && i < |g.born| && j < |g.born| && IsChildOf(s, g.born[j], g.born[i])
    ensures i < j
  {
    hide Tally, SubDirs, Listing, Occurs, Muted, Counted, Staged, Sound;
    assert Placed(env, s, g, j);
    var k :| 0 <= k < j && g.born[k] == g.born[i];
    assert Placed(env, s, g, i) && Placed(env, s, g, k);
  }

  // ----- Every step keeps the invariant -----

  lemma StartInv(env: Env)
    requires env.root != ""
    ensures Inv(env, Start(env), NONE)
  {
    var s, k := Start(env), DispatchTask(env.root, None);
    forall u ensures Counted(s, NONE, u) && Staged(s, NONE, u) && Known(env, s, NONE, u) && Muted(s, NONE, u) {
      TallyNone(s.tasks, StageOf(u));
    }
    TallyNone(s.tasks, HoldsSlot());
  }

  /** Registrations, parents and silent dispatches are as before. */
  ghost predicate SameTree(s: State, s': State, g: Trace, g': Trace) {
    && s'.nodes.Keys == s.nodes.Keys && s'.parents == s.parents && g'.born == g.born
    && g'.silent == g.silent && g'.deficit == g.deficit
    && forall c, p :: s'.tasks[DispatchTask(c, p)] == s.tasks[DispatchTask(c, p)]
  }

  lemma TreeKept(env: Env, s: State, s': State, g: Trace, g': Trace)
    requires Inv(env, s, g) && SameTree(s, s', g, g')
    ensures forall u :: Known(env, s', g', u)
    ensures forall i :: 0 <= i < |g'.born| ==> Placed(env, s', g', i)
    ensures forall c, u :: Occurs(env, s', g', c, u)
    ensures forall u :: Muted(s', g', u)
  {
    hide Tally, SubDirs, Listing, Counted, Staged, Sound, RootOk;
    forall u ensures Known(env, s', g', u) && Muted(s', g', u) {
      assert Known(env, s, g, u) && Muted(s, g, u);
    }
    forall i | 0 <= i < |g'.born| ensures Placed(env, s', g', i) {
      assert Placed(env, s, g, i);
    }
    forall c, u ensures Occurs(env, s', g', c, u) {
      assert Occurs(env, s, g, c, u);
    }
  }

  /** A task gives way to another about the same node. */
  lemma SoundSwap(env: Env, s: State, s': State, k: Task, k': Task)
    requires (forall x :: Sound(env, s, x)) && s'.nodes.Keys == s.nodes.Keys
    requires s'.tasks == s.tasks - multiset{k} + multiset{k'}
    requires !k'.DispatchTask? && (k'.FileTask? || k'.ChildDoneTask? ==> k'.owner in s.nodes)
    ensures forall x :: Sound(env, s', x)
  {
    forall x ensures Sound(env, s', x) {
      assert Sound(env, s, x);
      if x in s'.tasks && x != k' { assert x in s.tasks; }
    }
  }

  predicate IsStage(k: Task) {
    k.SummaryTask? || k.AwaitSlot? || k.Generating? || k.Storing?
  }

  /** A summary moves on to its next stage. */
  lemma StageInv(env: Env, s: State, s': State, g: Trace, k: Task, k': Task)
    requires Inv(env, s, g) && k in s.tasks && IsStage(k) && IsStage(k') && k.uri == k'.uri
    requires s' == s.(tasks := s.tasks - multiset{k} + multiset{k'}, slots := s'.slots)
    requires s'.slots + (if k'.Generating? then 1 else 0) == s.slots + if k.Generating? then 1 else 0
    ensures Inv(env, s', g)
  {
    hide Tally, SubDirs, Listing;
    TreeKept(env, s, s', g, g);
    SoundSwap(env, s, s', k, k');
    forall u ensures Counted(s', g, u) && Staged(s', g, u) {
      assert Counted(s, g, u) && Staged(s, g, u);
      TallySwap(s.tasks, OwesTo(u), k, k');
      TallySwap(s.tasks, StageOf(u), k, k');
      assert Kids(s', g, u) == Kids(s, g, u);
    }
    TallySwap(s.tasks, HoldsSlot(), k, k');
    RootStays(env, s, s', g, k);
  }

  lemma RootStays(env: Env, s: State, s': State, g: Trace, k: Task)
    requires RootOk(env, s, g) && k in s.tasks && !k.DispatchTask? && s'.nodes.Keys == s.nodes.Keys
    requires s'.rootDone == s.rootDone
    requires s'.slots + Tally(s'.tasks, HoldsSlot()) == s.slots + Tally(s.tasks, HoldsSlot())
    ensures RootOk(env, s', g)
  {
    hide Tally, Listing;
  }

  lemma StageFacts(env: Env, s: State, g: Trace, k: Task)
    requires Inv(env, s, g) && k in s.tasks && IsStage(k)
    ensures k.uri in s.nodes && s.nodes[k.uri].scheduled && k.uri !in g.ended && k.uri in g.born && k.uri in s.parents
    ensures s.parents[k.uri].None? <==> k.uri == env.root
    ensures s.parents[k.uri].Some? ==> s.parents[k.uri].value in s.nodes
  {
    hide Tally, SubDirs, Listing, Occurs;
    var u := k.uri;
    TallySome(s.tasks, StageOf(u), k);
    assert Staged(s, g, u) && Known(env, s, g, u);
    var i :| 0 <= i < |g.born| && g.born[i] == u;
    assert Placed(env, s, g, i);
    if u != env.root { assert Known(env, s, g, s.parents[u].value); }
  }

  /** A summary ends: the directory has ended, and its parent is told. */
  lemma EndInv(env: Env, s: State, s1: State, g: Trace, k: Task, r: Option<ChildSummary>)
    requires Inv(env, s, g) && k in s.tasks && (k.Generating? || k.Storing?)
    requires s1 == s.(tasks := s.tasks - multiset{k}, slots := if k.Generating? then s.slots + 1 else s.slots)
    ensures Inv(env, Settle(s1, k.uri, r), g.(ended := g.ended + {k.uri}))
  {
    hide Inv, Counted, Staged, Occurs, Muted, Known, Placed, Sound;
    var u, s', g' := k.uri, Settle(s1, k.uri, r), g.(ended := g.ended + {k.uri});
    StageFacts(env, s, g, k);
    EndTree(env, s, s', g, g', k, r);
    EndCounts(env, s, s', g, g', k, r);
    EndRoot(env, s, s', g, g', k, r);
    assert Inv(env, s', g') by { Whole(env, s', g'); }
  }

  lemma Whole(env: Env, s: State, g: Trace)
    requires (forall u :: Known(env, s, g, u)) && (forall i :: 0 <= i < |g.born| ==> Placed(env, s, g, i))
    requires (forall u :: Counted(s, g, u)) && (forall c, u :: Occurs(env, s, g, c, u)) && (forall u :: Muted(s, g, u))
    requires (forall u :: Staged(s, g, u)) && (forall k :: Sound(env, s, k)) && RootOk(env, s, g)
    ensures Inv(env, s, g)
  {
  }

  /** What settling u does to tasks and root event. */
  ghost predicate EndsWith(env: Env, s: State, s': State, g: Trace, g': Trace, k: Task, r: Option<ChildSummary>) {
    && k in s.tasks && (k.Generating? || k.Storing?) && k.uri in s.nodes && s.nodes[k.uri].scheduled
    && k.uri !in g.ended && k.uri in s.parents
    && (s.parents[k.uri].None? <==> k.uri == env.root) && (s.parents[k.uri].Some? ==> s.parents[k.uri].value in s.nodes)
    && g' == g.(ended := g.ended + {k.uri}) && s'.nodes == s.nodes && s'.parents == s.parents
    && s'.slots == (if k.Generating? then s.slots + 1 else s.slots)
    && s'.tasks == (if k.uri == env.root then s.tasks - multiset{k}
                    else s.tasks - multiset{k} + multiset{ChildDoneTask(s.parents[k.uri].value, k.uri, r)})
    && s'.rootDone == (s.rootDone || k.uri == env.root)
  }

  lemma EndTree(env: Env, s: State, s': State, g: Trace, g': Trace, k: Task, r: Option<ChildSummary>)
    requires Inv(env, s, g) && EndsWith(env, s, s', g, g', k, r)
    ensures (forall u :: Known(env, s', g', u)) && (forall i :: 0 <= i < |g'.born| ==> Placed(env, s', g', i))
    ensures (forall c, u :: Occurs(env, s', g', c, u)) && (forall u :: Muted(s', g', u))
    ensures (forall x :: Sound(env, s', x))
  {
    hide Tally, SubDirs, Listing, Counted, Staged, RootOk, Occurs, Muted, Known, Placed;
    TreeKept(env, s, s', g, g');
    forall x ensures Sound(env, s', x) {
      assert Sound(env, s, x);
    }
  }

  lemma EndCounts(env: Env, s: State, s': State, g: Trace, g': Trace, k: Task, r: Option<ChildSummary>)
    requires Inv(env, s, g) && EndsWith(env, s, s', g, g', k, r)
    ensures (forall u :: Counted(s', g', u)) && forall u :: Staged(s', g', u)
  {
    hide Tally, SubDirs, Listing, Occurs, Muted, Known, Placed, Sound, RootOk, Counted, Staged, EndsWith;
    forall u ensures Counted(s', g', u) && Staged(s', g', u) {
      assert Counted(s, g, u) && Staged(s, g, u);
      EndCount(env, s, s', g, g', k, r, u);
    }
  }

  lemma EndCount(env: Env, s: State, s': State, g: Trace, g': Trace, k: Task, r: Option<ChildSummary>, u: Uri)
    requires Counted(s, g, u) && Staged(s, g, u) && EndsWith(env, s, s', g, g', k, r)
    ensures Counted(s', g', u) && Staged(s', g', u)
  {
    hide Tally, Kids, OwesTo, StageOf;
    EndKids(env, s, s', g, g', k, r, u);
    EndTally(env, s, s', g, g', k, r, u);
  }

  lemma EndTally(env: Env, s: State, s': State, g: Trace, g': Trace, k: Task, r: Option<ChildSummary>, u: Uri)
    requires EndsWith(env, s, s', g, g', k, r)
    ensures Tally(s'.tasks, OwesTo(u)) == Tally(s.tasks, OwesTo(u)) + if s.parents[k.uri] == Some(u) then 1 else 0
    ensures Tally(s'.tasks, StageOf(u)) + (if k.uri == u then 1 else 0) == Tally(s.tasks, StageOf(u))
  {
    hide Tally;
    if k.uri == env.root {
      TallyPick(s.tasks, OwesTo(u), k);
      TallyPick(s.tasks, StageOf(u), k);
    } else {
      var k' := ChildDoneTask(s.parents[k.uri].value, k.uri, r);
      TallySwap(s.tasks, OwesTo(u), k, k');
      TallySwap(s.tasks, StageOf(u), k, k');
    }
  }

  lemma EndKids(env: Env, s: State, s': State, g: Trace, g': Trace, k: Task, r: Option<ChildSummary>, u: Uri)
    requires EndsWith(env, s, s', g, g', k, r)
    ensures |Kids(s', g', u)| + (if s.parents[k.uri] == Some(u) then 1 else 0) == |Kids(s, g, u)|
  {
    assert Kids(s', g', u) == Kids(s, g, u) - {k.uri};
    assert k.uri in Kids(s, g, u) <==> s.parents[k.uri] == Some(u);
    if k.uri !in Kids(s, g, u) { assert Kids(s', g', u) == Kids(s, g, u); }
  }

  lemma EndRoot(env: Env, s: State, s': State, g: Trace, g': Trace, k: Task, r: Option<ChildSummary>)
    requires Inv(env, s, g) && EndsWith(env, s, s', g, g', k, r)
    ensures RootOk(env, s', g')
  {
    hide Tally, SubDirs, Listing, Occurs, Muted, Known, Placed, Sound, Counted, Staged;
    TallyPick(s.tasks, HoldsSlot(), k);
    if k.uri != env.root { TallySwap(s.tasks, HoldsSlot(), k, ChildDoneTask(s.parents[k.uri].value, k.uri, r)); }
    assert Known(env, s, g, k.uri);
  }

  // ----- A report is received -----

  /** A task about p is done: one report fewer is pending, and the last one creates
      the summary task. */
  ghost predicate ReportsTo(s: State, s': State, k: Task, p: Uri) {
    && k in s.tasks && OwesTo(p)(k) && !k.DispatchTask? && p in s.nodes && s'.nodes.Keys == s.nodes.Keys
    && (forall v :: v in s.nodes && v != p ==> s'.nodes[v] == s.nodes[v])
    && s'.nodes[p].pending == s.nodes[p].pending - 1
    && (!s.nodes[p].scheduled ==> (s'.nodes[p].scheduled <==> s'.nodes[p].pending == 0))
    && s'.parents == s.parents && s'.rootDone == s.rootDone && s'.slots == s.slots
    && s'.tasks == s.tasks - multiset{k} +
      if s'.nodes[p].pending == 0 && !s.nodes[p].scheduled then multiset{SummaryTask(p)} else multiset{}
  }

  lemma ReportInv(env: Env, s: State, s': State, g: Trace, k: Task, p: Uri)
    requires Inv(env, s, g) && ReportsTo(s, s', k, p)
    ensures Inv(env, s', g)
  {
    hide Tally, SubDirs, Listing, Occurs, Muted, Known, Placed, Counted, Staged, RootOk;
    TreeKept(env, s, s', g, g);
    forall x ensures Sound(env, s', x) { assert Sound(env, s, x); }
    forall u ensures Counted(s', g, u) && Staged(s', g, u) {
      assert Counted(s, g, u) && Staged(s, g, u) && Counted(s, g, p);
      ReportCount(s, s', g, k, p, u);
    }
    ReportSlots(s, s', k, p);
    RootStays(env, s, s', g, k);
    assert Inv(env, s', g) by { Whole(env, s', g); }
  }

  lemma ReportSlots(s: State, s': State, k: Task, p: Uri)
    requires ReportsTo(s, s', k, p)
    ensures Tally(s'.tasks, HoldsSlot()) == Tally(s.tasks, HoldsSlot())
  {
    hide Tally;
    TallyPick(s.tasks, HoldsSlot(), k);
    TallyAdd(s.tasks - multiset{k}, HoldsSlot(), SummaryTask(p));
    assert s.tasks - multiset{k} + multiset{} == s.tasks - multiset{k};
  }

  lemma ReportCount(s: State, s': State, g: Trace, k: Task, p: Uri, u: Uri)
    requires Counted(s, g, u) && Staged(s, g, u) && Counted(s, g, p) && ReportsTo(s, s', k, p)
    ensures Counted(s', g, u) && Staged(s', g, u)
  {
    hide Tally;
    TallySome(s.tasks, OwesTo(p), k);
    TallyPick(s.tasks, OwesTo(u), k);
    TallyPick(s.tasks, StageOf(u), k);
    TallyAdd(s.tasks - multiset{k}, OwesTo(u), SummaryTask(p));
    TallyAdd(s.tasks - multiset{k}, StageOf(u), SummaryTask(p));
    assert s.tasks - multiset{k} + multiset{} == s.tasks - multiset{k};
    assert Kids(s', g, u) == Kids(s, g, u);
  }

  // ----- Dispatches -----

  /** A known directory is dispatched again: nothing happens, and its parent is not told. */
  lemma SilentInv(env: Env, s: State, g: Trace, k: Task)
    requires Inv(env, s, g) && k in s.tasks && k.DispatchTask? && k.uri in s.nodes
    ensures var s' := s.(tasks := s.tasks - multiset{k});
      Inv(env, s', Advance(env, s, g, Action(k, Fails)))
  {
    hide Tally, SubDirs, Listing, Occurs, Muted, Known, Placed, Counted, Staged, RootOk;
    var s', g' := s.(tasks := s.tasks - multiset{k}), Advance(env, s, g, Action(k, Fails));
    assert Sound(env, s, k);
    var p := k.parent.value;
    forall x ensures Sound(env, s', x) { assert Sound(env, s, x); }
    forall u ensures Known(env, s', g', u) && Counted(s', g', u) && Staged(s', g', u) && Muted(s', g', u) {
      assert Known(env, s, g, u) && Counted(s, g, u) && Staged(s, g, u) && Muted(s, g, u);
      SilentCount(env, s, s', g, g', k, u);
    }
    forall i | 0 <= i < |g'.born| ensures Placed(env, s', g', i) {
      assert Placed(env, s, g, i);
      SilentPlace(env, s, s', g, g', i);
    }
    forall c, u ensures Occurs(env, s', g', c, u) {
      assert Occurs(env, s, g, c, u);
      SilentOccurs(env, s, s', g, g', k, c, u);
    }
    SilentRoot(env, s, s', g, g', k);
    Whole(env, s', g');
  }

  lemma SilentPlace(env: Env, s: State, s': State, g: Trace, g': Trace, i: nat)
    requires s'.parents == s.parents && g'.born == g.born && i < |g.born| && Placed(env, s, g, i)
    ensures Placed(env, s', g', i)
  {
  }

  ghost predicate Falls(s: State, s': State, g: Trace, g': Trace, k: Task) {
    && k in s.tasks && k.DispatchTask? && k.parent.Some? && k.uri in s.nodes && k.parent.value in s.nodes
    && s' == s.(tasks := s.tasks - multiset{k})
    && g' == g.(silent := g.silent + multiset{(k.uri, k.parent.value)},
      deficit := g.deficit[k.parent.value := Deficit(g, k.parent.value) + 1])
  }

  lemma SilentCount(env: Env, s: State, s': State, g: Trace, g': Trace, k: Task, u: Uri)
    requires Known(env, s, g, u) && Counted(s, g, u) && Staged(s, g, u) && Muted(s, g, u) && Falls(s, s', g, g', k)
    ensures Known(env, s', g', u) && Counted(s', g', u) && Staged(s', g', u) && Muted(s', g', u)
  {
    hide Tally, Listing;
    TallyPick(s.tasks, OwesTo(u), k);
    TallyPick(s.tasks, StageOf(u), k);
    assert Kids(s', g', u) == Kids(s, g, u);
    assert (k.uri, k.parent.value) in g'.silent;
    forall c ensures (c, u) in g'.silent <==> (c, u) in g.silent || (c == k.uri && u == k.parent.value) {
    }
  }

  lemma SilentOccurs(env: Env, s: State, s': State, g: Trace, g': Trace, k: Task, c: Uri, u: Uri)
    requires Occurs(env, s, g, c, u) && Falls(s, s', g, g', k)
    ensures Occurs(env, s', g', c, u)
  {
    hide SubDirs, Listing;
  }

  lemma SilentRoot(env: Env, s: State, s': State, g: Trace, g': Trace, k: Task)
    requires RootOk(env, s, g) && Falls(s, s', g, g', k)
    ensures RootOk(env, s', g')
  {
    hide Tally, Listing;
    TallyPick(s.tasks, HoldsSlot(), k);
  }

  /** A directory that cannot be listed: its parent is told, or the event is set. */
  lemma FailInv(env: Env, s: State, g: Trace, k: Task)
    requires Inv(env, s, g) && k in s.tasks && k.DispatchTask? && k.uri !in s.nodes && Listing(env, k.uri).None?
    ensures Inv(env, FailDispatch(s.(tasks := s.tasks - multiset{k}), k.uri, k.parent), g)
  {
    hide Tally, SubDirs, Listing, Occurs, Muted, Known, Placed, Counted, Staged, RootOk;
    var s' := FailDispatch(s.(tasks := s.tasks - multiset{k}), k.uri, k.parent);
    assert Sound(env, s, k);
    if k.parent.Some? { NamesNode(env, s, g, k.parent.value); } else { LoneRoot(env, s, g, k); }
    FailIs(env, s, k);
    hide Misses, Sound, FailDispatch;
    forall x ensures Sound(env, s', x) {
      assert Sound(env, s, x);
      FailSound(env, s, s', k, x);
    }
    forall u ensures Known(env, s', g, u) && Counted(s', g, u) && Staged(s', g, u) && Muted(s', g, u) {
      assert Known(env, s, g, u) && Counted(s, g, u) && Staged(s, g, u) && Muted(s, g, u);
      FailCount(env, s, s', g, k, u);
    }
    forall i | 0 <= i < |g.born| ensures Placed(env, s', g, i) {
      assert Placed(env, s, g, i) && Known(env, s, g, g.born[i]);
      FailPlace(env, s, s', g, k, i);
    }
    forall c, u ensures Occurs(env, s', g, c, u) {
      assert Occurs(env, s, g, c, u);
      FailOccurs(env, s, s', g, k, c, u);
    }
    FailRoot(env, s, s', g, k);
    Whole(env, s', g);
  }

  lemma NamesNode(env: Env, s: State, g: Trace, u: Uri)
    requires Known(env, s, g, u) && u in s.nodes
    ensures u != "" && Listing(env, u).Some?
  {
  }

  /** The only dispatch without a parent is the first one. */
  lemma LoneRoot(env: Env, s: State, g: Trace, k: Task)
    requires RootOk(env, s, g) && k in s.tasks && k.DispatchTask? && s.nodes == map[]
    ensures s.tasks == multiset{k} && k == DispatchTask(env.root, None) && !s.rootDone
  {
  }

  ghost predicate Misses(env: Env, s: State, s': State, k: Task) {
    && k in s.tasks && k.DispatchTask? && k.uri !in s.nodes && Listing(env, k.uri).None?
    && (k.parent.Some? ==> k.parent.value in s.nodes)
    && (k.parent.None? ==> k.uri == env.root && s.nodes == map[] && s.tasks == multiset{k})
    && s' == s.(parents := s.parents[k.uri := k.parent], stats := s'.stats, rootDone := s.rootDone || k.parent.None?,
                tasks := s.tasks - multiset{k} +
                  if k.parent.Some? then multiset{ChildDoneTask(k.parent.value, k.uri, None)} else multiset{})
  }

  lemma FailIs(env: Env, s: State, k: Task)
    requires k in s.tasks && k.DispatchTask? && k.uri !in s.nodes && Listing(env, k.uri).None?
    requires k.parent.Some? ==> k.parent.value in s.nodes && k.parent.value != ""
    requires k.parent.None? ==> k.uri == env.root && s.nodes == map[] && s.tasks == multiset{k}
    ensures Misses(env, s, FailDispatch(s.(tasks := s.tasks - multiset{k}), k.uri, k.parent), k)
  {
    hide Listing;
    if k.parent.None? { assert s.tasks - multiset{k} + multiset{} == s.tasks - multiset{k}; }
  }

  lemma FailSound(env: Env, s: State, s': State, k: Task, x: Task)
    requires Sound(env, s, x) && Misses(env, s, s', k)
    ensures Sound(env, s', x)
  {
    hide Listing;
  }

  lemma FailCount(env: Env, s: State, s': State, g: Trace, k: Task, u: Uri)
    requires Known(env, s, g, u) && Counted(s, g, u) && Staged(s, g, u) && Muted(s, g, u) && Misses(env, s, s', k)
    ensures Known(env, s', g, u) && Counted(s', g, u) && Staged(s', g, u) && Muted(s', g, u)
  {
    hide Tally, Listing;
    assert Kids(s', g, u) == Kids(s, g, u);
    if k.parent.Some? {
      var k' := ChildDoneTask(k.parent.value, k.uri, None);
      TallySwap(s.tasks, OwesTo(u), k, k');
      TallySwap(s.tasks, StageOf(u), k, k');
    } else {
      assert s'.tasks == multiset{};
      TallyPick(s.tasks, OwesTo(u), k);
      TallyPick(s.tasks, StageOf(u), k);
    }
  }

  lemma FailPlace(env: Env, s: State, s': State, g: Trace, k: Task, i: nat)
    requires i < |g.born| && Placed(env, s, g, i) && Known(env, s, g, g.born[i]) && Misses(env, s, s', k)
    ensures Placed(env, s', g, i)
  {
    hide Listing;
  }

  lemma FailOccurs(env: Env, s: State, s': State, g: Trace, k: Task, c: Uri, u: Uri)
    requires Occurs(env, s, g, c, u) && Misses(env, s, s', k)
    ensures Occurs(env, s', g, c, u)
  {
    hide SubDirs, Listing;
  }

  lemma FailRoot(env: Env, s: State, s': State, g: Trace, k: Task)
    requires RootOk(env, s, g) && Misses(env, s, s', k)
    ensures RootOk(env, s', g)
  {
    hide Tally, Listing;
    if k.parent.Some? {
      TallySwap(s.tasks, HoldsSlot(), k, ChildDoneTask(k.parent.value, k.uri, None));
    } else {
      assert s'.tasks == multiset{};
      TallyPick(s.tasks, HoldsSlot(), k);
    }
  }

  // ----- A directory is registered -----

  ghost function NewTasks(env: Env, u: Uri): multiset<Task> {
    var ds, fs := SubDirs(env, u), Files(env, u);
    if |ds| + |fs| == 0 then multiset{SummaryTask(u)} else FileTasks(u, fs) + DispatchTasks(u, ds)
  }

  lemma {:induction false} FileTally(u: Uri, fs: seq<Uri>, v: Uri)
    ensures Tally(FileTasks(u, fs), OwesTo(v)) == if v == u then |fs| else 0
    ensures Tally(FileTasks(u, fs), StageOf(v)) == 0 && Tally(FileTasks(u, fs), HoldsSlot()) == 0
    ensures forall k :: k in FileTasks(u, fs) ==> k.FileTask? && k.owner == u
  {
    if fs != [] {
      hide Tally;
      FileTally(u, fs[..|fs| - 1], v);
      var m, k := FileTasks(u, fs[..|fs| - 1]), FileTask(u, fs[|fs| - 1]);
      TallyAdd(m, OwesTo(v), k);
      TallyAdd(m, StageOf(v), k);
      TallyAdd(m, HoldsSlot(), k);
    }
  }

  lemma {:induction false} DispatchTally(u: Uri, ds: seq<Uri>, v: Uri)
    ensures Tally(DispatchTasks(u, ds), OwesTo(v)) == if v == u then |ds| else 0
    ensures Tally(DispatchTasks(u, ds), StageOf(v)) == 0 && Tally(DispatchTasks(u, ds), HoldsSlot()) == 0
  {
    if ds != [] {
      hide Tally;
      DispatchTally(u, ds[..|ds| - 1], v);
      var m, k := DispatchTasks(u, ds[..|ds| - 1]), DispatchTask(ds[|ds| - 1], Some(u));
      TallyAdd(m, OwesTo(v), k);
      TallyAdd(m, StageOf(v), k);
      TallyAdd(m, HoldsSlot(), k);
    }
  }

  lemma {:induction false} DispatchMembers(u: Uri, ds: seq<Uri>)
    ensures forall k :: k in DispatchTasks(u, ds) ==> k.DispatchTask? && k.parent == Some(u) && k.uri in ds
    ensures forall c :: DispatchTasks(u, ds)[DispatchTask(c, Some(u))] == multiset(ds)[c]
  {
    if ds != [] {
      var init, last := ds[..|ds| - 1], ds[|ds| - 1];
      DispatchMembers(u, init);
      assert ds == init + [last];
      forall c ensures DispatchTasks(u, ds)[DispatchTask(c, Some(u))] == multiset(ds)[c] {
        assert multiset(ds)[c] == multiset(init)[c] + if c == last then 1 else 0;
      }
    }
  }

  lemma NewTally(env: Env, u: Uri, v: Uri)
    ensures var n, m := |SubDirs(env, u)| + |Files(env, u)|, NewTasks(env, u);
      && Tally(m, OwesTo(v)) == (if v == u then n else 0)
      && Tally(m, StageOf(v)) == (if v == u && n == 0 then 1 else 0) && Tally(m, HoldsSlot()) == 0
  {
    hide Tally, SubDirs, Files;
    var ds, fs := SubDirs(env, u), Files(env, u);
    if |ds| + |fs| == 0 {
      SingleTally(OwesTo(v), SummaryTask(u));
      SingleTally(StageOf(v), SummaryTask(u));
      SingleTally(HoldsSlot(), SummaryTask(u));
    } else {
      FileTally(u, fs, v);
      DispatchTally(u, ds, v);
      TallyUnion(FileTasks(u, fs), DispatchTasks(u, ds), OwesTo(v));
      TallyUnion(FileTasks(u, fs), DispatchTasks(u, ds), StageOf(v));
      TallyUnion(FileTasks(u, fs), DispatchTasks(u, ds), HoldsSlot());
    }
  }

  lemma SingleTally(p: Task -> bool, k: Task)
    ensures Tally(multiset{k}, p) == if p(k) then 1 else 0
  {
    TallyPick(multiset{k}, p, k);
    assert multiset{k} - multiset{k} == multiset{};
  }

  lemma NewMembers(env: Env, u: Uri)
    ensures forall k :: k in NewTasks(env, u) ==>
      (k == SummaryTask(u) || (k.FileTask? && k.owner == u) ||
        (k.DispatchTask? && k.parent == Some(u) && k.uri in SubDirs(env, u)))
    ensures forall c :: NewTasks(env, u)[DispatchTask(c, Some(u))] == multiset(SubDirs(env, u))[c]
  {
    hide Tally, SubDirs, Files;
    var ds, fs := SubDirs(env, u), Files(env, u);
    FileTally(u, fs, u);
    DispatchMembers(u, ds);
  }

  ghost predicate Opens(env: Env, s: State, s': State, g: Trace, g': Trace, k: Task) {
    && k in s.tasks && k.DispatchTask?
    && var u, n := k.uri, |SubDirs(env, k.uri)| + |Files(env, k.uri)|;
    && u !in s.nodes && u != "" && Listing(env, u).Some? && g' == g.(born := g.born + [u])
    && (k.parent.Some? ==> k.parent.value in s.nodes && u != env.root)
    && (k.parent.None? ==> u == env.root && s.nodes == map[] && s.tasks == multiset{k})
    && s'.nodes.Keys == s.nodes.Keys + {u} && (forall v :: v in s.nodes ==> s'.nodes[v] == s.nodes[v])
    && s'.nodes[u].pending == n && (s'.nodes[u].scheduled <==> n == 0)
    && s'.parents == s.parents[u := k.parent] && s'.rootDone == s.rootDone && s'.slots == s.slots
    && s'.tasks == s.tasks - multiset{k} + NewTasks(env, u)
  }

  /** Nobody can owe a report to, or be the child of, an unregistered directory. */
  ghost predicate Strange(s: State, g: Trace, u: Uri) {
    && Tally(s.tasks, OwesTo(u)) == 0 && (forall c :: s.tasks[DispatchTask(c, Some(u))] == 0)
    && (forall c :: c in s.nodes && c in s.parents ==> s.parents[c] != Some(u))
    && (forall c :: (c, u) !in g.silent) && (forall c :: (u, c) !in g.silent) && Deficit(g, u) == 0 && u !in g.ended
    && u !in g.born
  }

  lemma IsStrange(env: Env, s: State, g: Trace, u: Uri)
    requires Inv(env, s, g) && u !in s.nodes
    ensures Strange(s, g, u)
  {
    hide Tally, SubDirs, Listing, Occurs, Counted, RootOk;
    forall k | k in s.tasks ensures !OwesTo(u)(k) { assert Sound(env, s, k); }
    TallyNone(s.tasks, OwesTo(u));
    forall c ensures s.tasks[DispatchTask(c, Some(u))] == 0 { assert Sound(env, s, DispatchTask(c, Some(u))); }
    forall c | c in s.nodes && c in s.parents ensures s.parents[c] != Some(u) {
      assert Known(env, s, g, c);
      var i :| 0 <= i < |g.born| && g.born[i] == c;
      assert Placed(env, s, g, i) && Known(env, s, g, u);
    }
    assert Muted(s, g, u) && Staged(s, g, u) && Known(env, s, g, u);
    forall c ensures (u, c) !in g.silent { assert Muted(s, g, c); }
  }

  lemma OpenInv(env: Env, s: State, s': State, g: Trace, g': Trace, k: Task)
    requires Inv(env, s, g) && Opens(env, s, s', g, g', k)
    ensures Inv(env, s', g')
  {
    hide Tally, SubDirs, Files, Listing, Occurs, Muted, Known, Placed, Counted, Staged, RootOk, Opens, Sound, Strange;
    OpensNew(env, s, s', g, g', k);
    IsStrange(env, s, g, k.uri);
    forall x ensures Sound(env, s', x) {
      assert Sound(env, s, x);
      OpenSound(env, s, s', g, g', k, x);
    }
    forall u ensures Known(env, s', g', u) && Counted(s', g', u) && Staged(s', g', u) && Muted(s', g', u) {
      assert Known(env, s, g, u) && Counted(s, g, u) && Staged(s, g, u) && Muted(s, g, u);
      OpenCount(env, s, s', g, g', k, u);
      OpenRest(env, s, s', g, g', k, u);
    }
    forall i | 0 <= i < |g'.born| ensures Placed(env, s', g', i) {
      if i < |g.born| { assert Placed(env, s, g, i); }
      if k.parent.Some? { assert Known(env, s, g, k.parent.value) by { assert Opens(env, s, s', g, g', k); } }
      OpenPlace(env, s, s', g, g', k, i);
    }
    forall c, u ensures Occurs(env, s', g', c, u) {
      assert Occurs(env, s, g, c, u);
      OpenOccurs(env, s, s', g, g', k, c, u);
    }
    OpenRoot(env, s, s', g, g', k);
    Whole(env, s', g');
  }

  lemma OpensNew(env: Env, s: State, s': State, g: Trace, g': Trace, k: Task)
    requires Opens(env, s, s', g, g', k)
    ensures k.DispatchTask? && k.uri !in s.nodes
  {
  }

  lemma OpenSound(env: Env, s: State, s': State, g: Trace, g': Trace, k: Task, x: Task)
    requires Sound(env, s, x) && Opens(env, s, s', g, g', k)
    ensures Sound(env, s', x)
  {
    hide Tally, Files, Listing;
    NewMembers(env, k.uri);
    if x in NewTasks(env, k.uri) {
      if x.DispatchTask? { SubDirNames(env, k.uri, x.uri); }
    }
  }

  lemma SubDirNames(env: Env, u: Uri, c: Uri)
    requires c in SubDirs(env, u)
    ensures c != ""
  {
  }

  lemma OpenCount(env: Env, s: State, s': State, g: Trace, g': Trace, k: Task, u: Uri)
    requires Counted(s, g, u) && Staged(s, g, u) && Opens(env, s, s', g, g', k) && Strange(s, g, k.uri)
    ensures Counted(s', g', u) && Staged(s', g', u)
  {
    hide Tally, SubDirs, Files, Listing, NewTasks;
    var m := s.tasks - multiset{k};
    TallyPick(s.tasks, OwesTo(u), k);
    TallyPick(s.tasks, StageOf(u), k);
    NewTally(env, k.uri, u);
    TallyUnion(m, NewTasks(env, k.uri), OwesTo(u));
    TallyUnion(m, NewTasks(env, k.uri), StageOf(u));
    OpenKids(env, s, s', g, g', k, u);
  }

  lemma OpenKids(env: Env, s: State, s': State, g: Trace, g': Trace, k: Task, u: Uri)
    requires Opens(env, s, s', g, g', k) && Strange(s, g, k.uri)
    ensures u == k.uri ==> Kids(s', g', u) == {}
    ensures u != k.uri ==> |Kids(s', g', u)| == |Kids(s, g, u)| + if k.parent == Some(u) then 1 else 0
  {
    hide Tally, SubDirs, Files, Listing, NewTasks, OwesTo, Opens, Strange, Kids;
    OpensNew(env, s, s', g, g', k);
    if u != k.uri {
      forall c ensures c in Kids(s', g', u) <==> c in Kids(s, g, u) || (c == k.uri && k.parent == Some(u)) {
        OpenKid(env, s, s', g, g', k, u, c);
      }
      NotYetKid(env, s, s', g, g', k, u);
      OneMore(Kids(s, g, u), Kids(s', g', u), k.uri, k.parent == Some(u));
    } else {
      NoKids(env, s, s', g, g', k);
    }
  }

  lemma NotYetKid(env: Env, s: State, s': State, g: Trace, g': Trace, k: Task, u: Uri)
    requires Opens(env, s, s', g, g', k)
    ensures k.uri !in Kids(s, g, u)
  {
    hide SubDirs, Files, Listing, NewTasks;
  }

  lemma NoKids(env: Env, s: State, s': State, g: Trace, g': Trace, k: Task)
    requires Opens(env, s, s', g, g', k) && Strange(s, g, k.uri)
    ensures Kids(s', g', k.uri) == {}
  {
    hide Tally, SubDirs, Files, Listing, NewTasks, OwesTo;
  }

  lemma OneMore<T>(a: set<T>, b: set<T>, x: T, more: bool)
    requires x !in a && forall c :: c in b <==> c in a || (c == x && more)
    ensures |b| == |a| + if more then 1 else 0
  {
    assert b == a + if more then {x} else {};
  }

  lemma OpenKid(env: Env, s: State, s': State, g: Trace, g': Trace, k: Task, u: Uri, c: Uri)
    requires Opens(env, s, s', g, g', k) && Strange(s, g, k.uri) && u != k.uri
    ensures c in Kids(s', g', u) <==> c in Kids(s, g, u) || (c == k.uri && k.parent == Some(u))
  {
    hide Tally, SubDirs, Files, Listing, NewTasks, OwesTo;
  }

  lemma OpenRest(env: Env, s: State, s': State, g: Trace, g': Trace, k: Task, u: Uri)
    requires Known(env, s, g, u) && Muted(s, g, u) && Opens(env, s, s', g, g', k)
    ensures Known(env, s', g', u) && Muted(s', g', u)
  {
    hide Tally, SubDirs, Files, Listing, NewTasks;
  }

  lemma OpenPlace(env: Env, s: State, s': State, g: Trace, g': Trace, k: Task, i: nat)
    requires Opens(env, s, s', g, g', k) && Strange(s, g, k.uri) && i < |g'.born|
    requires i < |g.born| ==> Placed(env, s, g, i)
    requires k.parent.Some? ==> Known(env, s, g, k.parent.value)
    ensures Placed(env, s', g', i)
  {
    hide Tally, SubDirs, Files, Listing, NewTasks;
    if i < |g.born| {
      assert g'.born[i] == g.born[i] && g'.born[..i] == g.born[..i];
    } else {
      assert g'.born[..i] == g.born;
    }
  }

  lemma OpenOccurs(env: Env, s: State, s': State, g: Trace, g': Trace, k: Task, c: Uri, u: Uri)
    requires Occurs(env, s, g, c, u) && Opens(env, s, s', g, g', k) && Strange(s, g, k.uri)
    ensures Occurs(env, s', g', c, u)
  {
    hide Tally, SubDirs, Files, Listing, NewTasks, OwesTo;
    NewDispatches(env, k.uri, c, u);
  }

  lemma NewDispatches(env: Env, v: Uri, c: Uri, u: Uri)
    ensures NewTasks(env, v)[DispatchTask(c, Some(u))] == if u == v then multiset(SubDirs(env, v))[c] else 0
  {
    hide SubDirs, Files, NewTasks;
    NewMembers(env, v);
    if u != v { assert DispatchTask(c, Some(u)) !in NewTasks(env, v); }
  }

  lemma OpenRoot(env: Env, s: State, s': State, g: Trace, g': Trace, k: Task)
    requires RootOk(env, s, g) && Opens(env, s, s', g, g', k) && Strange(s, g, k.uri)
    ensures RootOk(env, s', g')
  {
    hide SubDirs, Files, Listing, NewTasks;
    TallyPick(s.tasks, HoldsSlot(), k);
    NewTally(env, k.uri, k.uri);
    TallyUnion(s.tasks - multiset{k}, NewTasks(env, k.uri), HoldsSlot());
  }

  // ----- Every run -----

  lemma StepInv(env: Env, s: State, g: Trace, a: Action)
    requires Inv(env, s, g) && Enabled(s, a)
    ensures Inv(env, Next(env, s, a), Advance(env, s, g, a))
  {
    hide Inv;
    match a.task
    case DispatchTask(_, _) => DispatchInv(env, s, g, a);
    case FileTask(_, _) => FileInv(env, s, g, a);
    case ChildDoneTask(_, _, _) => ChildInv(env, s, g, a);
    case _ => SummaryInv(env, s, g, a);
  }

  lemma DispatchInv(env: Env, s: State, g: Trace, a: Action)
    requires Inv(env, s, g) && Enabled(s, a) && a.task.DispatchTask?
    ensures Inv(env, Next(env, s, a), Advance(env, s, g, a))
  {
    hide Inv, SubDirs, Files, Listing, FailDispatch, Register, ScheduleSummary, FileTasks, DispatchTasks, FreshNode,
      Settle, StartSummary, OnFileDone, OnChildDone, Opens;
    var k := a.task;
    if k.uri in s.nodes {
      SilentInv(env, s, g, k);
    } else if Listing(env, k.uri).None? {
      FailInv(env, s, g, k);
    } else {
      DispatchFacts(env, s, g, k);
      DispatchOpens(env, s, g, k);
      OpenInv(env, s, Next(env, s, a), g, Advance(env, s, g, a), k);
    }
  }

  lemma DispatchOpens(env: Env, s: State, g: Trace, k: Task)
    requires k in s.tasks && k.DispatchTask? && k.uri !in s.nodes && Listing(env, k.uri).Some?
    requires k.uri != "" && (k.parent.Some? ==> k.parent.value in s.nodes && k.uri != env.root)
    requires k.parent.None? ==> k.uri == env.root && s.nodes == map[] && s.tasks == multiset{k}
    ensures Opens(env, s, Dispatch(env, s.(tasks := s.tasks - multiset{k}), k.uri, k.parent), g,
      g.(born := g.born + [k.uri]), k)
  {
    hide SubDirs, Files, Listing, NewTasks, FreshNode, Dispatch;
    FreshCount(env, k.uri);
    DispatchIs(env, s.(tasks := s.tasks - multiset{k}), k.uri, k.parent);
  }

  lemma FreshCount(env: Env, u: Uri)
    ensures FreshNode(env, u).pending == |SubDirs(env, u)| + |Files(env, u)| && !FreshNode(env, u).scheduled
    ensures FreshNode(env, u).files == Files(env, u) && FreshNode(env, u).dirs == SubDirs(env, u)
  {
    hide SubDirs, Files, IndexOf;
  }

  /** A successful dispatch in one expression. */
  lemma DispatchIs(env: Env, s: State, u: Uri, p: Option<Uri>)
    requires u !in s.nodes && Listing(env, u).Some?
    ensures var s', n := Dispatch(env, s, u, p), FreshNode(env, u);
      s' == s.(nodes := s.nodes[u := n.(scheduled := n.pending == 0)], parents := s.parents[u := p], stats := s'.stats,
               tasks := s.tasks + NewTasks(env, u))
  {
    hide SubDirs, Files, Listing, FreshNode, FileTasks, DispatchTasks;
    FreshCount(env, u);
    var n, a, b := FreshNode(env, u), FileTasks(u, Files(env, u)), DispatchTasks(u, SubDirs(env, u));
    assert s.tasks + a + b == s.tasks + (a + b);
    assert n.pending != 0 ==> n.(scheduled := false) == n;
  }

  lemma DispatchFacts(env: Env, s: State, g: Trace, k: Task)
    requires Inv(env, s, g) && k in s.tasks && k.DispatchTask? && k.uri !in s.nodes
    ensures k.uri != "" && (k.parent.Some? ==> k.parent.value in s.nodes && k.uri != env.root)
    ensures k.parent.None? ==> k.uri == env.root && s.nodes == map[] && s.tasks == multiset{k}
  {
    hide Tally, SubDirs, Listing, Occurs, Muted, Known, Placed, Counted, Staged;
    assert Sound(env, s, k);
    if k.parent.None? { LoneRoot(env, s, g, k); }
  }

  lemma FileInv(env: Env, s: State, g: Trace, a: Action)
    requires Inv(env, s, g) && Enabled(s, a) && a.task.FileTask?
    ensures Inv(env, Next(env, s, a), Advance(env, s, g, a))
  {
    var k := a.task;
    hide Inv, Dispatch, Settle, StartSummary, OnChildDone, AfterDecrement, ReportsTo;
    OwnerKnown(env, s, g, k);
    DecrementIs(s, k, k.owner, s.nodes[k.owner].(pending := s.nodes[k.owner].pending - 1));
    ReportInv(env, s, Next(env, s, a), g, k, k.owner);
  }

  lemma ChildInv(env: Env, s: State, g: Trace, a: Action)
    requires Inv(env, s, g) && Enabled(s, a) && a.task.ChildDoneTask?
    ensures Inv(env, Next(env, s, a), Advance(env, s, g, a))
  {
    var k := a.task;
    hide Inv, Dispatch, Settle, StartSummary, OnFileDone, AfterDecrement, ReportsTo, Record;
    OwnerKnown(env, s, g, k);
    var n := Record(s.nodes[k.owner], k.child, k.summary);
    assert n.pending == s.nodes[k.owner].pending && n.scheduled == s.nodes[k.owner].scheduled by {
      RecordKeeps(s.nodes[k.owner], k.child, k.summary);
    }
    DecrementIs(s, k, k.owner, n.(pending := n.pending - 1));
    ReportInv(env, s, Next(env, s, a), g, k, k.owner);
  }

  lemma RecordKeeps(n: Node, c: Uri, r: Option<ChildSummary>)
    ensures Record(n, c, r).pending == n.pending && Record(n, c, r).scheduled == n.scheduled
  {
  }

  /** What both completion handlers do to the state. */
  lemma DecrementIs(s: State, k: Task, p: Uri, n: Node)
    requires k in s.tasks && OwesTo(p)(k) && !k.DispatchTask? && p in s.nodes
    requires n.pending == s.nodes[p].pending - 1 && !n.scheduled && !s.nodes[p].scheduled
    ensures ReportsTo(s, AfterDecrement(s.(tasks := s.tasks - multiset{k}), p, n), k, p)
  {
    assert s.tasks - multiset{k} + multiset{} == s.tasks - multiset{k};
  }

  lemma OwnerKnown(env: Env, s: State, g: Trace, k: Task)
    requires Inv(env, s, g) && k in s.tasks && (k.FileTask? || k.ChildDoneTask?)
    ensures k.owner in s.nodes && !s.nodes[k.owner].scheduled
  {
    hide Tally, SubDirs, Listing, Occurs, Muted, Known, Placed, Staged, RootOk;
    assert Sound(env, s, k) && Counted(s, g, k.owner);
    TallySome(s.tasks, OwesTo(k.owner), k);
  }

  lemma SummaryInv(env: Env, s: State, g: Trace, a: Action)
    requires Inv(env, s, g) && Enabled(s, a) && IsStage(a.task)
    ensures Inv(env, Next(env, s, a), Advance(env, s, g, a))
  {
    hide Inv, Dispatch, OnFileDone, OnChildDone, Settle;
    var k, s' := a.task, Next(env, s, a);
    StageFacts(env, s, g, k);
    match k
    case SummaryTask(u) => StageInv(env, s, s', g, k, AwaitSlot(u, Collect(s.nodes[u].dirs, s.nodes[u].summaries)));
    case AwaitSlot(u, c) => StageInv(env, s, s', g, k, Generating(u, c));
    case Generating(u, c) =>
      if a.outcome.Succeeds? { StageInv(env, s, s', g, k, Storing(u, c, a.outcome.text)); }
      else { EndInv(env, s, s.(tasks := s.tasks - multiset{k}, slots := s.slots + 1), g, k, None); }
    case Storing(u, _, text) =>
      EndInv(env, s, s.(tasks := s.tasks - multiset{k}), g, k,
        if a.outcome.Succeeds? then Some(ChildSummary(u, text, true)) else None);
  }

  ghost function TraceOf(env: Env, acts: seq<Action>): Trace
    requires ValidRun(env, acts)
  {
    if acts == [] then NONE
    else Advance(env, After(env, acts[..|acts| - 1]), TraceOf(env, acts[..|acts| - 1]), acts[|acts| - 1])
  }

  lemma {:induction false} RunInv(env: Env, acts: seq<Action>)
    requires ValidRun(env, acts) && env.root != ""
    ensures Inv(env, After(env, acts), TraceOf(env, acts))
  {
    hide Inv, Next, Enabled, Advance;
    if acts == [] {
      StartInv(env);
    } else {
      RunInv(env, acts[..|acts| - 1]);
      StepInv(env, After(env, acts[..|acts| - 1]), TraceOf(env, acts[..|acts| - 1]), acts[|acts| - 1]);
    }
  }

  /** Nothing can run any more. */
  ghost predicate Exhausted(s: State) {
    forall a :: !Enabled(s, a)
  }

  lemma ExhaustedIsEmpty(env: Env, s: State, g: Trace)
    requires Inv(env, s, g) && Exhausted(s) && env.llmSlots > 0
    ensures s.tasks == multiset{}
  {
    hide Tally, SubDirs, Listing, Occurs, Muted, Known, Placed, Counted, Staged, Sound;
    forall k ensures k !in s.tasks {
      if k in s.tasks {
        assert !Enabled(s, Action(k, Fails));
        assert k.AwaitSlot? && s.slots == 0;
        SlotHolder(s);
      }
    }
  }

  lemma {:induction false} SlotHolder(s: State)
    requires Tally(s.tasks, HoldsSlot()) > 0
    ensures !Exhausted(s)
  {
    if forall k :: k in s.tasks ==> !HoldsSlot()(k) {
      TallyNone(s.tasks, HoldsSlot());
    } else {
      var k :| k in s.tasks && HoldsSlot()(k);
      assert Enabled(s, Action(k, Fails));
    }
  }

  /** What a caller can check before the call: the root cannot be listed, or there is
      a slot for the LLM and nothing within reach of the root is listed twice. */
  ghost predicate Finishing(env: Env) {
    Listing(env, env.root).None? || (env.llmSlots > 0 && ListedOnce(env))
  }

  /** The root event is only ever set under this condition. */
  lemma DoneMeansFinishing(env: Env, acts: seq<Action>)
    requires IsDirectoryUri(env.root) && ValidRun(env, acts) && After(env, acts).rootDone
    ensures Finishing(env)
  {
    hide Next, Enabled, Listing, ListedOnce, Inv;
    RunInv(env, acts);
    var s, g := After(env, acts), TraceOf(env, acts);
    if Listing(env, env.root).Some? {
      RootEnded(env, s, g);
      DoneMeansListedOnce(env, s, g);
      if env.llmSlots == 0 { NoSlotNoEnd(env, acts); }
    }
  }

  /** For every listing whatsoever, a run that cannot go on has set the root event if
      and only if the listing meets this condition, which does not depend on the run. */
  lemma FinishesExactlyWhenListedOnce(env: Env, acts: seq<Action>)
    requires IsDirectoryUri(env.root) && ValidRun(env, acts) && Exhausted(After(env, acts))
    ensures After(env, acts).rootDone <==> Finishing(env)
  {
    hide Next, Enabled, Listing, ListedOnce, Exhausted, Inv;
    RunInv(env, acts);
    var s, g := After(env, acts), TraceOf(env, acts);
    if s.rootDone {
      DoneMeansFinishing(env, acts);
    } else if env.llmSlots > 0 {
      ExhaustedIsEmpty(env, s, g);
      RootCases(env, s, g);
      if ListedOnce(env) { RootEnds(env, s, g); }
    } else {
      NoSlotNoEnd(env, acts);
      NoSlotCases(env, s, g);
    }
  }

  /** Without a slot no summary is ever generated, let alone stored. */
  lemma {:induction false} NoSlotNoEnd(env: Env, acts: seq<Action>)
    requires ValidRun(env, acts) && env.root != "" && env.llmSlots == 0
    ensures TraceOf(env, acts).ended == {} && forall k :: k in After(env, acts).tasks ==> !k.Storing?
  {
    hide Next, Enabled, Advance, Inv;
    if acts != [] {
      var init, a := acts[..|acts| - 1], acts[|acts| - 1];
      NoSlotNoEnd(env, init);
      RunInv(env, init);
      NoSlotStep(env, After(env, init), TraceOf(env, init), a);
    }
  }

  lemma NoSlotStep(env: Env, s: State, g: Trace, a: Action)
    requires Inv(env, s, g) && Enabled(s, a) && env.llmSlots == 0 && g.ended == {}
    requires forall k :: k in s.tasks ==> !k.Storing?
    ensures Advance(env, s, g, a).ended == {} && forall k :: k in Next(env, s, a).tasks ==> !k.Storing?
  {
    hide Inv, Listing, Record, Dispatch, Settle;
    NoGeneration(env, s, g);
    if a.task.DispatchTask? { DispatchStores(env, s.(tasks := s.tasks - multiset{a.task}), a.task.uri, a.task.parent); }
  }

  lemma NoGeneration(env: Env, s: State, g: Trace)
    requires Inv(env, s, g) && env.llmSlots == 0
    ensures s.slots == 0 && forall k :: k in s.tasks ==> !k.Generating?
  {
    hide Tally, SubDirs, Listing, Occurs, Muted, Known, Placed, Counted, Staged, Sound;
    forall k | k in s.tasks ensures !k.Generating? {
      if k.Generating? { TallySome(s.tasks, HoldsSlot(), k); }
    }
  }

  lemma DispatchStores(env: Env, s: State, u: Uri, p: Option<Uri>)
    requires forall k :: k in s.tasks ==> !k.Storing?
    ensures forall k :: k in Dispatch(env, s, u, p).tasks ==> !k.Storing?
  {
    hide SubDirs, Files, Listing, FreshNode, NewTasks;
    NewMembers(env, u);
    if u !in s.nodes && Listing(env, u).Some? { DispatchIs(env, s, u, p); }
  }

  lemma NoSlotCases(env: Env, s: State, g: Trace)
    requires Inv(env, s, g) && Exhausted(s) && g.ended == {}
    ensures s.rootDone <==> Listing(env, env.root).None?
  {
    hide Tally, SubDirs, Listing, Occurs, Muted, Placed, Counted, Staged, Sound;
    assert Known(env, s, g, env.root);
    var k := DispatchTask(env.root, None);
    assert k in s.tasks ==> Enabled(s, Action(k, Fails));
  }

  lemma RootEnded(env: Env, s: State, g: Trace)
    requires Inv(env, s, g) && s.rootDone && Listing(env, env.root).Some?
    ensures env.root in g.ended
  {
    hide Tally, SubDirs, Listing, Occurs, Muted, Known, Placed, Counted, Staged, Sound;
  }

  lemma RootEnds(env: Env, s: State, g: Trace)
    requires Inv(env, s, g) && s.tasks == multiset{} && env.root in s.nodes && ListedOnce(env)
    ensures s.rootDone
  {
    hide Tally, SubDirs, Listing, Occurs, Muted, Placed, Counted, Staged, Sound, ListedOnce;
    assert Known(env, s, g, env.root);
    var i :| 0 <= i < |g.born| && g.born[i] == env.root;
    Descend(env, s, g, i);
  }

  lemma RootCases(env: Env, s: State, g: Trace)
    requires Inv(env, s, g) && s.tasks == multiset{}
    ensures env.root in s.nodes ==> Listing(env, env.root).Some?
    ensures env.root !in s.nodes ==> s.rootDone && Listing(env, env.root).None?
  {
    hide Tally, SubDirs, Listing, Occurs, Muted, Placed, Counted, Staged, Sound;
    assert Known(env, s, g, env.root);
  }

  // ----- Once only, and children first -----

  function StageRank(k: Task): nat {
    match k
    case SummaryTask(_) => 1
    case AwaitSlot(_, _) => 2
    case Generating(_, _) => 3
    case Storing(_, _, _) => 4
    case _ => 0
  }

  /** The summary of u is past stage r. */
  ghost predicate Beyond(s: State, g: Trace, u: Uri, r: nat) {
    u in g.ended || exists k :: k in s.tasks && StageOf(u)(k) && StageRank(k) > r
  }

  /** u has one summary at a time, so it is in no stage it has left. */
  lemma BeyondMeansOver(env: Env, s: State, g: Trace, u: Uri, k: Task)
    requires Inv(env, s, g) && k in s.tasks && IsStage(k) && k.uri == u
    ensures !Beyond(s, g, u, StageRank(k))
  {
    hide Tally, SubDirs, Listing, Occurs, Muted, Known, Placed, Counted, Sound, RootOk;
    assert Staged(s, g, u);
    TallyPick(s.tasks, StageOf(u), k);
    forall x | x in s.tasks && StageOf(u)(x) ensures x == k {
      if x != k { TallySome(s.tasks - multiset{k}, StageOf(u), x); }
    }
  }

  lemma OthersStay(env: Env, s: State, a: Action, k: Task)
    requires Enabled(s, a) && k in s.tasks && k != a.task
    ensures k in Next(env, s, a).tasks
  {
    hide Dispatch, OnFileDone, OnChildDone, StartSummary, Settle;
    var s0 := s.(tasks := s.tasks - multiset{a.task});
    match a.task
    case DispatchTask(u, p) => DispatchKeepsTasks(env, s0, u, p, k);
    case FileTask(_, _) => ReportKeepsTasks(s0, a.task, k);
    case ChildDoneTask(_, _, _) => ReportKeepsTasks(s0, a.task, k);
    case SummaryTask(u) => SummaryKeepsTasks(s0, u, None, k);
    case AwaitSlot(_, _) =>
    case Generating(u, _) => SummaryKeepsTasks(s0.(slots := s0.slots + 1), u, None, k);
    case Storing(u, _, text) =>
      SummaryKeepsTasks(s0, u, if a.outcome.Succeeds? then Some(ChildSummary(u, text, true)) else None, k);
  }

  lemma DispatchKeepsTasks(env: Env, s: State, u: Uri, p: Option<Uri>, k: Task)
    requires k in s.tasks
    ensures k in Dispatch(env, s, u, p).tasks
  {
    hide SubDirs, Files, Listing, FreshNode, FileTasks, DispatchTasks;
  }

  lemma ReportKeepsTasks(s: State, a: Task, k: Task)
    requires k in s.tasks
    ensures a.FileTask? ==> k in OnFileDone(s, a.owner).tasks
    ensures a.ChildDoneTask? ==> k in OnChildDone(s, a.owner, a.child, a.summary).tasks
  {
    hide Record;
  }

  lemma SummaryKeepsTasks(s: State, u: Uri, r: Option<ChildSummary>, k: Task)
    requires k in s.tasks
    ensures k in StartSummary(s, u).tasks && k in Settle(s, u, r).tasks
  {
    hide Collect;
  }

  lemma StageMovesOn(env: Env, s: State, g: Trace, a: Action)
    requires Inv(env, s, g) && Enabled(s, a) && IsStage(a.task)
    ensures Beyond(Next(env, s, a), Advance(env, s, g, a), a.task.uri, StageRank(a.task))
  {
    hide Inv, Next, Advance, Beyond;
    var k, s', g' := a.task, Next(env, s, a), Advance(env, s, g, a);
    StageFacts(env, s, g, k);
    if EndsHere(a, k.uri) {
      EndingStep(env, s, g, a, k.uri);
      EndedIsBeyond(s', g', k.uri, StageRank(k));
    } else {
      var k' := NextStage(env, s, a);
      ThenBeyond(s', g', k', k.uri, StageRank(k));
    }
  }

  /** The stage a summary that does not end goes on to. */
  lemma NextStage(env: Env, s: State, a: Action) returns (k': Task)
    requires Enabled(s, a) && IsStage(a.task) && a.task.uri in s.nodes && !EndsHere(a, a.task.uri)
    ensures k' in Next(env, s, a).tasks && IsStage(k') && k'.uri == a.task.uri && StageRank(k') > StageRank(a.task)
  {
    hide Collect, Settle, Dispatch, OnFileDone, OnChildDone;
    match a.task
    case SummaryTask(u) => k' := AwaitSlot(u, Collect(s.nodes[u].dirs, s.nodes[u].summaries));
    case AwaitSlot(u, c) => k' := Generating(u, c);
    case Generating(u, c) => k' := Storing(u, c, a.outcome.text);
  }

  lemma ThenBeyond(s: State, g: Trace, k: Task, u: Uri, r: nat)
    requires k in s.tasks && IsStage(k) && k.uri == u && StageRank(k) > r
    ensures Beyond(s, g, u, r)
  {
    assert StageOf(u)(k);
  }

  lemma EndedIsBeyond(s: State, g: Trace, u: Uri, r: nat)
    requires u in g.ended
    ensures Beyond(s, g, u, r)
  {
  }

  lemma BeyondStays(env: Env, s: State, g: Trace, a: Action, u: Uri, r: nat)
    requires Inv(env, s, g) && Enabled(s, a) && Beyond(s, g, u, r)
    ensures Beyond(Next(env, s, a), Advance(env, s, g, a), u, r)
  {
    hide Inv, Next, Listing;
    if u !in g.ended {
      var k :| k in s.tasks && StageOf(u)(k) && StageRank(k) > r;
      if k == a.task { StageMovesOn(env, s, g, a); } else { OthersStay(env, s, a, k); }
    }
  }

  lemma {:induction false} BeyondForGood(env: Env, acts: seq<Action>, i: nat)
    requires ValidRun(env, acts) && env.root != "" && i < |acts| && IsStage(acts[i].task)
    ensures Beyond(After(env, acts), TraceOf(env, acts), acts[i].task.uri, StageRank(acts[i].task))
  {
    hide Next, Enabled, Advance, Inv, Beyond;
    var init, a := acts[..|acts| - 1], acts[|acts| - 1];
    RunInv(env, init);
    if i == |acts| - 1 {
      StageMovesOn(env, After(env, init), TraceOf(env, init), a);
    } else {
      BeyondForGood(env, init, i);
      BeyondStays(env, After(env, init), TraceOf(env, init), a, acts[i].task.uri, StageRank(acts[i].task));
    }
  }

  lemma StepOfRun(env: Env, acts: seq<Action>, i: nat)
    requires ValidRun(env, acts) && i < |acts|
    ensures ValidRun(env, acts[..i]) && Enabled(After(env, acts[..i]), acts[i])
  {
    hide Next, Enabled;
    PrefixValid(env, acts, i + 1);
    PrefixValid(env, acts, i);
    assert acts[..i + 1][..i] == acts[..i];
  }

  /** On any listing the summary of a directory runs through each of its stages at
      most once: it is created, admitted, generated and stored once. */
  lemma SummarisedOnce(env: Env, acts: seq<Action>, i: nat, j: nat)
    requires ValidRun(env, acts) && env.root != "" && i < |acts| && j < |acts|
    requires IsStage(acts[i].task) && IsStage(acts[j].task) && acts[i].task.uri == acts[j].task.uri
    requires StageRank(acts[i].task) == StageRank(acts[j].task)
    ensures i == j
  {
    hide Next, Advance, Inv, Beyond;
    if i != j {
      var few, more := if i < j then i else j, if i < j then j else i;
      StepOfRun(env, acts, more);
      RunInv(env, acts[..more]);
      BeyondForGood(env, acts[..more], few);
      BeyondMeansOver(env, After(env, acts[..more]), TraceOf(env, acts[..more]), acts[more].task.uri, acts[more].task);
    }
  }

  /** The step that ends u: its summary cannot be generated, or was stored or not. */
  predicate EndsHere(a: Action, u: Uri) {
    (a.task.Generating? && a.task.uri == u && a.outcome.Fails?) || (a.task.Storing? && a.task.uri == u)
  }

  ghost predicate EndedIn(acts: seq<Action>, u: Uri) {
    exists i :: 0 <= i < |acts| && EndsHere(acts[i], u)
  }

  lemma EndingStep(env: Env, s: State, g: Trace, a: Action, u: Uri)
    ensures u in Advance(env, s, g, a).ended <==> u in g.ended || EndsHere(a, u)
  {
    hide Listing;
  }

  lemma {:induction false} EndedIsHistory(env: Env, acts: seq<Action>, u: Uri)
    requires ValidRun(env, acts)
    ensures u in TraceOf(env, acts).ended <==> EndedIn(acts, u)
  {
    hide Next, Enabled, Advance, EndsHere;
    if acts != [] {
      var init, a := acts[..|acts| - 1], acts[|acts| - 1];
      EndedIsHistory(env, init, u);
      EndingStep(env, After(env, init), TraceOf(env, init), a, u);
      if EndedIn(init, u) {
        var i :| 0 <= i < |init| && EndsHere(init[i], u);
        assert EndsHere(acts[i], u);
      }
    }
  }

  /** A summary is only begun when nothing is owed to the directory any more. */
  lemma StageIsSettled(env: Env, s: State, g: Trace, k: Task, c: Uri)
    requires Inv(env, s, g) && k in s.tasks && IsStage(k) && Names(env, k.uri, c)
    ensures IsChildOf(s, c, k.uri) && c in g.ended && multiset(SubDirs(env, k.uri))[c] == 1
    ensures forall x :: x in s.tasks ==> !OwesTo(k.uri)(x)
  {
    hide Tally, SubDirs, Listing, Known, Placed, Sound, RootOk, Staged;
    var u := k.uri;
    StageFacts(env, s, g, k);
    assert Counted(s, g, u) && Muted(s, g, u) && Occurs(env, s, g, c, u);
    forall x | x in s.tasks ensures !OwesTo(u)(x) {
      if OwesTo(u)(x) { TallySome(s.tasks, OwesTo(u), x); }
    }
    assert OwesTo(u)(DispatchTask(c, Some(u)));
    assert (c, u) !in g.silent;
    assert c in multiset(SubDirs(env, u));
    assert Kids(s, g, u) == {};
    assert c in Kids(s, g, u) || c in g.ended;
  }

  /** On any listing a summary starts only after every listable sub-directory it lists
      was registered under it, was listed there once, and has ended; and when nobody owes
      it a report any more, be it for a file, for a child or for a failed dispatch. */
  lemma SummaryWaitsForChildren(env: Env, acts: seq<Action>, i: nat, c: Uri)
    requires ValidRun(env, acts) && env.root != "" && i < |acts| && IsStage(acts[i].task)
    requires Names(env, acts[i].task.uri, c)
    ensures EndedIn(acts[..i], c) && multiset(SubDirs(env, acts[i].task.uri))[c] == 1
    ensures ValidRun(env, acts[..i]) && IsChildOf(After(env, acts[..i]), c, acts[i].task.uri)
    ensures forall x :: x in After(env, acts[..i]).tasks ==> !OwesTo(acts[i].task.uri)(x)
  {
    hide Next, Advance, Inv, Names, SubDirs;
    StepOfRun(env, acts, i);
    RunInv(env, acts[..i]);
    StageIsSettled(env, After(env, acts[..i]), TraceOf(env, acts[..i]), acts[i].task, c);
    EndedIsHistory(env, acts[..i], c);
  }

  /** Each directory ends once, and its listable sub-directories ended before it. */
  lemma EndsOnceAndBottomUp(env: Env, acts: seq<Action>, i: nat, u: Uri)
    requires ValidRun(env, acts) && env.root != "" && i < |acts| && EndsHere(acts[i], u)
    ensures forall j :: 0 <= j < |acts| && EndsHere(acts[j], u) ==> j == i
    ensures forall c :: Names(env, u, c) ==> EndedIn(acts[..i], c)
  {
    hide Next, Advance, Inv, Names;
    forall j | 0 <= j < |acts| && EndsHere(acts[j], u) ensures j == i {
      if j < i { EndedIsOver(env, acts, j, i, u); }
      if i < j { EndedIsOver(env, acts, i, j, u); }
    }
    forall c | Names(env, u, c) ensures EndedIn(acts[..i], c) {
      SummaryWaitsForChildren(env, acts, i, c);
    }
  }

  lemma EndedIsOver(env: Env, acts: seq<Action>, i: nat, j: nat, u: Uri)
    requires ValidRun(env, acts) && env.root != "" && i < j < |acts| && EndsHere(acts[i], u)
    ensures !EndsHere(acts[j], u)
  {
    hide Next, Advance, Inv;
    StepOfRun(env, acts, j);
    RunInv(env, acts[..j]);
    assert EndsHere(acts[..j][i], u);
    EndedIsHistory(env, acts[..j], u);
    if EndsHere(acts[j], u) { StageFacts(env, After(env, acts[..j]), TraceOf(env, acts[..j]), acts[j].task); }
  }

  /** A directory is registered by one dispatch only. */
  predicate Registers(env: Env, s: State, a: Action, u: Uri) {
    a.task.DispatchTask? && a.task.uri == u && u !in s.nodes && Listing(env, u).Some?
  }

  lemma NodesStay(env: Env, s: State, a: Action, u: Uri)
    requires Enabled(s, a) && (u in s.nodes || Registers(env, s, a, u))
    ensures u in Next(env, s, a).nodes
  {
    hide SubDirs, Files, Listing, FreshNode, Record, Collect, FileTasks, DispatchTasks;
  }

  lemma {:induction false} RegisteredIsHistory(env: Env, acts: seq<Action>, i: nat, u: Uri)
    requires ValidRun(env, acts) && i < |acts| && ValidRun(env, acts[..i])
    requires Registers(env, After(env, acts[..i]), acts[i], u)
    ensures u in After(env, acts).nodes
  {
    hide Enabled, Next;
    var init, a := acts[..|acts| - 1], acts[|acts| - 1];
    if i < |acts| - 1 {
      assert init[..i] == acts[..i] && init[i] == acts[i];
      RegisteredIsHistory(env, init, i, u);
    }
    assert Enabled(After(env, init), a) && After(env, acts) == Next(env, After(env, init), a);
    NodesStay(env, After(env, init), a, u);
  }

  lemma RegisteredOnce(env: Env, acts: seq<Action>, i: nat, j: nat, u: Uri)
    requires ValidRun(env, acts) && i < |acts| && j < |acts| && ValidRun(env, acts[..i]) && ValidRun(env, acts[..j])
    requires Registers(env, After(env, acts[..i]), acts[i], u) && Registers(env, After(env, acts[..j]), acts[j], u)
    ensures i == j
  {
    hide Next, Enabled, Listing;
    if i < j {
      assert acts[..j][..i] == acts[..i];
      RegisteredIsHistory(env, acts[..j], i, u);
    } else if j < i {
      assert acts[..i][..j] == acts[..j];
      RegisteredIsHistory(env, acts[..i], j, u);
    }
  }
}
