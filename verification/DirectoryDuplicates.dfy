/** What a directory listed twice does: it stops the scheduler of
    index/directory_event_handler.py for good.  DirectoryListings says exactly when
    that happens. */
module DirectoryDuplicates {
  import opened Wrappers
  import opened DirectoryDag

  /** The root lists one empty directory twice. */
  ghost predicate ListsTwice(env: Env, a: Uri) {
    && env.list(env.root) == Some([a, a]) && env.list(a) == Some([]) && IsDirectoryUri(a)
    && a != env.root && env.maxChildren >= 2 && env.llmSlots >= 1
  }

  lemma Then(env: Env, acts: seq<Action>, s: State, k: Task, o: Outcome, s': State)
    requires ValidRun(env, acts) && After(env, acts) == s && Enabled(s, Action(k, o))
    requires Next(env, s, Action(k, o)) == s'
    ensures ValidRun(env, acts + [Action(k, o)]) && After(env, acts + [Action(k, o)]) == s'
  {
    hide Next, Enabled;
    assert (acts + [Action(k, o)])[..|acts|] == acts;
  }

  function Parent(a: Uri, pending: int, summaries: seq<Option<ChildSummary>>): Node {
    Node([a, a], [], map[a := 1], summaries, pending, false)
  }

  function Child(scheduled: bool): Node {
    Node([], [], map[], [], 0, scheduled)
  }

  /** Root and child are registered, and these tasks are left. */
  function At(env: Env, a: Uri, st: Stats, slots: nat, tasks: multiset<Task>): State {
    State(map[env.root := Parent(a, 2, [None, None]), a := Child(true)], map[env.root := None, a := Some(env.root)],
      st, false, slots, tasks)
  }

  lemma RootListing(env: Env, a: Uri)
    requires ListsTwice(env, a)
    ensures FreshNode(env, env.root) == Parent(a, 2, [None, None]) && FreshNode(env, a) == Child(false)
    ensures Listing(env, env.root).Some? && Listing(env, a).Some?
  {
    Twice(a);
    hide DirsOf, FilesOf, IndexOf;
  }

  lemma Twice(a: Uri)
    requires IsDirectoryUri(a)
    ensures DirsOf([a, a]) == [a, a] && FilesOf([a, a]) == [] && IndexOf([a, a]) == map[a := 1]
    ensures DirsOf([]) == [] && FilesOf([]) == [] && IndexOf([]) == map[]
  {
    var ds := [a, a];
    assert ds[..1] == [a] && [a][..0] == [];
    assert DirsOf([a]) == [a] && FilesOf([a]) == [] && IndexOf([a]) == map[a := 0];
  }

  lemma DispatchRoot(env: Env, a: Uri) returns (acts: seq<Action>)
    requires ListsTwice(env, a)
    ensures ValidRun(env, acts)
    ensures After(env, acts) == RootOpen(env, a)
  {
    hide FreshNode, Listing;
    RootListing(env, a);
    var k := DispatchTask(env.root, None);
    TwoTasks(env.root, a);
    var s' := RootOpen(env, a);
    assert Start(env).tasks - multiset{k} == multiset{};
    Then(env, [], Start(env), k, Fails, s');
    acts := [] + [Action(k, Fails)];
  }

  lemma TwoTasks(r: Uri, a: Uri)
    ensures DispatchTasks(r, [a, a]) == multiset{DispatchTask(a, Some(r)), DispatchTask(a, Some(r))}
    ensures FileTasks(r, []) == multiset{}
  {
    var ds := [a, a];
    assert ds[..1] == [a] && [a][..0] == [];
    assert DispatchTasks(r, [a]) == DispatchTasks(r, []) + multiset{DispatchTask(a, Some(r))};
    assert DispatchTasks(r, ds) == DispatchTasks(r, ds[..1]) + multiset{DispatchTask(a, Some(r))};
  }

  ghost predicate Steps(env: Env, s: State, k: Task, s': State) {
    Enabled(s, Action(k, Fails)) && Next(env, s, Action(k, Fails)) == s'
  }

  function RootOpen(env: Env, a: Uri): State {
    State(map[env.root := Parent(a, 2, [None, None])], map[env.root := None], Stats(1, 1, 0, 0), false,
          env.llmSlots, multiset{DispatchTask(a, Some(env.root)), DispatchTask(a, Some(env.root))})
  }

  lemma FirstDispatch(env: Env, a: Uri)
    requires ListsTwice(env, a)
    ensures var k := DispatchTask(a, Some(env.root));
      Steps(env, RootOpen(env, a), k, At(env, a, Stats(2, 2, 0, 0), env.llmSlots, multiset{k, SummaryTask(a)}))
  {
    hide FreshNode, Listing;
    RootListing(env, a);
    var k, s := DispatchTask(a, Some(env.root)), RootOpen(env, a);
    assert s.tasks - multiset{k} == multiset{k};
  }

  lemma SecondDispatch(env: Env, a: Uri)
    ensures var k := DispatchTask(a, Some(env.root));
      Steps(env, At(env, a, Stats(2, 2, 0, 0), env.llmSlots, multiset{k, SummaryTask(a)}), k,
            At(env, a, Stats(2, 2, 0, 0), env.llmSlots, multiset{SummaryTask(a)}))
  {
    var k := DispatchTask(a, Some(env.root));
    assert multiset{k, SummaryTask(a)} - multiset{k} == multiset{SummaryTask(a)};
  }

  lemma Summarize(env: Env, a: Uri, st: Stats, n: nat)
    ensures Steps(env, At(env, a, st, n, multiset{SummaryTask(a)}), SummaryTask(a),
      At(env, a, st, n, multiset{AwaitSlot(a, [])}))
  {
    assert multiset{SummaryTask(a)} - multiset{SummaryTask(a)} == multiset{} && Collect([], []) == [];
  }

  lemma TakeSlot(env: Env, a: Uri, st: Stats, n: nat)
    requires n >= 1
    ensures Steps(env, At(env, a, st, n, multiset{AwaitSlot(a, [])}), AwaitSlot(a, []),
      At(env, a, st, n - 1, multiset{Generating(a, [])}))
  {
    assert multiset{AwaitSlot(a, [])} - multiset{AwaitSlot(a, [])} == multiset{};
  }

  lemma FailSummary(env: Env, a: Uri, n: nat)
    requires n >= 1 && a != env.root
    ensures Steps(env, At(env, a, Stats(2, 2, 0, 0), n - 1, multiset{Generating(a, [])}), Generating(a, []),
                  At(env, a, Stats(2, 1, 0, 1), n, multiset{ChildDoneTask(env.root, a, None)}))
  {
    assert multiset{Generating(a, [])} - multiset{Generating(a, [])} == multiset{};
  }

  lemma TellParent(env: Env, a: Uri, s: State)
    requires a != env.root
    requires s == At(env, a, Stats(2, 1, 0, 1), env.llmSlots, multiset{ChildDoneTask(env.root, a, None)})
    ensures Steps(env, s, ChildDoneTask(env.root, a, None),
                  s.(nodes := s.nodes[env.root := Parent(a, 1, [None, None])], tasks := multiset{}))
  {
    var k := ChildDoneTask(env.root, a, None);
    var nothing: seq<Option<ChildSummary>> := [None, None];
    assert multiset{k} - multiset{k} == multiset{} && nothing[1 := None] == nothing;
  }

  /** The second dispatch of the child returns without telling the parent, which
      goes on waiting: no task is left and the root event is never set. */
  lemma DuplicateListingDeadlocks(env: Env, a: Uri)
    requires ListsTwice(env, a)
    ensures exists acts :: ValidRun(env, acts) && !After(env, acts).rootDone && After(env, acts).tasks == multiset{}
  {
    hide Next, Enabled, ValidRun, After, At, RootOpen, Parent;
    var st, n, k := Stats(2, 2, 0, 0), env.llmSlots, DispatchTask(a, Some(env.root));
    var acts := DispatchRoot(env, a);
    FirstDispatch(env, a);
    acts := Onward(env, acts, RootOpen(env, a), k, At(env, a, st, n, multiset{k, SummaryTask(a)}));
    SecondDispatch(env, a);
    acts := Onward(env, acts, At(env, a, st, n, multiset{k, SummaryTask(a)}), k,
      At(env, a, st, n, multiset{SummaryTask(a)}));
    Summarize(env, a, st, n);
    acts := Onward(env, acts, At(env, a, st, n, multiset{SummaryTask(a)}), SummaryTask(a),
      At(env, a, st, n, multiset{AwaitSlot(a, [])}));
    TakeSlot(env, a, st, n);
    acts := Onward(env, acts, At(env, a, st, n, multiset{AwaitSlot(a, [])}), AwaitSlot(a, []),
      At(env, a, st, n - 1, multiset{Generating(a, [])}));
    FailSummary(env, a, n);
    var s := At(env, a, Stats(2, 1, 0, 1), n, multiset{ChildDoneTask(env.root, a, None)});
    acts := Onward(env, acts, At(env, a, st, n - 1, multiset{Generating(a, [])}), Generating(a, []), s);
    TellParent(env, a, s);
    acts := Onward(env, acts, s, ChildDoneTask(env.root, a, None),
                   s.(nodes := s.nodes[env.root := Parent(a, 1, [None, None])], tasks := multiset{}));
    NotDone(env, a, Stats(2, 1, 0, 1), n, multiset{ChildDoneTask(env.root, a, None)});
  }

  lemma NotDone(env: Env, a: Uri, st: Stats, n: nat, tasks: multiset<Task>)
    ensures !At(env, a, st, n, tasks).rootDone && At(env, a, st, n, tasks).tasks == tasks
  {
  }

  lemma Onward(env: Env, acts: seq<Action>, s: State, k: Task, s': State) returns (acts': seq<Action>)
    requires ValidRun(env, acts) && After(env, acts) == s && Steps(env, s, k, s')
    ensures ValidRun(env, acts') && After(env, acts') == s'
  {
    Then(env, acts, s, k, Fails, s');
    acts' := acts + [Action(k, Fails)];
  }
}
