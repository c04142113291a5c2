/** The extraction loop of extraction/react_loop.py.

    A turn is what the outside world contributes to one iteration: whether the time
    is up, the answer of the model, and the files that exist and can be read. */
module ReactLoop {
  import opened Wrappers

  type Uri = string

  datatype Call = Read(uri: Uri) | Known | Unknown

  /** A memory to write.  `target` is the resolved URI, if there is a schema and it
      resolves. */
  datatype Candidate = Candidate(target: Option<Uri>, addOnly: bool)

  /** Tool calls, candidates parsed from content, or nothing usable. */
  datatype Response = Calls(calls: seq<Call>) | Content(candidates: seq<Candidate>) | Nothing

  datatype Turn = Turn(timedOut: bool, response: Response, existing: set<Uri>, readable: set<Uri>)

  datatype State = State(iteration: nat, limit: int, read: set<Uri>, disabled: bool, reread: bool, done: bool,
                         result: seq<Candidate>)

  function Start(limit: int, prefetched: set<Uri>): State {
    State(0, limit, prefetched, false, false, false, [])
  }

  // ----- One iteration -----

  function ReadUris(cs: seq<Call>): set<Uri> {
    set c | c in cs && c.Read? && c.uri != "" :: c.uri
  }

  predicate HasUnknown(cs: seq<Call>) {
    Unknown in cs
  }

  /** A target that exists and that nobody has read. */
  predicate Unread(c: Candidate, read: set<Uri>, existing: set<Uri>) {
    c.target.Some? && !c.addOnly && c.target.value !in read && c.target.value in existing
  }

  function UnreadUris(cs: seq<Candidate>, read: set<Uri>, existing: set<Uri>): seq<Uri> {
    if cs == [] then [] else
    var last := cs[|cs| - 1];
    UnreadUris(cs[..|cs| - 1], read, existing) + if Unread(last, read, existing) then [last.target.value] else []
  }

  lemma {:induction false} UnreadUrisNone(cs: seq<Candidate>, read: set<Uri>, existing: set<Uri>)
    ensures UnreadUris(cs, read, existing) == [] <==> forall c :: c in cs ==> !Unread(c, read, existing)
  {
    if cs != [] {
      UnreadUrisNone(cs[..|cs| - 1], read, existing);
      assert cs == cs[..|cs| - 1] + [cs[|cs| - 1]];
    }
  }

  /** Does the safety check stop these candidates? */
  predicate Refetches(s: State, t: Turn) {
    t.response.Content? && t.response.candidates != [] && !s.reread &&
      UnreadUris(t.response.candidates, s.read, t.existing) != []
  }

  function Extended(s: State): State {
    if s.iteration >= s.limit then s.(limit := s.limit + 1) else s
  }

  function Refetched(s: State, t: Turn): State
    requires t.response.Content?
  {
    var uris := UnreadUris(t.response.candidates, s.read, t.existing);
    Extended(s.(reread := true, read := s.read + set u | u in uris && u in t.readable))
  }

  function AfterCalls(s: State, cs: seq<Call>): State {
    var s1 := s.(read := s.read + ReadUris(cs), disabled := s.disabled || HasUnknown(cs));
    if s.iteration >= s.limit then Extended(s1).(disabled := true) else s1
  }

  predicate Running(s: State) {
    !s.done && s.iteration < s.limit
  }

  function Next(s: State, t: Turn): State
    requires Running(s)
  {
    var s1 := s.(iteration := s.iteration + 1);
    if t.timedOut && s1.iteration > 1 then s1.(done := true)
    else if t.response.Calls? && t.response.calls != [] then AfterCalls(s1, t.response.calls)
    else if t.response.Content? && t.response.candidates != [] then
      if Refetches(s1, t) then Refetched(s1, t)
      else s1.(done := true, result := t.response.candidates)
    else if s1.iteration >= s1.limit then s1.(done := true)
    else s1.(disabled := true)
  }

  // ----- Runs -----

  predicate ValidRun(limit: int, prefetched: set<Uri>, ts: seq<Turn>)
    decreases |ts|, 0
  {
    ts == [] ||
    (ValidRun(limit, prefetched, ts[..|ts| - 1]) && Running(After(limit, prefetched, ts[..|ts| - 1])))
  }

  function After(limit: int, prefetched: set<Uri>, ts: seq<Turn>): State
    requires ValidRun(limit, prefetched, ts)
    decreases |ts|, 1
  {
    if ts == [] then Start(limit, prefetched)
    else Next(After(limit, prefetched, ts[..|ts| - 1]), ts[|ts| - 1])
  }

  lemma More(limit: int, prefetched: set<Uri>, ts: seq<Turn>, t: Turn)
    requires ValidRun(limit, prefetched, ts) && Running(After(limit, prefetched, ts))
    ensures ValidRun(limit, prefetched, ts + [t])
    ensures After(limit, prefetched, ts + [t]) == Next(After(limit, prefetched, ts), t)
  {
    assert (ts + [t])[..|ts|] == ts;
  }

  /** The model calls no tools when it is offered none. */
  predicate Heeds(s: State, t: Turn) {
    t.response.Calls? && t.response.calls != [] ==> !s.disabled
  }

  predicate AlwaysHeeds(limit: int, prefetched: set<Uri>, ts: seq<Turn>)
    requires ValidRun(limit, prefetched, ts)
  {
    ts == [] ||
    (AlwaysHeeds(limit, prefetched, ts[..|ts| - 1]) && Heeds(After(limit, prefetched, ts[..|ts| - 1]), ts[|ts| - 1]))
  }

  function One(b: bool): nat {
    if b then 1 else 0
  }

  /** The turns in which the model calls tools although it is offered none. */
  function Defiant(limit: int, prefetched: set<Uri>, ts: seq<Turn>): nat
    requires ValidRun(limit, prefetched, ts)
  {
    if ts == [] then 0 else
    var init := ts[..|ts| - 1];
    Defiant(limit, prefetched, init) + One(!Heeds(After(limit, prefetched, init), ts[|ts| - 1]))
  }

  /** The limit was raised at most once for a re-read, once for tool calls that were
      offered, and once for each turn of tool calls that were not. */
  lemma {:induction false} LimitIsBounded(limit: int, prefetched: set<Uri>, ts: seq<Turn>)
    requires ValidRun(limit, prefetched, ts) && limit >= 0
    ensures var s := After(limit, prefetched, ts);
      s.iteration == |ts| <= s.limit <= limit + One(s.disabled) + One(s.reread) + Defiant(limit, prefetched, ts)
  {
    hide UnreadUris, ReadUris, HasUnknown;
    if ts != [] { LimitIsBounded(limit, prefetched, ts[..|ts| - 1]); }
  }

  lemma {:induction false} NoLimitNoRun(limit: int, prefetched: set<Uri>, ts: seq<Turn>)
    requires ValidRun(limit, prefetched, ts) && limit <= 0
    ensures ts == []
  {
    if ts != [] { NoLimitNoRun(limit, prefetched, ts[..|ts| - 1]); }
  }

  /** Whatever the model does, the loop makes at most two iterations more than
      configured, apart from those in which the model calls tools it was not offered; and
      none at all unless the limit is positive. */
  lemma AtMostTwoMoreThanDefiant(limit: int, prefetched: set<Uri>, ts: seq<Turn>)
    requires ValidRun(limit, prefetched, ts)
    ensures if limit > 0 then |ts| <= limit + 2 + Defiant(limit, prefetched, ts) else ts == []
  {
    if limit > 0 { LimitIsBounded(limit, prefetched, ts); } else { NoLimitNoRun(limit, prefetched, ts); }
  }

  lemma {:induction false} HeedingIsNotDefiant(limit: int, prefetched: set<Uri>, ts: seq<Turn>)
    requires ValidRun(limit, prefetched, ts)
    ensures AlwaysHeeds(limit, prefetched, ts) <==> Defiant(limit, prefetched, ts) == 0
  {
    if ts != [] { HeedingIsNotDefiant(limit, prefetched, ts[..|ts| - 1]); }
  }

  /** So a model that calls no tools when offered none is held to two more. */
  lemma AtMostTwoMore(limit: int, prefetched: set<Uri>, ts: seq<Turn>)
    requires ValidRun(limit, prefetched, ts) && AlwaysHeeds(limit, prefetched, ts)
    ensures if limit > 0 then |ts| <= limit + 2 else ts == []
  {
    AtMostTwoMoreThanDefiant(limit, prefetched, ts);
    HeedingIsNotDefiant(limit, prefetched, ts);
  }

  lemma {:induction false} IterationCounts(limit: int, prefetched: set<Uri>, ts: seq<Turn>)
    requires ValidRun(limit, prefetched, ts)
    ensures After(limit, prefetched, ts).iteration == |ts|
  {
    hide UnreadUris, ReadUris, HasUnknown;
    if ts != [] { IterationCounts(limit, prefetched, ts[..|ts| - 1]); }
  }

  const LOOK: Turn := Turn(false, Calls([Known]), {}, {})

  function WriteTurn(u: Uri): Turn {
    Turn(false, Content([Candidate(Some(u), false)]), {u}, {})
  }

  /** Tool calls in all but the last iterations leave everything as it was. */
  lemma {:induction false} LookAround(limit: int, n: nat) returns (ts: seq<Turn>)
    requires n < limit
    ensures |ts| == n && ValidRun(limit, {}, ts) && AlwaysHeeds(limit, {}, ts)
    ensures After(limit, {}, ts) == Start(limit, {}).(iteration := n)
  {
    if n == 0 {
      ts := [];
    } else {
      var before := LookAround(limit, n - 1);
      ts := before + [LOOK];
      More(limit, {}, before, LOOK);
      assert ts[..|ts| - 1] == before;
    }
  }

  lemma HeedsMore(limit: int, ts: seq<Turn>, t: Turn)
    requires ValidRun(limit, {}, ts) && Running(After(limit, {}, ts)) && AlwaysHeeds(limit, {}, ts)
    requires Heeds(After(limit, {}, ts), t)
    ensures ValidRun(limit, {}, ts + [t]) && AlwaysHeeds(limit, {}, ts + [t])
  {
    More(limit, {}, ts, t);
    assert (ts + [t])[..|ts|] == ts;
  }

  /** The bound is reached for every positive limit: tool calls up to the last
      iteration, then candidates that must be re-read, then the final answer. */
  lemma TwoMoreIsReached(limit: int, u: Uri)
    requires limit >= 1
    ensures exists ts ::
      |ts| == limit + 2 && ValidRun(limit, {}, ts) && AlwaysHeeds(limit, {}, ts) && After(limit, {}, ts).result != []
  {
    hide UnreadUris, AlwaysHeeds, ValidRun;
    var t0 := LookAround(limit, limit - 1);
    More(limit, {}, t0, LOOK);
    HeedsMore(limit, t0, LOOK);
    var t1, w := t0 + [LOOK], WriteTurn(u);
    var s1 := After(limit, {}, t1);
    assert s1.limit == limit + 1 && s1.disabled && s1.read == {} by { LookReads(); }
    assert UnreadUris(w.response.candidates, {}, {u}) == [u] by { OneUnread(u); }
    More(limit, {}, t1, w);
    HeedsMore(limit, t1, w);
    var t2 := t1 + [w];
    More(limit, {}, t2, w);
    HeedsMore(limit, t2, w);
    assert |t2 + [w]| == limit + 2;
  }

  lemma LookReads()
    ensures ReadUris(LOOK.response.calls) == {}
  {
  }

  lemma OneUnread(u: Uri)
    ensures UnreadUris([Candidate(Some(u), false)], {}, {u}) == [u]
  {
  }

  /** A model that calls tools although it was offered none is never stopped. */
  lemma {:induction false} HeedlessRunsOn(limit: int, n: nat) returns (ts: seq<Turn>)
    requires limit >= 1
    ensures |ts| == n && ValidRun(limit, {}, ts) && Running(After(limit, {}, ts))
  {
    if n == 0 {
      ts := [];
    } else {
      hide ValidRun, After, Next;
      var before := HeedlessRunsOn(limit, n - 1);
      ts := before + [LOOK];
      More(limit, {}, before, LOOK);
      LookGoesOn(After(limit, {}, before));
    }
  }

  lemma LookGoesOn(s: State)
    requires Running(s)
    ensures Running(Next(s, LOOK))
  {
    hide ReadUris, HasUnknown;
  }

  // ----- Reading before writing -----

  /** The run ended with candidates at its last turn. */
  predicate Accepts(limit: int, prefetched: set<Uri>, ts: seq<Turn>)
    requires ValidRun(limit, prefetched, ts)
  {
    After(limit, prefetched, ts).result != []
  }

  lemma {:induction false} OnlyTheEndAccepts(limit: int, prefetched: set<Uri>, ts: seq<Turn>)
    requires ValidRun(limit, prefetched, ts)
    ensures var s := After(limit, prefetched, ts); s.result != [] ==> s.done
  {
    if ts != [] { OnlyTheEndAccepts(limit, prefetched, ts[..|ts| - 1]); }
  }

  /** Candidates are accepted only if no re-read happened and every existing target
      that is not add-only had been read, or if a re-read happened, once, and then
      nothing is checked any more. */
  lemma AcceptedWritesWereRead(limit: int, prefetched: set<Uri>, ts: seq<Turn>)
    requires ValidRun(limit, prefetched, ts) && Accepts(limit, prefetched, ts)
    ensures var s, t := After(limit, prefetched, ts), ts[|ts| - 1];
      && t.response == Content(s.result)
      && (s.reread || forall c, u :: c in s.result && Overwrites(c, u) && u in t.existing ==> u in s.read)
  {
    var init, t := ts[..|ts| - 1], ts[|ts| - 1];
    OnlyTheEndAccepts(limit, prefetched, init);
    var s := After(limit, prefetched, init);
    UnreadUrisNone(if t.response.Content? then t.response.candidates else [], s.read, t.existing);
  }

  /** Writing the candidate would replace u. */
  predicate Overwrites(c: Candidate, u: Uri) {
    c.target == Some(u) && !c.addOnly
  }

  /** The answer of turn k is heeded: the time is not up, or it is the first turn. */
  predicate Heard(ts: seq<Turn>, k: nat)
    requires k < |ts|
  {
    k == 0 || !ts[k].timedOut
  }

  predicate AskedAt(ts: seq<Turn>, k: int, u: Uri) {
    0 <= k < |ts| && Heard(ts, k) && ts[k].response.Calls? && u != "" && Read(u) in ts[k].response.calls
  }

  /** Turn k was answered by a re-read, u was one of the files, and could be read. */
  ghost predicate RereadAt(limit: int, prefetched: set<Uri>, ts: seq<Turn>, k: int, u: Uri)
    requires ValidRun(limit, prefetched, ts)
  {
    && 0 <= k < |ts| && ts[k].response.Content? && RefetchAt(limit, prefetched, ts, k)
    && u in ts[k].readable && u in ts[k].existing && u !in After(limit, prefetched, ts[..k]).read
    && exists c :: c in ts[k].response.candidates && Overwrites(c, u)
  }

  lemma {:induction false} UnreadUrisAre(cs: seq<Candidate>, read: set<Uri>, existing: set<Uri>, u: Uri)
    ensures u in UnreadUris(cs, read, existing) <==>
      u !in read && u in existing && exists c :: c in cs && Overwrites(c, u)
  {
    if cs != [] {
      var init, last := cs[..|cs| - 1], cs[|cs| - 1];
      UnreadUrisAre(init, read, existing, u);
      assert cs == init + [last];
      assert forall c :: c in cs <==> c in init || c == last;
      assert u in UnreadUris(cs, read, existing) <==>
        u in UnreadUris(init, read, existing) || (Unread(last, read, existing) && last.target.value == u);
      assert Unread(last, read, existing) && last.target.value == u <==>
        u !in read && u in existing && Overwrites(last, u);
    }
  }

  lemma StepReads(s: State, t: Turn, u: Uri)
    requires Running(s)
    ensures var s', heard := Next(s, t), s.iteration == 0 || !t.timedOut;
      u in s'.read <==>
        || u in s.read
        || (heard && t.response.Calls? && u != "" && Read(u) in t.response.calls)
        || (t.response.Content? && !s.reread && s'.reread && u in t.readable && u in t.existing &&
            exists c :: c in t.response.candidates && Overwrites(c, u))
  {
    hide UnreadUris, HasUnknown;
    if t.response.Content? { UnreadUrisAre(t.response.candidates, s.read, t.existing, u); }
  }

  /** The files that count as read are those fetched beforehand, those some tool call
      asked for, and those the re-read could read. */
  lemma {:induction false} ReadFilesAreHistory(limit: int, prefetched: set<Uri>, ts: seq<Turn>, u: Uri)
    requires ValidRun(limit, prefetched, ts)
    ensures u in After(limit, prefetched, ts).read <==>
      || u in prefetched
      || (exists k :: AskedAt(ts, k, u))
      || (exists k :: RereadAt(limit, prefetched, ts, k, u))
  {
    hide Next, AskedAt, RereadAt;
    if ts == [] {
      forall k ensures !AskedAt(ts, k, u) && !RereadAt(limit, prefetched, ts, k, u) {
        NothingYet(limit, prefetched, k, u);
      }
    } else {
      var init, n := ts[..|ts| - 1], |ts| - 1;
      ReadFilesAreHistory(limit, prefetched, init, u);
      IterationCounts(limit, prefetched, init);
      StepReads(After(limit, prefetched, init), ts[n], u);
      forall k ensures AskedAt(ts, k, u) <==> AskedAt(init, k, u) || (k == n && AskedAt(ts, n, u))
        ensures RereadAt(limit, prefetched, ts, k, u) <==>
          RereadAt(limit, prefetched, init, k, u) || (k == n && RereadAt(limit, prefetched, ts, n, u))
      {
        ReadsMore(limit, prefetched, ts, k, u);
      }
      LastReads(limit, prefetched, ts, u);
    }
  }

  lemma NothingYet(limit: int, prefetched: set<Uri>, k: int, u: Uri)
    requires ValidRun(limit, prefetched, [])
    ensures !AskedAt([], k, u) && !RereadAt(limit, prefetched, [], k, u)
  {
  }

  lemma ReadsMore(limit: int, prefetched: set<Uri>, ts: seq<Turn>, k: int, u: Uri)
    requires ValidRun(limit, prefetched, ts) && ts != []
    ensures var init, n := ts[..|ts| - 1], |ts| - 1;
      && (AskedAt(ts, k, u) <==> AskedAt(init, k, u) || (k == n && AskedAt(ts, n, u)))
      && (RereadAt(limit, prefetched, ts, k, u) <==>
          RereadAt(limit, prefetched, init, k, u) || (k == n && RereadAt(limit, prefetched, ts, n, u)))
  {
    hide ValidRun, After;
    if 0 <= k < |ts| - 1 {
      var init := ts[..|ts| - 1];
      assert init[k] == ts[k] && init[..k] == ts[..k] && init[..k + 1] == ts[..k + 1];
    }
  }

  lemma LastReads(limit: int, prefetched: set<Uri>, ts: seq<Turn>, u: Uri)
    requires ValidRun(limit, prefetched, ts) && ts != []
    ensures var init, n, t := ts[..|ts| - 1], |ts| - 1, ts[|ts| - 1];
      var s, s' := After(limit, prefetched, init), After(limit, prefetched, ts);
      && (AskedAt(ts, n, u) <==>
            (n == 0 || !t.timedOut) && t.response.Calls? && u != "" && Read(u) in t.response.calls)
      && (RereadAt(limit, prefetched, ts, n, u) <==>
            t.response.Content? && !s.reread && s'.reread && u in t.readable && u in t.existing && u !in s.read &&
            exists c :: c in t.response.candidates && Overwrites(c, u))
  {
    hide Next;
    assert ts[..|ts| - 1 + 1] == ts;
  }

  // ----- Why the loop ends -----

  /** A turn that brings neither tool calls nor candidates. */
  predicate Empty(t: Turn) {
    match t.response
    case Calls(calls) => calls == []
    case Content(candidates) => candidates == []
    case Nothing => true
  }

  lemma StepEnds(s: State, t: Turn)
    requires Running(s) && s.result == []
    ensures var s' := Next(s, t);
      && s'.iteration == s.iteration + 1 && s.limit <= s'.limit
      && (s'.done <==>
          || (t.timedOut && s.iteration > 0)
          || (t.response.Content? && t.response.candidates != [] && s'.result == t.response.candidates)
          || (Empty(t) && s'.iteration >= s.limit))
      && (s'.done || s'.iteration < s'.limit)
  {
    hide UnreadUris, ReadUris, HasUnknown;
  }

  lemma {:induction false} GoesOnUnlessDone(limit: int, prefetched: set<Uri>, ts: seq<Turn>)
    requires ValidRun(limit, prefetched, ts) && limit > 0
    ensures var s := After(limit, prefetched, ts); limit <= s.limit && (s.done || s.iteration < s.limit)
  {
    hide Next;
    if ts != [] {
      GoesOnUnlessDone(limit, prefetched, ts[..|ts| - 1]);
      OnlyTheEndAccepts(limit, prefetched, ts[..|ts| - 1]);
      StepEnds(After(limit, prefetched, ts[..|ts| - 1]), ts[|ts| - 1]);
    }
  }

  /** The loop ends for one of three reasons: the time is up after the first turn,
      candidates are accepted, or an answer is empty although the limit is reached. */
  lemma EndsOnlyFor(limit: int, prefetched: set<Uri>, ts: seq<Turn>)
    requires ValidRun(limit, prefetched, ts) && limit > 0
    ensures ts == [] ==> Running(After(limit, prefetched, ts))
    ensures ts != [] && !Running(After(limit, prefetched, ts)) ==>
      var s, t := After(limit, prefetched, ts), ts[|ts| - 1];
      || (t.timedOut && |ts| > 1)
      || (t.response.Content? && t.response.candidates != [] && s.result == t.response.candidates)
      || (Empty(t) && |ts| >= limit)
  {
    hide Next;
    GoesOnUnlessDone(limit, prefetched, ts);
    if ts != [] {
      IterationCounts(limit, prefetched, ts[..|ts| - 1]);
      GoesOnUnlessDone(limit, prefetched, ts[..|ts| - 1]);
      OnlyTheEndAccepts(limit, prefetched, ts[..|ts| - 1]);
      StepEnds(After(limit, prefetched, ts[..|ts| - 1]), ts[|ts| - 1]);
    }
  }

  /** Was turn k answered by a re-read? */
  predicate RefetchAt(limit: int, prefetched: set<Uri>, ts: seq<Turn>, k: nat)
    requires ValidRun(limit, prefetched, ts) && k < |ts|
  {
    ValidRun(limit, prefetched, ts[..k]) && !After(limit, prefetched, ts[..k]).reread
    && ValidRun(limit, prefetched, ts[..k + 1]) && After(limit, prefetched, ts[..k + 1]).reread
  }

  lemma {:induction false} RereadStays(limit: int, prefetched: set<Uri>, ts: seq<Turn>, k: nat)
    requires ValidRun(limit, prefetched, ts) && k <= |ts|
    ensures ValidRun(limit, prefetched, ts[..k])
    ensures After(limit, prefetched, ts[..k]).reread ==> After(limit, prefetched, ts).reread
  {
    if k == |ts| {
      assert ts[..k] == ts;
    } else {
      RereadStays(limit, prefetched, ts[..|ts| - 1], k);
      assert ts[..|ts| - 1][..k] == ts[..k];
    }
  }

  /** A re-read answers candidates one of which would replace an existing file that
      nobody had read. */
  lemma RereadsOnlyIfNeeded(limit: int, prefetched: set<Uri>, ts: seq<Turn>, k: nat)
    requires ValidRun(limit, prefetched, ts) && k < |ts| && RefetchAt(limit, prefetched, ts, k)
    ensures ts[k].response.Content? && exists c, u ::
      c in ts[k].response.candidates && Overwrites(c, u) && u in ts[k].existing &&
        u !in After(limit, prefetched, ts[..k]).read
  {
    var s, t := After(limit, prefetched, ts[..k]), ts[k];
    assert ts[..k + 1][..k] == ts[..k];
    assert Refetches(s.(iteration := s.iteration + 1), t);
    UnreadUrisNone(t.response.candidates, s.read, t.existing);
    var c :| c in t.response.candidates && Unread(c, s.read, t.existing);
    assert Overwrites(c, c.target.value);
  }

  // ----- When the tools are taken away -----

  /** Turn k calls an unknown tool, or any tool at the limit, or is empty before it. */
  predicate TakesTools(limit: int, prefetched: set<Uri>, ts: seq<Turn>, k: int)
    requires ValidRun(limit, prefetched, ts)
  {
    && 0 <= k < |ts| && Heard(ts, k) && ValidRun(limit, prefetched, ts[..k])
    && var atLimit, t := k + 1 >= After(limit, prefetched, ts[..k]).limit, ts[k];
       if Empty(t) then !atLimit else t.response.Calls? && (Unknown in t.response.calls || atLimit)
  }

  lemma StepTools(s: State, t: Turn)
    requires Running(s)
    ensures var atLimit := s.iteration + 1 >= s.limit;
      Next(s, t).disabled <==>
        || s.disabled
        || ((s.iteration == 0 || !t.timedOut) &&
            if Empty(t) then !atLimit else t.response.Calls? && (Unknown in t.response.calls || atLimit))
  {
    hide UnreadUris, ReadUris;
  }

  /** Tools are offered until a turn takes them away, and never again after that. */
  lemma {:induction false} ToolsAreHistory(limit: int, prefetched: set<Uri>, ts: seq<Turn>)
    requires ValidRun(limit, prefetched, ts)
    ensures After(limit, prefetched, ts).disabled <==> exists k :: TakesTools(limit, prefetched, ts, k)
  {
    hide Next, TakesTools;
    if ts == [] {
      forall k ensures !TakesTools(limit, prefetched, ts, k) { NoToolsTaken(limit, prefetched, k); }
    } else {
      var init, n := ts[..|ts| - 1], |ts| - 1;
      ToolsAreHistory(limit, prefetched, init);
      IterationCounts(limit, prefetched, init);
      StepTools(After(limit, prefetched, init), ts[n]);
      forall k ensures TakesTools(limit, prefetched, ts, k) <==>
        TakesTools(limit, prefetched, init, k) || (k == n && TakesTools(limit, prefetched, ts, n))
      {
        ToolsMore(limit, prefetched, ts, k);
      }
      LastTools(limit, prefetched, ts);
    }
  }

  lemma NoToolsTaken(limit: int, prefetched: set<Uri>, k: int)
    requires ValidRun(limit, prefetched, [])
    ensures !TakesTools(limit, prefetched, [], k)
  {
  }

  lemma ToolsMore(limit: int, prefetched: set<Uri>, ts: seq<Turn>, k: int)
    requires ValidRun(limit, prefetched, ts) && ts != []
    ensures var init, n := ts[..|ts| - 1], |ts| - 1;
      TakesTools(limit, prefetched, ts, k) <==>
        TakesTools(limit, prefetched, init, k) || (k == n && TakesTools(limit, prefetched, ts, n))
  {
    hide ValidRun, After;
    if 0 <= k < |ts| - 1 {
      var init := ts[..|ts| - 1];
      assert init[k] == ts[k] && init[..k] == ts[..k];
    }
  }

  lemma LastTools(limit: int, prefetched: set<Uri>, ts: seq<Turn>)
    requires ValidRun(limit, prefetched, ts) && ts != []
    ensures var init, n, t := ts[..|ts| - 1], |ts| - 1, ts[|ts| - 1];
      var atLimit := n + 1 >= After(limit, prefetched, init).limit;
      TakesTools(limit, prefetched, ts, n) <==>
        (n == 0 || !t.timedOut) && if Empty(t) then !atLimit
          else t.response.Calls? && (Unknown in t.response.calls || atLimit)
  {
    hide Next, After;
  }

  /** Files are re-read for safety at most once in a run. */
  lemma RefetchesOnce(limit: int, prefetched: set<Uri>, ts: seq<Turn>, j: nat, k: nat)
    requires ValidRun(limit, prefetched, ts) && j < |ts| && k < |ts|
    requires RefetchAt(limit, prefetched, ts, j) && RefetchAt(limit, prefetched, ts, k)
    ensures j == k
  {
    var a, b := if j < k then j else k, if j < k then k else j;
    if a < b {
      assert ts[..b][..a + 1] == ts[..a + 1];
      RereadStays(limit, prefetched, ts, b);
      RereadStays(limit, prefetched, ts[..b], a + 1);
    }
  }

  /** The run ends with a target that exists and was never read. */
  predicate WritesUnread(limit: int, prefetched: set<Uri>, ts: seq<Turn>)
    requires ValidRun(limit, prefetched, ts)
  {
    ts != [] && exists c ::
      c in After(limit, prefetched, ts).result && Unread(c, After(limit, prefetched, ts).read, ts[|ts| - 1].existing)
  }

  /** After a re-read a different file that exists and was never read is accepted as
      a target. */
  lemma RereadHidesOthers(u: Uri, v: Uri)
    requires u != v
    ensures exists ts :: ValidRun(2, {}, ts) && AlwaysHeeds(2, {}, ts) && WritesUnread(2, {}, ts)
  {
    hide ValidRun, After, AlwaysHeeds, UnreadUris;
    var w1, w2 := WriteTurn(u), WriteTurn(v);
    EmptyRun(2, {});
    More(2, {}, [], w1);
    HeedsMore(2, [], w1);
    OneUnread(u);
    var s1 := After(2, {}, [] + [w1]);
    assert s1.reread && s1.read == {} && s1.iteration == 1;
    More(2, {}, [] + [w1], w2);
    HeedsMore(2, [] + [w1], w2);
    var ts := [] + [w1] + [w2];
    var c := Candidate(Some(v), false);
    assert c in After(2, {}, ts).result && Unread(c, After(2, {}, ts).read, ts[|ts| - 1].existing);
  }

  // ----- The program -----

  class ExtractionReActLoop {
    const maxIterations: int
    var readFiles: set<Uri>
    var disableTools: bool
    var didSafetyReread: bool

    constructor (maxIterations: int)
      ensures this.maxIterations == maxIterations
    {
      this.maxIterations := maxIterations;
      readFiles, disableTools, didSafetyReread := {}, false, false;
    }

    /** The clock, the model and the file system.  `heeds` says whether the model calls
        no tools when it is offered none; from some iteration on the time is up. */
    method Ask(iteration: nat, heeds: bool, patience: nat) returns (t: Turn)
      ensures heeds && t.response.Calls? && t.response.calls != [] ==> !disableTools
      ensures iteration > patience ==> t.timedOut
    {
      var timedOut: bool, response: Response := *, *;
      var existing: set<Uri>, readable: set<Uri> := *, *;
      if heeds && response.Calls? && disableTools { response := Nothing; }
      t := Turn(timedOut || iteration > patience, response, existing, readable);
    }

    method ExecuteToolCalls(calls: seq<Call>) returns (hasUnknown: bool)
      modifies this`readFiles
      ensures readFiles == old(readFiles) + ReadUris(calls) && hasUnknown == HasUnknown(calls)
      ensures forall u :: u in readFiles <==> u in old(readFiles) || (u != "" && Read(u) in calls)
      ensures hasUnknown <==> exists c :: c in calls && c.Unknown?
    {
      hasUnknown := false;
      for i := 0 to |calls|
        invariant readFiles == old(readFiles) + ReadUris(calls[..i]) && hasUnknown == HasUnknown(calls[..i])
      {
        assert calls[..i + 1] == calls[..i] + [calls[i]];
        var c := calls[i];
        if c.Unknown? { hasUnknown := true; }
        if c.Read? && c.uri != "" { readFiles := readFiles + {c.uri}; }
        assert ReadUris(calls[..i + 1]) == ReadUris(calls[..i]) + if c.Read? && c.uri != "" then {c.uri} else {};
      }
      assert calls[..|calls|] == calls;
    }

    method CheckUnreadExistingFiles(candidates: seq<Candidate>, existing: set<Uri>) returns (uris: seq<Uri>)
      ensures uris == if didSafetyReread then [] else UnreadUris(candidates, readFiles, existing)
      ensures forall u :: u in uris <==>
        !didSafetyReread && u !in readFiles && u in existing && exists c :: c in candidates && Overwrites(c, u)
    {
      forall u { UnreadUrisAre(candidates, readFiles, existing, u); }
      if didSafetyReread { return []; }
      uris := [];
      for i := 0 to |candidates|
        invariant uris == UnreadUris(candidates[..i], readFiles, existing)
      {
        assert candidates[..i + 1][..i] == candidates[..i];
        var c := candidates[i];
        if c.target.Some? && !c.addOnly && c.target.value !in readFiles && c.target.value in existing {
          uris := uris + [c.target.value];
        }
      }
      assert candidates[..|candidates|] == candidates;
    }

    /** Read what was found unread; a file that cannot be read is passed over. */
    method AddRefetchResults(uris: seq<Uri>, readable: set<Uri>)
      modifies this`readFiles, this`didSafetyReread
      ensures didSafetyReread && readFiles == old(readFiles) + set u | u in uris && u in readable
    {
      didSafetyReread := true;
      for i := 0 to |uris|
        invariant didSafetyReread && readFiles == old(readFiles) + set u | u in uris[..i] && u in readable
      {
        assert uris[..i + 1] == uris[..i] + [uris[i]];
        if uris[i] in readable { readFiles := readFiles + {uris[i]}; }
      }
      assert uris[..|uris|] == uris;
    }

    ghost predicate Agrees(s: State, iteration: nat, limit: int, done: bool, candidates: seq<Candidate>)
      reads this
    {
      s == State(iteration, limit, readFiles, disableTools, didSafetyReread, done, candidates)
    }

    /** The whole loop, whatever the limit and however the model behaves: it ends, one
        iteration after the time is up at the latest, and with a heeding model two
        iterations after the limit; what it returns was checked against the files read. */
    method Run(prefetched: set<Uri>, heeds: bool, patience: nat)
      returns (candidates: seq<Candidate>, iterations: nat, ghost ts: seq<Turn>)
      modifies this
      ensures ValidRun(maxIterations, prefetched, ts) && (heeds ==> AlwaysHeeds(maxIterations, prefetched, ts))
      ensures var s := After(maxIterations, prefetched, ts);
        && !Running(s) && candidates == s.result && iterations == s.iteration == |ts|
        && readFiles == s.read && disableTools == s.disabled && didSafetyReread == s.reread
      ensures iterations <= 1 + if patience > 1 then patience else 1
      ensures maxIterations > 0 ==> iterations <= maxIterations + 2 + Defiant(maxIterations, prefetched, ts)
      ensures heeds ==> if maxIterations > 0 then iterations <= maxIterations + 2 else iterations == 0
      ensures candidates != [] && !didSafetyReread ==> forall c, u ::
        c in candidates && Overwrites(c, u) && u in ts[|ts| - 1].existing ==> u in readFiles
      ensures forall u :: u in readFiles <==>
        u in prefetched || (exists k :: AskedAt(ts, k, u)) ||
          (exists k :: RereadAt(maxIterations, prefetched, ts, k, u))
    {
      hide ValidRun, After, AlwaysHeeds, Defiant, UnreadUris, ReadUris, HasUnknown, AskedAt, RereadAt, Overwrites;
      readFiles, disableTools, didSafetyReread := {}, false, false;
      readFiles := readFiles + prefetched;
      iterations, candidates, ts := 0, [], [];
      var limit, done := maxIterations, false;
      EmptyRun(maxIterations, prefetched);
      while iterations < limit && !done
        invariant ValidRun(maxIterations, prefetched, ts) && (heeds ==> AlwaysHeeds(maxIterations, prefetched, ts))
        invariant Agrees(After(maxIterations, prefetched, ts), iterations, limit, done, candidates)
        invariant iterations <= (if patience > 1 then patience else 1) + One(done)
        decreases 1 + (if patience > 1 then patience else 1) - iterations
      {
        var t := Ask(iterations + 1, heeds, patience);
        ghost var s := After(maxIterations, prefetched, ts);
        OneMore(maxIterations, prefetched, ts, t);
        ts := ts + [t];
        iterations := iterations + 1;
        if t.timedOut && iterations > 1 {
          done := true;
        } else if t.response.Calls? && t.response.calls != [] {
          var hasUnknown := ExecuteToolCalls(t.response.calls);
          if hasUnknown { disableTools := true; }
          if iterations >= limit {
            limit := limit + 1;
            disableTools := true;
          }
        } else {
          var accepted;
          limit, accepted, done := HandleContent(t, iterations, limit, s.(iteration := iterations));
          if accepted { candidates := t.response.candidates; }
        }
      }
      IterationCounts(maxIterations, prefetched, ts);
      AtMostTwoMoreThanDefiant(maxIterations, prefetched, ts);
      if heeds { AtMostTwoMore(maxIterations, prefetched, ts); }
      if candidates != [] { AcceptedWritesWereRead(maxIterations, prefetched, ts); }
      forall u { ReadFilesAreHistory(maxIterations, prefetched, ts, u); }
    }

    /** Candidates are checked and then returned; an empty answer ends the loop in
        its last iteration and otherwise takes the tools away. */
    method HandleContent(t: Turn, iteration: nat, limit: int, ghost s: State)
      returns (limit': int, accepted: bool, done: bool)
      requires Agrees(s, iteration, limit, false, []) && !(t.response.Calls? && t.response.calls != [])
      modifies this
      ensures accepted ==> t.response.Content?
      ensures accepted <==> t.response.Content? && t.response.candidates != [] && !Refetches(s, t)
      ensures Agrees(if t.response.Content? && t.response.candidates != [] then
                       if Refetches(s, t) then Refetched(s, t) else s.(done := true, result := t.response.candidates)
                     else if iteration >= limit then s.(done := true) else s.(disabled := true),
                     iteration, limit', done, if accepted then t.response.candidates else [])
    {
      hide UnreadUris;
      limit', accepted, done := limit, false, false;
      if t.response.Content? && t.response.candidates != [] {
        var uris := CheckUnreadExistingFiles(t.response.candidates, t.existing);
        if uris != [] {
          AddRefetchResults(uris, t.readable);
          if iteration >= limit { limit' := limit + 1; }
        } else {
          accepted, done := true, true;
        }
      } else if iteration >= limit {
        done := true;
      } else {
        disableTools := true;
      }
    }
  }

  lemma EmptyRun(limit: int, prefetched: set<Uri>)
    ensures ValidRun(limit, prefetched, []) && AlwaysHeeds(limit, prefetched, [])
    ensures After(limit, prefetched, []) == Start(limit, prefetched)
  {
  }

  lemma OneMore(limit: int, prefetched: set<Uri>, ts: seq<Turn>, t: Turn)
    requires ValidRun(limit, prefetched, ts) && Running(After(limit, prefetched, ts))
    ensures ValidRun(limit, prefetched, ts + [t]) && After(limit, prefetched, ts).result == []
    ensures After(limit, prefetched, ts + [t]) == Next(After(limit, prefetched, ts), t)
    ensures AlwaysHeeds(limit, prefetched, ts) && Heeds(After(limit, prefetched, ts), t) ==>
      AlwaysHeeds(limit, prefetched, ts + [t])
  {
    More(limit, prefetched, ts, t);
    assert (ts + [t])[..|ts|] == ts;
    OnlyTheEndAccepts(limit, prefetched, ts);
  }
}
