/** Best-first expansion of retrieval/hierarchical_searcher.py.

    `State` is the loop's state together with its history: every offer pushed on
    the queue, every result above the threshold, every expansion and every top-k
    set that was compared.  Scores are real numbers; the vector index answers the
    children of a directory, cut to the pre-filter limit. */
module HierarchicalSearch {
  type Uri = string

  datatype Hit = Hit(uri: Uri, level: int, score: real, text: string)

  datatype Entry = Entry(hit: Hit, final: real)

  datatype Offer = Offer(score: real, uri: Uri)

  datatype Expansion = Expansion(uri: Uri, score: real, seen: nat)

  /** A dictionary in insertion order: one entry per URI. */
  type Collected = seq<Entry>

  datatype Env = Env(children: Uri -> seq<Hit>, alpha: real, threshold: real, limit: nat, maxRounds: int)

  datatype State = State(collected: Collected, queue: seq<Offer>, visited: set<Uri>, prev: set<Uri>, rounds: int,
                         stopped: bool, offers: seq<Offer>, found: seq<Entry>, expanded: seq<Expansion>,
                         tops: seq<set<Uri>>)

  // ----- The order of the queue: higher scores first, then smaller URIs -----

  predicate UriLess(a: Uri, b: Uri) {
    b != "" && (a == "" || a[0] < b[0] || (a[0] == b[0] && UriLess(a[1..], b[1..])))
  }

  lemma {:induction false} UriLessTotal(a: Uri, b: Uri)
    ensures a == b || UriLess(a, b) || UriLess(b, a)
    ensures !(UriLess(a, b) && UriLess(b, a)) && !UriLess(a, a)
  {
    if a != "" && b != "" {
      UriLessTotal(a[1..], b[1..]);
      UriLessTotal(a[1..], a[1..]);
      assert a == [a[0]] + a[1..] && b == [b[0]] + b[1..];
    } else if a != "" {
      UriLessTotal(a[1..], a[1..]);
    }
  }

  lemma {:induction false} UriLessTransitive(a: Uri, b: Uri, c: Uri)
    requires UriLess(a, b) && UriLess(b, c)
    ensures UriLess(a, c)
  {
    if a != "" && a[0] == b[0] == c[0] { UriLessTransitive(a[1..], b[1..], c[1..]); }
  }

  /** Character by character: a is a proper prefix of b, or less where they first differ. */
  lemma {:induction false} UriLessIsLexicographic(a: Uri, b: Uri)
    ensures UriLess(a, b) <==> exists n :: LessAt(a, b, n)
  {
    if a == "" || b == "" {
      assert b != "" ==> LessAt(a, b, 0);
    } else {
      UriLessIsLexicographic(a[1..], b[1..]);
      LexicographicTail(a, b);
      if n :| LessAt(a, b, n) { assert n > 0 ==> LessAt(a[1..], b[1..], n - 1); }
      if n :| LessAt(a[1..], b[1..], n) && a[0] == b[0] { assert LessAt(a, b, n + 1); }
    }
  }

  ghost predicate LessAt(a: Uri, b: Uri, n: int) {
    0 <= n <= |a| && n < |b| && a[..n] == b[..n] && (n < |a| ==> a[n] < b[n])
  }

  lemma LexicographicTail(a: Uri, b: Uri)
    requires a != "" && b != ""
    ensures LessAt(a, b, 0) <==> a[0] < b[0]
    ensures forall n :: n > 0 ==> (LessAt(a, b, n) <==> a[0] == b[0] && LessAt(a[1..], b[1..], n - 1))
  {
    forall n | n > 0 ensures LessAt(a, b, n) <==> a[0] == b[0] && LessAt(a[1..], b[1..], n - 1) {
      if n <= |a| && n <= |b| {
        assert a[..n] == [a[0]] + a[1..][..n - 1] && b[..n] == [b[0]] + b[1..][..n - 1];
      }
    }
  }

  predicate Before(x: Offer, y: Offer) {
    x.score > y.score || (x.score == y.score && UriLess(x.uri, y.uri))
  }

  /** The position heappop takes. */
  function BestIndex(q: seq<Offer>): (i: nat)
    requires q != []
    ensures i < |q|
  {
    if |q| == 1 then 0 else
    var i := BestIndex(q[..|q| - 1]);
    if Before(q[|q| - 1], q[i]) then |q| - 1 else i
  }

  lemma {:induction false} BestIsFirst(q: seq<Offer>)
    requires q != []
    ensures forall x :: x in q ==> x == q[BestIndex(q)] || Before(q[BestIndex(q)], x)
  {
    if |q| > 1 {
      var init, last := q[..|q| - 1], q[|q| - 1];
      BestIsFirst(init);
      var b := init[BestIndex(init)];
      UriLessTotal(last.uri, b.uri);
      forall x | x in q ensures x == q[BestIndex(q)] || Before(q[BestIndex(q)], x) {
        if x in init && x != b && UriLess(last.uri, b.uri) && UriLess(b.uri, x.uri) {
          UriLessTransitive(last.uri, b.uri, x.uri);
        }
      }
    } else {
      assert forall x :: x in q ==> x == q[0];
    }
  }

  function Without(q: seq<Offer>, i: nat): seq<Offer>
    requires i < |q|
  {
    q[..i] + q[i + 1..]
  }

  // ----- Stable descending sort -----

  function Insert(es: seq<Entry>, e: Entry): seq<Entry> {
    if es == [] || es[|es| - 1].final >= e.final then es + [e]
    else Insert(es[..|es| - 1], e) + [es[|es| - 1]]
  }

  /** sorted(key = score, reverse = True): equal scores keep their order. */
  function SortDesc(es: seq<Entry>): seq<Entry> {
    if es == [] then [] else Insert(SortDesc(es[..|es| - 1]), es[|es| - 1])
  }

  predicate Descending(es: seq<Entry>) {
    forall i, j :: 0 <= i < j < |es| ==> es[i].final >= es[j].final
  }

  lemma {:induction false} InsertPermutes(es: seq<Entry>, e: Entry)
    ensures multiset(Insert(es, e)) == multiset(es) + multiset{e}
  {
    if es != [] && es[|es| - 1].final < e.final {
      InsertPermutes(es[..|es| - 1], e);
      assert es == es[..|es| - 1] + [es[|es| - 1]];
    }
  }

  lemma {:induction false} InsertSorts(es: seq<Entry>, e: Entry)
    requires Descending(es)
    ensures Descending(Insert(es, e))
  {
    if es != [] && es[|es| - 1].final < e.final {
      var init, last := es[..|es| - 1], es[|es| - 1];
      InsertSorts(init, e);
      var out := Insert(init, e);
      forall i | 0 <= i < |out| ensures out[i].final >= last.final {
        InsertMembers(init, e, i);
      }
    }
  }

  lemma {:induction false} InsertMembers(es: seq<Entry>, e: Entry, i: nat)
    requires i < |Insert(es, e)|
    ensures Insert(es, e)[i] == e || Insert(es, e)[i] in es
  {
    if es != [] && es[|es| - 1].final < e.final && i < |Insert(es, e)| - 1 {
      InsertMembers(es[..|es| - 1], e, i);
    }
  }

  lemma {:induction false} SortSorts(es: seq<Entry>)
    ensures Descending(SortDesc(es)) && multiset(SortDesc(es)) == multiset(es)
  {
    if es != [] {
      SortSorts(es[..|es| - 1]);
      InsertSorts(SortDesc(es[..|es| - 1]), es[|es| - 1]);
      InsertPermutes(SortDesc(es[..|es| - 1]), es[|es| - 1]);
      assert es == es[..|es| - 1] + [es[|es| - 1]];
    }
  }

  /** The entries with one score, in order. */
  function Scored(es: seq<Entry>, x: real): seq<Entry> {
    if es == [] then [] else
    Scored(es[..|es| - 1], x) + if es[|es| - 1].final == x then [es[|es| - 1]] else []
  }

  lemma {:induction false} InsertIsStable(es: seq<Entry>, e: Entry, x: real)
    requires Descending(es)
    ensures Scored(Insert(es, e), x) == Scored(es + [e], x)
  {
    assert (es + [e])[..|es|] == es;
    if es != [] && es[|es| - 1].final < e.final {
      var init, last := es[..|es| - 1], es[|es| - 1];
      InsertIsStable(init, e, x);
      assert (Insert(init, e) + [last])[..|Insert(init, e)|] == Insert(init, e);
      assert (init + [e])[..|init|] == init;
    }
  }

  lemma {:induction false} SortIsStable(es: seq<Entry>, x: real)
    ensures Scored(SortDesc(es), x) == Scored(es, x)
  {
    if es != [] {
      var init, last := es[..|es| - 1], es[|es| - 1];
      SortSorts(init);
      SortIsStable(init, x);
      InsertIsStable(SortDesc(init), last, x);
      assert (SortDesc(init) + [last])[..|SortDesc(init)|] == SortDesc(init);
    }
  }

  // ----- The collected dictionary -----

  function Find(c: Collected, u: Uri): (i: nat)
    ensures i <= |c| && (i < |c| ==> c[i].hit.uri == u)
    ensures i == |c| ==> forall e :: e in c ==> e.hit.uri != u
  {
    if c == [] then 0
    else if c[|c| - 1].hit.uri == u then |c| - 1
    else
      var i := Find(c[..|c| - 1], u);
      if i == |c| - 1 then |c| else i
  }

  function Put(c: Collected, e: Entry): Collected {
    var i := Find(c, e.hit.uri);
    if i < |c| then c[i := e] else c + [e]
  }

  function PutBetter(c: Collected, e: Entry): Collected {
    var i := Find(c, e.hit.uri);
    if i < |c| && e.final <= c[i].final then c else Put(c, e)
  }

  function Initial(hits: seq<Hit>): Collected {
    if hits == [] then [] else
    var c, hit := Initial(hits[..|hits| - 1]), hits[|hits| - 1];
    if hit.level == 2 && hit.uri != "" then Put(c, Entry(hit, hit.score)) else c
  }

  // ----- The loop -----

  function Offers(starting: seq<Hit>): (os: seq<Offer>)
    ensures |os| == |starting|
  {
    seq(|starting|, i requires 0 <= i < |starting| => Offer(starting[i].score, starting[i].uri))
  }

  function Start(initial: seq<Hit>, starting: seq<Hit>): State {
    State(Initial(initial), Offers(starting), {}, {}, 0, false, Offers(starting), [], [], [])
  }

  /** A parent score of zero counts as no score. */
  function Final(env: Env, child: Hit, parent: real): real {
    if parent != 0.0 then env.alpha * child.score + (1.0 - env.alpha) * parent else child.score
  }

  function TakeChild(env: Env, s: State, parent: real, child: Hit): State {
    var f := Final(env, child, parent);
    if f <= env.threshold then s else
    var e := Entry(child, f);
    var s1 := s.(collected := PutBetter(s.collected, e), found := s.found + [e]);
    if child.uri !in s.visited && child.level != 2
    then s1.(queue := s.queue + [Offer(f, child.uri)], offers := s.offers + [Offer(f, child.uri)])
    else s1
  }

  function TakeChildren(env: Env, s: State, parent: real, cs: seq<Hit>): State {
    if cs == [] then s else TakeChild(env, TakeChildren(env, s, parent, cs[..|cs| - 1]), parent, cs[|cs| - 1])
  }

  function Top(c: Collected, limit: nat): seq<Entry> {
    var sorted := SortDesc(c);
    if |sorted| > limit then sorted[..limit] else sorted
  }

  function TopUris(c: Collected, limit: nat): set<Uri> {
    set e | e in Top(c, limit) :: e.hit.uri
  }

  /** Compare the top results with those of the last round. */
  function Round(env: Env, s: State): State {
    var top := TopUris(s.collected, env.limit);
    var s1 := s.(tops := s.tops + [top]);
    if top == s.prev && |top| >= env.limit
    then s1.(rounds := s.rounds + 1, stopped := s.rounds + 1 >= env.maxRounds)
    else s1.(rounds := 0, prev := top)
  }

  function Pop(s: State): State
    requires s.queue != []
  {
    s.(queue := Without(s.queue, BestIndex(s.queue)))
  }

  function Expand(env: Env, s: State, o: Offer): State {
    var s1 := s.(visited := s.visited + {o.uri}, expanded := s.expanded + [Expansion(o.uri, o.score, |s.offers|)]);
    var cs := env.children(o.uri);
    if cs == [] then s1 else Round(env, TakeChildren(env, s1, o.score, cs))
  }

  predicate Ended(s: State) {
    s.queue == [] || s.stopped
  }

  function Step(env: Env, s: State): State
    requires !Ended(s)
  {
    var o := s.queue[BestIndex(s.queue)];
    if o.uri in s.visited then Pop(s) else Expand(env, Pop(s), o)
  }

  function After(env: Env, s: State, n: nat): State {
    if n == 0 then s else
    var s1 := After(env, s, n - 1);
    if Ended(s1) then s1 else Step(env, s1)
  }

  // ----- Best offers -----

  /** While a URI is unvisited the queue holds every offer made to it, and it
      holds nothing but offers. */
  ghost predicate QueueOk(s: State) {
    && (forall o :: o in s.queue ==> o in s.offers)
    && (forall o :: o in s.offers && o.uri !in s.visited ==> o in s.queue)
  }

  ghost predicate IsBestOffer(offers: seq<Offer>, o: Offer) {
    o in offers && forall x :: x in offers && x.uri == o.uri ==> x.score <= o.score
  }

  ghost predicate ExpansionOk(s: State, k: nat)
    requires k < |s.expanded|
  {
    var e := s.expanded[k];
    && e.uri in s.visited && e.seen <= |s.offers| && IsBestOffer(s.offers[..e.seen], Offer(e.score, e.uri))
    && (forall j :: 0 <= j < k ==> s.expanded[j].uri != e.uri)
    && FirstInLine(s.offers[..e.seen], s.expanded[..k + 1], e)
  }

  /** Of the offers to directories not expanded yet none is better. */
  ghost predicate FirstInLine(offers: seq<Offer>, expanded: seq<Expansion>, e: Expansion) {
    forall x :: x in offers && (forall y :: y in expanded ==> y.uri != x.uri) ==>
      x.score < e.score || (x.score == e.score && UriLess(e.uri, x.uri))
  }

  ghost predicate ExpandedOk(s: State) {
    && (forall k :: 0 <= k < |s.expanded| ==> ExpansionOk(s, k))
    && (forall u :: u in s.visited ==> exists k :: 0 <= k < |s.expanded| && s.expanded[k].uri == u)
  }

  /** Offers only grow, and only at the end. */
  lemma {:induction false} TakeChildrenOffers(env: Env, s: State, parent: real, cs: seq<Hit>)
    requires QueueOk(s)
    ensures var s' := TakeChildren(env, s, parent, cs);
      && QueueOk(s') && s'.visited == s.visited && s'.expanded == s.expanded && s.offers <= s'.offers
      && s'.prev == s.prev && s'.rounds == s.rounds && s'.tops == s.tops && s'.stopped == s.stopped
  {
    hide Final, PutBetter;
    if cs != [] { TakeChildrenOffers(env, s, parent, cs[..|cs| - 1]); }
  }

  lemma ExpandedKept(s: State, s': State)
    requires ExpandedOk(s) && s'.visited == s.visited && s'.expanded == s.expanded && s.offers <= s'.offers
    ensures ExpandedOk(s')
  {
    hide IsBestOffer;
    forall k | 0 <= k < |s'.expanded| ensures ExpansionOk(s', k) {
      assert ExpansionOk(s, k);
      assert s'.offers[..s.expanded[k].seen] == s.offers[..s.expanded[k].seen];
      assert s'.expanded[..k + 1] == s.expanded[..k + 1];
    }
  }

  lemma PopOk(s: State)
    requires QueueOk(s) && !Ended(s)
    ensures var o := s.queue[BestIndex(s.queue)];
      && (o.uri in s.visited ==> QueueOk(Pop(s)))
      && QueueOk(Pop(s).(visited := s.visited + {o.uri}))
      && (o.uri !in s.visited ==> IsBestOffer(s.offers, o))
      && (forall x :: x in s.offers && x.uri !in s.visited ==> x == o || Before(o, x))
  {
    BestIsFirst(s.queue);
    var i, q := BestIndex(s.queue), s.queue;
    assert q == q[..i] + [q[i]] + q[i + 1..];
  }

  lemma StepOffers(env: Env, s: State)
    requires QueueOk(s) && ExpandedOk(s) && !Ended(s)
    ensures QueueOk(Step(env, s)) && ExpandedOk(Step(env, s))
  {
    hide IsBestOffer, TakeChildren, TopUris, BestIndex, Before;
    PopOk(s);
    var o := s.queue[BestIndex(s.queue)];
    if o.uri in s.visited {
      ExpandedKept(s, Pop(s));
    } else {
      var s0 := Pop(s);
      var s1 := s0.(visited := s0.visited + {o.uri},
        expanded := s0.expanded + [Expansion(o.uri, o.score, |s0.offers|)]);
      ExpandedKept(s, s0);
      ExpandedMore(s0, o);
      QueueSame(s0.(visited := s0.visited + {o.uri}), s1);
      TakeChildrenOffers(env, s1, o.score, env.children(o.uri));
      ExpandedKept(s1, Step(env, s));
    }
  }

  lemma QueueSame(s: State, s': State)
    requires QueueOk(s) && s'.queue == s.queue && s'.offers == s.offers && s'.visited == s.visited
    ensures QueueOk(s')
  {
  }

  lemma ExpandedMore(s: State, o: Offer)
    requires ExpandedOk(s) && o.uri !in s.visited && IsBestOffer(s.offers, o)
    requires forall x :: x in s.offers && x.uri !in s.visited ==> x == o || Before(o, x)
    ensures ExpandedOk(s.(visited := s.visited + {o.uri},
      expanded := s.expanded + [Expansion(o.uri, o.score, |s.offers|)]))
  {
    hide IsBestOffer;
    var s' := s.(visited := s.visited + {o.uri}, expanded := s.expanded + [Expansion(o.uri, o.score, |s.offers|)]);
    assert s.offers[..|s.offers|] == s.offers;
    forall k | 0 <= k < |s'.expanded| ensures ExpansionOk(s', k) {
      if k < |s.expanded| {
        assert ExpansionOk(s, k) && s'.expanded[..k + 1] == s.expanded[..k + 1];
      } else {
        NextInLine(s, o);
        assert s'.expanded[..k + 1] == s.expanded + [Expansion(o.uri, o.score, |s.offers|)];
      }
      forall j | 0 <= j < k && k == |s.expanded| ensures s'.expanded[j].uri != o.uri {
        assert ExpansionOk(s, j);
      }
    }
    forall u | u in s'.visited ensures exists k :: 0 <= k < |s'.expanded| && s'.expanded[k].uri == u {
      if u in s.visited {
        var k :| 0 <= k < |s.expanded| && s.expanded[k].uri == u;
        assert s'.expanded[k].uri == u;
      } else {
        assert s'.expanded[|s.expanded|].uri == u;
      }
    }
  }

  lemma NextInLine(s: State, o: Offer)
    requires ExpandedOk(s)
    requires forall x :: x in s.offers && x.uri !in s.visited ==> x == o || Before(o, x)
    ensures var e := Expansion(o.uri, o.score, |s.offers|); FirstInLine(s.offers, s.expanded + [e], e)
  {
    hide ExpansionOk, UriLess;
    var e := Expansion(o.uri, o.score, |s.offers|);
    assert e in s.expanded + [e];
    assert forall k :: 0 <= k < |s.expanded| ==> s.expanded[k] in s.expanded + [e];
    forall x | x in s.offers && (forall y :: y in s.expanded + [e] ==> y.uri != x.uri)
      ensures x.score < e.score || (x.score == e.score && UriLess(e.uri, x.uri))
    {
      assert x.uri !in s.visited;
    }
  }

  /** At every point, each directory was expanded at most once, with the best score
      that had been offered to it by then; no better offer to a directory not expanded
      yet had been made; and every offer made to a directory that is still unvisited is
      in the queue. */
  lemma {:induction false} ExpandsOnceWithTheBestOffer(env: Env, initial: seq<Hit>, starting: seq<Hit>, n: nat)
    ensures var s := After(env, Start(initial, starting), n); QueueOk(s) && ExpandedOk(s)
  {
    hide Initial, Step;
    if n > 0 {
      ExpandsOnceWithTheBestOffer(env, initial, starting, n - 1);
      var s := After(env, Start(initial, starting), n - 1);
      if !Ended(s) { StepOffers(env, s); }
    }
  }

  // ----- What is collected -----

  /** The first of the entries for its URI that have the highest score. */
  ghost predicate IsBestEntry(e: Entry, cands: seq<Entry>) {
    && (forall x :: x in cands && x.hit.uri == e.hit.uri ==> x.final <= e.final)
    && exists i :: IsFirstOf(e, cands, i)
  }

  ghost predicate IsFirstOf(e: Entry, cands: seq<Entry>, i: int) {
    && 0 <= i < |cands| && cands[i] == e
    && forall j :: 0 <= j < i && cands[j].hit.uri == e.hit.uri ==> cands[j].final < e.final
  }

  /** Before any entry for v there is one for u. */
  ghost predicate ComesBefore(cands: seq<Entry>, u: Uri, v: Uri) {
    forall b :: 0 <= b < |cands| && cands[b].hit.uri == v ==> exists a :: 0 <= a < b && cands[a].hit.uri == u
  }

  /** URIs in the order in which they first appeared. */
  ghost predicate InOrder(c: Collected, cands: seq<Entry>) {
    forall i, j :: 0 <= i < j < |c| ==> ComesBefore(cands, c[i].hit.uri, c[j].hit.uri)
  }

  ghost predicate OneEach(c: Collected) {
    forall i, j :: 0 <= i < j < |c| ==> c[i].hit.uri != c[j].hit.uri
  }

  /** One entry per URI among the candidates, and it is the best of them, the first if there
      are several; URIs come in the order of their first entries. */
  ghost predicate CollectedOk(c: Collected, cands: seq<Entry>) {
    && OneEach(c) && InOrder(c, cands)
    && (forall e :: e in c ==> IsBestEntry(e, cands))
    && (forall x :: x in cands ==> exists e :: e in c && e.hit.uri == x.hit.uri)
  }

  lemma StillBest(x: Entry, cands: seq<Entry>, e: Entry)
    requires IsBestEntry(x, cands) && (x.hit.uri == e.hit.uri ==> e.final <= x.final)
    ensures IsBestEntry(x, cands + [e])
  {
    var i :| IsFirstOf(x, cands, i);
    assert IsFirstOf(x, cands + [e], i);
  }

  lemma NowBest(x: Entry, cands: seq<Entry>, e: Entry)
    requires IsBestEntry(x, cands) && x.hit.uri == e.hit.uri && x.final < e.final
    ensures IsBestEntry(e, cands + [e])
  {
    assert IsFirstOf(e, cands + [e], |cands|);
  }

  lemma Occurs(x: Entry, cands: seq<Entry>)
    requires IsBestEntry(x, cands)
    ensures x in cands && exists a :: 0 <= a < |cands| && cands[a].hit.uri == x.hit.uri
  {
    var i :| IsFirstOf(x, cands, i);
  }

  lemma OrderMore(c: Collected, cands: seq<Entry>, e: Entry)
    requires InOrder(c, cands) && forall x :: x in c ==> IsBestEntry(x, cands)
    ensures InOrder(c, cands + [e])
  {
    hide IsBestEntry;
    forall i, j | 0 <= i < j < |c| ensures ComesBefore(cands + [e], c[i].hit.uri, c[j].hit.uri) {
      BeforeMore(cands, c[i], c[j].hit.uri, e);
    }
  }

  lemma BeforeMore(cands: seq<Entry>, x: Entry, v: Uri, e: Entry)
    requires IsBestEntry(x, cands) && ComesBefore(cands, x.hit.uri, v)
    ensures ComesBefore(cands + [e], x.hit.uri, v)
  {
    hide IsBestEntry;
    Occurs(x, cands);
    var more := cands + [e];
    forall b | 0 <= b < |more| && more[b].hit.uri == v ensures exists a :: 0 <= a < b && more[a].hit.uri == x.hit.uri {
      if b < |cands| {
        var a :| 0 <= a < b && cands[a].hit.uri == x.hit.uri;
        assert more[a].hit.uri == x.hit.uri;
      } else {
        var a :| 0 <= a < |cands| && cands[a].hit.uri == x.hit.uri;
        assert more[a].hit.uri == x.hit.uri;
      }
    }
  }

  lemma LastInOrder(c: Collected, cands: seq<Entry>, e: Entry)
    requires CollectedOk(c, cands) && forall x :: x in c ==> x.hit.uri != e.hit.uri
    ensures InOrder(c + [e], cands + [e])
  {
    hide IsBestEntry, OneEach;
    OrderMore(c, cands, e);
    var c', more := c + [e], cands + [e];
    forall i, j | 0 <= i < j < |c'| ensures ComesBefore(more, c'[i].hit.uri, c'[j].hit.uri) {
      if j == |c| {
        Occurs(c[i], cands);
        var a :| 0 <= a < |cands| && cands[a].hit.uri == c[i].hit.uri;
        assert more[a].hit.uri == c[i].hit.uri;
        assert forall b :: 0 <= b < |cands| ==> cands[b] in cands && more[b] == cands[b];
      }
    }
  }

  lemma FirstOfItsUri(c: Collected, cands: seq<Entry>, e: Entry)
    requires CollectedOk(c, cands) && forall x :: x in c ==> x.hit.uri != e.hit.uri
    ensures IsBestEntry(e, cands + [e]) && OneEach(c + [e])
  {
    hide IsBestEntry;
    assert forall x :: x in cands ==> x.hit.uri != e.hit.uri;
    FirstOfAll(cands, e);
  }

  lemma FirstOfAll(cands: seq<Entry>, e: Entry)
    requires forall x :: x in cands ==> x.hit.uri != e.hit.uri
    ensures IsBestEntry(e, cands + [e])
  {
    assert IsFirstOf(e, cands + [e], |cands|);
  }

  lemma AddNew(c: Collected, cands: seq<Entry>, e: Entry)
    requires CollectedOk(c, cands) && forall x :: x in c ==> x.hit.uri != e.hit.uri
    ensures CollectedOk(c + [e], cands + [e])
  {
    hide IsBestEntry, OneEach, InOrder;
    FirstOfItsUri(c, cands, e);
    LastInOrder(c, cands, e);
    var c' := c + [e];
    forall k | 0 <= k < |c'| ensures IsBestEntry(c'[k], cands + [e]) {
      if k < |c| { StillBest(c[k], cands, e); }
    }
    forall x | x in cands + [e] ensures exists y :: y in c' && y.hit.uri == x.hit.uri {
      if x in cands {
        var y :| y in c && y.hit.uri == x.hit.uri;
        assert y in c';
      } else {
        assert c'[|c|] in c';
      }
    }
  }

  lemma SameOrder(c: Collected, c': Collected, cands: seq<Entry>)
    requires InOrder(c, cands) && |c'| == |c| && forall i :: 0 <= i < |c| ==> c'[i].hit.uri == c[i].hit.uri
    ensures InOrder(c', cands)
  {
    hide ComesBefore;
  }

  lemma Replace(c: Collected, cands: seq<Entry>, e: Entry, i: nat)
    requires CollectedOk(c, cands) && i < |c| && c[i].hit.uri == e.hit.uri && c[i].final < e.final
    ensures CollectedOk(c[i := e], cands + [e])
  {
    hide IsBestEntry;
    var c' := c[i := e];
    OrderMore(c, cands, e);
    SameOrder(c, c', cands + [e]);
    hide InOrder;
    forall x | x in c' ensures IsBestEntry(x, cands + [e]) {
      if k :| 0 <= k < |c| && k != i && c[k] == x { StillBest(x, cands, e); } else { NowBest(c[i], cands, e); }
    }
    forall x | x in cands + [e] ensures exists y :: y in c' && y.hit.uri == x.hit.uri {
      if x in cands {
        var y :| y in c && y.hit.uri == x.hit.uri;
        var k :| 0 <= k < |c| && c[k] == y;
        assert c'[k] in c' && c'[k].hit.uri == x.hit.uri;
      } else {
        assert c'[i] in c';
      }
    }
  }

  lemma Keep(c: Collected, cands: seq<Entry>, e: Entry, i: nat)
    requires CollectedOk(c, cands) && i < |c| && c[i].hit.uri == e.hit.uri && e.final <= c[i].final
    ensures CollectedOk(c, cands + [e])
  {
    hide IsBestEntry;
    OrderMore(c, cands, e);
    hide InOrder;
    forall x | x in c ensures IsBestEntry(x, cands + [e]) {
      var k :| 0 <= k < |c| && c[k] == x;
      StillBest(x, cands, e);
    }
    assert c[i] in c;
  }

  lemma PutBetterOk(c: Collected, cands: seq<Entry>, e: Entry)
    requires CollectedOk(c, cands)
    ensures CollectedOk(PutBetter(c, e), cands + [e])
  {
    hide CollectedOk;
    var i := Find(c, e.hit.uri);
    if i == |c| { AddNew(c, cands, e); }
    else if e.final <= c[i].final { Keep(c, cands, e, i); }
    else { Replace(c, cands, e, i); }
  }

  lemma {:induction false} TakeChildrenCollected(env: Env, s: State, parent: real, cs: seq<Hit>, cands: seq<Entry>)
    requires CollectedOk(s.collected, cands + s.found)
    ensures var s' := TakeChildren(env, s, parent, cs); CollectedOk(s'.collected, cands + s'.found)
  {
    hide CollectedOk, PutBetter, Final;
    if cs != [] {
      var child := cs[|cs| - 1];
      TakeChildrenCollected(env, s, parent, cs[..|cs| - 1], cands);
      var s1 := TakeChildren(env, s, parent, cs[..|cs| - 1]);
      var e := Entry(child, Final(env, child, parent));
      PutBetterOk(s1.collected, cands + s1.found, e);
      assert cands + s1.found + [e] == cands + (s1.found + [e]);
    }
  }

  lemma {:induction false} InitialDistinct(hits: seq<Hit>)
    ensures OneEach(Initial(hits))
  {
    if hits != [] { InitialDistinct(hits[..|hits| - 1]); }
  }

  /** The initial entries: leaf hits with a URI, and of several with the same URI
      the last one. */
  lemma {:induction false} InitialIsLastLeaf(hits: seq<Hit>, k: nat)
    requires k < |hits| && hits[k].level == 2 && hits[k].uri != ""
    requires forall j :: k < j < |hits| && hits[j].level == 2 ==> hits[j].uri != hits[k].uri
    ensures Entry(hits[k], hits[k].score) in Initial(hits)
  {
    var n := |hits| - 1;
    var c := Initial(hits[..n]);
    if k < n {
      InitialIsLastLeaf(hits[..n], k);
      var i :| 0 <= i < |c| && c[i] == Entry(hits[k], hits[k].score);
      assert Initial(hits)[i] == c[i];
    } else {
      var c' := Initial(hits);
      assert c'[Find(c, hits[k].uri)] == Entry(hits[k], hits[k].score);
    }
  }

  lemma {:induction false} InitialOnlyLeaves(hits: seq<Hit>)
    ensures forall e :: e in Initial(hits) ==>
      e.hit in hits && e.hit.level == 2 && e.hit.uri != "" && e.final == e.hit.score
  {
    if hits != [] { InitialOnlyLeaves(hits[..|hits| - 1]); }
  }

  lemma StartCollected(initial: seq<Hit>, starting: seq<Hit>)
    ensures CollectedOk(Initial(initial), Initial(initial) + [])
  {
    var c := Initial(initial);
    InitialDistinct(initial);
    assert c + [] == c;
    forall e | e in c ensures IsBestEntry(e, c) {
      var i :| 0 <= i < |c| && c[i] == e;
      assert IsFirstOf(e, c, i);
    }
  }

  /** At every point the collected map holds, for each URI, the best of its initial
      entry and all results above the threshold found so far. */
  lemma {:induction false} CollectsTheBest(env: Env, initial: seq<Hit>, starting: seq<Hit>, n: nat)
    ensures var s := After(env, Start(initial, starting), n); CollectedOk(s.collected, Initial(initial) + s.found)
  {
    hide Initial, CollectedOk, BestIndex, TakeChildren;
    if n == 0 {
      StartCollected(initial, starting);
    } else {
      CollectsTheBest(env, initial, starting, n - 1);
      var s := After(env, Start(initial, starting), n - 1);
      if !Ended(s) {
        var o := s.queue[BestIndex(s.queue)];
        var s0 := Pop(s);
        var s1 := s0.(visited := s0.visited + {o.uri},
          expanded := s0.expanded + [Expansion(o.uri, o.score, |s0.offers|)]);
        TakeChildrenCollected(env, s1, o.score, env.children(o.uri), Initial(initial));
      }
    }
  }

  // ----- What is found, and where it leads -----

  /** A child of the k-th expansion scores above the threshold. */
  ghost predicate Found(env: Env, s: State, k: nat, child: Hit)
    requires k < |s.expanded|
  {
    child in env.children(s.expanded[k].uri) && Final(env, child, s.expanded[k].score) > env.threshold
  }

  ghost function EntryOf(env: Env, s: State, k: nat, child: Hit): Entry
    requires k < |s.expanded|
  {
    Entry(child, Final(env, child, s.expanded[k].score))
  }

  ghost predicate Reached(s: State, u: Uri) {
    u in s.visited || exists o :: o in s.queue && o.uri == u
  }

  /** Every such child was found, and unless it is a leaf it is visited or queued. */
  ghost predicate ChildOk(env: Env, s: State, k: nat, child: Hit)
    requires k < |s.expanded|
  {
    Found(env, s, k, child) ==> EntryOf(env, s, k, child) in s.found && (child.level != 2 ==> Reached(s, child.uri))
  }

  ghost predicate ClosureOk(env: Env, s: State) {
    && (forall k, child :: 0 <= k < |s.expanded| && child in env.children(s.expanded[k].uri) ==>
      ChildOk(env, s, k, child))
    && (forall e :: e in s.found ==>
      exists k :: 0 <= k < |s.expanded| && Found(env, s, k, e.hit) && e == EntryOf(env, s, k, e.hit))
  }

  /** The expansion list and the found results grow; visited and queued URIs stay reached. */
  ghost predicate Grows(s: State, s': State) {
    s.expanded <= s'.expanded && s.found <= s'.found && forall u :: Reached(s, u) ==> Reached(s', u)
  }

  lemma ChildKept(env: Env, s: State, s': State, k: nat, child: Hit)
    requires k < |s.expanded| && ChildOk(env, s, k, child) && Grows(s, s')
    ensures ChildOk(env, s', k, child)
  {
    hide Reached;
    assert s'.expanded[k] == s.expanded[k];
    if Found(env, s', k, child) { assert EntryOf(env, s, k, child) in s.found; }
  }

  lemma OldFound(env: Env, s: State, s': State, e: Entry)
    requires ClosureOk(env, s) && s.expanded <= s'.expanded && e in s.found
    ensures exists k :: 0 <= k < |s'.expanded| && Found(env, s', k, e.hit) && e == EntryOf(env, s', k, e.hit)
  {
    var k :| 0 <= k < |s.expanded| && Found(env, s, k, e.hit) && e == EntryOf(env, s, k, e.hit);
    assert s'.expanded[k] == s.expanded[k] && Found(env, s', k, e.hit) && e == EntryOf(env, s', k, e.hit);
  }

  /** While the children of the last expansion are taken one by one. */
  lemma {:induction false} TakeChildrenFound(env: Env, s: State, parent: real, cs: seq<Hit>)
    ensures var s' := TakeChildren(env, s, parent, cs);
      && Grows(s, s') && s'.expanded == s.expanded && s'.visited == s.visited
      && (forall child :: child in cs && Final(env, child, parent) > env.threshold ==>
            Entry(child, Final(env, child, parent)) in s'.found && (child.level != 2 ==> Reached(s', child.uri)))
      && (forall e :: e in s'.found && e !in s.found ==>
            e.hit in cs && e.final == Final(env, e.hit, parent) && e.final > env.threshold)
  {
    hide PutBetter, Final;
    if cs != [] {
      var init := cs[..|cs| - 1];
      TakeChildrenFound(env, s, parent, init);
      TakeChildFound(env, TakeChildren(env, s, parent, init), parent, cs[|cs| - 1]);
      assert forall child :: child in cs ==> child in init || child == cs[|cs| - 1];
    }
  }

  lemma TakeChildFound(env: Env, s: State, parent: real, child: Hit)
    ensures var s' := TakeChild(env, s, parent, child);
      && Grows(s, s')
      && (Final(env, child, parent) > env.threshold ==>
            Entry(child, Final(env, child, parent)) in s'.found && (child.level != 2 ==> Reached(s', child.uri)))
      && (forall e :: e in s'.found ==>
        e in s.found || (e == Entry(child, Final(env, child, parent)) && e.final > env.threshold))
  {
    hide PutBetter, Final;
    var s', o := TakeChild(env, s, parent, child), Offer(Final(env, child, parent), child.uri);
    forall u | Reached(s, u) ensures Reached(s', u) {
      if x :| x in s.queue && x.uri == u { assert x in s'.queue; }
    }
    if s'.queue != s.queue { assert o in s'.queue; }
  }

  lemma PopReached(s: State)
    requires !Ended(s)
    ensures var o := s.queue[BestIndex(s.queue)];
      && Grows(s, Pop(s).(visited := s.visited + {o.uri}))
      && (o.uri in s.visited ==> Grows(s, Pop(s)))
  {
    var i, q := BestIndex(s.queue), s.queue;
    assert q == q[..i] + [q[i]] + q[i + 1..];
    var s' := Pop(s).(visited := s.visited + {q[i].uri});
    forall u | Reached(s, u) ensures Reached(s', u) && (q[i].uri in s.visited ==> Reached(Pop(s), u)) {
      if x :| x in q && x.uri == u && x != q[i] { assert x in s'.queue; }
    }
  }

  lemma GrowsOn(s: State, s1: State, s2: State)
    requires Grows(s, s1) && Grows(s1, s2)
    ensures Grows(s, s2)
  {
    hide Reached;
  }

  lemma SameReach(s: State, s': State)
    requires s'.queue == s.queue && s'.visited == s.visited && s.expanded <= s'.expanded && s.found <= s'.found
    ensures Grows(s, s')
  {
    forall u | Reached(s, u) ensures Reached(s', u) {
      if x :| x in s.queue && x.uri == u { assert x in s'.queue; }
    }
  }

  lemma ExpandClosure(env: Env, s: State)
    requires ClosureOk(env, s) && !Ended(s) && s.queue[BestIndex(s.queue)].uri !in s.visited
    ensures ClosureOk(env, Step(env, s))
  {
    hide Reached, TopUris, TakeChildren, BestIndex, Final;
    var o := s.queue[BestIndex(s.queue)];
    var s0 := Pop(s).(visited := s.visited + {o.uri});
    var s1 := s0.(expanded := s.expanded + [Expansion(o.uri, o.score, |s.offers|)]);
    var cs := env.children(o.uri);
    var s2, s' := TakeChildren(env, s1, o.score, cs), Step(env, s);
    PopReached(s);
    SameReach(s0, s1);
    GrowsOn(s, s0, s1);
    TakeChildrenFound(env, s1, o.score, cs);
    GrowsOn(s, s1, s2);
    if cs != [] { SameReach(s2, s'); GrowsOn(s, s2, s'); } else { assert s' == s1; }
    var n := |s.expanded|;
    forall k, child | 0 <= k < |s'.expanded| && child in env.children(s'.expanded[k].uri)
      ensures ChildOk(env, s', k, child)
    {
      if k < n {
        assert ChildOk(env, s, k, child);
        ChildKept(env, s, s', k, child);
      }
    }
    forall e | e in s'.found
      ensures exists k :: 0 <= k < |s'.expanded| && Found(env, s', k, e.hit) && e == EntryOf(env, s', k, e.hit)
    {
      if e in s.found { OldFound(env, s, s', e); } else { assert Found(env, s', n, e.hit); }
    }
  }

  lemma SkipClosure(env: Env, s: State)
    requires ClosureOk(env, s) && !Ended(s) && s.queue[BestIndex(s.queue)].uri in s.visited
    ensures ClosureOk(env, Step(env, s))
  {
    hide Reached, Final;
    var s' := Step(env, s);
    PopReached(s);
    forall k, child | 0 <= k < |s'.expanded| && child in env.children(s'.expanded[k].uri)
      ensures ChildOk(env, s', k, child)
    {
      assert ChildOk(env, s, k, child);
      ChildKept(env, s, s', k, child);
    }
    forall e | e in s'.found
      ensures exists k :: 0 <= k < |s'.expanded| && Found(env, s', k, e.hit) && e == EntryOf(env, s', k, e.hit)
    {
      OldFound(env, s, s', e);
    }
  }

  lemma {:induction false} ClosedAlways(env: Env, initial: seq<Hit>, starting: seq<Hit>, n: nat)
    ensures ClosureOk(env, After(env, Start(initial, starting), n))
  {
    hide Initial, Step, Final;
    if n > 0 {
      ClosedAlways(env, initial, starting, n - 1);
      var s := After(env, Start(initial, starting), n - 1);
      if !Ended(s) {
        if s.queue[BestIndex(s.queue)].uri in s.visited { SkipClosure(env, s); } else { ExpandClosure(env, s); }
      }
    }
  }

  /** The score f of a child at c below a directory at p: from p it goes towards c, the
      share alpha of the way.  A directory at zero counts as having no score. */
  ghost predicate Blends(env: Env, p: real, c: real, f: real) {
    if p == 0.0 then f == c else f - p == env.alpha * (c - p)
  }

  lemma FinalBlends(env: Env, child: Hit, p: real, f: real)
    ensures Blends(env, p, child.score, f) <==> f == Final(env, child, p)
  {
    assert env.alpha * (child.score - p) == env.alpha * child.score - env.alpha * p;
  }

  /** e is a child of the k-th directory expanded, with the blended score, and above the
      threshold. */
  ghost predicate FoundAt(env: Env, s: State, k: int, e: Entry) {
    && 0 <= k < |s.expanded| && e.hit in env.children(s.expanded[k].uri)
    && Blends(env, s.expanded[k].score, e.hit.score, e.final) && e.final > env.threshold
  }

  /** Exactly these entries were found, and unless it is a leaf each leads on. */
  ghost predicate FoundAll(env: Env, s: State) {
    && (forall e :: e in s.found <==> exists k :: FoundAt(env, s, k, e))
    && (forall k, e :: FoundAt(env, s, k, e) && e.hit.level != 2 ==> Reached(s, e.hit.uri))
  }

  lemma FoundAtIs(env: Env, s: State, k: nat, e: Entry)
    requires k < |s.expanded|
    ensures FoundAt(env, s, k, e) <==> Found(env, s, k, e.hit) && e == EntryOf(env, s, k, e.hit)
  {
    hide Blends, Final;
    FinalBlends(env, e.hit, s.expanded[k].score, e.final);
  }

  lemma ClosedFindsAll(env: Env, s: State)
    requires ClosureOk(env, s)
    ensures FoundAll(env, s)
  {
    hide Reached, Found, EntryOf, FoundAt;
    forall k, e | FoundAt(env, s, k, e) ensures e in s.found && (e.hit.level != 2 ==> Reached(s, e.hit.uri)) {
      FoundAtRange(env, s, k, e);
      FoundAtIs(env, s, k, e);
      assert ChildOk(env, s, k, e.hit);
    }
    forall e | e in s.found ensures exists k :: FoundAt(env, s, k, e) {
      var k :| 0 <= k < |s.expanded| && Found(env, s, k, e.hit) && e == EntryOf(env, s, k, e.hit);
      FoundAtIs(env, s, k, e);
    }
  }

  lemma FoundAtRange(env: Env, s: State, k: int, e: Entry)
    requires FoundAt(env, s, k, e)
    ensures 0 <= k < |s.expanded| && e.hit in env.children(s.expanded[k].uri)
  {
  }

  /** At every point an entry was found if and only if its hit is a child of an expanded
      directory, its score is the blend of both raw scores, and that exceeds the
      threshold; unless it is a leaf its URI is visited or queued. */
  lemma FindsEveryChild(env: Env, initial: seq<Hit>, starting: seq<Hit>, n: nat)
    ensures var s := After(env, Start(initial, starting), n);
      && (forall e :: e in s.found <==> exists k :: FoundAt(env, s, k, e))
      && (forall k, e :: FoundAt(env, s, k, e) && e.hit.level != 2 ==> Reached(s, e.hit.uri))
    ensures FoundAll(env, After(env, Start(initial, starting), n))
  {
    hide After, ClosureOk, FoundAt, Reached;
    ClosedAlways(env, initial, starting, n);
    ClosedFindsAll(env, After(env, Start(initial, starting), n));
  }

  /** An offer is a starting point or a result above the threshold that is no leaf. */
  ghost predicate OfferOk(s: State, starting: seq<Hit>, o: Offer) {
    || (exists i :: 0 <= i < |starting| && o.uri == starting[i].uri && o.score == starting[i].score)
    || (exists e :: e in s.found && e.hit.level != 2 && e.hit.uri == o.uri && e.final == o.score)
  }

  ghost predicate OffersOk(s: State, starting: seq<Hit>) {
    forall o :: o in s.offers ==> OfferOk(s, starting, o)
  }

  lemma {:induction false} TakeChildrenOffered(env: Env, s: State, starting: seq<Hit>, parent: real, cs: seq<Hit>)
    requires OffersOk(s, starting)
    ensures OffersOk(TakeChildren(env, s, parent, cs), starting)
  {
    hide PutBetter, Final, Offers;
    if cs != [] {
      TakeChildrenOffered(env, s, starting, parent, cs[..|cs| - 1]);
      var s1, s2 := TakeChildren(env, s, parent, cs[..|cs| - 1]), TakeChildren(env, s, parent, cs);
      forall o | o in s2.offers ensures OfferOk(s2, starting, o) {
        if o in s1.offers {
          assert OfferOk(s1, starting, o);
        } else {
          assert s2.found[|s1.found|] in s2.found;
        }
      }
    }
  }

  lemma {:induction false} OffersAreResults(env: Env, initial: seq<Hit>, starting: seq<Hit>, n: nat)
    ensures OffersOk(After(env, Start(initial, starting), n), starting)
  {
    hide Initial, TakeChildren, BestIndex, TopUris, OfferOk;
    if n == 0 {
      forall o | o in Offers(starting) ensures OfferOk(Start(initial, starting), starting, o) {
        StartOffer(Start(initial, starting), starting, o);
      }
    } else {
      OffersAreResults(env, initial, starting, n - 1);
      var s := After(env, Start(initial, starting), n - 1);
      if !Ended(s) {
        var o := s.queue[BestIndex(s.queue)];
        var s0 := Pop(s);
        var s1 := s0.(visited := s0.visited + {o.uri},
          expanded := s0.expanded + [Expansion(o.uri, o.score, |s0.offers|)]);
        SameOffers(s, s0, starting);
        SameOffers(s, s1, starting);
        TakeChildrenOffered(env, s1, starting, o.score, env.children(o.uri));
        SameOffers(TakeChildren(env, s1, o.score, env.children(o.uri)),
          Round(env, TakeChildren(env, s1, o.score, env.children(o.uri))), starting);
      }
    }
  }

  lemma StartOffer(s: State, starting: seq<Hit>, o: Offer)
    requires o in Offers(starting)
    ensures OfferOk(s, starting, o)
  {
    var i :| 0 <= i < |starting| && Offers(starting)[i] == o;
    assert o.uri == starting[i].uri && o.score == starting[i].score;
  }

  lemma SameOffers(s: State, s': State, starting: seq<Hit>)
    requires OffersOk(s, starting) && s'.offers == s.offers && s'.found == s.found
    ensures OffersOk(s', starting)
  {
    forall o | o in s'.offers ensures OfferOk(s', starting, o) {
      assert OfferOk(s, starting, o);
    }
  }

  /** The starting points were offered first, before any expansion. */
  ghost predicate StartsOffered(s: State, starting: seq<Hit>) {
    && |starting| <= |s.offers|
    && (forall i :: 0 <= i < |starting| ==>
      s.offers[i].uri == starting[i].uri && s.offers[i].score == starting[i].score)
    && forall k :: 0 <= k < |s.expanded| ==> |starting| <= s.expanded[k].seen
  }

  /** How many offers there were after the k-th expansion. */
  ghost function SeenAfter(s: State, k: nat): nat {
    if k + 1 < |s.expanded| then s.expanded[k + 1].seen else |s.offers|
  }

  /** What the k-th expansion found, unless it is a leaf or was expanded by then, was
      offered with its score before the next expansion. */
  ghost predicate PassedOn(env: Env, s: State, k: nat, e: Entry) {
    FoundAt(env, s, k, e) && e.hit.level != 2 && (forall y :: y in s.expanded[..k + 1] ==> y.uri != e.hit.uri) ==>
      SeenAfter(s, k) <= |s.offers| && Offer(e.final, e.hit.uri) in s.offers[..SeenAfter(s, k)]
  }

  ghost predicate LeadsOn(env: Env, s: State, starting: seq<Hit>) {
    StartsOffered(s, starting) && forall k: nat, e :: PassedOn(env, s, k, e)
  }

  lemma {:induction false} TakeChildrenPassOn(env: Env, s: State, parent: real, cs: seq<Hit>)
    ensures var s' := TakeChildren(env, s, parent, cs);
      && s.offers <= s'.offers && s'.visited == s.visited && s'.expanded == s.expanded
      && (forall child :: child in cs && child.level != 2 && child.uri !in s.visited ==>
            Final(env, child, parent) > env.threshold ==> Offer(Final(env, child, parent), child.uri) in s'.offers)
  {
    hide PutBetter, Final;
    if cs != [] {
      TakeChildrenPassOn(env, s, parent, cs[..|cs| - 1]);
      assert forall child :: child in cs ==> child in cs[..|cs| - 1] || child == cs[|cs| - 1];
    }
  }

  lemma PassedOnKept(env: Env, s: State, s': State, k: nat, e: Entry)
    requires k < |s.expanded| && PassedOn(env, s, k, e) && s.offers <= s'.offers && s.expanded <= s'.expanded
    requires |s.expanded| < |s'.expanded| ==> s'.expanded[|s.expanded|].seen == |s.offers|
    requires |s.expanded| == |s'.expanded| ==> s'.offers == s.offers
    ensures PassedOn(env, s', k, e)
  {
    hide FoundAt;
    assert s'.expanded[..k + 1] == s.expanded[..k + 1];
    SameFoundAt(env, s, s', k, e);
    assert SeenAfter(s', k) == SeenAfter(s, k);
    if SeenAfter(s, k) <= |s.offers| { assert s'.offers[..SeenAfter(s, k)] == s.offers[..SeenAfter(s, k)]; }
  }

  lemma SameFoundAt(env: Env, s: State, s': State, k: nat, e: Entry)
    requires k < |s.expanded| && s.expanded <= s'.expanded
    ensures FoundAt(env, s', k, e) <==> FoundAt(env, s, k, e)
  {
    hide Blends;
    assert s'.expanded[k] == s.expanded[k];
  }

  lemma NewPassedOn(env: Env, s: State, s1: State, s': State, e: Entry)
    requires ExpandedOk(s1) && s1.expanded != [] && s'.expanded == s1.expanded
    requires var x := s1.expanded[|s1.expanded| - 1];
      s'.offers == TakeChildren(env, s1, x.score, env.children(x.uri)).offers
    ensures PassedOn(env, s', |s1.expanded| - 1, e)
  {
    hide ExpansionOk, TakeChildren, Final, Blends;
    var k := |s1.expanded| - 1;
    var x := s1.expanded[k];
    TakeChildrenPassOn(env, s1, x.score, env.children(x.uri));
    FinalBlends(env, e.hit, x.score, e.final);
    assert s'.expanded[..k + 1] == s1.expanded && s'.offers[..|s'.offers|] == s'.offers;
  }

  lemma StepLeadsOn(env: Env, s: State, starting: seq<Hit>)
    requires QueueOk(s) && ExpandedOk(s) && LeadsOn(env, s, starting) && !Ended(s)
    ensures LeadsOn(env, Step(env, s), starting)
  {
    hide QueueOk, ExpandedOk, PassedOn, TakeChildren, TopUris, BestIndex;
    var o, s' := s.queue[BestIndex(s.queue)], Step(env, s);
    if o.uri in s.visited {
      assert s'.offers == s.offers && s'.expanded == s.expanded;
    } else {
      var s0 := Pop(s);
      var s1 := s0.(visited := s0.visited + {o.uri},
        expanded := s0.expanded + [Expansion(o.uri, o.score, |s0.offers|)]);
      PopOk(s);
      ExpandedKept(s, s0);
      ExpandedMore(s0, o);
      TakeChildrenPassOn(env, s1, o.score, env.children(o.uri));
      NoChildren(env, s1, o.score, env.children(o.uri));
      assert s'.expanded == s1.expanded && s'.offers == TakeChildren(env, s1, o.score, env.children(o.uri)).offers;
      assert ExpandedOk(s1) by { ExpandedKept(s0.(visited := s1.visited, expanded := s1.expanded), s1); }
      forall e ensures PassedOn(env, s', |s.expanded|, e) { NewPassedOn(env, s, s1, s', e); }
    }
    forall k: nat, e ensures PassedOn(env, s', k, e) {
      if k < |s.expanded| { PassedOnKept(env, s, s', k, e); } else { PassedOnBeyond(env, s', k, e); }
    }
  }

  lemma PassedOnBeyond(env: Env, s: State, k: nat, e: Entry)
    ensures k >= |s.expanded| ==> PassedOn(env, s, k, e)
  {
  }

  /** At every point: the starting points come first among the offers, and every result
      that is no leaf, found below a directory not expanded by then, was offered with its
      own score before the next expansion. */
  lemma {:induction false} ResultsAreOffered(env: Env, initial: seq<Hit>, starting: seq<Hit>, n: nat)
    ensures LeadsOn(env, After(env, Start(initial, starting), n), starting)
  {
    hide Initial, Step, PassedOn, QueueOk, ExpandedOk;
    if n == 0 {
      forall k: nat, e ensures PassedOn(env, Start(initial, starting), k, e) {
        PassedOnBeyond(env, Start(initial, starting), k, e);
      }
    } else {
      ResultsAreOffered(env, initial, starting, n - 1);
      var s := After(env, Start(initial, starting), n - 1);
      ExpandsOnceWithTheBestOffer(env, initial, starting, n - 1);
      if !Ended(s) { StepLeadsOn(env, s, starting); }
    }
  }

  /** If the queue runs dry, every starting point was visited, the visited directories
      are closed under children that score above the threshold and are not leaves, and
      every such child, leaf or not, of a visited directory was found. */
  lemma DrainedIsClosed(env: Env, initial: seq<Hit>, starting: seq<Hit>, n: nat, k: nat, e: Entry)
    requires var s := After(env, Start(initial, starting), n); s.queue == [] && FoundAt(env, s, k, e)
    ensures var s := After(env, Start(initial, starting), n);
      e in s.found && (e.hit.level != 2 ==> e.hit.uri in s.visited)
    ensures forall hit :: hit in starting ==> hit.uri in After(env, Start(initial, starting), n).visited
  {
    hide FoundAt, After, PassedOn, ExpandedOk;
    FindsEveryChild(env, initial, starting, n);
    ResultsAreOffered(env, initial, starting, n);
    ExpandsOnceWithTheBestOffer(env, initial, starting, n);
    forall hit | hit in starting ensures hit.uri in After(env, Start(initial, starting), n).visited {
      var i :| 0 <= i < |starting| && starting[i] == hit;
      assert After(env, Start(initial, starting), n).offers[i] in After(env, Start(initial, starting), n).offers;
    }
  }

  // ----- The search ends -----

  /** All URIs the search can ever meet. */
  ghost predicate Inside(env: Env, universe: set<Uri>, s: State) {
    && s.visited <= universe && (forall o :: o in s.queue ==> o.uri in universe)
    && forall u, child :: u in universe && child in env.children(u) ==> child.uri in universe
  }

  lemma {:induction false} TakeChildrenInside(env: Env, universe: set<Uri>, s: State, parent: real, cs: seq<Hit>)
    requires Inside(env, universe, s) && forall child :: child in cs ==> child.uri in universe
    ensures Inside(env, universe, TakeChildren(env, s, parent, cs))
  {
    hide PutBetter, Final;
    if cs != [] { TakeChildrenInside(env, universe, s, parent, cs[..|cs| - 1]); }
  }

  /** A step visits a new URI, or shortens the queue. */
  lemma StepInside(env: Env, universe: set<Uri>, s: State)
    requires Inside(env, universe, s) && !Ended(s)
    ensures var s' := Step(env, s);
      && Inside(env, universe, s')
      && (|universe - s'.visited| < |universe - s.visited| || (s'.visited == s.visited && |s'.queue| < |s.queue|))
  {
    hide TopUris, TakeChildren, BestIndex, Before;
    var i, o := BestIndex(s.queue), s.queue[BestIndex(s.queue)];
    if o.uri !in s.visited {
      var s0 := Pop(s);
      var s1 := s0.(visited := s0.visited + {o.uri},
        expanded := s0.expanded + [Expansion(o.uri, o.score, |s0.offers|)]);
      assert Inside(env, universe, s1);
      TakeChildrenInside(env, universe, s1, o.score, env.children(o.uri));
      TakeChildrenVisited(env, s1, o.score, env.children(o.uri));
      Smaller(universe - s.visited, universe - s1.visited, o.uri);
    }
  }

  lemma Smaller<T>(a: set<T>, b: set<T>, x: T)
    requires b <= a && x in a && x !in b
    ensures |b| < |a|
  {
    var rest := a - b;
    assert x in rest && a == b + rest;
  }

  lemma {:induction false} TakeChildrenVisited(env: Env, s: State, parent: real, cs: seq<Hit>)
    ensures TakeChildren(env, s, parent, cs).visited == s.visited
  {
    hide PutBetter, Final;
    if cs != [] { TakeChildrenVisited(env, s, parent, cs[..|cs| - 1]); }
  }

  /** Over finitely many URIs the search ends, although the queue may hold many
      entries for one URI. */
  lemma {:induction false} SearchEnds(env: Env, universe: set<Uri>, s: State, n: nat) returns (m: nat)
    requires Inside(env, universe, After(env, s, n))
    ensures m >= n && Ended(After(env, s, m))
    decreases |universe - After(env, s, n).visited|, |After(env, s, n).queue|
  {
    hide Step, Inside;
    m := n;
    if !Ended(After(env, s, n)) {
      StepInside(env, universe, After(env, s, n));
      m := SearchEnds(env, universe, s, n + 1);
    }
  }

  // ----- Scores -----

  ghost predicate Within(x: real, lo: real, hi: real) {
    lo <= x <= hi
  }

  lemma Scale(a: real, x: real, y: real)
    requires 0.0 <= a && x <= y
    ensures Times(a, x) <= Times(a, y)
  {
  }

  function Times(a: real, x: real): real {
    a * x
  }

  lemma Parts(a: real, b: real, x: real)
    requires a + b == 1.0
    ensures Times(a, x) + Times(b, x) == x
  {
    assert a * x + b * x == (a + b) * x;
    assert 1.0 * x == x;
  }

  lemma Mean(a: real, b: real, x: real, y: real, lo: real, hi: real)
    requires 0.0 <= a && 0.0 <= b && a + b == 1.0 && lo <= x <= hi && lo <= y <= hi
    ensures lo <= Times(a, x) + Times(b, y) <= hi
  {
    hide Times;
    Scale(a, lo, x);
    Scale(a, x, hi);
    Scale(b, lo, y);
    Scale(b, y, hi);
    Parts(a, b, lo);
    Parts(a, b, hi);
  }

  /** A propagated score lies between its two sources. */
  lemma FinalWithin(env: Env, child: Hit, parent: real, lo: real, hi: real)
    requires 0.0 <= env.alpha <= 1.0 && Within(child.score, lo, hi) && Within(parent, lo, hi)
    ensures Within(Final(env, child, parent), lo, hi)
  {
    Mean(env.alpha, 1.0 - env.alpha, child.score, parent, lo, hi);
  }

  ghost predicate ScoresOk(s: State, lo: real, hi: real) {
    && (forall o :: o in s.queue ==> Within(o.score, lo, hi))
    && (forall e :: e in s.collected ==> Within(e.final, lo, hi))
  }

  lemma {:induction false} TakeChildrenWithin(env: Env, s: State, parent: real, cs: seq<Hit>, lo: real, hi: real)
    requires 0.0 <= env.alpha <= 1.0 && ScoresOk(s, lo, hi) && Within(parent, lo, hi)
    requires forall child :: child in cs ==> Within(child.score, lo, hi)
    ensures ScoresOk(TakeChildren(env, s, parent, cs), lo, hi)
  {
    hide Final, Within, Find;
    if cs != [] {
      TakeChildrenWithin(env, s, parent, cs[..|cs| - 1], lo, hi);
      FinalWithin(env, cs[|cs| - 1], parent, lo, hi);
    }
  }

  /** With a propagation weight between 0 and 1, every collected and every queued
      score lies between the least and the greatest raw score. */
  lemma {:induction false} ScoresStayWithin(env: Env, initial: seq<Hit>, starting: seq<Hit>, n: nat, lo: real, hi: real)
    requires 0.0 <= env.alpha <= 1.0
    requires forall hit :: hit in initial || hit in starting ==> Within(hit.score, lo, hi)
    requires forall u, child :: child in env.children(u) ==> Within(child.score, lo, hi)
    ensures ScoresOk(After(env, Start(initial, starting), n), lo, hi)
  {
    hide Initial, Within, TakeChildren, BestIndex, TopUris;
    if n == 0 {
      InitialOnlyLeaves(initial);
    } else {
      ScoresStayWithin(env, initial, starting, n - 1, lo, hi);
      var s := After(env, Start(initial, starting), n - 1);
      if !Ended(s) {
        var o := s.queue[BestIndex(s.queue)];
        var s0 := Pop(s);
        var s1 := s0.(visited := s0.visited + {o.uri},
          expanded := s0.expanded + [Expansion(o.uri, o.score, |s0.offers|)]);
        assert ScoresOk(s1, lo, hi);
        TakeChildrenWithin(env, s1, o.score, env.children(o.uri), lo, hi);
      }
    }
  }

  // ----- The results -----

  /** The results are the collected entries with the highest scores, best first,
      no URI twice. */
  lemma TopIsBest(c: Collected, limit: nat)
    requires OneEach(c)
    ensures var top := Top(c, limit);
      && |top| == (if |c| < limit then |c| else limit)
      && Descending(top) && OneEach(top)
      && (forall e :: e in top ==> e in c)
      && (forall e, x :: e in top && x in c && x !in top ==> x.final <= e.final)
  {
    var sorted := SortDesc(c);
    SortSorts(c);
    assert |multiset(sorted)| == |multiset(c)|;
    SortedDistinct(c);
    forall x | x in c ensures x in sorted {
      assert x in multiset(c) && x in multiset(sorted);
    }
    forall x | x in sorted ensures x in c {
      assert x in multiset(sorted) && x in multiset(c);
    }
  }

  lemma {:induction false} InsertDistinct(es: seq<Entry>, e: Entry)
    requires OneEach(es) && forall x :: x in es ==> x.hit.uri != e.hit.uri
    ensures OneEach(Insert(es, e))
  {
    if es != [] && es[|es| - 1].final < e.final {
      var init, last := es[..|es| - 1], es[|es| - 1];
      InsertDistinct(init, e);
      forall i | 0 <= i < |Insert(init, e)| ensures Insert(init, e)[i].hit.uri != last.hit.uri {
        InsertMembers(init, e, i);
      }
    }
  }

  lemma {:induction false} SortedDistinct(c: Collected)
    requires OneEach(c)
    ensures OneEach(SortDesc(c))
  {
    if c != [] {
      var init, last := c[..|c| - 1], c[|c| - 1];
      SortedDistinct(init);
      SortSorts(init);
      forall x | x in SortDesc(init) ensures x.hit.uri != last.hit.uri {
        assert x in multiset(SortDesc(init)) && x in multiset(init) && x in init;
      }
      InsertDistinct(SortDesc(init), last);
    }
  }

  // ----- Convergence -----

  /** Comparison k found the top set of the round before again, and it was full. */
  ghost predicate Repeats(env: Env, s: State, k: nat)
    requires k < |s.tops|
  {
    var tops := [{}] + s.tops;
    tops[k + 1] == tops[k] && |tops[k]| >= env.limit
  }

  /** The last n comparisons were repeats. */
  ghost predicate LastRepeats(env: Env, s: State, n: nat) {
    n <= |s.tops| && forall k :: |s.tops| - n <= k < |s.tops| ==> Repeats(env, s, k)
  }

  /** `rounds` counts the repeats at the end, all of them, and decides. */
  ghost predicate Quiet(env: Env, s: State) {
    && s.prev == ([{}] + s.tops)[|s.tops|] && 0 <= s.rounds <= |s.tops|
    && LastRepeats(env, s, s.rounds)
    && (s.rounds < |s.tops| ==> !Repeats(env, s, |s.tops| - s.rounds - 1))
    && (s.stopped <==> s.rounds >= 1 && s.rounds >= env.maxRounds)
  }

  lemma RoundQuiet(env: Env, s: State)
    requires Quiet(env, s) && !s.stopped
    ensures Quiet(env, Round(env, s))
  {
    hide TopUris;
    var s' := Round(env, s);
    var n := |s.tops|;
    forall k | 0 <= k < n ensures Repeats(env, s', k) <==> Repeats(env, s, k) {
      assert ([{}] + s'.tops)[k] == ([{}] + s.tops)[k] && ([{}] + s'.tops)[k + 1] == ([{}] + s.tops)[k + 1];
    }
    assert ([{}] + s'.tops)[n] == s.prev && ([{}] + s'.tops)[n + 1] == TopUris(s.collected, env.limit);
  }

  function AtLeastOne(n: int): nat {
    if n >= 1 then n else 1
  }

  /** The search is cut off if and only if its last comparisons, as many as
      configured and at least one, all found the same full top set again. */
  lemma StopsExactlyWhenQuiet(env: Env, initial: seq<Hit>, starting: seq<Hit>, n: nat)
    ensures var s := After(env, Start(initial, starting), n);
      s.stopped <==> LastRepeats(env, s, AtLeastOne(env.maxRounds))
  {
    hide After, Repeats;
    QuietAlways(env, initial, starting, n);
    var s, m := After(env, Start(initial, starting), n), AtLeastOne(env.maxRounds);
    assert s.rounds < m && m <= |s.tops| ==> |s.tops| - m <= |s.tops| - s.rounds - 1;
  }

  lemma {:induction false} QuietAlways(env: Env, initial: seq<Hit>, starting: seq<Hit>, n: nat)
    ensures Quiet(env, After(env, Start(initial, starting), n))
  {
    hide Initial, TakeChildren, BestIndex, TopUris, Round, Quiet;
    if n == 0 {
      NothingCompared(env, Start(initial, starting));
    } else {
      QuietAlways(env, initial, starting, n - 1);
      var s := After(env, Start(initial, starting), n - 1);
      if !Ended(s) {
        var o := s.queue[BestIndex(s.queue)];
        var s0 := Pop(s);
        var s1 := s0.(visited := s0.visited + {o.uri},
                      expanded := s0.expanded + [Expansion(o.uri, o.score, |s0.offers|)]);
        var s2 := TakeChildren(env, s1, o.score, env.children(o.uri));
        TakeChildrenRounds(env, s1, o.score, env.children(o.uri));
        SameRounds(env, s, s0);
        SameRounds(env, s, s1);
        SameRounds(env, s, s2);
        RoundQuiet(env, s2);
      }
    }
  }

  /** The expansions of directories that have children. */
  ghost function Productive(env: Env, s: State): set<nat> {
    set k: nat | k < |s.expanded| && env.children(s.expanded[k].uri) != []
  }

  /** The k-th set compared: the URIs of the best entries collected when it was made. */
  ghost predicate ComparedTop(env: Env, s0: State, n: nat, k: nat) {
    k < |After(env, s0, n).tops| ==>
      exists m: nat :: m <= n && TopAt(env, After(env, s0, m), k, After(env, s0, n).tops[k])
  }

  ghost predicate TopAt(env: Env, s: State, k: nat, uris: set<Uri>) {
    |s.tops| == k + 1 && forall u :: u in uris <==> exists e :: e in Top(s.collected, env.limit) && e.hit.uri == u
  }

  ghost predicate MoreTops(env: Env, s: State, s': State) {
    |s'.tops| == |s.tops| + 1 && s.tops <= s'.tops && TopAt(env, s', |s.tops|, s'.tops[|s.tops|])
  }

  lemma RoundTops(env: Env, s: State)
    ensures MoreTops(env, s, Round(env, s))
  {
    hide Top;
    var uris, s' := TopUris(s.collected, env.limit), Round(env, s);
    assert s'.tops == s.tops + [uris] && s'.collected == s.collected;
    forall u | exists e :: e in Top(s.collected, env.limit) && e.hit.uri == u ensures u in uris {
    }
  }

  lemma OneMoreProductive(env: Env, s: State, s': State, x: Expansion)
    requires s'.expanded == s.expanded + [x]
    ensures |Productive(env, s')| == |Productive(env, s)| + if env.children(x.uri) != [] then 1 else 0
  {
    var n := |s.expanded|;
    assert n !in Productive(env, s);
    assert forall k :: 0 <= k < n ==> s'.expanded[k] == s.expanded[k];
    assert Productive(env, s') == Productive(env, s) + if env.children(x.uri) != [] then {n} else {};
  }

  lemma StepTops(env: Env, s: State)
    requires !Ended(s)
    ensures var s' := Step(env, s);
      && |s'.tops| - |s.tops| == |Productive(env, s')| - |Productive(env, s)|
      && (s'.tops == s.tops || MoreTops(env, s, s'))
  {
    hide TakeChildren, BestIndex, Round, Without, MoreTops;
    var o, s' := s.queue[BestIndex(s.queue)], Step(env, s);
    if o.uri in s.visited {
      SameProductive(env, s, s');
    } else {
      hide Productive;
      var x, cs := Expansion(o.uri, o.score, |s.offers|), env.children(o.uri);
      var s1 := Pop(s).(visited := s.visited + {o.uri}, expanded := s.expanded + [x]);
      var s2 := TakeChildren(env, s1, o.score, cs);
      TakeChildrenPassOn(env, s1, o.score, cs);
      TakeChildrenRounds(env, s1, o.score, cs);
      RoundKeeps(env, s2);
      RoundTops(env, s2);
      OneMoreProductive(env, s, s', x);
      if cs != [] { MoreTopsFrom(env, s, s2, s'); }
    }
  }

  lemma SameProductive(env: Env, s: State, s': State)
    requires s'.expanded == s.expanded
    ensures Productive(env, s') == Productive(env, s)
  {
  }

  lemma RoundKeeps(env: Env, s: State)
    ensures Round(env, s).expanded == s.expanded
  {
    hide TopUris;
  }

  lemma MoreTopsFrom(env: Env, s: State, s2: State, s': State)
    requires MoreTops(env, s2, s') && s2.tops == s.tops
    ensures MoreTops(env, s, s') && |s'.tops| == |s.tops| + 1
  {
    hide TopAt;
  }

  /** There is one comparison for each expansion that had children, and it compares the
      URIs of the best entries collected by then. */
  lemma {:induction false} ComparesTheTop(env: Env, initial: seq<Hit>, starting: seq<Hit>, n: nat)
    ensures var s := After(env, Start(initial, starting), n); |s.tops| == |Productive(env, s)|
    ensures forall k: nat :: ComparedTop(env, Start(initial, starting), n, k)
  {
    hide Initial, Step, TopAt;
    var s0 := Start(initial, starting);
    if n == 0 {
      assert Productive(env, s0) == {};
    } else {
      ComparesTheTop(env, initial, starting, n - 1);
      var s := After(env, s0, n - 1);
      if !Ended(s) { StepTops(env, s); }
      hide Productive;
      forall k: nat ensures ComparedTop(env, s0, n, k) {
        assert ComparedTop(env, s0, n - 1, k);
        assert k == |s.tops| && k < |After(env, s0, n).tops| ==>
          TopAt(env, After(env, s0, n), k, After(env, s0, n).tops[k]);
      }
    }
  }

  lemma NothingCompared(env: Env, s: State)
    requires s.tops == [] && s.rounds == 0 && s.prev == {} && !s.stopped
    ensures Quiet(env, s)
  {
  }

  lemma SameRounds(env: Env, s: State, s': State)
    requires Quiet(env, s) && s'.tops == s.tops && s'.rounds == s.rounds && s'.prev == s.prev && s'.stopped == s.stopped
    ensures Quiet(env, s')
  {
    assert forall k :: 0 <= k < |s.tops| ==> (Repeats(env, s', k) <==> Repeats(env, s, k));
  }

  lemma {:induction false} TakeChildrenRounds(env: Env, s: State, parent: real, cs: seq<Hit>)
    ensures var s' := TakeChildren(env, s, parent, cs);
      s'.tops == s.tops && s'.rounds == s.rounds && s'.prev == s.prev && s'.stopped == s.stopped
  {
    hide PutBetter, Final;
    if cs != [] { TakeChildrenRounds(env, s, parent, cs[..|cs| - 1]); }
  }

  // ----- The program -----

  /** heappop: the best offer leaves the queue. */
  method HeapPop(q: seq<Offer>) returns (o: Offer, rest: seq<Offer>)
    requires q != []
    ensures o == q[BestIndex(q)] && rest == Without(q, BestIndex(q))
  {
    var b := 0;
    for k := 1 to |q|
      invariant b == BestIndex(q[..k])
    {
      assert q[..k + 1][..k] == q[..k];
      if Before(q[k], q[b]) { b := k; }
    }
    assert q[..|q|] == q;
    o, rest := q[b], q[..b] + q[b + 1..];
  }

  /** The locals of the loop agree with the state. */
  ghost predicate Locals(s: State, collected: Collected, queue: seq<Offer>, visited: set<Uri>, prev: set<Uri>,
                         rounds: int) {
    s.collected == collected && s.queue == queue && s.visited == visited && s.prev == prev && s.rounds == rounds
  }

  lemma NoChildren(env: Env, s: State, score: real, cs: seq<Hit>)
    ensures TakeChildren(env, s, score, cs[..0]) == s
  {
  }

  lemma OneMoreChild(env: Env, s: State, score: real, cs: seq<Hit>, k: nat)
    requires k < |cs|
    ensures TakeChildren(env, s, score, cs[..k + 1]) ==
      TakeChild(env, TakeChildren(env, s, score, cs[..k]), score, cs[k])
  {
    hide TakeChild;
    assert cs[..k + 1][..k] == cs[..k];
  }

  /** The body of the loop over the children of one directory. */
  method TakeAll(env: Env, score: real, cs: seq<Hit>, visited: set<Uri>, collected0: Collected, queue0: seq<Offer>,
                 ghost s: State)
    returns (collected: Collected, queue: seq<Offer>)
    requires s.collected == collected0 && s.queue == queue0 && s.visited == visited
    ensures var s' := TakeChildren(env, s, score, cs);
      s'.collected == collected && s'.queue == queue && s'.visited == visited
  {
    hide TakeChildren, PutBetter;
    collected, queue := collected0, queue0;
    assert TakeChildren(env, s, score, cs[..0]) == s by { NoChildren(env, s, score, cs); }
    for k := 0 to |cs|
      invariant var s1 := TakeChildren(env, s, score, cs[..k]);
        s1.collected == collected && s1.queue == queue && s1.visited == visited
    {
      OneMoreChild(env, s, score, cs, k);
      var child := cs[k];
      var finalScore := if score != 0.0 then env.alpha * child.score + (1.0 - env.alpha) * score else child.score;
      assert finalScore == Final(env, child, score);
      if finalScore > env.threshold {
        collected := PutBetter(collected, Entry(child, finalScore));
        if child.uri !in visited && child.level != 2 { queue := queue + [Offer(finalScore, child.uri)]; }
      }
    }
    assert cs[..|cs|] == cs;
  }

  /** The search ended after n steps, and these are the best of what it collected. */
  ghost predicate IsOutcome(env: Env, initial: seq<Hit>, starting: seq<Hit>, n: nat, results: seq<Entry>) {
    var s := After(env, Start(initial, starting), n);
    && (s.queue == [] || s.stopped) && results == Top(s.collected, env.limit)
    && QueueOk(s) && OffersOk(s, starting) && ExpandedOk(s) && FoundAll(env, s) && LeadsOn(env, s, starting)
    && (s.stopped <==> LastRepeats(env, s, AtLeastOne(env.maxRounds)))
    && |s.tops| == |Productive(env, s)| && (forall k: nat :: ComparedTop(env, Start(initial, starting), n, k))
    && CollectedOk(s.collected, Initial(initial) + s.found)
    && |results| == (if |s.collected| < env.limit then |s.collected| else env.limit)
    && (forall e :: e in results ==> IsBestEntry(e, Initial(initial) + s.found))
    && (forall e, x :: e in results && x in s.collected && x !in results ==> x.final <= e.final)
  }

  /** The whole search, over any finite set of URIs that contains all it can meet. */
  method RecursiveSearch(env: Env, initial: seq<Hit>, starting: seq<Hit>, ghost universe: set<Uri>)
    returns (results: seq<Entry>)
    requires Inside(env, universe, Start(initial, starting))
    ensures Descending(results) && OneEach(results) && |results| <= env.limit
    ensures exists n :: IsOutcome(env, initial, starting, n, results)
  {
    hide TakeChildren, BestIndex, Before, TopUris, Top, Find, Initial, Offers;
    hide QueueOk, OffersOk, ExpandedOk, Quiet, LastRepeats, FoundAll, LeadsOn, Productive, ComparedTop, CollectedOk,
      Inside, Descending, OneEach, IsBestEntry;
    ghost var s0 := Start(initial, starting);
    var collected, queue := Initial(initial), Offers(starting);
    var visited: set<Uri>, prev: set<Uri>, rounds, stopped := {}, {}, 0, false;
    ghost var n: nat := 0;
    while queue != [] && !stopped
      invariant Locals(After(env, s0, n), collected, queue, visited, prev, rounds)
      invariant stopped == After(env, s0, n).stopped
      invariant Inside(env, universe, After(env, s0, n))
      decreases |universe - visited|, |queue|
    {
      ghost var s := After(env, s0, n);
      StepInside(env, universe, s);
      n := n + 1;
      var o;
      o, queue := HeapPop(queue);
      if o.uri !in visited {
        visited := visited + {o.uri};
        var children := env.children(o.uri);
        ghost var s1 := Pop(s).(visited := s.visited + {o.uri},
          expanded := s.expanded + [Expansion(o.uri, o.score, |s.offers|)]);
        if children != [] {
          TakeChildrenRounds(env, s1, o.score, children);
          collected, queue := TakeAll(env, o.score, children, visited, collected, queue, s1);
          var top := TopUris(collected, env.limit);
          if top == prev && |top| >= env.limit {
            rounds := rounds + 1;
            stopped := rounds >= env.maxRounds;
          } else {
            rounds, prev := 0, top;
          }
        }
      }
    }
    results := Top(collected, env.limit);
    ExpandsOnceWithTheBestOffer(env, initial, starting, n);
    OffersAreResults(env, initial, starting, n);
    CollectsTheBest(env, initial, starting, n);
    FindsEveryChild(env, initial, starting, n);
    ResultsAreOffered(env, initial, starting, n);
    QuietAlways(env, initial, starting, n);
    StopsExactlyWhenQuiet(env, initial, starting, n);
    ComparesTheTop(env, initial, starting, n);
    BestResults(collected, Initial(initial) + After(env, s0, n).found, env.limit);
    assert IsOutcome(env, initial, starting, n, results);
  }

  lemma BestResults(c: Collected, cands: seq<Entry>, limit: nat)
    requires CollectedOk(c, cands)
    ensures var top := Top(c, limit);
      && |top| == (if |c| < limit then |c| else limit)
      && Descending(top) && OneEach(top)
      && (forall e :: e in top ==> IsBestEntry(e, cands))
      && (forall e, x :: e in top && x in c && x !in top ==> x.final <= e.final)
  {
    hide IsBestEntry, Top;
    TopIsBest(c, limit);
  }
}
