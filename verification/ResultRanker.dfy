/** The last stage of retrieval, retrieval/result_ranker.py: leaf hits only, one per
    URI, best first, cut to the number asked for. */
module ResultRanker {
  import opened Wrappers
  import opened HierarchicalSearch

  function Leaves(es: seq<Entry>): seq<Entry> {
    if es == [] then [] else
    Leaves(es[..|es| - 1]) + if es[|es| - 1].hit.level == 2 then [es[|es| - 1]] else []
  }

  /** The hits the ranker falls back on when the search brought none. */
  function FromSeed(hits: seq<Hit>): seq<Entry> {
    if hits == [] then [] else
    FromSeed(hits[..|hits| - 1]) + if hits[|hits| - 1].level == 2 then [Entry(hits[|hits| - 1], hits[|hits| - 1].score)]
      else []
  }

  function Candidates(found: seq<Entry>, seed: Option<seq<Hit>>): seq<Entry> {
    if found == [] && seed.Some? then FromSeed(seed.value) else found
  }

  lemma {:induction false} LeavesAre(es: seq<Entry>)
    ensures forall e :: e in Leaves(es) <==> e in es && e.hit.level == 2
  {
    if es != [] {
      LeavesAre(es[..|es| - 1]);
      assert es == es[..|es| - 1] + [es[|es| - 1]];
    }
  }

  /** A leaf among what the search found, or, if it found nothing, among the seed's hits
      with the score it has there. */
  predicate Competes(found: seq<Entry>, seed: Option<seq<Hit>>, e: Entry) {
    e.hit.level == 2 &&
    if found == [] && seed.Some? then e.hit in seed.value && e.final == e.hit.score else e in found
  }

  lemma {:induction false} SeedLeavesAre(hits: seq<Hit>)
    ensures forall e :: e in FromSeed(hits) <==> e.hit in hits && e.hit.level == 2 && e.final == e.hit.score
  {
    if hits != [] {
      SeedLeavesAre(hits[..|hits| - 1]);
      assert hits == hits[..|hits| - 1] + [hits[|hits| - 1]];
    }
  }

  /** The leaves among the candidates are exactly those that compete. */
  lemma CandidatesCompete(found: seq<Entry>, seed: Option<seq<Hit>>)
    ensures forall e :: e in Leaves(Candidates(found, seed)) <==> Competes(found, seed, e)
  {
    hide Leaves, FromSeed;
    LeavesAre(Candidates(found, seed));
    if seed.Some? { SeedLeavesAre(seed.value); }
  }

  /** Every URI with a leaf among the candidates competes with its highest-scored
      leaf; the result holds the best of these, in descending order, each once. */
  method Assemble(found: seq<Entry>, seed: Option<seq<Hit>>, topK: nat) returns (blocks: seq<Entry>)
    ensures Descending(blocks) && OneEach(blocks) && |blocks| <= topK
    ensures forall e :: e in blocks ==> Competes(found, seed, e)
    ensures forall e, x :: e in blocks && Competes(found, seed, x) && x.hit.uri == e.hit.uri ==> x.final <= e.final
    ensures forall x :: Competes(found, seed, x) ==>
      (exists e :: e in blocks && e.hit.uri == x.hit.uri) ||
        (|blocks| == topK && forall e :: e in blocks ==> x.final <= e.final)
  {
    hide Top, CollectedOk, PutBetter, IsBestEntry, Descending, OneEach, Competes, Leaves;
    var candidates := if found == [] && seed.Some? then FromSeed(seed.value) else found;
    var leaves := Leaves(candidates);
    var seen: Collected := [];
    EmptyCollected();
    for k := 0 to |leaves|
      invariant CollectedOk(seen, leaves[..k])
    {
      assert leaves[..k + 1] == leaves[..k] + [leaves[k]];
      PutBetterOk(seen, leaves[..k], leaves[k]);
      seen := PutBetter(seen, leaves[k]);
    }
    assert leaves[..|leaves|] == leaves;
    blocks := Top(seen, topK);
    BestResults(seen, leaves, topK);
    CandidatesCompete(found, seed);
    forall e | e in blocks
      ensures e in leaves && forall x :: x in leaves && x.hit.uri == e.hit.uri ==> x.final <= e.final
    {
      IsCandidate(e, leaves);
    }
    forall x | x in leaves
      ensures (exists e :: e in blocks && e.hit.uri == x.hit.uri) ||
        (|blocks| == topK && forall e :: e in blocks ==> x.final <= e.final)
    {
      RankedOut(seen, leaves, topK, x);
    }
  }

  lemma EmptyCollected()
    ensures CollectedOk([], [])
  {
  }

  lemma IsCandidate(e: Entry, cands: seq<Entry>)
    requires IsBestEntry(e, cands)
    ensures e in cands && forall x :: x in cands && x.hit.uri == e.hit.uri ==> x.final <= e.final
  {
  }

  /** A URI is left out only if the list is full of scores at least as high. */
  lemma RankedOut(seen: Collected, leaves: seq<Entry>, topK: nat, x: Entry)
    requires CollectedOk(seen, leaves) && x in leaves
    ensures var blocks := Top(seen, topK);
      (exists e :: e in blocks && e.hit.uri == x.hit.uri) ||
        (|blocks| == topK && forall e :: e in blocks ==> x.final <= e.final)
  {
    hide Top;
    TopIsBest(seen, topK);
    var blocks := Top(seen, topK);
    var y :| y in seen && y.hit.uri == x.hit.uri;
    assert IsBestEntry(y, leaves);
    if y !in blocks && |blocks| < topK { AllFit(seen, topK, y); }
  }

  lemma AllFit(seen: Collected, topK: nat, y: Entry)
    requires |seen| < topK && y in seen
    ensures y in Top(seen, topK)
  {
    SortSorts(seen);
    assert |multiset(SortDesc(seen))| == |multiset(seen)|;
    assert y in multiset(seen) && y in multiset(SortDesc(seen));
  }
}
