/**
 Decoding a package block in rounds: walk, fetch everything the walk missed,
 walk again. The rounds agree with the one-object-at-a-time resolver.
 */
module Prefetch {
  import opened Base
  import opened Amino
  import opened Decode
  import opened WalkRefinement
  import opened WalkCut
  import opened WalkReach
  import opened Avl
  import opened PrefetchCache
  import opened Walker
  import opened Rendering

  const MAX_ROUNDS := 64
  const MAX_INT := 0x7fff_ffff_ffff_ffff

  datatype Stats = Stats(nodes: int, fetches: int, truncated: bool, clipped: bool)
  datatype Tree = Tree(nodes: seq<Node>, stats: Stats)

  datatype Failure = BadBlock | Transport

  /** Why a decode in rounds stopped. `cut`: some round's walk met a depth or node limit. */
  datatype Exit = Failed | Exhausted | Complete | OutOfRounds(cut: bool, rounds: nat)

  function TreeOf(w: WalkedAll): Tree {
    Tree(FlattenAll(w.nodes), Stats(w.st.nodes, w.st.fetches, w.st.truncated, w.st.clipped))
  }

  function Decoded(e: Env, b: Block): WalkedAll {
    WalkBlock(e, b, 0, [], START)
  }

  /** The limits each round walks under: the fetch cap is lifted, because cached answers are free. */
  function WalkLimits(lim: Limits): Limits {
    lim.WithDefaults().(maxFetch := MAX_INT)
  }

  /** Everything held is what the chain answers. */
  ghost predicate Honest(f: Fetcher, objects: map<string, Reply>, types: map<string, TypeExpr>) {
    && (forall x :: x in objects ==> objects[x] == f.object_(x))
    && (forall x :: x in types ==> types[x] == f.type_(x))
  }

  /** A round that missed nothing gave the tree, counts and flags the direct resolver gives under the same limits. */
  lemma NoMissIsDirect(f: Fetcher, objects: map<string, Reply>, types: map<string, TypeExpr>, lim: Limits, b: Block)
    requires Honest(f, objects, types)
    requires Decoded(CachedEnv(objects, types, lim), b).st.wantObjects == []
    requires Decoded(CachedEnv(objects, types, lim), b).st.wantTypes == []
    ensures Decoded(DirectEnv(f, lim), b) == Decoded(CachedEnv(objects, types, lim), b)
  {
    SameBlock(CachedEnv(objects, types, lim), DirectEnv(f, lim), b, 0, [], START);
  }

  /** A decode no limit cut is the decode under every looser limit, whoever resolves it. */
  lemma UncutIsUnlimited(f: Fetcher, lim: Limits, looser: Limits, b: Block)
    requires !Decoded(DirectEnv(f, lim), b).st.truncated
    requires Looser(DirectEnv(f, lim), DirectEnv(f, looser)) && lim.maxString == looser.maxString
    ensures Decoded(DirectEnv(f, looser), b) == Decoded(DirectEnv(f, lim), b)
  {
    var t := Decoded(DirectEnv(f, lim), b).st;
    if t.wantObjects != [] { HasElement(t.wantObjects); }
    if t.wantTypes != [] { HasElement(t.wantTypes); }
    SameBlock(DirectEnv(f, lim), DirectEnv(f, looser), b, 0, [], START);
  }

  /** Object `x` refers to object `y` on the chain. */
  ghost predicate Links(f: Fetcher, x: string, y: string) {
    f.object_(x).Body? && Mentions(f.object_(x).v, y)
  }

  /** Object `x` is at most `k` references away from the block. */
  ghost predicate Within(f: Fetcher, b: Block, k: nat, x: string) {
    k > 0 && (MentionsBlock(b, 0, x) || exists y :: Within(f, b, k - 1, y) && Links(f, y, x))
  }

  lemma {:induction false} WithinGrows(f: Fetcher, b: Block, j: nat, k: nat, x: string)
    requires j <= k && Within(f, b, j, x)
    ensures Within(f, b, k, x)
  {
    if !MentionsBlock(b, 0, x) {
      var y :| Within(f, b, j - 1, y) && Links(f, y, x);
      WithinGrows(f, b, j - 1, k - 1, y);
    }
  }

  lemma {:induction false} AsksWithin(f: Fetcher, objects: map<string, Reply>, types: map<string, TypeExpr>,
                                      lim: Limits, b: Block, k: nat, j: nat, x: string)
    requires Honest(f, objects, types) && !Decoded(CachedEnv(objects, types, lim), b).st.truncated
    requires forall y :: Within(f, b, k, y) ==> y in objects
    requires j <= k + 1 && Within(f, b, j, x)
    ensures x in Decoded(CachedEnv(objects, types, lim), b).st.asked
    decreases j
  {
    var e := CachedEnv(objects, types, lim);
    BlockCovers(e, b, 0, [], START);
    if !MentionsBlock(b, 0, x) {
      var y :| Within(f, b, j - 1, y) && Links(f, y, x);
      AsksWithin(f, objects, types, lim, b, k, j - 1, y);
      WithinGrows(f, b, j - 1, k, y);
      assert y in objects && Edge(e, y, x);
    }
  }

  /** One more uncut walk wants every object one reference further out that is not held. */
  lemma RoundDeepens(f: Fetcher, objects: map<string, Reply>, types: map<string, TypeExpr>, lim: Limits, b: Block, k: nat)
    requires Honest(f, objects, types) && !Decoded(CachedEnv(objects, types, lim), b).st.truncated
    requires forall x :: Within(f, b, k, x) ==> x in objects
    ensures forall x :: Within(f, b, k + 1, x) ==>
      x in objects || x in Decoded(CachedEnv(objects, types, lim), b).st.wantObjects
  {
    var e := CachedEnv(objects, types, lim);
    forall x | Within(f, b, k + 1, x) ensures x in objects || x in Decoded(e, b).st.wantObjects {
      AsksWithin(f, objects, types, lim, b, k, k + 1, x);
      assert Grew(e, START, Decoded(e, b).st);
      assert x in Decoded(e, b).st.wantObjects || e.objects(x).Some?;
    }
  }

  ghost predicate HoldsWithin(f: Fetcher, b: Block, k: nat, objects: map<string, Reply>) {
    forall x :: Within(f, b, k, x) ==> x in objects
  }

  ghost predicate HoldsAll(f: Fetcher, b: Block, objects: map<string, Reply>) {
    forall k: nat :: HoldsWithin(f, b, k, objects)
  }

  /** After an uncut round whose misses were all fetched, everything one reference further out is held. */
  lemma FilledRoundDeepens(f: Fetcher, objects: map<string, Reply>, types: map<string, TypeExpr>, lim: Limits, b: Block,
                           k: nat, filled: map<string, Reply>)
    requires Honest(f, objects, types) && !Decoded(CachedEnv(objects, types, lim), b).st.truncated
    requires HoldsWithin(f, b, k, objects)
    requires forall x :: x in objects || x in Decoded(CachedEnv(objects, types, lim), b).st.wantObjects ==> x in filled
    ensures HoldsWithin(f, b, k + 1, filled)
  {
    RoundDeepens(f, objects, types, lim, b, k);
  }

  /** An uncut walk that missed nothing holds every object reachable from the block. */
  lemma {:induction false} NothingMissedHoldsAll(f: Fetcher, objects: map<string, Reply>, types: map<string, TypeExpr>,
                                                 lim: Limits, b: Block, k: nat)
    requires Honest(f, objects, types) && !Decoded(CachedEnv(objects, types, lim), b).st.truncated
    requires Decoded(CachedEnv(objects, types, lim), b).st.wantObjects == []
    ensures forall x :: Within(f, b, k, x) ==> x in objects
  {
    if k > 0 {
      NothingMissedHoldsAll(f, objects, types, lim, b, k - 1);
      RoundDeepens(f, objects, types, lim, b, k - 1);
    }
  }

  /** The block leads to object `x`. */
  ghost predicate Reachable(f: Fetcher, b: Block, x: string) {
    exists k: nat :: Within(f, b, k, x)
  }

  ghost predicate OnlyReachable(f: Fetcher, b: Block, objects: map<string, Reply>) {
    forall x :: x in objects ==> Reachable(f, b, x)
  }

  ghost predicate LacksReachable(f: Fetcher, b: Block, objects: map<string, Reply>) {
    exists x :: Reachable(f, b, x) && x !in objects
  }

  /** A walk wants only objects the block leads to. */
  lemma WantsOnlyReachable(f: Fetcher, objects: map<string, Reply>, types: map<string, TypeExpr>, lim: Limits, b: Block)
    requires Honest(f, objects, types)
    ensures forall x :: x in Decoded(CachedEnv(objects, types, lim), b).st.wantObjects ==> Reachable(f, b, x)
  {
    var e := CachedEnv(objects, types, lim);
    var r := iset x | Reachable(f, b, x);
    forall x, y | x in r && Edge(e, x, y) ensures y in r {
      var k: nat :| Within(f, b, k, x);
      assert Links(f, x, y);
      assert Within(f, b, k + 1, y);
    }
    forall x | MentionsBlock(b, 0, x) ensures x in r {
      assert Within(f, b, 1, x);
    }
    BlockAsks(e, r, b, 0, [], START);
    assert Grew(e, START, Decoded(e, b).st);
  }

  /** What an untruncated walk that missed nothing is worth: every object reachable from the block is held. */
  lemma UncutHoldsAll(f: Fetcher, objects: map<string, Reply>, types: map<string, TypeExpr>, lim: Limits, b: Block)
    requires Honest(f, objects, types) && !Decoded(CachedEnv(objects, types, lim), b).st.truncated
    requires Decoded(CachedEnv(objects, types, lim), b).st.wantObjects == []
    ensures HoldsAll(f, b, objects)
  {
    forall k: nat ensures HoldsWithin(f, b, k, objects) {
      NothingMissedHoldsAll(f, objects, types, lim, b, k);
    }
  }

  /** A decode shows no cycle row when no stored object of the chain leads back to itself. */
  lemma AcyclicChainShowsNoCycle(f: Fetcher, lim: Limits, b: Block)
    requires !Cyclic(DirectEnv(f, lim))
    ensures !AnyCycleRow(Decoded(DirectEnv(f, lim), b).nodes)
  {
    var rows := Decoded(DirectEnv(f, lim), b).nodes;
    BlockCycle(DirectEnv(f, lim), b, 0, [], START);
    if AnyCycleRow(rows) {
      var i :| 0 <= i < |rows| && HasCycleRow(rows[i]);
      CycleRowsNeedACycle(DirectEnv(f, lim), rows[i]);
    }
  }

  /** The rows show the block, as the chain has it, and its trees flattened. */
  ghost predicate ShowsFlat(e: Env, b: Block, nodes: seq<Node>) {
    exists k, rows :: ShowsBlock(e, k, b, rows) && nodes == FlattenAll(rows)
  }

  /** A decode no limit cut and that missed nothing says of every variable what the payload says. */
  lemma CleanShows(e: Env, b: Block)
    requires e.lim.maxString >= 0
    requires var t := Decoded(e, b).st; !t.truncated && t.wantObjects == [] && t.wantTypes == []
    ensures ShowsBlock(e, Left(e, START), b, Decoded(e, b).nodes) && ShowsFlat(e, b, TreeOf(Decoded(e, b)).nodes)
  {
    var k := Left(e, START);
    assert RowsAt(e, k, b, 0, [], []);
    BlockShows(e, k, b, 0, [], [], START);
    assert ShowsBlock(e, k, b, Decoded(e, b).nodes);
  }

  /** So does every uncut decode by the resolver that asks the chain for each id. */
  lemma UncutShows(f: Fetcher, lim: Limits, b: Block)
    requires lim.maxString >= 0 && !Decoded(DirectEnv(f, lim), b).st.truncated
    ensures ShowsFlat(DirectEnv(f, lim), b, TreeOf(Decoded(DirectEnv(f, lim), b)).nodes)
  {
    var t := Decoded(DirectEnv(f, lim), b).st;
    assert Grew(DirectEnv(f, lim), START, t);
    if t.wantObjects != [] { HasElement(t.wantObjects); }
    if t.wantTypes != [] { HasElement(t.wantTypes); }
    CleanShows(DirectEnv(f, lim), b);
  }

  lemma CleanRunShows(e: Env, b: Block, s: State)
    requires e.lim.maxString >= 0
    ensures var t := Decoded(e, b).st;
      s == START && !t.truncated && t.wantObjects == [] && t.wantTypes == [] ==> ShowsFlat(e, b, FlattenAll(Decoded(e, b).nodes))
  {
    var t := Decoded(e, b).st;
    if !t.truncated && t.wantObjects == [] && t.wantTypes == [] { CleanShows(e, b); }
  }

  /** The limits a caller leaves out are twelve levels, 4000 nodes and 512 requests. */
  function Or(asked: int, otherwise: int): int { if asked <= 0 then otherwise else asked }

  /** As many nodes as were asked for, as many requests as can be counted, or a block nested deeper than was asked for. */
  ghost predicate Spent(f: Fetcher, b: Block, lim: Limits, stats: Stats) {
    || stats.nodes >= Or(lim.maxNodes, 4000)
    || stats.fetches >= 0x7fff_ffff_ffff_ffff
    || DeeperThan(DirectEnv(f, WalkLimits(lim)).objects, b, Or(lim.maxDepth, 12))
  }

  lemma TruncatedIsSpent(f: Fetcher, b: Block, lim: Limits)
    requires Decoded(DirectEnv(f, WalkLimits(lim)), b).st.truncated
    ensures Spent(f, b, lim, TreeOf(Decoded(DirectEnv(f, WalkLimits(lim)), b)).stats)
  {
    CutForCause(DirectEnv(f, WalkLimits(lim)), b);
  }

  /** `DecodePackage`: one walker, one pass over the block, then the tree pass. */
  method DecodePackage(raw: Option<Block>, w: Walker) returns (r: Result<Tree, Failure>)
    modifies w
    ensures raw.None? ==> r == Err(BadBlock) && w.Now() == old(w.Now())
    ensures raw.Some? ==> r == Ok(TreeOf(WalkBlock(w.env, raw.value, 0, [], old(w.Now()))))
    ensures raw.Some? ==> w.Now() == WalkBlock(w.env, raw.value, 0, [], old(w.Now())).st
    ensures raw.Some? && old(w.Now()) == START && w.env.lim.maxString >= 0 && !w.truncated && w.wantObjects == [] && w.wantTypes == []
            ==> ShowsFlat(w.env, raw.value, r.value.nodes)
  {
    if raw.None? { return Err(BadBlock); }
    if w.env.lim.maxString >= 0 { CleanRunShows(w.env, raw.value, w.Now()); }
    var out := w.Variables(raw.value);
    var flat := FlattenTrees(out);
    return Ok(Tree(flat, Stats(w.nodes, w.fetches, w.truncated, w.clipped)));
  }

  /** One round's walk, against what is held so far, with the lists of misses started afresh. */
  method Round(b: Block, c: Cache, walkLim: Limits) returns (tree: Tree)
    requires walkLim == walkLim.WithDefaults()
    modifies c`wantObjects, c`wantTypes
    ensures var walked := Decoded(CachedEnv(c.objects, c.types, walkLim), b);
      tree == TreeOf(walked) && c.wantObjects == walked.st.wantObjects && c.wantTypes == walked.st.wantTypes
  {
    var w := new Walker(CachedEnv(c.objects, c.types, walkLim));
    var decoded := DecodePackage(Some(b), w);
    c.wantObjects, c.wantTypes := w.wantObjects, w.wantTypes;
    tree := decoded.value;
  }

  /**
   Where the rounds stand before turn `k`: the last tree, and either why they
   stopped or (`OutOfRounds`) that another turn is due. `cut`: a walk has met a
   depth or node limit.
   */
  ghost predicate Standing(b: Block, c: Cache, walkLim: Limits, total: int, k: nat, tree: Tree, outcome: Exit, cut: bool)
    reads c
  {
    && Distinct(c.sentObjects) && Distinct(c.sentTypes)
    && (!outcome.Failed? ==> c.Valid() && c.Accounts(total) && OnlyReachable(c.fetcher, b, c.objects))
    && (!outcome.Failed? && c.exhausted ==> LacksReachable(c.fetcher, b, c.objects))
    && (outcome.Exhausted? ==> c.exhausted && tree.stats.truncated)
    && (outcome.Complete? ==> tree == TreeOf(Decoded(DirectEnv(c.fetcher, walkLim), b)))
    && (outcome.Complete? && !tree.stats.truncated ==> HoldsAll(c.fetcher, b, c.objects))
    && (outcome.Complete? && !tree.stats.truncated ==> ShowsFlat(DirectEnv(c.fetcher, walkLim), b, tree.nodes))
    && (outcome.OutOfRounds? && !cut && !c.exhausted ==> HoldsWithin(c.fetcher, b, k, c.objects))
  }

  /** One turn of the loop: walk, then stop or fetch what was missed. A turn that goes on has read more or run out. */
  method OneRound(b: Block, c: Cache, walkLim: Limits, ghost k: nat, ghost last: Tree, ghost cut: bool, ghost total: int)
    returns (tree: Tree, outcome: Exit, ghost cut': bool)
    requires walkLim == walkLim.WithDefaults()
    requires Standing(b, c, walkLim, total, k, last, OutOfRounds(false, 0), cut)
    modifies c
    ensures Standing(b, c, walkLim, total, k + 1, tree, outcome, cut')
    ensures outcome.OutOfRounds? ==> outcome == OutOfRounds(false, 0)
    ensures outcome.OutOfRounds? ==> |c.objects| + |c.types| > old(|c.objects| + |c.types|) || c.exhausted
  {
    tree := Round(b, c, walkLim);
    ghost var walked := Decoded(CachedEnv(c.objects, c.types, walkLim), b);
    cut' := cut || walked.st.truncated;
    if c.exhausted {
      tree := tree.(stats := tree.stats.(truncated := true));
      outcome := Exhausted;
      return;
    }
    if |c.wantObjects| == 0 && |c.wantTypes| == 0 {
      NoMissIsDirect(c.fetcher, c.objects, c.types, walkLim, b);
      if !tree.stats.truncated {
        UncutHoldsAll(c.fetcher, c.objects, c.types, walkLim, b);
        UncutShows(c.fetcher, walkLim, b);
      }
      outcome := Complete;
      return;
    }
    ghost var objects, types := c.objects, c.types;
    WantsOnlyReachable(c.fetcher, objects, types, walkLim, b);
    var ok := c.Fill();
    if !ok {
      outcome := Failed;
      return;
    }
    if !cut' && !c.exhausted { FilledRoundDeepens(c.fetcher, objects, types, walkLim, b, k, c.objects); }
    outcome := OutOfRounds(false, 0);
  }

  const NO_TREE := Tree([], Stats(0, 0, false, false))

  lemma NothingReadYet(b: Block, c: Cache, walkLim: Limits, total: int)
    requires c.Valid() && c.Accounts(total) && c.objects == map[] && !c.exhausted
    ensures Standing(b, c, walkLim, total, 0, NO_TREE, OutOfRounds(false, 0), false)
  {
  }

  /** The loop over rounds. */
  method Rounds(b: Block, c: Cache, walkLim: Limits, ghost total: int)
    returns (tree: Tree, outcome: Exit, ghost cut: bool)
    requires walkLim == walkLim.WithDefaults()
    requires c.Valid() && c.Accounts(total) && c.objects == map[] && !c.exhausted
    modifies c
    ensures Standing(b, c, walkLim, total, MAX_ROUNDS, tree, outcome, cut)
  {
    tree, outcome, cut := NO_TREE, OutOfRounds(false, 0), false;
    NothingReadYet(b, c, walkLim, total);
    var round := 0;
    while round < MAX_ROUNDS
      invariant 0 <= round <= MAX_ROUNDS
      invariant outcome == OutOfRounds(false, 0)
      invariant Standing(b, c, walkLim, total, round, tree, outcome, cut)
      decreases MAX_ROUNDS - round
    {
      tree, outcome, cut := OneRound(b, c, walkLim, round, tree, cut, total);
      round := round + 1;
      if !outcome.OutOfRounds? { break; }
    }
  }

  /**
   `DecodePackageWith`: the rounds. Whatever stopped them, no id was asked of
   the chain twice, none that the block does not lead to, and the budget was
   spent one unit per object held; it runs out only when an object the block
   leads to is left behind. A tree
   that does not say it is truncated is the direct resolver's, under these
   limits and (UncutIsUnlimited) under all looser ones, every object reachable
   from the block was read, and its rows show what the block holds. One that
   does was cut for a cause: a limit used up, an object left behind, or
   sixty-four rounds.
   */
  method DecodePackageWith(raw: Option<Block>, f: Fetcher, limits: Limits)
    returns (r: Result<Tree, Failure>, c: Cache, ghost exit: Exit)
    ensures fresh(c) && c.fetcher == f && Distinct(c.sentObjects) && Distinct(c.sentTypes)
    ensures r.Err? <==> exit.Failed?
    ensures r.Ok? ==> raw.Some? && Honest(f, c.objects, c.types) && OnlyReachable(f, raw.value, c.objects)
    ensures r.Ok? ==> c.Accounts(Or(limits.maxFetch, 512))
    ensures exit.Complete? ==> r == Ok(TreeOf(Decoded(DirectEnv(f, WalkLimits(limits)), raw.value)))
    ensures exit.Complete? && r.value.stats.truncated ==> Spent(f, raw.value, limits, r.value.stats)
    ensures exit.Exhausted? ==> LacksReachable(f, raw.value, c.objects)
    ensures r.Ok? && !r.value.stats.truncated ==> exit.Complete? && HoldsAll(f, raw.value, c.objects)
    ensures r.Ok? && !r.value.stats.truncated ==> ShowsFlat(DirectEnv(f, WalkLimits(limits)), raw.value, r.value.nodes)
    ensures exit.OutOfRounds? ==> exit.rounds == 64
    ensures exit.OutOfRounds? && !exit.cut ==> HoldsWithin(f, raw.value, exit.rounds, c.objects)
  {
    var total := limits.WithDefaults().maxFetch;
    c := new Cache(f, total);
    var walkLim := WalkLimits(limits);
    if raw.None? {
      r, exit := Err(BadBlock), Failed;
      return;
    }
    var tree, outcome;
    ghost var cut;
    tree, outcome, cut := Rounds(raw.value, c, walkLim, total);
    // Sixty-four rounds is not a budget the caller set, so the tree must say it stopped.
    if outcome.OutOfRounds? { tree := tree.(stats := tree.stats.(truncated := true)); }
    r := if outcome.Failed? then Err(Transport) else Ok(tree);
    if outcome.Complete? && tree.stats.truncated { TruncatedIsSpent(f, raw.value, limits); }
    exit := if outcome.OutOfRounds? then OutOfRounds(cut || c.exhausted, MAX_ROUNDS) else outcome;
  }
}
