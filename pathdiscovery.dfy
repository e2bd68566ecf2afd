/** The path-discovery scheduler (src/entities/rebalancing_scheduler.py):
    pairs a node that needs rebalancing with nodes whose local share of
    funds differs from its own, searches breadth-first for diverse short
    paths to them, and runs the first (path, amount) trial that the engine
    scores as an improvement. Node objects are compared by identity, as in
    the source; the engine is given the paths' node ids. */
module PathDiscovery {
  import opened Common
  import opened Channels
  import opened Nodes
  import opened Election
  import opened Engine

  /** Paths with more nodes than this are discarded. */
  const MaxPathNodes: nat := 5
  /** Searches per complementary partner. */
  const Tries: nat := 3
  /** Default `max_paths` of `_find_rebalancing_paths`. */
  const DefaultMaxPaths: int := 10
  /** Default `interval` between rounds, in seconds. */
  const DefaultInterval: real := 60.0
  /** Two local shares further apart than this are complementary. */
  const ComplementGap: real := 0.2
  /** A new path is too similar to an old one when they share more than
      this fraction of the new path's length in node ids. */
  const SharedFraction: real := 0.5
  /** The trial amounts of a request, in the order they are tried. */
  const Amounts: seq<real> := [1000.0, 750.0, 500.0, 250.0, 100.0]

  // ---------------------------------------------------------------------
  // Node lists as id lists

  function Ids(path: seq<Node>): (ids: seq<NodeId>)
    ensures |ids| == |path| && forall i :: 0 <= i < |path| ==> ids[i] == path[i].id
  {
    seq(|path|, i requires 0 <= i < |path| => path[i].id)
  }

  function IdPaths(paths: seq<seq<Node>>): (r: seq<seq<NodeId>>)
    ensures |r| == |paths| && forall k :: 0 <= k < |paths| ==> r[k] == Ids(paths[k])
  {
    seq(|paths|, k requires 0 <= k < |paths| => Ids(paths[k]))
  }

  function Elements(s: seq<NodeId>): set<NodeId>
  {
    set x | x in s
  }

  // ---------------------------------------------------------------------
  // The diversity filter (_is_unique_path)

  /** The two paths share more than half of the new path's length in ids. */
  predicate TooSimilar(newPath: seq<NodeId>, prior: seq<NodeId>)
  {
    (|Elements(newPath) * Elements(prior)| as real) > (|newPath| as real) * SharedFraction
  }

  /** _is_unique_path: true for no existing paths, and false as soon as one
      existing path is too similar. */
  predicate IsUniquePath(newPath: seq<NodeId>, existing: seq<seq<NodeId>>)
  {
    if existing == [] then true
    else if TooSimilar(newPath, existing[0]) then false
    else IsUniquePath(newPath, existing[1..])
  }

  /** The filter rejects exactly the paths that are too similar to some
      existing path. */
  lemma {:induction false} IsUniquePathMeans(newPath: seq<NodeId>, existing: seq<seq<NodeId>>)
    ensures IsUniquePath(newPath, existing) <==>
            forall k :: 0 <= k < |existing| ==> !TooSimilar(newPath, existing[k])
    decreases |existing|
  {
    if existing != [] {
      IsUniquePathMeans(newPath, existing[1..]);
      assert forall k :: 1 <= k < |existing| ==> existing[k] == existing[1..][k - 1];
    }
  }

  lemma SubsetCard<T>(a: set<T>, b: set<T>)
    requires a <= b
    ensures |a| <= |b|
    ensures a < b ==> |a| < |b|
  {
    assert b == a + (b - a);
  }

  /** A new path of at most three nodes whose two ends both lie on an old
      path shares at least two ids with it, more than half its length. */
  lemma ShortPathSameEndsTooSimilar(newPath: seq<NodeId>, prior: seq<NodeId>)
    requires 2 <= |newPath| <= 3 && newPath[0] != newPath[|newPath| - 1]
    requires newPath[0] in prior && newPath[|newPath| - 1] in prior
    ensures TooSimilar(newPath, prior)
  {
    var ends := {newPath[0], newPath[|newPath| - 1]};
    assert |ends| == 2;
    SubsetCard(ends, Elements(newPath) * Elements(prior));
  }

  /** A new path of four or more nodes that meets an old path in at most its
      two ends passes against it. */
  lemma LongPathSharingEndsOnlyPasses(newPath: seq<NodeId>, prior: seq<NodeId>)
    requires |newPath| >= 4
    requires Elements(newPath) * Elements(prior) <= {newPath[0], newPath[|newPath| - 1]}
    ensures !TooSimilar(newPath, prior)
  {
    var ends := {newPath[0], newPath[|newPath| - 1]};
    assert |ends| <= 2;
    SubsetCard(Elements(newPath) * Elements(prior), ends);
  }

  // ---------------------------------------------------------------------
  // Complementary imbalance (_has_complementary_imbalance)

  /** The node's total balance can be divided by. */
  ghost predicate Divisible(v: NodeView)
  {
    v.TotalOutgoing() + v.TotalIncoming() != 0.0
  }

  /** Total local balance over total local plus remote balance. */
  ghost function LocalShare(v: NodeView): real
    requires Divisible(v)
  {
    v.TotalOutgoing() / (v.TotalOutgoing() + v.TotalIncoming())
  }

  lemma ShareFromSums(v: NodeView, local: real, remote: real)
    requires local == v.TotalOutgoing() && remote == v.TotalIncoming() && local + remote != 0.0
    ensures Divisible(v) && LocalShare(v) == local / (local + remote)
  {
  }

  ghost predicate Complementary(a: NodeView, b: NodeView)
    requires Divisible(a) && Divisible(b)
  {
    Abs(LocalShare(a) - LocalShare(b)) > ComplementGap
  }

  /** With non-negative balances the local share is a fraction. */
  lemma LocalShareBounds(v: NodeView)
    requires forall p :: p in v.local ==> v.local[p] >= 0.0
    requires forall p :: p in v.remote ==> v.remote[p] >= 0.0
    requires Divisible(v)
    ensures 0.0 <= LocalShare(v) <= 1.0
  {
    MapSumNonNegative(v.local);
    MapSumNonNegative(v.remote);
    QuotientFacts(v.TotalOutgoing(), v.TotalOutgoing() + v.TotalIncoming());
  }

  /** The relation does not depend on the order of the pair, and a node is
      never complementary to a node with the same share, itself included. */
  lemma ComplementarySymmetric(a: NodeView, b: NodeView)
    requires Divisible(a) && Divisible(b)
    ensures Complementary(a, b) == Complementary(b, a)
    ensures LocalShare(a) == LocalShare(b) ==> !Complementary(a, b)
  {
  }

  // ---------------------------------------------------------------------
  // Search paths

  /** `next((n for n in nodes if n.id == nid), None)`: the first listed node
      with the id. */
  function Lookup(nodes: seq<Node>, nid: NodeId): (r: Option<Node>)
    ensures r.Some? ==> r.value in nodes && r.value.id == nid
    ensures r.None? ==> forall i :: 0 <= i < |nodes| ==> nodes[i].id != nid
  {
    if nodes == [] then None
    else if nodes[0].id == nid then Some(nodes[0])
    else Lookup(nodes[1..], nid)
  }

  /** Of several listed nodes with the id, the first is found. */
  lemma {:induction false} LookupFirst(nodes: seq<Node>, nid: NodeId, i: nat)
    requires i < |nodes| && nodes[i].id == nid
    requires forall j :: 0 <= j < i ==> nodes[j].id != nid
    ensures Lookup(nodes, nid) == Some(nodes[i])
    decreases i
  {
    if i > 0 {
      LookupFirst(nodes[1..], nid, i - 1);
    }
  }

  /** The search moves from `a` to `b`: b's id is a key of a's local
      balances and b is the listed node found under that id. */
  predicate Step(nodes: seq<Node>, a: Node, b: Node)
    reads a
  {
    b.id in a.localBalances && Lookup(nodes, b.id) == Some(b)
  }

  predicate NoRepeats(p: seq<Node>)
  {
    forall i, j :: 0 <= i < j < |p| ==> p[i] != p[j]
  }

  /** A search path from `source`: it starts there, never visits a node twice
      and every move is a Step. */
  predicate Walk(nodes: seq<Node>, p: seq<Node>, source: Node)
    reads set x | x in p
  {
    && |p| >= 1
    && p[0] == source
    && NoRepeats(p)
    && forall i :: 0 <= i < |p| - 1 ==> Step(nodes, p[i], p[i + 1])
  }

  predicate PathBetween(nodes: seq<Node>, p: seq<Node>, source: Node, target: Node)
    reads set x | x in p
  {
    Walk(nodes, p, source) && |p| >= 2 && p[|p| - 1] == target
  }

  lemma WalkExtend(nodes: seq<Node>, p: seq<Node>, source: Node, b: Node)
    requires Walk(nodes, p, source) && Step(nodes, p[|p| - 1], b) && b !in p
    ensures Walk(nodes, p + [b], source)
  {
    var q := p + [b];
    assert forall i :: 0 <= i < |p| ==> q[i] == p[i];
    forall i | 0 <= i < |q| - 1
      ensures Step(nodes, q[i], q[i + 1])
    {
      if i < |p| - 1 {
        assert Step(nodes, p[i], p[i + 1]);
      }
    }
  }

  // ---------------------------------------------------------------------
  // Trials (_process_rebalancing_request)

  /** One attempt: a path of ids and an amount. */
  datatype Trial = Trial(path: seq<NodeId>, amount: real)

  predicate Positive(amounts: seq<real>)
  {
    forall i :: 0 <= i < |amounts| ==> amounts[i] > 0.0
  }

  /** The first amount whose improvement along the path is positive. */
  function FirstAmount(net: Network, sigma: real, path: seq<NodeId>, amounts: seq<real>): Option<real>
    requires NetworkWellFormed(net) && Positive(amounts)
    decreases |amounts|
  {
    if amounts == [] then None
    else if CalculateImprovement(net, path, amounts[0], sigma) > 0.0 then Some(amounts[0])
    else FirstAmount(net, sigma, path, amounts[1..])
  }

  /** The first path with a scoring amount, and that amount: the order in
      which the nested loops of the request try (path, amount) pairs. */
  function FirstScoring(net: Network, sigma: real, paths: seq<seq<NodeId>>, amounts: seq<real>): Option<Trial>
    requires NetworkWellFormed(net) && Positive(amounts)
    decreases |paths|
  {
    if paths == [] then None
    else match FirstAmount(net, sigma, paths[0], amounts)
      case Some(a) => Some(Trial(paths[0], a))
      case None => FirstScoring(net, sigma, paths[1..], amounts)
  }

  /** No amount is found exactly when no amount scores. */
  lemma FirstAmountNone(net: Network, sigma: real, path: seq<NodeId>, amounts: seq<real>)
    requires NetworkWellFormed(net) && Positive(amounts)
    ensures FirstAmount(net, sigma, path, amounts).None? <==>
            forall j :: 0 <= j < |amounts| ==> CalculateImprovement(net, path, amounts[j], sigma) <= 0.0
  {
    if FirstAmount(net, sigma, path, amounts).None? {
      NoneScoresNothing(net, sigma, path, amounts);
    } else {
      var i := FirstAmountIsFirst(net, sigma, path, amounts);
    }
  }

  /** When no amount is found, no amount scores. */
  lemma {:induction false} NoneScoresNothing(net: Network, sigma: real, path: seq<NodeId>, amounts: seq<real>)
    requires NetworkWellFormed(net) && Positive(amounts)
    requires FirstAmount(net, sigma, path, amounts).None?
    ensures forall j :: 0 <= j < |amounts| ==> CalculateImprovement(net, path, amounts[j], sigma) <= 0.0
    decreases |amounts|
  {
    if amounts != [] {
      var rest := amounts[1..];
      NoneScoresNothing(net, sigma, path, rest);
      assert forall j :: 1 <= j < |amounts| ==> amounts[j] == rest[j - 1];
    }
  }

  /** A found amount is the first scoring one, at index `i`. */
  lemma {:induction false} FirstAmountIsFirst(net: Network, sigma: real, path: seq<NodeId>, amounts: seq<real>)
    returns (i: nat)
    requires NetworkWellFormed(net) && Positive(amounts)
    ensures FirstAmount(net, sigma, path, amounts).Some? ==>
            && i < |amounts| && amounts[i] == FirstAmount(net, sigma, path, amounts).value
            && CalculateImprovement(net, path, amounts[i], sigma) > 0.0
            && forall j :: 0 <= j < i ==> CalculateImprovement(net, path, amounts[j], sigma) <= 0.0
    decreases |amounts|
  {
    i := 0;
    if amounts != [] && CalculateImprovement(net, path, amounts[0], sigma) <= 0.0 {
      var rest := amounts[1..];
      var k := FirstAmountIsFirst(net, sigma, path, rest);
      assert forall j :: 1 <= j < |amounts| ==> amounts[j] == rest[j - 1];
      i := k + 1;
    }
  }

  predicate Decreasing(amounts: seq<real>)
  {
    forall i, j :: 0 <= i < j < |amounts| ==> amounts[i] > amounts[j]
  }

  /** The trial amounts are positive and tried largest first. */
  lemma AmountsLargestFirst()
    ensures Positive(Amounts) && Decreasing(Amounts)
  {
  }

  /** With the amounts largest first, the amount chosen on a path is the
      largest one that scores. */
  lemma FirstAmountLargest(net: Network, sigma: real, path: seq<NodeId>, amounts: seq<real>)
    requires NetworkWellFormed(net) && Positive(amounts) && Decreasing(amounts)
    requires FirstAmount(net, sigma, path, amounts).Some?
    ensures forall i :: 0 <= i < |amounts| && CalculateImprovement(net, path, amounts[i], sigma) > 0.0 ==>
              amounts[i] <= FirstAmount(net, sigma, path, amounts).value
  {
    var k := FirstAmountIsFirst(net, sigma, path, amounts);
  }

  /** The chosen trial is one of the given paths with one of the given
      amounts, it scores, and it passes validation: a positive improvement
      at a positive amount is only reported for a valid path. */
  lemma {:induction false} FirstScoringValidates(net: Network, sigma: real, paths: seq<seq<NodeId>>, amounts: seq<real>)
    requires NetworkWellFormed(net) && Positive(amounts)
    requires FirstScoring(net, sigma, paths, amounts).Some?
    ensures var t := FirstScoring(net, sigma, paths, amounts).value;
            && t.path in paths && t.amount in amounts && t.amount > 0.0
            && CalculateImprovement(net, t.path, t.amount, sigma) > 0.0
            && ValidatePath(net, t.path, t.amount, sigma)
    decreases |paths|
  {
    var i := FirstAmountIsFirst(net, sigma, paths[0], amounts);
    if FirstAmount(net, sigma, paths[0], amounts).None? {
      FirstScoringValidates(net, sigma, paths[1..], amounts);
      var t := FirstScoring(net, sigma, paths, amounts).value;
      assert t.path in paths[1..];
    }
  }

  /** A path none of whose entries the engine holds never scores at a
      positive amount, so no trial is ever chosen. */
  lemma {:induction false} UnregisteredPathsNeverScore(net: Network, sigma: real, paths: seq<seq<NodeId>>,
                                                      amounts: seq<real>)
    requires NetworkWellFormed(net) && Positive(amounts)
    requires forall k :: 0 <= k < |paths| ==> forall x :: x in paths[k] ==> x !in net
    ensures FirstScoring(net, sigma, paths, amounts) == None
    decreases |paths|
  {
    if paths != [] {
      forall i | 0 <= i < |amounts|
        ensures CalculateImprovement(net, paths[0], amounts[i], sigma) <= 0.0
      {
        if |paths[0]| >= 2 {
          assert !HopValid(net, paths[0][0], paths[0][1], amounts[i], sigma);
        }
      }
      FirstAmountNone(net, sigma, paths[0], amounts);
      assert forall k :: 1 <= k < |paths| ==> paths[1..][k - 1] == paths[k];
      UnregisteredPathsNeverScore(net, sigma, paths[1..], amounts);
    }
  }

  lemma {:induction false} FirstAmountAppend(net: Network, sigma: real, path: seq<NodeId>, xs: seq<real>, ys: seq<real>)
    requires NetworkWellFormed(net) && Positive(xs) && Positive(ys)
    ensures Positive(xs + ys)
    ensures FirstAmount(net, sigma, path, xs + ys) ==
            if FirstAmount(net, sigma, path, xs).Some? then FirstAmount(net, sigma, path, xs)
            else FirstAmount(net, sigma, path, ys)
    decreases |xs|
  {
    if xs != [] {
      assert (xs + ys)[1..] == xs[1..] + ys;
      FirstAmountAppend(net, sigma, path, xs[1..], ys);
    } else {
      assert xs + ys == ys;
    }
  }

  lemma {:induction false} FirstScoringAppend(net: Network, sigma: real, xs: seq<seq<NodeId>>, ys: seq<seq<NodeId>>,
                                            amounts: seq<real>)
    requires NetworkWellFormed(net) && Positive(amounts)
    ensures FirstScoring(net, sigma, xs + ys, amounts) ==
            if FirstScoring(net, sigma, xs, amounts).Some? then FirstScoring(net, sigma, xs, amounts)
            else FirstScoring(net, sigma, ys, amounts)
    decreases |xs|
  {
    if xs != [] {
      assert (xs + ys)[1..] == xs[1..] + ys;
      FirstScoringAppend(net, sigma, xs[1..], ys, amounts);
    } else {
      assert xs + ys == ys;
    }
  }

  /** One more amount tried on a path whose earlier amounts did not score. */
  lemma AmountStep(net: Network, sigma: real, path: seq<NodeId>, amounts: seq<real>, i: nat)
    requires NetworkWellFormed(net) && Positive(amounts) && i < |amounts|
    requires FirstAmount(net, sigma, path, amounts[..i]) == None
    ensures FirstAmount(net, sigma, path, amounts[..i + 1]) ==
            if CalculateImprovement(net, path, amounts[i], sigma) > 0.0 then Some(amounts[i]) else None
  {
    assert amounts[..i + 1] == amounts[..i] + [amounts[i]];
    FirstAmountAppend(net, sigma, path, amounts[..i], [amounts[i]]);
  }

  /** One more path tried after earlier paths found nothing. */
  lemma PathStep(net: Network, sigma: real, paths: seq<seq<NodeId>>, amounts: seq<real>, k: nat)
    requires NetworkWellFormed(net) && Positive(amounts) && k < |paths|
    requires FirstScoring(net, sigma, paths[..k], amounts) == None
    ensures FirstScoring(net, sigma, paths[..k + 1], amounts) ==
            match FirstAmount(net, sigma, paths[k], amounts)
            case Some(a) => Some(Trial(paths[k], a))
            case None => None
  {
    assert paths[..k + 1] == paths[..k] + [paths[k]];
    FirstScoringAppend(net, sigma, paths[..k], [paths[k]], amounts);
  }

  /** The first scoring amount met by the loop over amounts is FirstAmount,
      and the transfer it leads to passes validation. */
  lemma AmountHit(net: Network, sigma: real, path: seq<NodeId>, amounts: seq<real>, i: nat)
    requires NetworkWellFormed(net) && Positive(amounts) && i < |amounts|
    requires FirstAmount(net, sigma, path, amounts[..i]) == None
    requires CalculateImprovement(net, path, amounts[i], sigma) > 0.0
    ensures FirstAmount(net, sigma, path, amounts) == Some(amounts[i])
    ensures ValidatePath(net, path, amounts[i], sigma)
  {
    var head, tail := amounts[..i + 1], amounts[i + 1..];
    AmountStep(net, sigma, path, amounts, i);
    assert FirstAmount(net, sigma, path, head) == Some(amounts[i]);
    assert amounts == head + tail;
    FirstAmountAppend(net, sigma, path, head, tail);
  }

  /** The first path with a scoring amount met by the loop over paths gives
      FirstScoring. */
  lemma PathHit(net: Network, sigma: real, paths: seq<seq<NodeId>>, amounts: seq<real>, k: nat)
    requires NetworkWellFormed(net) && Positive(amounts) && k < |paths|
    requires FirstScoring(net, sigma, paths[..k], amounts) == None
    requires FirstAmount(net, sigma, paths[k], amounts).Some?
    ensures FirstScoring(net, sigma, paths, amounts) ==
            Some(Trial(paths[k], FirstAmount(net, sigma, paths[k], amounts).value))
  {
    PathStep(net, sigma, paths, amounts, k);
    assert paths == paths[..k + 1] + paths[k + 1..];
    FirstScoringAppend(net, sigma, paths[..k + 1], paths[k + 1..], amounts);
  }

  // ---------------------------------------------------------------------
  // The scheduler

  class RebalancingScheduler {
    const nodes: seq<Node>
    const leaderElection: LeaderElection
    const engine: RebalancingEngine
    const interval: real
    /** Set by start and stop; the thread itself is not modelled. */
    var running: bool

    constructor (nodes: seq<Node>, leaderElection: LeaderElection, engine: RebalancingEngine, interval: real)
      ensures this.nodes == nodes && this.leaderElection == leaderElection
      ensures this.engine == engine && this.interval == interval
      ensures !running
    {
      this.nodes, this.leaderElection, this.engine, this.interval := nodes, leaderElection, engine, interval;
      running := false;
    }

    /** _has_complementary_imbalance: the local shares of the two nodes'
        totals differ by more than 0.2. None stands for the
        ZeroDivisionError Python raises when a node's totals add up to 0. */
    method HasComplementaryImbalance(n1: Node, n2: Node) returns (r: Option<bool>)
      ensures r.None? <==> !Divisible(n1.View()) || !Divisible(n2.View())
      ensures r.Some? ==> (r.value <==> Complementary(n1.View(), n2.View()))
    {
      var local1 := SumValues(n1.localBalances);
      var remote1 := SumValues(n1.remoteBalances);
      var local2 := SumValues(n2.localBalances);
      var remote2 := SumValues(n2.remoteBalances);
      if local1 + remote1 == 0.0 || local2 + remote2 == 0.0 {
        return None;
      }
      var ratio1 := local1 / (local1 + remote1);
      var ratio2 := local2 / (local2 + remote2);
      ShareFromSums(n1.View(), local1, remote1);
      ShareFromSums(n2.View(), local2, remote2);
      r := Some(Abs(ratio1 - ratio2) > ComplementGap);
    }

    /** The search's queue: every entry is a walk from the source ending at
        the entry's node, all of whose nodes are marked visited. */
    ghost predicate Searching(queue: seq<(Node, seq<Node>)>, visited: set<Node>, source: Node)
      reads set e, x | e in queue && x in e.1 :: x
    {
      forall e :: e in queue ==>
        && Walk(nodes, e.1, source)
        && e.1[|e.1| - 1] == e.0
        && forall x :: x in e.1 ==> x in visited
    }

    /** The target is a neighbour of the source under its own id, and the
        two-node path between them passes the diversity filter. */
    predicate DirectlyReachable(source: Node, target: Node, existing: seq<seq<Node>>)
      reads source
    {
      && source != target
      && target.id in source.localBalances
      && Lookup(nodes, target.id) == Some(target)
      && IsUniquePath([source.id, target.id], IdPaths(existing))
    }

    /** The search state between two dequeues: the source is visited, only
        known nodes are, the target is not (unless it is the source), and
        the queue holds walks over visited nodes. */
    ghost predicate Frontier(queue: seq<(Node, seq<Node>)>, visited: set<Node>, source: Node, target: Node,
                             pool: set<Node>)
      reads set e, x | e in queue && x in e.1 :: x
    {
      && source in visited && visited <= pool
      && (target in visited ==> target == source)
      && Searching(queue, visited, source)
    }

    /** One dequeued entry of _find_path: its peers are taken in an
        arbitrary order; an unknown or visited peer is passed over, and so
        is an extension that fails the diversity filter (its node stays
        unvisited); the extension reaching the target ends the search,
        any other is marked visited and enqueued. */
    method Expand(source: Node, target: Node, existing: seq<seq<Node>>, cur: Node, curPath: seq<Node>,
                  visited0: set<Node>, queue0: seq<(Node, seq<Node>)>, ghost pool: set<Node>, ghost direct: bool)
      returns (visited: set<Node>, queue: seq<(Node, seq<Node>)>, hit: Option<seq<Node>>)
      requires forall n :: n in nodes ==> n in pool
      requires Frontier(queue0, visited0, source, target, pool)
      requires Walk(nodes, curPath, source) && curPath[|curPath| - 1] == cur
      requires forall x :: x in curPath ==> x in visited0
      requires direct ==> DirectlyReachable(source, target, existing) && cur == source && curPath == [source]
      ensures hit.Some? ==> PathBetween(nodes, hit.value, source, target)
      ensures hit.Some? ==> IsUniquePath(Ids(hit.value), IdPaths(existing))
      ensures hit.None? ==> Frontier(queue, visited, source, target, pool)
      ensures visited0 <= visited && (visited == visited0 ==> queue == queue0)
      ensures direct ==> hit == Some([source, target])
    {
      visited, queue, hit := visited0, queue0, None;
      var neighbours := cur.localBalances.Keys;
      while neighbours != {}
        invariant neighbours <= cur.localBalances.Keys
        invariant Frontier(queue, visited, source, target, pool)
        invariant forall x :: x in curPath ==> x in visited
        invariant visited0 <= visited && (visited == visited0 ==> queue == queue0)
        invariant direct ==> target.id in neighbours
        decreases |neighbours|
      {
        var nid :| nid in neighbours;
        neighbours := neighbours - {nid};
        var found := Lookup(nodes, nid);
        if found.None? || found.value in visited {
          continue;
        }
        var neighbour := found.value;
        var newPath := curPath + [neighbour];
        if direct && nid == target.id {
          assert Ids(newPath) == [source.id, target.id];
        }
        if existing != [] && !IsUniquePath(Ids(newPath), IdPaths(existing)) {
          continue;
        }
        WalkExtend(nodes, curPath, source, neighbour);
        if neighbour == target {
          assert direct ==> newPath == [source, target];
          return visited, queue, Some(newPath);
        }
        FrontierPush(queue, visited, source, target, pool, curPath, neighbour);
        visited := visited + {neighbour};
        queue := queue + [(neighbour, newPath)];
      }
    }

    lemma FrontierPush(queue: seq<(Node, seq<Node>)>, visited: set<Node>, source: Node, target: Node,
                       pool: set<Node>, p: seq<Node>, b: Node)
      requires Frontier(queue, visited, source, target, pool)
      requires Walk(nodes, p + [b], source) && b in pool && b != target
      requires forall x :: x in p ==> x in visited
      ensures Frontier(queue + [(b, p + [b])], visited + {b}, source, target, pool)
    {
      var q := queue + [(b, p + [b])];
      forall e | e in q
        ensures Walk(nodes, e.1, source) && e.1[|e.1| - 1] == e.0 && forall x :: x in e.1 ==> x in visited + {b}
      {
        if e in queue {
          assert Walk(nodes, e.1, source) && e.1[|e.1| - 1] == e.0 && forall x :: x in e.1 ==> x in visited;
        }
      }
    }

    /** _find_path: breadth-first search from source, visiting each node's
        channel peers in an arbitrary order (the source shuffles them). An
        extension that fails the diversity filter against `existing` is
        skipped without marking its node visited; the first extension that
        reaches the target is returned. Nothing changes. */
    method FindPath(source: Node, target: Node, existing: seq<seq<Node>>) returns (path: Option<seq<Node>>)
      ensures path.Some? ==> PathBetween(nodes, path.value, source, target)
      ensures path.Some? ==> IsUniquePath(Ids(path.value), IdPaths(existing))
      ensures DirectlyReachable(source, target, existing) ==> path == Some([source, target])
    {
      ghost var pool := (set n | n in nodes) + {source};
      ghost var direct := DirectlyReachable(source, target, existing);
      var visited := {source};
      var queue := [(source, [source])];
      while queue != []
        invariant Frontier(queue, visited, source, target, pool)
        invariant direct ==> queue == [(source, [source])] && visited == {source}
        decreases |pool - visited|, |queue|
      {
        var cur, curPath := queue[0].0, queue[0].1;
        assert queue[0] in queue;
        ghost var visited0 := visited;
        var hit;
        visited, queue, hit := Expand(source, target, existing, cur, curPath, visited, queue[1..], pool, direct);
        if hit.Some? {
          return hit;
        }
        if visited != visited0 {
          SubsetCard(pool - visited, pool - visited0);
        }
      }
      return None;
    }

    /** A path the scan keeps for `node`: at most five nodes, from `node` to a
        different listed node whose local share of funds differs from
        node's by more than 0.2. */
    ghost predicate Candidate(node: Node, p: seq<Node>)
      reads node, set x | x in p
    {
      && 2 <= |p| <= MaxPathNodes
      && p[|p| - 1] in nodes
      && p[|p| - 1] != node
      && PathBetween(nodes, p, node, p[|p| - 1])
      && Divisible(node.View()) && Divisible(p[|p| - 1].View())
      && Complementary(node.View(), p[|p| - 1].View())
    }

    /** Every kept path is a Candidate whose partner is among the first
        `scanned` listed nodes. */
    ghost predicate AllCandidates(node: Node, paths: seq<seq<Node>>, scanned: nat)
      reads node, set k, x | 0 <= k < |paths| && x in paths[k] :: x
      requires scanned <= |nodes|
    {
      forall k :: 0 <= k < |paths| ==> Candidate(node, paths[k]) && paths[k][|paths[k]| - 1] in nodes[..scanned]
    }

    /** Every kept path passed the diversity filter against the paths kept
        before it. */
    predicate Diverse(paths: seq<seq<Node>>)
    {
      forall k :: 0 <= k < |paths| ==> IsUniquePath(Ids(paths[k]), IdPaths(paths[..k]))
    }

    lemma DiverseAppend(paths: seq<seq<Node>>, p: seq<Node>)
      requires Diverse(paths) && IsUniquePath(Ids(p), IdPaths(paths))
      ensures Diverse(paths + [p])
    {
      var q := paths + [p];
      assert q[..|paths|] == paths;
      forall k | 0 <= k < |paths| ensures q[..k] == paths[..k] && q[k] == paths[k] {
      }
    }

    lemma CandidatesAppend(node: Node, paths: seq<seq<Node>>, p: seq<Node>, scanned: nat)
      requires scanned <= |nodes|
      requires AllCandidates(node, paths, scanned)
      requires Candidate(node, p) && p[|p| - 1] in nodes[..scanned]
      ensures AllCandidates(node, paths + [p], scanned)
    {
      var q := paths + [p];
      forall k | 0 <= k < |q|
        ensures Candidate(node, q[k]) && q[k][|q[k]| - 1] in nodes[..scanned]
      {
        if k < |paths| {
          assert q[k] == paths[k];
        }
      }
    }

    /** A found path to a complementary partner extends the kept paths. */
    lemma KeepPath(node: Node, other: Node, paths: seq<seq<Node>>, p: seq<Node>, i: nat)
      requires i < |nodes| && nodes[i] == other && other != node
      requires Divisible(node.View()) && Divisible(other.View()) && Complementary(node.View(), other.View())
      requires AllCandidates(node, paths, i + 1) && Diverse(paths)
      requires PathBetween(nodes, p, node, other) && |p| <= MaxPathNodes
      requires IsUniquePath(Ids(p), IdPaths(paths))
      ensures AllCandidates(node, paths + [p], i + 1) && Diverse(paths + [p])
    {
      assert other in nodes[..i + 1];
      CandidatesAppend(node, paths, p, i + 1);
      DiverseAppend(paths, p);
    }

    lemma CandidatesWiden(node: Node, paths: seq<seq<Node>>, scanned: nat)
      requires scanned < |nodes| && AllCandidates(node, paths, scanned)
      ensures AllCandidates(node, paths, scanned + 1)
    {
      assert forall x :: x in nodes[..scanned] ==> x in nodes[..scanned + 1];
    }

    /** The up to three searches for one complementary partner, each
        against the paths kept so far; a path of at most five nodes is kept.
        A partner that is a direct neighbour, with a two-node path not too
        similar to those kept, always adds a path. */
    method SearchPartner(node: Node, other: Node, paths0: seq<seq<Node>>, ghost i: nat) returns (paths: seq<seq<Node>>)
      requires i < |nodes| && nodes[i] == other && other != node
      requires Divisible(node.View()) && Divisible(other.View()) && Complementary(node.View(), other.View())
      requires AllCandidates(node, paths0, i + 1) && Diverse(paths0)
      ensures AllCandidates(node, paths, i + 1) && Diverse(paths)
      ensures |paths0| <= |paths| <= |paths0| + Tries
      ensures DirectlyReachable(node, other, paths0) ==> |paths| > |paths0|
    {
      paths := paths0;
      var t := 0;
      while t < Tries
        invariant 0 <= t <= Tries
        invariant AllCandidates(node, paths, i + 1) && Diverse(paths)
        invariant |paths0| <= |paths| <= |paths0| + t
        invariant t == 0 ==> paths == paths0
        invariant DirectlyReachable(node, other, paths0) && t > 0 ==> |paths| > |paths0|
      {
        var p := FindPath(node, other, paths);
        if p.Some? && |p.value| <= MaxPathNodes {
          KeepPath(node, other, paths, p.value, i);
          paths := paths + [p.value];
        }
        t := t + 1;
      }
    }

    /** None of the first `scanned` listed nodes is a complementary partner
        of `node` that is also its direct neighbour: a scan that keeps no
        path has met no such partner. */
    ghost predicate NoDirectPartner(node: Node, scanned: nat)
      reads node, set x | x in nodes
      requires scanned <= |nodes|
    {
      forall j :: 0 <= j < scanned ==> DirectPartnerExcluded(node, nodes[j])
    }

    /** `other` is not a complementary partner of `node` that is also its
        direct neighbour. */
    ghost predicate DirectPartnerExcluded(node: Node, other: Node)
      reads node, other
    {
      (other != node && Divisible(node.View()) && Divisible(other.View()) && Complementary(node.View(), other.View()))
        ==> !DirectlyReachable(node, other, [])
    }

    lemma NoDirectPartnerWiden(node: Node, i: nat)
      requires i < |nodes| && NoDirectPartner(node, i) && DirectPartnerExcluded(node, nodes[i])
      ensures NoDirectPartner(node, i + 1)
    {
    }

    /** _find_rebalancing_paths: scans the listed nodes in order, skipping
        `node` itself; for each partner with a complementary imbalance it
        runs up to three searches, and after each partner it stops once
        `maxPaths` paths are kept, so the cap can be overshot by two.
        `raised` reports the ZeroDivisionError of the imbalance test and
        `scanned` how many listed nodes were examined. Nothing changes.
        When no path is kept, no examined partner was a direct neighbour. */
    method FindRebalancingPaths(node: Node, maxPaths: int)
      returns (paths: seq<seq<Node>>, raised: bool, ghost scanned: nat)
      ensures scanned <= |nodes|
      ensures AllCandidates(node, paths, scanned) && Diverse(paths)
      ensures |paths| <= if maxPaths >= 1 then maxPaths + Tries - 1 else Tries
      ensures !raised && scanned < |nodes| ==> |paths| >= maxPaths
      ensures raised ==> scanned < |nodes| && nodes[scanned] != node &&
                         (!Divisible(node.View()) || !Divisible(nodes[scanned].View()))
      ensures paths == [] ==> NoDirectPartner(node, scanned)
    {
      paths, raised, scanned := [], false, |nodes|;
      var i := 0;
      while i < |nodes|
        invariant 0 <= i <= |nodes|
        invariant AllCandidates(node, paths, i) && Diverse(paths)
        invariant paths == [] || |paths| < maxPaths
        invariant paths == [] ==> NoDirectPartner(node, i)
      {
        var kept, failed := ScanNode(node, paths, i);
        if failed {
          raised, scanned := true, i;
          break;
        }
        paths := kept;
        if nodes[i] != node && |paths| >= maxPaths {
          scanned := i + 1;
          break;
        }
        i := i + 1;
      }
    }

    /** One pass of the scan, on listed node i: unless it is `node` itself,
        the imbalance test is made, and raises (`raised`, nothing kept) when
        a side has no funds; a complementary partner is searched
        (SearchPartner). */
    method ScanNode(node: Node, paths0: seq<seq<Node>>, i: nat) returns (paths: seq<seq<Node>>, raised: bool)
      requires i < |nodes| && AllCandidates(node, paths0, i) && Diverse(paths0)
      requires paths0 == [] ==> NoDirectPartner(node, i)
      ensures raised <==> nodes[i] != node && (!Divisible(node.View()) || !Divisible(nodes[i].View()))
      ensures raised ==> paths == paths0 && AllCandidates(node, paths, i)
      ensures !raised ==> AllCandidates(node, paths, i + 1) && Diverse(paths)
      ensures |paths0| <= |paths| <= |paths0| + Tries
      ensures nodes[i] == node ==> paths == paths0
      ensures !raised && paths == [] ==> NoDirectPartner(node, i + 1)
    {
      var other := nodes[i];
      paths, raised := paths0, false;
      CandidatesWiden(node, paths, i);
      if other != node {
        var complementary := HasComplementaryImbalance(node, other);
        if complementary.None? {
          return paths0, true;
        }
        if complementary.value {
          paths := SearchPartner(node, other, paths, i);
        }
      }
      if paths == [] {
        NoDirectPartnerWiden(node, i);
      }
    }

    /** The inner loop of _process_rebalancing_request for one path: the
        amounts are tried largest first, and the first one with a positive
        improvement is executed. */
    method TryAmounts(path: seq<NodeId>) returns (ok: bool)
      requires engine.Valid() && NetworkWellFormed(engine.Snapshot()) && Mirrored(engine.Snapshot())
      modifies engine.nodes.Values`localBalances, engine.nodes.Values`remoteBalances
      ensures engine.Valid() && Positive(Amounts)
      ensures ok == FirstAmount(old(engine.Snapshot()), engine.sigma, path, Amounts).Some?
      ensures ok ==>
        var a := FirstAmount(old(engine.Snapshot()), engine.sigma, path, Amounts).value;
        && HopsPresent(old(engine.Snapshot()), path)
        && engine.Snapshot() == ApplyPath(old(engine.Snapshot()), path, a)
      ensures !ok ==> engine.Snapshot() == old(engine.Snapshot())
    {
      ghost var s0 := engine.Snapshot();
      AmountsLargestFirst();
      MirroredImpliesMirroredAlong(s0, path);
      var i := 0;
      while i < |Amounts|
        invariant 0 <= i <= |Amounts|
        invariant engine.Valid() && engine.Snapshot() == s0
        invariant FirstAmount(s0, engine.sigma, path, Amounts[..i]) == None
      {
        var improvement := CalculateImprovement(engine.Snapshot(), path, Amounts[i], engine.sigma);
        if improvement > 0.0 {
          ok := engine.ExecuteTransfer(path, Amounts[i]);
          AmountHit(s0, engine.sigma, path, Amounts, i);
          return;
        }
        AmountStep(s0, engine.sigma, path, Amounts, i);
        i := i + 1;
      }
      assert Amounts[..|Amounts|] == Amounts;
      ok := false;
    }

    /** Lowers the node's needs_rebalancing flag, which the engine's
        snapshot does not read. */
    method LowerNeed(node: Node)
      modifies node`needsRebalancing
      ensures !node.needsRebalancing && engine.Snapshot() == old(engine.Snapshot())
    {
      node.needsRebalancing := false;
    }

    /** The outer loop of _process_rebalancing_request: the paths are tried
        in order, each with TryAmounts, until one transfer is executed. */
    method TryPaths(paths: seq<seq<NodeId>>) returns (ok: bool)
      requires engine.Valid() && NetworkWellFormed(engine.Snapshot()) && Mirrored(engine.Snapshot())
      modifies engine.nodes.Values`localBalances, engine.nodes.Values`remoteBalances
      ensures Positive(Amounts)
      ensures ok == FirstScoring(old(engine.Snapshot()), engine.sigma, paths, Amounts).Some?
      ensures ok ==>
        var t := FirstScoring(old(engine.Snapshot()), engine.sigma, paths, Amounts).value;
        && HopsPresent(old(engine.Snapshot()), t.path)
        && engine.Snapshot() == ApplyPath(old(engine.Snapshot()), t.path, t.amount)
      ensures !ok ==> engine.Snapshot() == old(engine.Snapshot())
    {
      ghost var s0 := engine.Snapshot();
      AmountsLargestFirst();
      var k := 0;
      while k < |paths|
        invariant 0 <= k <= |paths|
        invariant engine.Valid() && engine.Snapshot() == s0
        invariant FirstScoring(s0, engine.sigma, paths[..k], Amounts) == None
      {
        ok := TryAmounts(paths[k]);
        if ok {
          PathHit(s0, engine.sigma, paths, Amounts, k);
          return;
        }
        PathStep(s0, engine.sigma, paths, Amounts, k);
        k := k + 1;
      }
      assert paths[..|paths|] == paths;
      ok := false;
    }

    /** The trials of _process_rebalancing_request once paths are found:
        the first scoring trial is executed and lowers the node's
        needs_rebalancing flag; without one nothing changes. */
    method ExecuteFirst(node: Node, paths: seq<seq<NodeId>>) returns (done: bool)
      requires engine.Valid() && NetworkWellFormed(engine.Snapshot()) && Mirrored(engine.Snapshot())
      modifies engine.nodes.Values`localBalances, engine.nodes.Values`remoteBalances, node`needsRebalancing
      ensures Positive(Amounts)
      ensures done == FirstScoring(old(engine.Snapshot()), engine.sigma, paths, Amounts).Some?
      ensures done ==>
        var t := FirstScoring(old(engine.Snapshot()), engine.sigma, paths, Amounts).value;
        && HopsPresent(old(engine.Snapshot()), t.path)
        && engine.Snapshot() == ApplyPath(old(engine.Snapshot()), t.path, t.amount)
        && !node.needsRebalancing
      ensures !done ==> engine.Snapshot() == old(engine.Snapshot()) && node.needsRebalancing == old(node.needsRebalancing)
    {
      done := TryPaths(paths);
      if done {
        LowerNeed(node);
      }
    }

    /** Every node of the paths is `node` or a listed node. */
    predicate OverListed(node: Node, paths: seq<seq<Node>>)
    {
      forall k, j :: 0 <= k < |paths| && 0 <= j < |paths[k]| ==> paths[k][j] == node || paths[k][j] in nodes
    }

    lemma CandidatesListed(node: Node, paths: seq<seq<Node>>, scanned: nat)
      requires scanned <= |nodes| && AllCandidates(node, paths, scanned)
      ensures OverListed(node, paths)
    {
      forall k, j | 0 <= k < |paths| && 0 <= j < |paths[k]| ensures paths[k][j] == node || paths[k][j] in nodes {
        assert Candidate(node, paths[k]);
        if j > 0 {
          assert Step(nodes, paths[k][j - 1], paths[k][j]);
        }
      }
    }

    /** _process_rebalancing_request: finds up to about ten paths, then tries
        the amounts 1000, 750, 500, 250 and 100 on each path in turn; the
        first trial with a positive improvement is executed, which lowers
        the node's needs_rebalancing flag and ends the request. The engine
        is given each path's node ids. `paths`, `raised` and `scanned` are
        the outputs of FindRebalancingPaths, whose promises about the
        balances before the request are handed on. */
    method ProcessRebalancingRequest(node: Node)
      returns (done: bool, ghost paths: seq<seq<Node>>, ghost raised: bool, ghost scanned: nat)
      requires engine.Valid() && NetworkWellFormed(engine.Snapshot()) && Mirrored(engine.Snapshot())
      modifies engine.nodes.Values`localBalances, engine.nodes.Values`remoteBalances, node`needsRebalancing
      ensures Positive(Amounts)
      ensures OverListed(node, paths)
      ensures scanned <= |nodes| && old(AllCandidates(node, paths, scanned)) && Diverse(paths)
      ensures |paths| <= DefaultMaxPaths + Tries - 1
      ensures !raised && scanned < |nodes| ==> |paths| >= DefaultMaxPaths
      ensures raised ==> scanned < |nodes| && nodes[scanned] != node &&
                         old(!Divisible(node.View()) || !Divisible(nodes[scanned].View()))
      ensures paths == [] ==> old(NoDirectPartner(node, scanned))
      ensures done == (!raised && FirstScoring(old(engine.Snapshot()), engine.sigma, IdPaths(paths), Amounts).Some?)
      ensures done ==>
        var t := FirstScoring(old(engine.Snapshot()), engine.sigma, IdPaths(paths), Amounts).value;
        && HopsPresent(old(engine.Snapshot()), t.path)
        && engine.Snapshot() == ApplyPath(old(engine.Snapshot()), t.path, t.amount)
        && !node.needsRebalancing
      ensures !done ==> engine.Snapshot() == old(engine.Snapshot()) && node.needsRebalancing == old(node.needsRebalancing)
    {
      AmountsLargestFirst();
      label start:
      var found, failed, at := FindRebalancingPaths(node, DefaultMaxPaths);
      engine.SnapshotKept@start();
      CandidatesListed(node, found, at);
      paths, raised, scanned := found, failed, at;
      if failed || found == [] {
        return false, paths, raised, scanned;
      }
      done := ExecuteFirst(node, IdPaths(found));
    }
  }
}
