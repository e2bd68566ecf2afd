/** The rebalancing engine (src/entities/rebalancing_engine.py): validation of
    a payment path hop by hop, the mirrored four-entry transfer along it, and
    the skewness-improvement score. The validation and the score are
    functions of a network snapshot; the transfer updates the node objects in
    place. A path is a sequence of node ids. */
module Engine {
  import opened Common
  import opened Channels
  import opened Nodes

  /** Share of capacity each side of a channel must keep after a transfer. */
  const MinShare: real := 0.2

  /** Number of hops of a path (0 for fewer than two nodes). */
  function Hops(path: seq<NodeId>): nat
  {
    if |path| < 2 then 0 else |path| - 1
  }

  /** One hop u -> v of validate_path, judged on the sender's view of the
      channel: both ends registered, the channel known to u, enough local
      balance, both sides at least 20% of capacity afterwards, and not a
      skewness above sigma that is no better than before. */
  predicate HopValid(net: Network, u: NodeId, v: NodeId, amount: real, sigma: real)
    requires NetworkWellFormed(net)
  {
    && u in net && v in net
    && v in net[u].local
    && var l, r, c := net[u].local[v], net[u].remote[v], net[u].capacity[v];
       && l >= amount
       && l - amount >= MinShare * c
       && r + amount >= MinShare * c
       && !(Skewness(l - amount, r + amount, c) > sigma &&
            Skewness(l - amount, r + amount, c) >= Skewness(l, r, c))
  }

  /** validate_path: at least two nodes and every hop valid, each hop judged
      on the balances before the transfer. */
  predicate ValidatePath(net: Network, path: seq<NodeId>, amount: real, sigma: real)
    requires NetworkWellFormed(net)
  {
    |path| >= 2 && forall i :: 0 <= i < |path| - 1 ==> HopValid(net, path[i], path[i + 1], amount, sigma)
  }

  /** The early rejections of validate_path: fewer than two nodes, a hop
      whose ends are not both registered or whose channel the sender does
      not know, and a hop whose sender cannot cover the amount. */
  lemma RejectedPaths(net: Network, path: seq<NodeId>, amount: real, sigma: real, i: nat)
    requires NetworkWellFormed(net)
    ensures |path| < 2 ==> !ValidatePath(net, path, amount, sigma)
    ensures i < |path| - 1 && (path[i] !in net || path[i + 1] !in net || path[i + 1] !in net[path[i]].local) ==>
              !ValidatePath(net, path, amount, sigma)
    ensures i < |path| - 1 && path[i] in net && path[i + 1] in net[path[i]].local &&
            net[path[i]].local[path[i + 1]] < amount ==>
              !ValidatePath(net, path, amount, sigma)
  {
    if i < |path| - 1 {
      assert !ValidatePath(net, path, amount, sigma) <== !HopValid(net, path[i], path[i + 1], amount, sigma);
    }
  }

  /** Every entry a hop u -> v writes exists: the channel at both ends. */
  predicate HopPresent(net: Network, u: NodeId, v: NodeId)
  {
    && u in net && v in net
    && v in net[u].local && v in net[u].remote
    && u in net[v].local && u in net[v].remote
  }

  predicate HopsPresent(net: Network, path: seq<NodeId>)
  {
    forall i :: 0 <= i < |path| - 1 ==> HopPresent(net, path[i], path[i + 1])
  }

  /** Along the path, a channel the sender knows is also known to the receiver
      (execute_transfer writes the receiver's entry without checking it). */
  predicate MirroredAlong(net: Network, path: seq<NodeId>)
  {
    forall i :: (0 <= i < |path| - 1 && path[i] in net && path[i + 1] in net &&
                 path[i + 1] in net[path[i]].local) ==> path[i] in net[path[i + 1]].local
  }

  lemma MirroredImpliesMirroredAlong(net: Network, path: seq<NodeId>)
    requires Mirrored(net)
    ensures MirroredAlong(net, path)
  {
  }

  /** Two views of one node with the same channels and capacities; balances
      and the request flag may differ. */
  predicate SameChannels(a: NodeView, b: NodeView)
  {
    && a.id == b.id
    && a.local.Keys == b.local.Keys && a.remote.Keys == b.remote.Keys
    && a.capacity == b.capacity
  }

  /** Two snapshots of the same nodes, differing in balances only. */
  predicate SameShape(a: Network, b: Network)
  {
    a.Keys == b.Keys && forall k :: k in a ==> SameChannels(a[k], b[k])
  }

  lemma SameShapeTransitive(a: Network, b: Network, c: Network)
    requires SameShape(a, b) && SameShape(b, c)
    ensures SameShape(a, c)
  {
  }

  lemma SameShapeMirrored(a: Network, b: Network)
    requires SameShape(a, b) && Mirrored(a)
    ensures Mirrored(b)
  {
    forall u, v | u in b && v in b && v in b[u].local ensures u in b[v].local {
      assert SameChannels(a[u], b[u]) && SameChannels(a[v], b[v]);
    }
  }

  lemma SameShapeWellFormed(a: Network, b: Network)
    requires SameShape(a, b) && NetworkWellFormed(a)
    ensures NetworkWellFormed(b)
  {
    forall k | k in b ensures b[k].id == k && b[k].WellFormed() {
      assert SameChannels(a[k], b[k]) && a[k].WellFormed();
    }
  }

  /** The sender's writes of a hop towards p: local -= a, remote += a. */
  function Send(w: NodeView, p: NodeId, amount: real): (r: NodeView)
    requires p in w.local && p in w.remote
    ensures SameChannels(w, r)
  {
    w.(local := w.local[p := w.local[p] - amount], remote := w.remote[p := w.remote[p] + amount])
  }

  /** The receiver's writes of a hop from p: local += a, remote -= a. */
  function Receive(w: NodeView, p: NodeId, amount: real): (r: NodeView)
    requires p in w.local && p in w.remote
    ensures SameChannels(w, r)
  {
    w.(local := w.local[p := w.local[p] + amount], remote := w.remote[p := w.remote[p] - amount])
  }

  /** What a hop u -> v carries from x to y: the amount when it is that
      hop, nothing otherwise. */
  function Carried(u: NodeId, v: NodeId, x: NodeId, y: NodeId, amount: real): real
  {
    if u == x && v == y then amount else 0.0
  }

  /** One hop of execute_transfer: u.local[v] -= a, v.local[u] += a,
      u.remote[v] += a, v.remote[u] -= a. Grouped by node, u sends and v
      receives; on a channel of a node to itself the four writes cancel. */
  function ApplyHop(net: Network, u: NodeId, v: NodeId, amount: real): (r: Network)
    requires HopPresent(net, u, v)
    ensures SameShape(net, r)
  {
    if u == v then net
    else net[u := Send(net[u], v, amount)][v := Receive(net[v], u, amount)]
  }

  /** A hop moves the amount out of u's local balance towards v into v's
      local balance towards u, the remote balances mirror it, and no other
      entry changes. */
  lemma HopEntry(net: Network, u: NodeId, v: NodeId, amount: real, k: NodeId, p: NodeId)
    requires HopPresent(net, u, v) && k in net
    ensures p in net[k].local ==>
      ApplyHop(net, u, v, amount)[k].local[p] == net[k].local[p] + Carried(u, v, p, k, amount) - Carried(u, v, k, p, amount)
    ensures p in net[k].remote ==>
      ApplyHop(net, u, v, amount)[k].remote[p] == net[k].remote[p] - Carried(u, v, p, k, amount) + Carried(u, v, k, p, amount)
  {
    var r := ApplyHop(net, u, v, amount);
    if u == v {
      assert r[k] == net[k];
    } else if k == u {
      assert r[k] == Send(net[u], v, amount);
    } else if k == v {
      assert r[k] == Receive(net[v], u, amount);
    } else {
      assert r[k] == net[k];
    }
  }

  /** Amount that crossed from x to y along the path: one `amount` per hop x -> y. */
  function Moved(path: seq<NodeId>, x: NodeId, y: NodeId, amount: real): real
  {
    if |path| < 2 then 0.0
    else
      Moved(path[..|path| - 1], x, y, amount) + Carried(path[|path| - 2], path[|path| - 1], x, y, amount)
  }

  /** The loop of execute_transfer: the hops applied in path order. Every
      channel entry of k towards p gains what p sent to k and loses what k
      sent to p; the remote entries move the opposite way. */
  function ApplyPath(net: Network, path: seq<NodeId>, amount: real): (r: Network)
    requires HopsPresent(net, path)
    ensures SameShape(net, r)
    decreases |path|
  {
    if |path| < 2 then net
    else
      var prefix := path[..|path| - 1];
      assert HopsPresent(net, prefix) by {
        forall i | 0 <= i < |prefix| - 1 ensures HopPresent(net, prefix[i], prefix[i + 1]) {
          assert prefix[i] == path[i] && prefix[i + 1] == path[i + 1];
        }
      }
      var mid := ApplyPath(net, prefix, amount);
      assert HopPresent(net, path[|path| - 2], path[|path| - 1]);
      var r := ApplyHop(mid, path[|path| - 2], path[|path| - 1], amount);
      SameShapeTransitive(net, mid, r);
      r
  }

  /** The last hop of a path is applied to what its prefix left. */
  lemma ApplyPathLast(net: Network, path: seq<NodeId>, amount: real)
    requires HopsPresent(net, path) && |path| >= 2
    ensures HopsPresent(net, path[..|path| - 1])
    ensures HopPresent(ApplyPath(net, path[..|path| - 1], amount), path[|path| - 2], path[|path| - 1])
    ensures ApplyPath(net, path, amount) ==
            ApplyHop(ApplyPath(net, path[..|path| - 1], amount), path[|path| - 2], path[|path| - 1], amount)
  {
    HopsPresentPrefix(net, path, |path| - 1);
    assert HopPresent(net, path[|path| - 2], path[|path| - 1]);
  }

  lemma HopsPresentPrefix(net: Network, path: seq<NodeId>, n: nat)
    requires HopsPresent(net, path) && n <= |path|
    ensures HopsPresent(net, path[..n])
  {
    forall i | 0 <= i < n - 1 ensures HopPresent(net, path[..n][i], path[..n][i + 1]) {
      assert path[..n][i] == path[i] && path[..n][i + 1] == path[i + 1];
    }
  }

  /** Every channel entry of k towards p gains what p sent to k along the
      path and loses what k sent to p; the remote entries move the opposite
      way. */
  lemma {:induction false} PathEntry(net: Network, path: seq<NodeId>, amount: real, k: NodeId, p: NodeId)
    requires HopsPresent(net, path) && k in net
    ensures p in net[k].local ==>
      ApplyPath(net, path, amount)[k].local[p] ==
      net[k].local[p] + Moved(path, p, k, amount) - Moved(path, k, p, amount)
    ensures p in net[k].remote ==>
      ApplyPath(net, path, amount)[k].remote[p] ==
      net[k].remote[p] - Moved(path, p, k, amount) + Moved(path, k, p, amount)
    decreases |path|
  {
    if |path| >= 2 {
      var prefix, u, v := path[..|path| - 1], path[|path| - 2], path[|path| - 1];
      ApplyPathLast(net, path, amount);
      PathEntry(net, prefix, amount, k, p);
      var mid := ApplyPath(net, prefix, amount);
      HopEntry(mid, u, v, amount, k, p);
    }
  }

  /** Every channel entry keeps local + remote: a transfer only moves funds
      between the two sides. */
  lemma ChannelTotalsConserved(net: Network, path: seq<NodeId>, amount: real)
    requires HopsPresent(net, path)
    ensures forall k, p :: k in net && p in net[k].local && p in net[k].remote ==>
      ApplyPath(net, path, amount)[k].local[p] + ApplyPath(net, path, amount)[k].remote[p] ==
      net[k].local[p] + net[k].remote[p]
  {
    forall k, p | k in net && p in net[k].local && p in net[k].remote
      ensures ApplyPath(net, path, amount)[k].local[p] + ApplyPath(net, path, amount)[k].remote[p] ==
              net[k].local[p] + net[k].remote[p]
    {
      PathEntry(net, path, amount, k, p);
    }
  }

  /** No node id appears twice. */
  predicate Distinct(path: seq<NodeId>)
  {
    forall i, j :: 0 <= i < j < |path| ==> path[i] != path[j]
  }

  /** On a path without repeated nodes each hop u -> v carries the amount
      once forwards and never backwards. */
  lemma {:induction false} DistinctMoved(path: seq<NodeId>, i: nat, amount: real)
    requires Distinct(path) && i < |path| - 1
    ensures Moved(path, path[i], path[i + 1], amount) == amount
    ensures Moved(path, path[i + 1], path[i], amount) == 0.0
    decreases |path|
  {
    var n := |path|;
    var prefix := path[..n - 1];
    if i < n - 2 {
      assert prefix[i] == path[i] && prefix[i + 1] == path[i + 1];
      DistinctMoved(prefix, i, amount);
    } else {
      MovedAbsent(prefix, path[i], path[i + 1], amount);
      MovedAbsent(prefix, path[i + 1], path[i], amount);
    }
  }

  /** A node that is not on the path (as a sender) moved nothing. */
  lemma {:induction false} MovedAbsent(path: seq<NodeId>, x: NodeId, y: NodeId, amount: real)
    requires x !in path || y !in path
    ensures Moved(path, x, y, amount) == 0.0
    decreases |path|
  {
    if |path| >= 2 {
      MovedAbsent(path[..|path| - 1], x, y, amount);
    }
  }

  /** After a validated transfer along a path without repeated nodes, the
      sender side of every hop keeps at least 20% of capacity on both sides. */
  lemma ValidatedTransferKeepsFloor(net: Network, path: seq<NodeId>, amount: real, sigma: real, i: nat)
    requires NetworkWellFormed(net) && ValidatePath(net, path, amount, sigma)
    requires HopsPresent(net, path) && Distinct(path) && i < |path| - 1
    ensures var r := ApplyPath(net, path, amount);
      && r[path[i]].local[path[i + 1]] == net[path[i]].local[path[i + 1]] - amount
      && r[path[i]].remote[path[i + 1]] == net[path[i]].remote[path[i + 1]] + amount
      && r[path[i]].local[path[i + 1]] >= MinShare * r[path[i]].capacity[path[i + 1]]
      && r[path[i]].remote[path[i + 1]] >= MinShare * r[path[i]].capacity[path[i + 1]]
  {
    DistinctMoved(path, i, amount);
    PathEntry(net, path, amount, path[i], path[i + 1]);
    assert HopValid(net, path[i], path[i + 1], amount, sigma);
  }

  /** Amount node k received minus amount it sent along the path. */
  function Flow(path: seq<NodeId>, k: NodeId, amount: real): real
  {
    if |path| < 2 then 0.0
    else
      Flow(path[..|path| - 1], k, amount)
      + (if path[|path| - 1] == k then amount else 0.0)
      - (if path[|path| - 2] == k then amount else 0.0)
  }

  /** One hop changes the sender's total local balance by -amount and the
      receiver's by +amount (and the remote totals the other way). */
  lemma SendTotals(w: NodeView, p: NodeId, amount: real)
    requires p in w.local && p in w.remote
    ensures MapSum(Send(w, p, amount).local) == MapSum(w.local) - amount
    ensures MapSum(Send(w, p, amount).remote) == MapSum(w.remote) + amount
  {
    var r := Send(w, p, amount);
    assert r.local == w.local[p := w.local[p] - amount];
    assert r.remote == w.remote[p := w.remote[p] + amount];
    MapSumSub(w.local, p, amount);
    MapSumAdd(w.remote, p, amount);
  }

  lemma ReceiveTotals(w: NodeView, p: NodeId, amount: real)
    requires p in w.local && p in w.remote
    ensures MapSum(Receive(w, p, amount).local) == MapSum(w.local) + amount
    ensures MapSum(Receive(w, p, amount).remote) == MapSum(w.remote) - amount
  {
    var r := Receive(w, p, amount);
    assert r.local == w.local[p := w.local[p] + amount];
    assert r.remote == w.remote[p := w.remote[p] - amount];
    MapSumAdd(w.local, p, amount);
    MapSumSub(w.remote, p, amount);
  }

  lemma HopTotal(net: Network, u: NodeId, v: NodeId, amount: real, k: NodeId)
    requires HopPresent(net, u, v) && k in net
    ensures var shift := (if k == v then amount else 0.0) - (if k == u then amount else 0.0);
      && MapSum(ApplyHop(net, u, v, amount)[k].local) == MapSum(net[k].local) + shift
      && MapSum(ApplyHop(net, u, v, amount)[k].remote) == MapSum(net[k].remote) - shift
  {
    var r := ApplyHop(net, u, v, amount);
    if u != v && k == u {
      assert r[k] == Send(net[u], v, amount);
      SendTotals(net[u], v, amount);
    } else if u != v && k == v {
      assert r[k] == Receive(net[v], u, amount);
      ReceiveTotals(net[v], u, amount);
    } else {
      assert r[k] == net[k];
    }
  }

  /** get_total_outgoing_liquidity after a transfer: every node's total local
      balance moves by what it received minus what it sent. */
  lemma {:induction false} PathTotal(net: Network, path: seq<NodeId>, amount: real, k: NodeId)
    requires HopsPresent(net, path) && k in net
    ensures MapSum(ApplyPath(net, path, amount)[k].local) == MapSum(net[k].local) + Flow(path, k, amount)
    ensures MapSum(ApplyPath(net, path, amount)[k].remote) == MapSum(net[k].remote) - Flow(path, k, amount)
    decreases |path|
  {
    if |path| >= 2 {
      var prefix := path[..|path| - 1];
      HopsPresentPrefix(net, path, |path| - 1);
      PathTotal(net, prefix, amount, k);
      var mid := ApplyPath(net, prefix, amount);
      assert HopPresent(net, path[|path| - 2], path[|path| - 1]);
      HopTotal(mid, path[|path| - 2], path[|path| - 1], amount, k);
    }
  }

  /** On a path without repeated nodes the source gives up the amount, the
      target receives it and every other node (intermediate or not on the
      path) ends with the same total. */
  lemma {:induction false} DistinctFlow(path: seq<NodeId>, k: NodeId, amount: real)
    requires Distinct(path) && |path| >= 2
    ensures k == path[0] ==> Flow(path, k, amount) == -amount
    ensures k == path[|path| - 1] ==> Flow(path, k, amount) == amount
    ensures k != path[0] && k != path[|path| - 1] ==> Flow(path, k, amount) == 0.0
    decreases |path|
  {
    var n := |path|;
    var prefix := path[..n - 1];
    if n > 2 {
      assert prefix[0] == path[0] && prefix[n - 2] == path[n - 2];
      DistinctFlow(prefix, k, amount);
    }
  }

  /** Node ids along the path are registered and each sender knows the next
      node: what calculate_improvement reads. */
  predicate HopsReadable(net: Network, path: seq<NodeId>)
  {
    forall i :: 0 <= i < |path| - 1 ==> HopReadable(net, path[i], path[i + 1])
  }

  /** Both ends registered and the sender knows the receiver. */
  predicate HopReadable(net: Network, u: NodeId, v: NodeId)
  {
    u in net && v in net && v in net[u].local
  }

  lemma HopsReadablePrefix(net: Network, path: seq<NodeId>)
    requires HopsReadable(net, path) && |path| >= 1
    ensures HopsReadable(net, path[..|path| - 1])
  {
    var prefix := path[..|path| - 1];
    forall i | 0 <= i < |prefix| - 1 ensures HopReadable(net, prefix[i], prefix[i + 1]) {
      assert prefix[i] == path[i] && prefix[i + 1] == path[i + 1];
    }
  }

  /** Skewness of the sender's side of hop u -> v after moving `amount`. */
  function HopSkew(net: Network, u: NodeId, v: NodeId, amount: real): real
    requires NetworkWellFormed(net) && u in net && v in net[u].local
  {
    Skewness(net[u].local[v] - amount, net[u].remote[v] + amount, net[u].capacity[v])
  }

  /** The list of per-hop skews calculate_improvement builds. */
  function Skews(net: Network, path: seq<NodeId>, amount: real): (s: seq<real>)
    requires NetworkWellFormed(net) && HopsReadable(net, path)
    ensures |s| == Hops(path)
    ensures forall i :: 0 <= i < |s| ==> s[i] == HopSkew(net, path[i], path[i + 1], amount)
    decreases |path|
  {
    if |path| < 2 then []
    else
      var prefix := path[..|path| - 1];
      HopsReadablePrefix(net, path);
      Skews(net, prefix, amount) + [HopSkew(net, path[|path| - 2], path[|path| - 1], amount)]
  }

  /** The skewness each hop gains: before minus after. */
  function Gain(net: Network, u: NodeId, v: NodeId, amount: real): real
    requires NetworkWellFormed(net) && u in net && v in net[u].local
  {
    HopSkew(net, u, v, 0.0) - HopSkew(net, u, v, amount)
  }

  /** Total of the per-hop gains. */
  function GainSum(net: Network, path: seq<NodeId>, amount: real): real
    requires NetworkWellFormed(net) && HopsReadable(net, path)
    decreases |path|
  {
    if |path| < 2 then 0.0
    else
      var prefix := path[..|path| - 1];
      HopsReadablePrefix(net, path);
      GainSum(net, prefix, amount) + Gain(net, path[|path| - 2], path[|path| - 1], amount)
  }

  /** A validated path can be read hop by hop. */
  lemma ScoredPathReadable(net: Network, path: seq<NodeId>, amount: real, sigma: real)
    requires NetworkWellFormed(net) && (amount <= 0.0 ==> HopsReadable(net, path))
    requires amount <= 0.0 || ValidatePath(net, path, amount, sigma)
    ensures HopsReadable(net, path)
  {
    if amount > 0.0 {
      forall i | 0 <= i < |path| - 1 ensures HopReadable(net, path[i], path[i + 1]) {
        assert HopValid(net, path[i], path[i + 1], amount, sigma);
      }
    }
  }

  /** calculate_improvement: 0 when a positive amount fails validation;
      otherwise the summed skewness of the hops before the transfer minus the
      summed skewness after it, which is the sum of the per-hop gains. (A
      non-positive amount is scored without validation.) */
  function CalculateImprovement(net: Network, path: seq<NodeId>, amount: real, sigma: real): (imp: real)
    requires NetworkWellFormed(net)
    requires amount <= 0.0 ==> HopsReadable(net, path)
    ensures amount > 0.0 && !ValidatePath(net, path, amount, sigma) ==> imp == 0.0
    ensures (amount <= 0.0 || ValidatePath(net, path, amount, sigma)) ==>
              HopsReadable(net, path) && imp == GainSum(net, path, amount)
  {
    if amount > 0.0 && !ValidatePath(net, path, amount, sigma) then 0.0
    else
      ScoredPathReadable(net, path, amount, sigma);
      SkewSumDifference(net, path, amount);
      SeqSum(Skews(net, path, 0.0)) - SeqSum(Skews(net, path, amount))
  }

  /** The difference of the two sums is the sum of the differences. */
  lemma {:induction false} SkewSumDifference(net: Network, path: seq<NodeId>, amount: real)
    requires NetworkWellFormed(net) && HopsReadable(net, path)
    ensures SeqSum(Skews(net, path, 0.0)) - SeqSum(Skews(net, path, amount)) == GainSum(net, path, amount)
    decreases |path|
  {
    if |path| >= 2 {
      var prefix := path[..|path| - 1];
      HopsReadablePrefix(net, path);
      SkewSumDifference(net, prefix, amount);
      var s0, s1 := Skews(net, path, 0.0), Skews(net, path, amount);
      assert s0[..|s0| - 1] == Skews(net, prefix, 0.0);
      assert s1[..|s1| - 1] == Skews(net, prefix, amount);
    }
  }

  /** A validated hop whose skewness ends above sigma strictly improved: the
      only way past the skewness rule above sigma is to gain. */
  lemma ValidatedHopsGainOrStayBelowSigma(net: Network, path: seq<NodeId>, amount: real, sigma: real, i: nat)
    requires NetworkWellFormed(net) && ValidatePath(net, path, amount, sigma) && i < |path| - 1
    ensures HopSkew(net, path[i], path[i + 1], amount) <= sigma ||
            Gain(net, path[i], path[i + 1], amount) > 0.0
  {
    assert HopValid(net, path[i], path[i + 1], amount, sigma);
  }

  /** The example of the 20% floor: 600 local, 400 remote, capacity 1000 and
      an amount of 500 would leave 100 < 200 locally, so the hop is refused. */
  lemma FloorRejectsExample(sigma: real)
    ensures var net := map["A" := NodeView("A", map["B" := 600.0], map["B" := 400.0], map["B" := 1000.0], false),
                           "B" := NodeView("B", map["A" := 400.0], map["A" := 600.0], map["A" := 1000.0], false)];
      NetworkWellFormed(net) && !ValidatePath(net, ["A", "B"], 500.0, sigma)
  {
    var a := NodeView("A", map["B" := 600.0], map["B" := 400.0], map["B" := 1000.0], false);
    var b := NodeView("B", map["A" := 400.0], map["A" := 600.0], map["A" := 1000.0], false);
    var net := map["A" := a, "B" := b];
    assert a.WellFormed() && b.WellFormed();
    assert net.Keys == {"A", "B"};
    assert NetworkWellFormed(net);
    var path := ["A", "B"];
    assert path[0] == "A" && path[1] == "B";
    assert !HopValid(net, "A", "B", 500.0, sigma);
  }

  /** A hop that lowers the skewness passes the skewness rule even when the
      result is still above sigma. */
  lemma ImprovingHopAccepted(net: Network, u: NodeId, v: NodeId, amount: real, sigma: real)
    requires NetworkWellFormed(net) && u in net && v in net && v in net[u].local
    requires net[u].local[v] >= amount
    requires net[u].local[v] - amount >= MinShare * net[u].capacity[v]
    requires net[u].remote[v] + amount >= MinShare * net[u].capacity[v]
    requires HopSkew(net, u, v, amount) < HopSkew(net, u, v, 0.0)
    ensures HopValid(net, u, v, amount, sigma)
  {
    assert net[u].local[v] - 0.0 == net[u].local[v] && net[u].remote[v] + 0.0 == net[u].remote[v];
  }

  /** A validated path only writes entries that exist. */
  lemma ValidatedHopsPresent(net: Network, path: seq<NodeId>, amount: real, sigma: real)
    requires NetworkWellFormed(net) && ValidatePath(net, path, amount, sigma) && MirroredAlong(net, path)
    ensures HopsPresent(net, path)
  {
    forall i | 0 <= i < |path| - 1 ensures HopPresent(net, path[i], path[i + 1]) {
      assert HopValid(net, path[i], path[i + 1], amount, sigma);
    }
  }

  /** The prefix of i + 2 nodes is the prefix of i + 1 nodes and one more hop. */
  lemma ApplyPathStep(net: Network, path: seq<NodeId>, i: nat, amount: real)
    requires HopsPresent(net, path) && i < |path| - 1
    ensures HopsPresent(net, path[..i + 2])
    ensures HopPresent(ApplyPath(net, path[..i + 1], amount), path[i], path[i + 1])
    ensures ApplyPath(net, path[..i + 2], amount) ==
            ApplyHop(ApplyPath(net, path[..i + 1], amount), path[i], path[i + 1], amount)
  {
    HopsPresentPrefix(net, path, i + 2);
    var next := path[..i + 2];
    assert next[..|next| - 1] == path[..i + 1];
    assert next[|next| - 2] == path[i] && next[|next| - 1] == path[i + 1];
    assert HopPresent(net, path[i], path[i + 1]);
  }

  /** Sending writes on one node object. */
  method SendOn(n: Node, p: NodeId, amount: real)
    requires p in n.localBalances && p in n.remoteBalances
    modifies n`localBalances, n`remoteBalances
    ensures n.View() == Send(old(n.View()), p, amount)
  {
    n.localBalances := n.localBalances[p := n.localBalances[p] - amount];
    n.remoteBalances := n.remoteBalances[p := n.remoteBalances[p] + amount];
  }

  /** Receiving writes on one node object. */
  method ReceiveOn(n: Node, p: NodeId, amount: real)
    requires p in n.localBalances && p in n.remoteBalances
    modifies n`localBalances, n`remoteBalances
    ensures n.View() == Receive(old(n.View()), p, amount)
  {
    n.localBalances := n.localBalances[p := n.localBalances[p] + amount];
    n.remoteBalances := n.remoteBalances[p := n.remoteBalances[p] - amount];
  }

  /** On a channel of a node to itself, receiving undoes sending. */
  lemma SendReceiveCancel(w: NodeView, p: NodeId, amount: real)
    requires p in w.local && p in w.remote
    ensures Receive(Send(w, p, amount), p, amount) == w
  {
    var r := Receive(Send(w, p, amount), p, amount);
    assert r.local == w.local;
    assert r.remote == w.remote;
  }

  /** A hop is the sender's update followed by the receiver's update, made
      on the network the sender's update left. */
  lemma HopAsSteps(net: Network, u: NodeId, v: NodeId, amount: real)
    requires HopPresent(net, u, v)
    ensures var mid := net[u := Send(net[u], v, amount)];
      && v in mid && u in mid[v].local && u in mid[v].remote
      && ApplyHop(net, u, v, amount) == mid[v := Receive(mid[v], u, amount)]
  {
    var mid := net[u := Send(net[u], v, amount)];
    if u == v {
      SendReceiveCancel(net[u], u, amount);
      assert mid[v := Receive(mid[v], u, amount)] == net;
    }
  }

  class RebalancingEngine {
    const sigma: real
    /** Node objects by id, installed by the scheduler. */
    var nodes: map<NodeId, Node>

    ghost predicate Valid()
      reads this`nodes
    {
      forall k :: k in nodes ==> nodes[k].id == k
    }

    /** The balances of every registered node, as values. */
    function Snapshot(): Network
      reads this`nodes, nodes.Values`localBalances, nodes.Values`remoteBalances,
            nodes.Values`capacities, nodes.Values`rebalancingRequested
    {
      map k | k in nodes :: nodes[k].View()
    }

    constructor (sigma: real)
      ensures this.sigma == sigma && nodes == map[]
    {
      this.sigma := sigma;
      nodes := map[];
    }

    /** The node objects show exactly the views of `net`. */
    ghost predicate Reflects(net: Network)
      reads this`nodes, nodes.Values`localBalances, nodes.Values`remoteBalances,
            nodes.Values`capacities, nodes.Values`rebalancingRequested
    {
      net.Keys == nodes.Keys && forall k :: k in nodes ==> nodes[k].View() == net[k]
    }

    /** A step that leaves the node map and every node's balances and flag
        alone leaves the snapshot alone. */
    twostate lemma SnapshotKept()
      requires unchanged(this`nodes)
      requires forall k :: k in nodes ==>
        nodes[k].View() == old(nodes[k].View())
      ensures Snapshot() == old(Snapshot())
    {
    }

    lemma SnapshotReflects(net: Network)
      requires Reflects(net)
      ensures Snapshot() == net
    {
    }

    /** The sender's two writes of a hop u -> v. */
    method SendStep(u: NodeId, v: NodeId, amount: real, ghost net: Network)
      requires Valid() && Reflects(net) && u in net && v in net[u].local && v in net[u].remote
      modifies {nodes[u]}`localBalances, {nodes[u]}`remoteBalances
      ensures Valid() && Reflects(net[u := Send(net[u], v, amount)])
    {
      var n := nodes[u];
      assert forall k :: k in nodes && k != u ==> nodes[k] != n;
      SendOn(n, v, amount);
    }

    /** The receiver's two writes of a hop u -> v, made at v towards u. */
    method ReceiveStep(v: NodeId, u: NodeId, amount: real, ghost net: Network)
      requires Valid() && Reflects(net) && v in net && u in net[v].local && u in net[v].remote
      modifies {nodes[v]}`localBalances, {nodes[v]}`remoteBalances
      ensures Valid() && Reflects(net[v := Receive(net[v], u, amount)])
    {
      var n := nodes[v];
      assert forall k :: k in nodes && k != v ==> nodes[k] != n;
      ReceiveOn(n, u, amount);
    }

    /** One hop of execute_transfer's loop, on the node objects: the
        sender's two writes, then the receiver's two. The four entries are
        distinct unless u == v, where the writes cancel in any order, so the
        result is the same as in the source's interleaving. */
    method TransferHop(u: NodeId, v: NodeId, amount: real, ghost net: Network)
      requires Valid() && Reflects(net) && HopPresent(net, u, v)
      modifies {nodes[u]}`localBalances, {nodes[u]}`remoteBalances, {nodes[v]}`localBalances, {nodes[v]}`remoteBalances
      ensures Valid() && Reflects(ApplyHop(net, u, v, amount))
    {
      SendStep(u, v, amount, net);
      HopAsSteps(net, u, v, amount);
      ReceiveStep(v, u, amount, net[u := Send(net[u], v, amount)]);
    }

    /** The loop of execute_transfer: every hop of the path in order. */
    method TransferAlong(path: seq<NodeId>, amount: real, ghost net: Network)
      requires Valid() && Reflects(net) && |path| >= 2 && HopsPresent(net, path)
      modifies (nodes.Values)`localBalances, (nodes.Values)`remoteBalances
      ensures Valid() && Reflects(ApplyPath(net, path, amount))
    {
      var i := 0;
      while i < |path| - 1
        invariant 0 <= i <= Hops(path)
        invariant Valid()
        invariant HopsPresent(net, path[..i + 1])
        invariant Reflects(ApplyPath(net, path[..i + 1], amount))
      {
        ApplyPathStep(net, path, i, amount);
        ghost var cur := ApplyPath(net, path[..i + 1], amount);
        assert path[i] in cur.Keys && path[i + 1] in cur.Keys;
        assert nodes[path[i]] in nodes.Values && nodes[path[i + 1]] in nodes.Values;
        TransferHop(path[i], path[i + 1], amount, cur);
        i := i + 1;
      }
      assert path[..i + 1] == path;
    }

    /** execute_transfer: validates once on the balances before the transfer;
        on success applies every hop in order, otherwise changes nothing.
        Histories, flags and leader caches are never touched. */
    method ExecuteTransfer(path: seq<NodeId>, amount: real) returns (ok: bool)
      requires Valid() && NetworkWellFormed(Snapshot()) && MirroredAlong(Snapshot(), path)
      modifies (nodes.Values)`localBalances, (nodes.Values)`remoteBalances
      ensures Valid()
      ensures ok == ValidatePath(old(Snapshot()), path, amount, sigma)
      ensures ok ==> HopsPresent(old(Snapshot()), path) &&
                     Snapshot() == ApplyPath(old(Snapshot()), path, amount)
      ensures !ok ==> Snapshot() == old(Snapshot())
    {
      ghost var s0 := Snapshot();
      ok := ValidatePath(Snapshot(), path, amount, sigma);
      if ok {
        ValidatedHopsPresent(s0, path, amount, sigma);
        TransferAlong(path, amount, s0);
        SnapshotReflects(ApplyPath(s0, path, amount));
      }
    }
  }
}
