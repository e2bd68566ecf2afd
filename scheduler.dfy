/** The discrete-event scheduler (src/entities/scheduler.py): decides when a
    leader election is due, runs it and records the accepted leader, and
    rebalances the channels of requesting nodes directly with their
    neighbours. The simulated clock is passed in as `now`; one call of Tick
    is one iteration of the run loop. */
module Scheduling {
  import opened Common
  import opened Channels
  import opened Nodes
  import opened Election
  import opened Engine

  /** Channels whose skewness exceeds this are rebalanced. */
  const SkewThreshold: real := 0.2
  /** Upper share of capacity the receiving side may reach. */
  const MaxShare: real := 0.8

  /** One entry of the imbalanced-channel list: the channel's figures at
      the time the list is built. */
  datatype Candidate = Candidate(peer: NodeId, local: real, remote: real, capacity: real, skewness: real)

  /** The entry of channel p. */
  function CandidateOf(v: NodeView, p: NodeId): (c: Candidate)
    requires p in v.local && v.ChannelsReadable()
    ensures c.peer == p && c.local == v.local[p] && c.remote == v.remote[p] && c.capacity == v.capacity[p]
    ensures c.skewness * c.capacity == Abs(c.local - c.remote)
  {
    Candidate(p, v.local[p], v.remote[p], v.capacity[p], Skewness(v.local[p], v.remote[p], v.capacity[p]))
  }

  predicate SortedBySkew(cs: seq<Candidate>)
  {
    forall i, j :: 0 <= i < j < |cs| ==> cs[i].skewness >= cs[j].skewness
  }

  /** No entry occurs twice. */
  predicate NoDuplicates<T(==)>(s: seq<T>)
  {
    forall i, j :: 0 <= i < j < |s| ==> s[i] != s[j]
  }

  /** Inserts c after every entry that is at least as skewed, so entries of
      equal skewness keep their order, as Python's stable sort does. */
  function InsertBySkew(cs: seq<Candidate>, c: Candidate): (r: seq<Candidate>)
    ensures multiset(r) == multiset(cs) + multiset{c}
    ensures |r| == |cs| + 1 && (r[0] == c || (cs != [] && r[0] == cs[0]))
  {
    if cs == [] then [c]
    else if cs[0].skewness >= c.skewness then
      assert cs == [cs[0]] + cs[1..];
      [cs[0]] + InsertBySkew(cs[1..], c)
    else [c] + cs
  }

  /** Inserting into a sorted list keeps it sorted. */
  lemma {:induction false} InsertBySkewSorted(cs: seq<Candidate>, c: Candidate)
    requires SortedBySkew(cs)
    ensures SortedBySkew(InsertBySkew(cs, c))
    decreases |cs|
  {
    if cs != [] && cs[0].skewness >= c.skewness {
      var rest := InsertBySkew(cs[1..], c);
      assert SortedBySkew(cs[1..]);
      InsertBySkewSorted(cs[1..], c);
      var r := [cs[0]] + rest;
      forall i, j | 0 <= i < j < |r| ensures r[i].skewness >= r[j].skewness {
        if i == 0 {
          assert r[j] == rest[j - 1];
          assert rest[0].skewness >= rest[j - 1].skewness;
        } else {
          assert r[i] == rest[i - 1] && r[j] == rest[j - 1];
        }
      }
    }
  }

  /** `list.sort(key=skewness, reverse=True)`. */
  function SortBySkew(cs: seq<Candidate>): (r: seq<Candidate>)
    ensures multiset(r) == multiset(cs)
    ensures SortedBySkew(r)
  {
    if cs == [] then []
    else
      assert cs == cs[..|cs| - 1] + [cs[|cs| - 1]];
      var sorted := SortBySkew(cs[..|cs| - 1]);
      InsertBySkewSorted(sorted, cs[|cs| - 1]);
      InsertBySkew(sorted, cs[|cs| - 1])
  }

  lemma {:induction false} NoDuplicatesCount<T>(s: seq<T>, x: T)
    requires NoDuplicates(s)
    ensures multiset(s)[x] <= 1
    decreases |s|
  {
    if s != [] {
      var t := s[..|s| - 1];
      assert s == t + [s[|s| - 1]];
      assert NoDuplicates(t);
      NoDuplicatesCount(t, x);
      if x == s[|s| - 1] {
        assert x !in t;
      }
    }
  }

  /** A permutation of a list without duplicates has none either. */
  lemma NoDuplicatesPermutation<T>(a: seq<T>, b: seq<T>)
    requires NoDuplicates(a) && multiset(a) == multiset(b)
    ensures NoDuplicates(b)
  {
    forall i, j | 0 <= i < j < |b| ensures b[i] != b[j] {
      if b[i] == b[j] {
        var x := b[i];
        assert b == b[..j] + [b[j]] + b[j + 1..];
        assert x in b[..j];
        assert multiset(b)[x] >= 2;
        NoDuplicatesCount(a, x);
        assert false;
      }
    }
  }

  /** The peers of a list of candidates. */
  function PeersOf(cs: seq<Candidate>): (ps: set<NodeId>)
    ensures forall i :: 0 <= i < |cs| ==> cs[i].peer in ps
    ensures forall p :: p in ps ==> exists i :: 0 <= i < |cs| && cs[i].peer == p
  {
    set i | 0 <= i < |cs| :: cs[i].peer
  }

  lemma PeersOfAppend(cs: seq<Candidate>, c: Candidate)
    ensures PeersOf(cs + [c]) == PeersOf(cs) + {c.peer}
  {
    forall q | q in PeersOf(cs) ensures q in PeersOf(cs + [c]) {
      var i :| 0 <= i < |cs| && cs[i].peer == q;
      assert (cs + [c])[i] == cs[i];
    }
    assert (cs + [c])[|cs|] == c;
  }

  /** Channel p is skewed beyond the threshold. */
  predicate Imbalanced(v: NodeView, p: NodeId)
    requires p in v.local && v.ChannelsReadable()
  {
    CandidateOf(v, p).skewness > SkewThreshold
  }

  /** c is the entry of an imbalanced channel of v. */
  predicate IsEntry(v: NodeView, c: Candidate)
  {
    v.ChannelsReadable() && c.peer in v.local && c == CandidateOf(v, c.peer) && Imbalanced(v, c.peer)
  }

  /** What the collecting loop keeps: `found` holds, once each, the entries
      of the imbalanced channels visited so far, those not in `rest`. */
  predicate Collected(v: NodeView, found: seq<Candidate>, rest: set<NodeId>)
    requires v.ChannelsReadable()
  {
    && rest <= v.local.Keys
    && NoDuplicates(found)
    && (forall i :: 0 <= i < |found| ==> IsEntry(v, found[i]) && found[i].peer !in rest)
    && (forall p :: p in v.local && p !in rest && Imbalanced(v, p) ==> p in PeersOf(found))
  }

  /** Visiting one more channel keeps Collected. */
  lemma CollectStep(v: NodeView, found: seq<Candidate>, rest: set<NodeId>, p: NodeId)
    requires v.ChannelsReadable() && Collected(v, found, rest) && p in rest
    ensures Imbalanced(v, p) ==> Collected(v, found + [CandidateOf(v, p)], rest - {p})
    ensures !Imbalanced(v, p) ==> Collected(v, found, rest - {p})
  {
    if Imbalanced(v, p) {
      var c := CandidateOf(v, p);
      PeersOfAppend(found, c);
      var found' := found + [c];
      assert forall i :: 0 <= i < |found| ==> found'[i] == found[i];
      assert found'[|found|] == c;
    }
  }

  /** The candidates of the imbalanced channels, in the order the channels
      are visited (the order of a Python dictionary is not modelled: any
      order of the peers may be taken). */
  method CollectImbalanced(v: NodeView) returns (found: seq<Candidate>)
    requires v.ChannelsReadable()
    ensures NoDuplicates(found)
    ensures forall i :: 0 <= i < |found| ==> IsEntry(v, found[i])
    ensures forall p :: p in v.local && Imbalanced(v, p) ==> p in PeersOf(found)
  {
    found := [];
    var rest := v.local.Keys;
    while rest != {}
      invariant Collected(v, found, rest)
      decreases |rest|
    {
      var p :| p in rest;
      var c := CandidateOf(v, p);
      CollectStep(v, found, rest, p);
      if c.skewness > SkewThreshold {
        found := found + [c];
      }
      rest := rest - {p};
    }
  }

  /** cs lists the entries of exactly the imbalanced channels of v, once
      each, most skewed first. */
  predicate ImbalanceList(v: NodeView, cs: seq<Candidate>)
    requires v.ChannelsReadable()
  {
    && SortedBySkew(cs)
    && NoDuplicates(cs)
    && (forall i :: 0 <= i < |cs| ==> IsEntry(v, cs[i]))
    && (forall p :: p in v.local && Imbalanced(v, p) ==> p in PeersOf(cs))
  }

  /** The channels of node n whose skewness exceeds 0.2, each once, most
      skewed first; entries of equal skewness keep the visiting order
      (Python's sort is stable, also with `reverse=True`). The dictionary's
      iteration order is not modelled: the keys are visited in an arbitrary
      order, so the order of channels of equal skewness is left open. */
  method ImbalancedChannels(n: Node) returns (cs: seq<Candidate>)
    requires n.View().ChannelsReadable()
    ensures ImbalanceList(n.View(), cs)
  {
    var v := n.View();
    var found := CollectImbalanced(v);
    cs := SortBySkew(found);
    NoDuplicatesPermutation(found, cs);
    forall i | 0 <= i < |cs| ensures IsEntry(v, cs[i]) {
      assert cs[i] in multiset(found);
    }
    forall p | p in v.local && Imbalanced(v, p) ensures p in PeersOf(cs) {
      assert p in PeersOf(found);
      var i :| 0 <= i < |found| && found[i].peer == p;
      assert found[i] in multiset(cs);
    }
  }

  /** A transfer to attempt: a path of node ids and an amount. */
  datatype Transfer = Transfer(path: seq<NodeId>, amount: real)

  /** The direct transfer for one imbalanced channel of `nodeId`: from the
      richer side to the poorer, the largest amount that keeps the sender at
      or above 20% of capacity and the receiver at or below 80%: one of the
      two bounds is reached exactly, so no larger amount keeps both. */
  function DirectTransfer(nodeId: NodeId, c: Candidate): (t: Transfer)
    ensures c.local > c.remote ==> t.path == [nodeId, c.peer]
    ensures c.local <= c.remote ==> t.path == [c.peer, nodeId]
    ensures c.local > c.remote ==>
      && c.local - t.amount >= MinShare * c.capacity && c.remote + t.amount <= MaxShare * c.capacity
      && (c.local - t.amount == MinShare * c.capacity || c.remote + t.amount == MaxShare * c.capacity)
    ensures c.local <= c.remote ==>
      && c.remote - t.amount >= MinShare * c.capacity && c.local + t.amount <= MaxShare * c.capacity
      && (c.remote - t.amount == MinShare * c.capacity || c.local + t.amount == MaxShare * c.capacity)
  {
    if c.local > c.remote then
      Transfer([nodeId, c.peer], Min(c.local - MinShare * c.capacity, MaxShare * c.capacity - c.remote))
    else
      Transfer([c.peer, nodeId], Min(c.remote - MinShare * c.capacity, MaxShare * c.capacity - c.local))
  }

  /** The transfers trigger_rebalancing attempts for a node, in order, when
      none succeeds: the direct transfer of every candidate whose amount is
      positive. */
  function Plans(nodeId: NodeId, cs: seq<Candidate>): (ts: seq<Transfer>)
    ensures forall i :: 0 <= i < |ts| ==> ts[i].amount > 0.0 && |ts[i].path| == 2
    ensures |ts| <= |cs|
  {
    if cs == [] then []
    else
      var t := DirectTransfer(nodeId, cs[|cs| - 1]);
      Plans(nodeId, cs[..|cs| - 1]) + (if t.amount > 0.0 then [t] else [])
  }

  /** The node objects of a list, keyed by id (`{node.id: node for node in nodes}`). */
  function IdMap(nodes: seq<Node>): (m: map<NodeId, Node>)
    requires forall i, j :: 0 <= i < j < |nodes| ==> nodes[i].id != nodes[j].id
    ensures forall i :: 0 <= i < |nodes| ==> nodes[i].id in m && m[nodes[i].id] == nodes[i]
    ensures forall k :: k in m ==> m[k].id == k && m[k] in nodes
  {
    map i | 0 <= i < |nodes| :: nodes[i].id := nodes[i]
  }

  /** Registering well-formed, mutually known nodes under their ids gives
      a well-formed, mirrored network. */
  lemma IdMapConsistent(nodes: seq<Node>, engine: RebalancingEngine)
    requires forall i, j :: 0 <= i < j < |nodes| ==> nodes[i].id != nodes[j].id
    requires forall i :: 0 <= i < |nodes| ==> nodes[i].View().WellFormed()
    requires forall i, j :: 0 <= i < |nodes| && 0 <= j < |nodes| && nodes[j].id in nodes[i].localBalances ==>
      nodes[i].id in nodes[j].localBalances
    requires engine.nodes == IdMap(nodes)
    ensures engine.Valid() && NetworkWellFormed(engine.Snapshot()) && Mirrored(engine.Snapshot())
  {
    var net := engine.Snapshot();
    forall k | k in net ensures net[k].id == k && net[k].WellFormed() {
      var i :| 0 <= i < |nodes| && nodes[i] == engine.nodes[k];
      assert net[k] == nodes[i].View();
    }
    forall u, v | u in net && v in net && v in net[u].local ensures u in net[v].local {
      var i :| 0 <= i < |nodes| && nodes[i] == engine.nodes[u];
      var j :| 0 <= j < |nodes| && nodes[j] == engine.nodes[v];
      assert net[u] == nodes[i].View() && net[v] == nodes[j].View();
    }
  }

  /** In a list whose ids are distinct, the announcement of any eligible
      node of the list verifies. */
  lemma MemberAccepted(e: LeaderElection, views: seq<NodeView>, k: int, timestamp: real)
    requires AllReadable(views) && 0 <= k < |views| && e.IsEligibleLeader(views[k])
    requires forall i, j :: 0 <= i < j < |views| ==> views[i].id != views[j].id
    ensures e.VerifyAnnouncement(e.AnnounceLeader(views[k].id, timestamp), views)
  {
    e.AnnounceVerifyRoundTrip(views[k].id, timestamp, views);
  }

  /** `net` with the request flag of node k lowered. */
  function Cleared(net: Network, k: NodeId): (r: Network)
    ensures SameShape(net, r)
    ensures k in net ==> r[k].local == net[k].local && r[k].remote == net[k].remote && !r[k].requested
    ensures forall j :: j in net && j != k ==> r[j] == net[j]
  {
    if k in net then net[k := net[k].(requested := false)] else net
  }

  /** Two snapshots of the same channels in which every channel holds the
      same total local + remote. */
  predicate SameTotals(a: Network, b: Network)
  {
    && SameShape(a, b)
    && forall k, p :: k in a && p in a[k].local && p in a[k].remote ==>
         a[k].local[p] + a[k].remote[p] == b[k].local[p] + b[k].remote[p]
  }

  lemma SameTotalsTransitive(a: Network, b: Network, c: Network)
    requires SameTotals(a, b) && SameTotals(b, c)
    ensures SameTotals(a, c)
  {
    forall k, p | k in a && p in a[k].local && p in a[k].remote
      ensures a[k].local[p] + a[k].remote[p] == c[k].local[p] + c[k].remote[p]
    {
      assert SameChannels(a[k], b[k]);
    }
  }

  /** A transfer keeps every channel's total. */
  lemma TransferKeepsTotals(net: Network, path: seq<NodeId>, amount: real)
    requires HopsPresent(net, path)
    ensures SameTotals(net, ApplyPath(net, path, amount))
  {
    ChannelTotalsConserved(net, path, amount);
  }

  /** The first transfer of ts that passes validation on net: since a
      failed transfer changes nothing, every attempt of one node's loop sees
      the same network. */
  function FirstValid(net: Network, sigma: real, ts: seq<Transfer>): Option<Transfer>
    requires NetworkWellFormed(net)
  {
    if ts == [] then None
    else if ValidatePath(net, ts[0].path, ts[0].amount, sigma) then Some(ts[0])
    else FirstValid(net, sigma, ts[1..])
  }

  /** FirstValid finds a transfer exactly when one validates, and then the
      earliest one. */
  lemma {:induction false} FirstValidIsFirst(net: Network, sigma: real, ts: seq<Transfer>)
    requires NetworkWellFormed(net)
    ensures FirstValid(net, sigma, ts).None? <==>
      forall i :: 0 <= i < |ts| ==> !ValidatePath(net, ts[i].path, ts[i].amount, sigma)
    ensures FirstValid(net, sigma, ts).Some? ==> exists k :: (0 <= k < |ts| && ts[k] == FirstValid(net, sigma, ts).value
      && ValidatePath(net, ts[k].path, ts[k].amount, sigma)
      && forall i :: 0 <= i < k ==> !ValidatePath(net, ts[i].path, ts[i].amount, sigma))
    decreases |ts|
  {
    if ts != [] && !ValidatePath(net, ts[0].path, ts[0].amount, sigma) {
      FirstValidIsFirst(net, sigma, ts[1..]);
      assert forall i :: 1 <= i < |ts| ==> ts[1..][i - 1] == ts[i];
      if FirstValid(net, sigma, ts).Some? {
        var k :| 0 <= k < |ts[1..]| && ts[1..][k] == FirstValid(net, sigma, ts).value
          && ValidatePath(net, ts[1..][k].path, ts[1..][k].amount, sigma)
          && forall i :: 0 <= i < k ==> !ValidatePath(net, ts[1..][i].path, ts[1..][i].amount, sigma);
        assert ts[k + 1] == ts[1..][k];
        forall i | 0 <= i < k + 1 ensures !ValidatePath(net, ts[i].path, ts[i].amount, sigma) {
          if i > 0 {
            assert ts[i] == ts[1..][i - 1];
          }
        }
      }
    }
  }

  lemma {:induction false} FirstValidAppend(net: Network, sigma: real, xs: seq<Transfer>, ys: seq<Transfer>)
    requires NetworkWellFormed(net)
    ensures FirstValid(net, sigma, xs + ys) ==
      if FirstValid(net, sigma, xs).Some? then FirstValid(net, sigma, xs) else FirstValid(net, sigma, ys)
    decreases |xs|
  {
    if xs == [] {
      assert xs + ys == ys;
    } else {
      assert (xs + ys)[0] == xs[0];
      assert (xs + ys)[1..] == xs[1..] + ys;
      FirstValidAppend(net, sigma, xs[1..], ys);
    }
  }

  /** Plans of a split list are the plans of its parts. */
  lemma {:induction false} PlansConcat(nodeId: NodeId, a: seq<Candidate>, b: seq<Candidate>)
    ensures Plans(nodeId, a + b) == Plans(nodeId, a) + Plans(nodeId, b)
    decreases |b|
  {
    if b == [] {
      assert a + b == a;
    } else {
      var ab := a + b;
      assert ab[..|ab| - 1] == a + b[..|b| - 1];
      assert ab[|ab| - 1] == b[|b| - 1];
      PlansConcat(nodeId, a, b[..|b| - 1]);
    }
  }

  /** One more candidate: while nothing has validated, the first valid plan
      of a longer prefix is the new candidate's transfer when it is kept and
      validates. */
  lemma PlansStep(net: Network, sigma: real, nodeId: NodeId, cs: seq<Candidate>, j: nat)
    requires NetworkWellFormed(net) && j < |cs| && FirstValid(net, sigma, Plans(nodeId, cs[..j])).None?
    ensures var t := DirectTransfer(nodeId, cs[j]);
      FirstValid(net, sigma, Plans(nodeId, cs[..j + 1])) ==
        if t.amount > 0.0 && ValidatePath(net, t.path, t.amount, sigma) then Some(t) else None
  {
    var t := DirectTransfer(nodeId, cs[j]);
    assert cs[..j + 1][..j] == cs[..j] && cs[..j + 1][j] == cs[j];
    var tail := if t.amount > 0.0 then [t] else [];
    assert Plans(nodeId, cs[..j + 1]) == Plans(nodeId, cs[..j]) + tail;
    FirstValidAppend(net, sigma, Plans(nodeId, cs[..j]), tail);
  }

  /** Once a prefix has a valid plan, or the whole list has been seen, the
      rest of the list does not change the first valid plan. */
  lemma PlansDone(net: Network, sigma: real, nodeId: NodeId, cs: seq<Candidate>, j: nat)
    requires NetworkWellFormed(net) && j <= |cs|
    requires j == |cs| || FirstValid(net, sigma, Plans(nodeId, cs[..j])).Some?
    ensures FirstValid(net, sigma, Plans(nodeId, cs)) == FirstValid(net, sigma, Plans(nodeId, cs[..j]))
  {
    assert cs == cs[..j] + cs[j..];
    PlansConcat(nodeId, cs[..j], cs[j..]);
    FirstValidAppend(net, sigma, Plans(nodeId, cs[..j]), Plans(nodeId, cs[j..]));
    if j == |cs| {
      assert cs[j..] == [];
    }
  }

  lemma SameTotalsReflexive(net: Network)
    ensures SameTotals(net, net)
  {
  }

  /** A served node's transfer and the lowering of its flag keep every
      channel's total. */
  lemma ServedKeepsTotals(net: Network, path: seq<NodeId>, amount: real, k: NodeId)
    requires HopsPresent(net, path)
    ensures SameTotals(net, Cleared(ApplyPath(net, path, amount), k))
  {
    var moved := ApplyPath(net, path, amount);
    TransferKeepsTotals(net, path, amount);
    assert SameTotals(moved, Cleared(moved, k));
    SameTotalsTransitive(net, moved, Cleared(moved, k));
  }

  /** The request flags of a list of nodes, in list order. */
  function Flags(ns: seq<Node>): (fs: seq<bool>)
    reads (set n | n in ns)`rebalancingRequested
    ensures |fs| == |ns| && forall i :: 0 <= i < |ns| ==> fs[i] == ns[i].rebalancingRequested
  {
    if ns == [] then [] else [ns[0].rebalancingRequested] + Flags(ns[1..])
  }

  /** The flags after the first |served| nodes were visited: a served
      node's flag is lowered, every other flag stays. */
  function Lowered(fs: seq<bool>, served: seq<bool>): (r: seq<bool>)
    requires |served| <= |fs|
    ensures |r| == |fs|
    ensures forall j :: 0 <= j < |served| ==> r[j] == (fs[j] && !served[j])
    ensures forall j :: |served| <= j < |fs| ==> r[j] == fs[j]
  {
    seq(|fs|, j requires 0 <= j < |fs| => if j < |served| then fs[j] && !served[j] else fs[j])
  }

  lemma UpdatedAt(a: seq<bool>, b: seq<bool>, i: nat, x: bool)
    requires |a| == |b| && i < |a| && b[i] == x
    requires forall j :: 0 <= j < |a| && j != i ==> b[j] == a[j]
    ensures b == a[i := x]
  {
  }

  lemma LoweredStep(fs: seq<bool>, served: seq<bool>, x: bool)
    requires |served| < |fs|
    ensures Lowered(fs, served + [x]) == Lowered(fs, served)[|served| := fs[|served|] && !x]
  {
  }

  /** Only nodes whose flag was up are marked served. */
  predicate OnlyRequested(fs: seq<bool>, served: seq<bool>)
    requires |served| <= |fs|
  {
    forall j :: 0 <= j < |served| && served[j] ==> fs[j]
  }

  lemma OnlyRequestedStep(fs: seq<bool>, served: seq<bool>, x: bool)
    requires |served| < |fs| && OnlyRequested(fs, served) && (x ==> fs[|served|])
    ensures OnlyRequested(fs, served + [x])
  {
  }

  /** One pass of trigger_rebalancing's loop for node k on the network
      `net` it finds: when k's flag is up, `cs` lists k's imbalanced
      channels, and k is served exactly when one of their planned transfers
      validates; the first that does moves the balances along its path and
      k's flag is lowered. Otherwise the network stays `net`. */
  ghost predicate ServeStep(net: Network, sigma: real, k: NodeId, cs: seq<Candidate>, served: bool, after: Network)
  {
    && NetworkWellFormed(net) && k in net
    && (net[k].requested ==> net[k].ChannelsReadable() && ImbalanceList(net[k], cs))
    && served == (net[k].requested && FirstValid(net, sigma, Plans(k, cs)).Some?)
    && (served ==>
          var t := FirstValid(net, sigma, Plans(k, cs)).value;
          HopsPresent(net, t.path) && after == Cleared(ApplyPath(net, t.path, t.amount), k))
    && (!served ==> after == net)
  }

  /** A round of trigger_rebalancing over `ns`, in list order: node i is
      visited on snaps[i] and leaves snaps[i + 1]. */
  ghost predicate Round(sigma: real, ns: seq<Node>, lists: seq<seq<Candidate>>, served: seq<bool>, snaps: seq<Network>)
  {
    && |lists| == |ns| && |served| == |ns| && |snaps| == |ns| + 1
    && forall i {:trigger lists[i]} :: 0 <= i < |ns| ==> ServeStep(snaps[i], sigma, ns[i].id, lists[i], served[i], snaps[i + 1])
  }

  /** A pass keeps the channels and the capacities. */
  lemma ServeStepKeepsShape(net: Network, sigma: real, k: NodeId, cs: seq<Candidate>, served: bool, after: Network)
    requires ServeStep(net, sigma, k, cs, served, after)
    ensures SameShape(net, after)
  {
    if served {
      var t := FirstValid(net, sigma, Plans(k, cs)).value;
      SameShapeTransitive(net, ApplyPath(net, t.path, t.amount), after);
    }
  }

  /** A pass keeps every channel's total. */
  lemma ServeStepKeepsTotals(net: Network, sigma: real, k: NodeId, cs: seq<Candidate>, served: bool, after: Network)
    requires ServeStep(net, sigma, k, cs, served, after)
    ensures SameTotals(net, after)
  {
    if served {
      var t := FirstValid(net, sigma, Plans(k, cs)).value;
      ServedKeepsTotals(net, t.path, t.amount, k);
    } else {
      SameTotalsReflexive(net);
    }
  }

  /** A round extends by one more pass. */
  lemma RoundExtend(sigma: real, ns: seq<Node>, lists: seq<seq<Candidate>>, served: seq<bool>, snaps: seq<Network>,
                    n: Node, cs: seq<Candidate>, d: bool, after: Network)
    requires Round(sigma, ns, lists, served, snaps) && ServeStep(snaps[|ns|], sigma, n.id, cs, d, after)
    ensures Round(sigma, ns + [n], lists + [cs], served + [d], snaps + [after])
  {
    var ns', lists', served', snaps' := ns + [n], lists + [cs], served + [d], snaps + [after];
    forall i | 0 <= i < |ns'|
      ensures ServeStep(snaps'[i], sigma, ns'[i].id, lists'[i], served'[i], snaps'[i + 1])
    {
      if i < |ns| {
        assert ns'[i] == ns[i] && lists'[i] == lists[i] && served'[i] == served[i];
        assert snaps'[i] == snaps[i] && snaps'[i + 1] == snaps[i + 1];
      } else {
        assert ns'[i] == n && lists'[i] == cs && served'[i] == d;
        assert snaps'[i] == snaps[|ns|] && snaps'[i + 1] == after;
      }
    }
  }

  /** A round keeps every channel's total, from its first network to each
      later one. */
  lemma {:induction false} RoundKeepsTotals(sigma: real, ns: seq<Node>, lists: seq<seq<Candidate>>, served: seq<bool>,
                                            snaps: seq<Network>, j: nat)
    requires Round(sigma, ns, lists, served, snaps) && j <= |ns|
    ensures SameTotals(snaps[0], snaps[j])
  {
    if j == 0 {
      SameTotalsReflexive(snaps[0]);
    } else {
      RoundKeepsTotals(sigma, ns, lists, served, snaps, j - 1);
      ServeStepKeepsTotals(snaps[j - 1], sigma, ns[j - 1].id, lists[j - 1], served[j - 1], snaps[j]);
      SameTotalsTransitive(snaps[0], snaps[j - 1], snaps[j]);
    }
  }

  /** What trigger_rebalancing's loop keeps after visiting the first
      |served| nodes of `ns`, starting from the balances `start` and the
      flags `flags`, now at the balances `net` and the flags `fs`: the
      passes so far form a round ending on `net`, and exactly the served
      nodes' flags are lowered. */
  ghost predicate Advanced(sigma: real, ns: seq<Node>, start: Network, flags: seq<bool>, served: seq<bool>,
                           lists: seq<seq<Candidate>>, snaps: seq<Network>, net: Network, fs: seq<bool>)
  {
    && |served| <= |ns| && |flags| == |ns|
    && Round(sigma, ns[..|served|], lists, served, snaps)
    && snaps[0] == start && snaps[|served|] == net
    && fs == Lowered(flags, served)
    && OnlyRequested(flags, served)
    && ((forall j :: 0 <= j < |ns| ==> !flags[j]) ==> net == start)
  }

  /** One pass of ServeStep on node |served|, whose flag is still the one
      it started with, advances the loop by one node. */
  lemma AdvancedStep(sigma: real, ns: seq<Node>, start: Network, flags: seq<bool>, served: seq<bool>,
                     lists: seq<seq<Candidate>>, snaps: seq<Network>, net: Network, fs: seq<bool>,
                     cs: seq<Candidate>, done: bool, after: Network, fs': seq<bool>)
    requires Advanced(sigma, ns, start, flags, served, lists, snaps, net, fs) && |served| < |ns|
    requires ServeStep(net, sigma, ns[|served|].id, cs, done, after)
    requires net[ns[|served|].id].requested == flags[|served|]
    requires fs' == fs[|served| := flags[|served|] && !done]
    ensures Advanced(sigma, ns, start, flags, served + [done], lists + [cs], snaps + [after], after, fs')
  {
    var i := |served|;
    LoweredStep(flags, served, done);
    OnlyRequestedStep(flags, served, done);
    RoundExtend(sigma, ns[..i], lists, served, snaps, ns[i], cs, done, after);
    assert ns[..i + 1] == ns[..i] + [ns[i]];
  }

  /** The cached leader id and election timestamp of each node, in order. */
  ghost function CachesOf(ns: seq<Node>): (cs: seq<(Option<NodeId>, Option<real>)>)
    reads (set n | n in ns)`leaderId, (set n | n in ns)`electionTimestamp
    ensures |cs| == |ns|
  {
    if ns == [] then [] else [(ns[0].leaderId, ns[0].electionTimestamp)] + CachesOf(ns[1..])
  }

  /** The caches once all `n` nodes have heard of leader `id` at `t`. */
  function Informed(n: nat, id: NodeId, t: real): seq<(Option<NodeId>, Option<real>)>
  {
    seq(n, _ => (Some(id), Some(t)))
  }

  /** Nodes that all cache leader `id` and time `t` hold Informed(|ns|, id, t). */
  lemma {:induction false} CachesInformed(ns: seq<Node>, id: NodeId, t: real)
    requires forall i :: 0 <= i < |ns| ==> ns[i].leaderId == Some(id) && ns[i].electionTimestamp == Some(t)
    ensures CachesOf(ns) == Informed(|ns|, id, t)
  {
    if ns != [] {
      CachesInformed(ns[1..], id, t);
      assert Informed(|ns|, id, t) == [(Some(id), Some(t))] + Informed(|ns| - 1, id, t);
    }
  }

  /** The converse of CachesInformed: caches equal to Informed(|ns|, id, t)
      mean that every node caches `id` and `t`. */
  lemma {:induction false} InformedCaches(ns: seq<Node>, id: NodeId, t: real)
    requires CachesOf(ns) == Informed(|ns|, id, t)
    ensures forall i :: 0 <= i < |ns| ==> ns[i].leaderId == Some(id) && ns[i].electionTimestamp == Some(t)
  {
    if ns != [] {
      assert CachesOf(ns)[0] == Informed(|ns|, id, t)[0];
      assert CachesOf(ns[1..]) == CachesOf(ns)[1..];
      assert Informed(|ns|, id, t)[1..] == Informed(|ns| - 1, id, t);
      InformedCaches(ns[1..], id, t);
      forall i | 0 < i < |ns|
        ensures ns[i].leaderId == Some(id) && ns[i].electionTimestamp == Some(t)
      {
        assert ns[i] == ns[1..][i - 1];
      }
    }
  }

  /** What an election can change: the leader and election time the
      scheduler keeps, the election's own leader and timeout, and the node
      caches. */
  datatype Leadership = Leadership(scheduled: Node?, since: real, elected: Node?, timeout: real,
                                   caches: seq<(Option<NodeId>, Option<real>)>)

  /** The election half of perform_election at `now` over the nodes `ns`
      with views `views`, which took `before` to `after` and returned
      `leader` and `time`; `held` says whether the incumbent's term held. A
      held term is kept as it was; a fresh election returns no leader
      exactly when no node is eligible, and otherwise the first maximal
      node, which becomes the election's leader with timeout `now`. */
  ghost predicate Chosen(e: LeaderElection, ns: seq<Node>, views: seq<NodeView>, now: real, held: bool,
                         before: Leadership, after: Leadership, leader: Node?, time: real)
  {
    && |views| == |ns| && AllReadable(views)
    && (held ==>
          && leader == before.elected && time == before.timeout
          && after.elected == before.elected && after.timeout == before.timeout)
    && (!held ==>
          && (leader == null <==> forall j :: 0 <= j < |ns| ==> !e.IsEligibleLeader(views[j]))
          && (leader != null ==>
                && time == now && (exists k :: e.FirstMaximal(views, now, k) && ns[k] == leader)
                && after.elected == leader && after.timeout == now))
  }

  /** The recording half: without a leader nothing changes; a leader's
      announcement verifies, the scheduler records it with `time`, and the
      caches hear of it at `now` when it replaces a different leader. */
  ghost predicate Recorded(e: LeaderElection, ns: seq<Node>, views: seq<NodeView>, now: real,
                           before: Leadership, after: Leadership, leader: Node?, time: real)
    requires AllReadable(views)
  {
    && (leader == null ==> after == before)
    && (leader != null ==>
          && e.VerifyAnnouncement(e.AnnounceLeader(leader.id, time), views)
          && after.scheduled == leader && after.since == time
          && after.caches == if before.scheduled != null && before.scheduled != leader
                             then Informed(|ns|, leader.id, now) else before.caches)
  }

  /** One run of perform_election: Chosen, then Recorded. */
  ghost predicate Elected(e: LeaderElection, ns: seq<Node>, views: seq<NodeView>, now: real, held: bool,
                          before: Leadership, after: Leadership, leader: Node?, time: real)
  {
    && Chosen(e, ns, views, now, held, before, after, leader, time)
    && Recorded(e, ns, views, now, before, after, leader, time)
  }

  class RebalancingScheduler {
    const nodes: seq<Node>
    const election: LeaderElection
    const engine: RebalancingEngine
    const deltaT: real
    var currentLeader: Node?
    var lastElectionTime: real

    /** The node objects of the list. */
    function NodeSet(): set<Node>
    {
      set n | n in nodes
    }

    /** What the listed nodes have cached of the leader. */
    ghost function Caches(): seq<(Option<NodeId>, Option<real>)>
      reads NodeSet()`leaderId, NodeSet()`electionTimestamp
    {
      CachesOf(nodes)
    }

    /** The part of the state an election changes. */
    ghost function LeaderRecord(): Leadership
      reads this`currentLeader, this`lastElectionTime, election`currentLeader, election`leaderTimeout,
            NodeSet()`leaderId, NodeSet()`electionTimestamp
    {
      Leadership(currentLeader, lastElectionTime, election.currentLeader, election.leaderTimeout, Caches())
    }

    /** No two listed nodes share an id (ids and the list never change). */
    predicate DistinctIds()
    {
      forall i, j :: 0 <= i < j < |nodes| ==> nodes[i].id != nodes[j].id
    }

    /** The engine holds exactly the listed nodes, each under its own id. */
    ghost predicate Registered()
      reads engine`nodes
    {
      && engine.Valid()
      && (forall i :: 0 <= i < |nodes| ==> nodes[i].id in engine.nodes && engine.nodes[nodes[i].id] == nodes[i])
      && (forall k :: k in engine.nodes ==> engine.nodes[k] in nodes)
    }

    /** The listed nodes are registered with the engine, and their channels
        can be divided by and are known at both ends. */
    ghost predicate Consistent()
      reads engine`nodes, engine.nodes.Values`localBalances, engine.nodes.Values`remoteBalances,
            engine.nodes.Values`capacities, engine.nodes.Values`rebalancingRequested
    {
      && Registered()
      && NetworkWellFormed(engine.Snapshot())
      && Mirrored(engine.Snapshot())
    }

    /** The leaders held by the scheduler and by the election are listed nodes. */
    ghost predicate LeadersListed()
      reads this`currentLeader, election`currentLeader
    {
      && (election.currentLeader == null || election.currentLeader in nodes)
      && (currentLeader == null || currentLeader in nodes)
    }

    ghost predicate Valid()
      reads this`currentLeader, election`currentLeader, engine`nodes,
            engine.nodes.Values`localBalances, engine.nodes.Values`remoteBalances,
            engine.nodes.Values`capacities, engine.nodes.Values`rebalancingRequested
    {
      DistinctIds() && Consistent() && LeadersListed()
    }

    /** Every listed node's channels can be looked up and divided by: what
        eligibility checks read. It follows from Valid (ReadableOfValid) and
        depends on nothing the election step changes. */
    ghost predicate Readable()
      reads NodeSet()`localBalances, NodeSet()`remoteBalances, NodeSet()`capacities, NodeSet()`rebalancingRequested
    {
      forall n :: n in nodes ==> n.View().ChannelsReadable()
    }

    lemma ReadableOfValid()
      requires Valid()
      ensures Readable()
    {
      forall n | n in nodes ensures n.View().ChannelsReadable() {
        assert engine.Snapshot()[n.id] == n.View();
      }
    }

    lemma ViewsReadable()
      requires Readable()
      ensures AllReadable(Views(nodes))
    {
      var views := Views(nodes);
      forall i | 0 <= i < |views| ensures views[i].ChannelsReadable() {
        ViewAt(nodes, i);
        assert nodes[i] in nodes;
      }
    }

    /** Installs `{node.id: node for node in nodes}` as the engine's node map. */
    constructor (nodes: seq<Node>, election: LeaderElection, engine: RebalancingEngine, deltaT: real)
      requires forall i, j :: 0 <= i < j < |nodes| ==> nodes[i].id != nodes[j].id
      requires forall i :: 0 <= i < |nodes| ==> nodes[i].View().WellFormed()
      requires forall i, j :: 0 <= i < |nodes| && 0 <= j < |nodes| && nodes[j].id in nodes[i].localBalances ==>
        nodes[i].id in nodes[j].localBalances
      requires election.currentLeader == null || election.currentLeader in nodes
      modifies engine`nodes
      ensures Valid()
      ensures this.nodes == nodes && this.election == election && this.engine == engine
      ensures this.deltaT == deltaT && currentLeader == null && lastElectionTime == 0.0
      ensures engine.nodes == IdMap(nodes)
    {
      this.nodes, this.election, this.engine, this.deltaT := nodes, election, engine, deltaT;
      currentLeader, lastElectionTime := null, 0.0;
      new;
      engine.nodes := IdMap(nodes);
      IdMapConsistent(nodes, engine);
    }

    /** Some listed node has asked for rebalancing. */
    predicate AnyRequested()
      reads NodeSet()`rebalancingRequested
    {
      exists i :: 0 <= i < |nodes| && nodes[i].rebalancingRequested
    }

    /** should_trigger_election, as written: the leaderless check comes
        again after the checks on the current leader, where it can no
        longer fire, so an election is due exactly when there is no leader
        and some node has asked, or the leader is no longer eligible, or
        its term of delta_t has elapsed. */
    predicate ShouldTriggerElection(now: real): (due: bool)
      reads this`currentLeader, this`lastElectionTime, election`currentLeader,
            NodeSet()`localBalances, NodeSet()`remoteBalances, NodeSet()`capacities, NodeSet()`rebalancingRequested
      requires LeadersListed() && Readable()
      ensures due <==>
        || (currentLeader == null && AnyRequested())
        || (currentLeader != null && !election.IsEligibleLeader(currentLeader.View()))
        || (currentLeader != null && now - lastElectionTime >= deltaT)
    {
      if currentLeader == null && AnyRequested() then true
      else if currentLeader != null && !election.IsEligibleLeader(currentLeader.View()) then true
      else if currentLeader != null && now - lastElectionTime >= deltaT then true
      else currentLeader == null && AnyRequested()
    }

    /** handle_leader_transition: every listed node caches the new leader's
        id and the current time. */
    method HandleLeaderTransition(newLeader: Node, now: real)
      modifies NodeSet()`leaderId, NodeSet()`electionTimestamp
      ensures engine.Snapshot() == old(engine.Snapshot())
      ensures forall i :: 0 <= i < |nodes| ==>
        nodes[i].leaderId == Some(newLeader.id) && nodes[i].electionTimestamp == Some(now)
    {
      var i := 0;
      while i < |nodes|
        invariant 0 <= i <= |nodes|
        invariant forall j :: 0 <= j < i ==>
          nodes[j].leaderId == Some(newLeader.id) && nodes[j].electionTimestamp == Some(now)
      {
        nodes[i].SetLeader(newLeader.id, now);
        i := i + 1;
      }
    }

    /** An eligible listed node's announcement verifies against the list. */
    lemma ListedLeaderAccepted(l: Node, timestamp: real)
      requires DistinctIds() && AllReadable(Views(nodes))
      requires l in nodes && l.View().ChannelsReadable() && election.IsEligibleLeader(l.View())
      ensures election.VerifyAnnouncement(election.AnnounceLeader(l.id, timestamp), Views(nodes))
    {
      var k :| 0 <= k < |nodes| && nodes[k] == l;
      var views := Views(nodes);
      ViewsAt(nodes);
      assert views[k] == l.View();
      assert forall i, j :: 0 <= i < j < |views| ==> views[i].id != views[j].id by {
        forall i, j | 0 <= i < j < |views| ensures views[i].id != views[j].id {
          assert views[i].id == nodes[i].id && views[j].id == nodes[j].id;
        }
      }
      MemberAccepted(election, views, k, timestamp);
    }

    /** The accepted leader is recorded: the node caches hear of a change
        of leader, then the scheduler keeps the leader and the election
        time. Balances and flags are not touched. */
    method RecordLeader(newLeader: Node, electionTime: real, now: real)
      modifies this`currentLeader, this`lastElectionTime, NodeSet()`leaderId, NodeSet()`electionTimestamp
      ensures engine.Snapshot() == old(engine.Snapshot())
      ensures currentLeader == newLeader && lastElectionTime == electionTime
      ensures old(currentLeader) != null && old(currentLeader) != newLeader ==>
        Caches() == Informed(|nodes|, newLeader.id, now)
      ensures !(old(currentLeader) != null && old(currentLeader) != newLeader) ==>
        Caches() == old(Caches())
    {
      if currentLeader != null && currentLeader != newLeader {
        HandleLeaderTransition(newLeader, now);
        CachesInformed(nodes, newLeader.id, now);
      }
      currentLeader := newLeader;
      lastElectionTime := electionTime;
    }

    /** The second half of perform_election: announces the elected node,
        and when the announcement verifies against the list, tells the node
        caches of a change of leader and records the leader and the election
        time. An eligible listed node is always accepted, since ids are
        distinct. */
    method AcceptLeader(newLeader: Node, electionTime: real, now: real)
      requires DistinctIds() && AllReadable(Views(nodes))
      requires newLeader in nodes && newLeader.View().ChannelsReadable() && election.IsEligibleLeader(newLeader.View())
      modifies this`currentLeader, this`lastElectionTime, NodeSet()`leaderId, NodeSet()`electionTimestamp
      ensures engine.Snapshot() == old(engine.Snapshot())
      ensures election.VerifyAnnouncement(election.AnnounceLeader(newLeader.id, electionTime), old(Views(nodes)))
      ensures currentLeader == newLeader && lastElectionTime == electionTime
      ensures old(currentLeader) != null && old(currentLeader) != newLeader ==>
        Caches() == Informed(|nodes|, newLeader.id, now)
      ensures !(old(currentLeader) != null && old(currentLeader) != newLeader) ==>
        Caches() == old(Caches())
      ensures LeaderRecord() == old(LeaderRecord()).(scheduled := newLeader, since := electionTime, caches := Caches())
    {
      ListedLeaderAccepted(newLeader, electionTime);
      var announcement := election.AnnounceLeader(newLeader.id, electionTime);
      if election.VerifyAnnouncement(announcement, Views(nodes)) {
        RecordLeader(newLeader, electionTime, now);
      }
    }

    /** perform_election: runs the election at `now` and passes an elected
        node to AcceptLeader. `views` are the listed nodes' views, which the
        election step does not change; `leader` and `time` are what the
        election returned. While the incumbent's term holds, the election
        keeps it and its own term; after a fresh election the winner is the
        election's leader with timeout `now`. A returned leader is recorded;
        the node caches hear of it when it replaces a different leader. */
    method PerformElection(now: real) returns (ghost views: seq<NodeView>, ghost leader: Node?, ghost time: real)
      requires DistinctIds() && LeadersListed() && Readable()
      modifies this`currentLeader, this`lastElectionTime, election`currentLeader, election`leaderTimeout,
               NodeSet()`leaderId, NodeSet()`electionTimestamp
      ensures LeadersListed()
      ensures views == old(Views(nodes))
      ensures Elected(election, nodes, views, now, old(election.TermHolds(now)), old(LeaderRecord()), LeaderRecord(),
                      leader, time)
    {
      ViewsReadable();
      views := Views(nodes);
      ghost var before := LeaderRecord();
      var newLeader, electionTime := election.ElectLeader(nodes, now);
      leader, time := newLeader, electionTime;
      assert LeaderRecord() == before.(elected := election.currentLeader, timeout := election.leaderTimeout);
      assert Chosen(election, nodes, views, now, old(election.TermHolds(now)), before, LeaderRecord(), leader, time);
      if newLeader != null {
        AcceptLeader(newLeader, electionTime, now);
      }
    }

    /** The engine's node objects are listed nodes. */
    lemma EngineNodesListed()
      requires Registered()
      ensures engine.nodes.Values <= NodeSet()
    {
    }

    /** `node.rebalancing_requested = False` on a registered node lowers the
        flag of its entry in the snapshot and changes nothing else. */
    method LowerFlag(n: Node, ghost net: Network)
      requires engine.Valid() && engine.Reflects(net) && n.id in engine.nodes && engine.nodes[n.id] == n
      modifies {n}`rebalancingRequested
      ensures !n.rebalancingRequested
      ensures engine.Reflects(Cleared(net, n.id))
    {
      assert forall k :: k in engine.nodes && k != n.id ==> engine.nodes[k] != n;
      n.rebalancingRequested := false;
    }

    /** One pass of the loop over a node's imbalanced channels: the direct
        transfer of candidate c is attempted when its amount is positive,
        and on success the node's request is cleared. `s0` is the snapshot
        before the attempt. */
    method Attempt(n: Node, c: Candidate, ghost s0: Network) returns (ok: bool, t: Transfer)
      requires engine.Valid() && engine.Snapshot() == s0 && NetworkWellFormed(s0) && Mirrored(s0)
      requires n.id in engine.nodes && engine.nodes[n.id] == n
      modifies engine.nodes.Values`localBalances, engine.nodes.Values`remoteBalances, {n}`rebalancingRequested
      ensures t == DirectTransfer(n.id, c)
      ensures ok == (t.amount > 0.0 && ValidatePath(s0, t.path, t.amount, engine.sigma))
      ensures ok ==> HopsPresent(s0, t.path) && engine.Snapshot() == Cleared(ApplyPath(s0, t.path, t.amount), n.id)
      ensures !ok ==> engine.Snapshot() == s0
      ensures n.rebalancingRequested == (old(n.rebalancingRequested) && !ok)
    {
      t := DirectTransfer(n.id, c);
      ok := false;
      if t.amount > 0.0 {
        MirroredImpliesMirroredAlong(s0, t.path);
        ok := engine.ExecuteTransfer(t.path, t.amount);
        if ok {
          ghost var moved := ApplyPath(s0, t.path, t.amount);
          engine.SnapshotReflects(moved);
          assert engine.Reflects(moved);
          LowerFlag(n, moved);
          engine.SnapshotReflects(Cleared(moved, n.id));
        }
      }
    }

    /** The loop over a node's imbalanced channels, most skewed first: each
        candidate's direct transfer is attempted until one succeeds. A
        failed attempt leaves the balances alone, so the node is served by
        the first of its planned transfers that validates on `s0`, the
        balances before the loop, and by none when none does. */
    method TryCandidates(n: Node, cs: seq<Candidate>, ghost s0: Network) returns (served: bool)
      requires engine.Valid() && engine.Snapshot() == s0 && NetworkWellFormed(s0) && Mirrored(s0)
      requires n.id in engine.nodes && engine.nodes[n.id] == n
      modifies engine.nodes.Values`localBalances, engine.nodes.Values`remoteBalances, {n}`rebalancingRequested
      ensures served == FirstValid(s0, engine.sigma, Plans(n.id, cs)).Some?
      ensures served ==>
        var t := FirstValid(s0, engine.sigma, Plans(n.id, cs)).value;
        HopsPresent(s0, t.path) && engine.Snapshot() == Cleared(ApplyPath(s0, t.path, t.amount), n.id)
      ensures !served ==> engine.Snapshot() == s0
      ensures n.rebalancingRequested == (old(n.rebalancingRequested) && !served)
    {
      served := false;
      var j := 0;
      ghost var chosen := Transfer([], 0.0);
      while j < |cs| && !served
        invariant 0 <= j <= |cs|
        invariant n.rebalancingRequested == (old(n.rebalancingRequested) && !served)
        invariant !served ==> engine.Snapshot() == s0 && FirstValid(s0, engine.sigma, Plans(n.id, cs[..j])).None?
        invariant served ==>
          && FirstValid(s0, engine.sigma, Plans(n.id, cs[..j])) == Some(chosen)
          && HopsPresent(s0, chosen.path)
          && engine.Snapshot() == Cleared(ApplyPath(s0, chosen.path, chosen.amount), n.id)
      {
        PlansStep(s0, engine.sigma, n.id, cs, j);
        var ok, t := Attempt(n, cs[j], s0);
        if ok {
          served, chosen := true, t;
        }
        j := j + 1;
      }
      PlansDone(s0, engine.sigma, n.id, cs, j);
    }

    /** The body of trigger_rebalancing's loop for one requesting node: its
        imbalanced channels `cs` are listed and tried in turn
        (TryCandidates), which is one pass of ServeStep. */
    method ServeNode(n: Node) returns (served: bool, ghost cs: seq<Candidate>)
      requires engine.Valid() && NetworkWellFormed(engine.Snapshot()) && Mirrored(engine.Snapshot())
      requires n.id in engine.nodes && engine.nodes[n.id] == n && n.rebalancingRequested
      modifies engine.nodes.Values`localBalances, engine.nodes.Values`remoteBalances, {n}`rebalancingRequested
      ensures ServeStep(old(engine.Snapshot()), engine.sigma, n.id, cs, served, engine.Snapshot())
      ensures n.rebalancingRequested == !served
    {
      ghost var s0 := engine.Snapshot();
      assert s0[n.id] == n.View();
      var found := ImbalancedChannels(n);
      cs := found;
      served := TryCandidates(n, found, s0);
    }

    /** One pass of trigger_rebalancing's loop: node i is served when its
        flag is up, as ServeStep describes on the balances before, with
        `cs` its imbalanced channels. Transfers keep the channels and
        capacities, so the scheduler's invariant holds again afterwards, and
        only node i's flag can be lowered, exactly when it was served. */
    method ServeIfRequested(i: nat) returns (done: bool, ghost cs: seq<Candidate>)
      requires Valid() && i < |nodes|
      modifies NodeSet()`localBalances, NodeSet()`remoteBalances, {nodes[i]}`rebalancingRequested
      ensures Valid()
      ensures ServeStep(old(engine.Snapshot()), engine.sigma, nodes[i].id, cs, done, engine.Snapshot())
      ensures old(engine.Snapshot())[nodes[i].id].requested == old(nodes[i].rebalancingRequested)
      ensures nodes[i].rebalancingRequested == (old(nodes[i].rebalancingRequested) && !done)
      ensures forall j :: 0 <= j < |nodes| && j != i ==>
        nodes[j].rebalancingRequested == old(nodes[j].rebalancingRequested)
    {
      ghost var start := engine.Snapshot();
      var n := nodes[i];
      assert start[n.id] == n.View();
      forall j | 0 <= j < |nodes| && j != i ensures nodes[j] != n {
        assert nodes[j].id != nodes[i].id;
      }
      done, cs := false, [];
      if n.rebalancingRequested {
        EngineNodesListed();
        done, cs := ServeNode(n);
        ServeStepKeepsShape(start, engine.sigma, n.id, cs, done, engine.Snapshot());
        SameShapeWellFormed(start, engine.Snapshot());
        SameShapeMirrored(start, engine.Snapshot());
      }
    }

    /** What trigger_rebalancing's loop keeps: the scheduler's invariant,
        and Advanced on the current balances and flags. */
    ghost predicate Progress(start: Network, flags: seq<bool>, served: seq<bool>,
                             lists: seq<seq<Candidate>>, snaps: seq<Network>)
      reads this`currentLeader, election`currentLeader, engine`nodes,
            engine.nodes.Values`localBalances, engine.nodes.Values`remoteBalances,
            engine.nodes.Values`capacities, engine.nodes.Values`rebalancingRequested,
            NodeSet()`rebalancingRequested
    {
      && Valid()
      && Advanced(engine.sigma, nodes, start, flags, served, lists, snaps, engine.Snapshot(), Flags(nodes))
    }

    /** One iteration of trigger_rebalancing's loop, on node |served|,
        keeps Progress. */
    method Visit(ghost start: Network, ghost flags: seq<bool>, ghost served: seq<bool>,
                 ghost lists: seq<seq<Candidate>>, ghost snaps: seq<Network>, i: nat)
      returns (done: bool, ghost cs: seq<Candidate>)
      requires i == |served| < |nodes| && Progress(start, flags, served, lists, snaps)
      modifies NodeSet()`localBalances, NodeSet()`remoteBalances, NodeSet()`rebalancingRequested
      ensures Progress(start, flags, served + [done], lists + [cs], snaps + [engine.Snapshot()])
    {
      ghost var before := engine.Snapshot();
      ghost var flagsBefore := Flags(nodes);
      done, cs := ServeIfRequested(i);
      UpdatedAt(flagsBefore, Flags(nodes), i, flags[i] && !done);
      AdvancedStep(engine.sigma, nodes, start, flags, served, lists, snaps, before, flagsBefore,
                   cs, done, engine.Snapshot(), Flags(nodes));
    }

    /** trigger_rebalancing: every listed node that has asked for
        rebalancing, in list order, is served once: the round is the
        sequence of passes of ServeStep, from the balances before to the
        balances after, where `served` says which nodes were served and
        `lists` and `snaps` are what each pass saw. Only balances move,
        every channel keeping its total, and only the flags of served nodes
        are lowered. */
    method TriggerRebalancing() returns (ghost served: seq<bool>, ghost lists: seq<seq<Candidate>>, ghost snaps: seq<Network>)
      requires Valid()
      modifies NodeSet()`localBalances, NodeSet()`remoteBalances, NodeSet()`rebalancingRequested
      ensures Valid()
      ensures Round(engine.sigma, nodes, lists, served, snaps)
      ensures snaps[0] == old(engine.Snapshot()) && snaps[|nodes|] == engine.Snapshot()
      ensures SameTotals(old(engine.Snapshot()), engine.Snapshot())
      ensures |served| == |nodes| && Flags(nodes) == Lowered(old(Flags(nodes)), served)
      ensures OnlyRequested(old(Flags(nodes)), served)
      ensures !old(AnyRequested()) ==> engine.Snapshot() == old(engine.Snapshot())
    {
      ghost var start := engine.Snapshot();
      ghost var flags := Flags(nodes);
      SameTotalsReflexive(start);
      served, lists, snaps := [], [], [start];
      assert nodes[..0] == [];
      var i := 0;
      while i < |nodes|
        invariant i == |served| <= |nodes|
        invariant Progress(start, flags, served, lists, snaps)
      {
        var done, cs := Visit(start, flags, served, lists, snaps, i);
        served, lists, snaps := served + [done], lists + [cs], snaps + [engine.Snapshot()];
        i := i + 1;
      }
      assert nodes[..i] == nodes;
      RoundKeepsTotals(engine.sigma, nodes, lists, served, snaps, |nodes|);
    }

    /** The first step of run's loop: an election when one is due
        (PerformElection, whose outcome `views`, `leader` and `time` are
        handed on). It moves no balance and lowers no flag. */
    method ElectIfDue(now: real) returns (ran: bool, ghost views: seq<NodeView>, ghost leader: Node?, ghost time: real)
      requires DistinctIds() && LeadersListed() && Readable()
      modifies this`currentLeader, this`lastElectionTime, election`currentLeader, election`leaderTimeout,
               NodeSet()`leaderId, NodeSet()`electionTimestamp
      ensures LeadersListed()
      ensures ran == old(ShouldTriggerElection(now))
      ensures engine.Snapshot() == old(engine.Snapshot())
      ensures !ran ==> leader == null && LeaderRecord() == old(LeaderRecord())
      ensures ran ==>
        && views == old(Views(nodes))
        && Elected(election, nodes, views, now, old(election.TermHolds(now)), old(LeaderRecord()), LeaderRecord(),
                   leader, time)
    {
      ran := ShouldTriggerElection(now);
      views, leader, time := [], null, now;
      if ran {
        views, leader, time := PerformElection(now);
        engine.SnapshotKept();
      }
    }

    /** The second step of run's loop: a round of rebalancing
        (TriggerRebalancing, whose passes `served`, `lists` and `snaps` are
        handed on) exactly when there is a leader and some node has asked. */
    method RebalanceIfLed() returns (rebalanced: bool, ghost served: seq<bool>,
                                     ghost lists: seq<seq<Candidate>>, ghost snaps: seq<Network>)
      requires Valid()
      modifies NodeSet()`localBalances, NodeSet()`remoteBalances, NodeSet()`rebalancingRequested
      ensures Valid()
      ensures rebalanced == (currentLeader != null && old(AnyRequested()))
      ensures rebalanced ==>
        && Round(engine.sigma, nodes, lists, served, snaps)
        && snaps[0] == old(engine.Snapshot()) && snaps[|nodes|] == engine.Snapshot()
      ensures !rebalanced ==> engine.Snapshot() == old(engine.Snapshot())
      ensures SameTotals(old(engine.Snapshot()), engine.Snapshot())
    {
      served, lists, snaps := [], [], [];
      rebalanced := currentLeader != null && AnyRequested();
      if rebalanced {
        served, lists, snaps := TriggerRebalancing();
      } else {
        SameTotalsReflexive(engine.Snapshot());
      }
    }

    /** One iteration of run: an election when one is due (ElectIfDue),
        then a round of rebalancing when there is a leader and some node
        has asked (RebalanceIfLed); the next iteration is due a tenth of
        delta_t later. Balances only ever move along channels, and never
        while there is no leader or no node has asked. */
    method Tick(now: real) returns (next: real, ghost ran: bool, ghost views: seq<NodeView>, ghost leader: Node?,
                                    ghost time: real, ghost rebalanced: bool, ghost served: seq<bool>,
                                    ghost lists: seq<seq<Candidate>>, ghost snaps: seq<Network>)
      requires Valid()
      modifies this`currentLeader, this`lastElectionTime, election`currentLeader, election`leaderTimeout,
               NodeSet()`leaderId, NodeSet()`electionTimestamp,
               NodeSet()`localBalances, NodeSet()`remoteBalances, NodeSet()`rebalancingRequested
      ensures Valid()
      ensures old(Readable()) && next == now + deltaT / 10.0
      ensures ran == old(ShouldTriggerElection(now))
      ensures !ran ==> leader == null && LeaderRecord() == old(LeaderRecord())
      ensures ran ==>
        && views == old(Views(nodes))
        && Elected(election, nodes, views, now, old(election.TermHolds(now)), old(LeaderRecord()), LeaderRecord(),
                   leader, time)
      ensures rebalanced == (currentLeader != null && old(AnyRequested()))
      ensures rebalanced ==>
        && Round(engine.sigma, nodes, lists, served, snaps)
        && snaps[0] == old(engine.Snapshot()) && snaps[|nodes|] == engine.Snapshot()
      ensures !rebalanced ==> engine.Snapshot() == old(engine.Snapshot())
      ensures SameTotals(old(engine.Snapshot()), engine.Snapshot())
      ensures currentLeader == null ==> engine.Snapshot() == old(engine.Snapshot())
      ensures !old(AnyRequested()) ==> engine.Snapshot() == old(engine.Snapshot())
    {
      ReadableOfValid();
      ran, views, leader, time := ElectIfDue(now);
      assert Registered();
      assert AnyRequested() == old(AnyRequested());
      var r;
      r, served, lists, snaps := RebalanceIfLed();
      rebalanced := r;
      next := now + deltaT / 10.0;
    }
  }
}
