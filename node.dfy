/** The node object (src/entities/node.py): per-peer dictionaries that the
    node's own methods, the rebalancing engine and the schedulers update in
    place, the append-only balance history, the rebalancing flags and the
    cached leader. */
module Nodes {
  import opened Common
  import opened Channels

  class Node {
    const id: NodeId
    var localBalances: map<NodeId, real>
    var remoteBalances: map<NodeId, real>
    var capacities: map<NodeId, real>
    var feeRates: map<NodeId, real>
    var balanceHistory: map<NodeId, seq<Sample>>
    var leaderId: Option<NodeId>
    var electionTimestamp: Option<real>
    var rebalancingRequested: bool
    var needsRebalancing: bool

    /** The balance dictionaries and the history describe the same channels. */
    ghost predicate Valid()
      reads this`localBalances, this`remoteBalances, this`capacities, this`balanceHistory
    {
      && localBalances.Keys == remoteBalances.Keys
      && remoteBalances.Keys == capacities.Keys
      && capacities.Keys == balanceHistory.Keys
    }

    /** The balances and the request flag, as a value. */
    function View(): NodeView
      reads this`localBalances, this`remoteBalances, this`capacities, this`rebalancingRequested
    {
      NodeView(id, localBalances, remoteBalances, capacities, rebalancingRequested)
    }

    constructor (nodeId: NodeId)
      ensures Valid() && id == nodeId
      ensures localBalances == map[] && remoteBalances == map[] && capacities == map[]
      ensures feeRates == map[] && balanceHistory == map[]
      ensures leaderId == None && electionTimestamp == None
      ensures !rebalancingRequested && !needsRebalancing
    {
      id := nodeId;
      localBalances, remoteBalances, capacities := map[], map[], map[];
      feeRates, balanceHistory := map[], map[];
      leaderId, electionTimestamp := None, None;
      rebalancingRequested, needsRebalancing := false, false;
    }

    /** request_rebalancing */
    method RequestRebalancing()
      modifies this`rebalancingRequested
      ensures rebalancingRequested
    {
      rebalancingRequested := true;
    }

    /** clear_rebalancing_request */
    method ClearRebalancingRequest()
      modifies this`rebalancingRequested
      ensures !rebalancingRequested
    {
      rebalancingRequested := false;
    }

    /** update_balances: applies both deltas when the channel exists and the
        result keeps both balances non-negative within capacity, appending one
        history sample; otherwise changes nothing. `clock` is the time of the
        node's simulation environment when it has one. */
    method UpdateBalances(p: NodeId, localDelta: real, remoteDelta: real, clock: Option<real>)
      returns (ok: bool)
      requires Valid()
      modifies this`localBalances, this`remoteBalances, this`balanceHistory
      ensures Valid()
      ensures ok <==> p in old(capacities)
                      && old(localBalances)[p] + localDelta >= 0.0
                      && old(remoteBalances)[p] + remoteDelta >= 0.0
                      && old(localBalances)[p] + localDelta + old(remoteBalances)[p] + remoteDelta
                         <= old(capacities)[p]
      ensures ok ==> View().IsValidChannel(p)
      ensures ok ==>
        && localBalances == old(localBalances)[p := old(localBalances)[p] + localDelta]
        && remoteBalances == old(remoteBalances)[p := old(remoteBalances)[p] + remoteDelta]
        && balanceHistory == old(balanceHistory)[p := old(balanceHistory)[p] +
             [Sample(NextSampleTime(old(balanceHistory)[p], clock), localBalances[p], remoteBalances[p])]]
      ensures !ok ==>
        && localBalances == old(localBalances)
        && remoteBalances == old(remoteBalances)
        && balanceHistory == old(balanceHistory)
    {
      if p !in capacities {
        return false;
      }
      var newLocal := localBalances[p] + localDelta;
      var newRemote := remoteBalances[p] + remoteDelta;
      if newLocal < 0.0 || newRemote < 0.0 {
        return false;
      }
      if newLocal + newRemote > capacities[p] {
        return false;
      }
      localBalances := localBalances[p := newLocal];
      remoteBalances := remoteBalances[p := newRemote];
      var history := balanceHistory[p];
      var time := NextSampleTime(history, clock);
      balanceHistory := balanceHistory[p := history + [Sample(time, newLocal, newRemote)]];
      ok := true;
    }

    /** add_channel: installs (or overwrites) the channel without checking the
        capacity invariant and seeds its history with (0, local, remote). */
    method AddChannel(p: NodeId, local: real, remote: real, capacity: real)
      requires Valid()
      modifies this`localBalances, this`remoteBalances, this`capacities, this`balanceHistory
      ensures Valid()
      ensures localBalances == old(localBalances)[p := local]
      ensures remoteBalances == old(remoteBalances)[p := remote]
      ensures capacities == old(capacities)[p := capacity]
      ensures balanceHistory == old(balanceHistory)[p := [Sample(0.0, local, remote)]]
    {
      localBalances := localBalances[p := local];
      remoteBalances := remoteBalances[p := remote];
      capacities := capacities[p := capacity];
      balanceHistory := balanceHistory[p := [Sample(0.0, local, remote)]];
    }

    /** remove_channel: drops the peer from all five dictionaries; a peer that
        is not there leaves everything as it was. */
    method RemoveChannel(p: NodeId)
      requires Valid()
      modifies this`localBalances, this`remoteBalances, this`capacities, this`feeRates,
               this`balanceHistory
      ensures Valid()
      ensures localBalances == old(localBalances) - {p}
      ensures remoteBalances == old(remoteBalances) - {p}
      ensures capacities == old(capacities) - {p}
      ensures feeRates == old(feeRates) - {p}
      ensures balanceHistory == old(balanceHistory) - {p}
      ensures p !in old(capacities) && p !in old(feeRates) ==>
        localBalances == old(localBalances) && capacities == old(capacities) &&
        remoteBalances == old(remoteBalances) && feeRates == old(feeRates) &&
        balanceHistory == old(balanceHistory)
    {
      if p in localBalances { localBalances := localBalances - {p}; }
      if p in remoteBalances { remoteBalances := remoteBalances - {p}; }
      if p in capacities { capacities := capacities - {p}; }
      if p in feeRates { feeRates := feeRates - {p}; }
      if p in balanceHistory { balanceHistory := balanceHistory - {p}; }
    }

    /** set_leader */
    method SetLeader(leader: NodeId, timestamp: real)
      modifies this`leaderId, this`electionTimestamp
      ensures leaderId == Some(leader) && electionTimestamp == Some(timestamp)
    {
      leaderId, electionTimestamp := Some(leader), Some(timestamp);
    }

    /** clear_leader */
    method ClearLeader()
      modifies this`leaderId, this`electionTimestamp
      ensures leaderId == None && electionTimestamp == None
    {
      leaderId, electionTimestamp := None, None;
    }
  }

  /** The views of a list of nodes, in list order. */
  function Views(ns: seq<Node>): (vs: seq<NodeView>)
    reads (set n | n in ns)`localBalances, (set n | n in ns)`remoteBalances,
          (set n | n in ns)`capacities, (set n | n in ns)`rebalancingRequested
    ensures |vs| == |ns|
  {
    if ns == [] then [] else [ns[0].View()] + Views(ns[1..])
  }

  /** Position i of the views is the view of node i. */
  lemma {:induction false} ViewAt(ns: seq<Node>, i: nat)
    requires i < |ns|
    ensures Views(ns)[i] == ns[i].View()
  {
    if i > 0 {
      ViewAt(ns[1..], i - 1);
    }
  }

  /** Every position of the views is the view of its node. */
  lemma ViewsAt(ns: seq<Node>)
    ensures forall i :: 0 <= i < |ns| ==> Views(ns)[i] == ns[i].View()
  {
    forall i | 0 <= i < |ns|
      ensures Views(ns)[i] == ns[i].View()
    {
      ViewAt(ns, i);
    }
  }

  /** A step that leaves every listed node alone leaves their views alone. */
  twostate lemma ViewsKept(ns: seq<Node>)
    requires forall i :: 0 <= i < |ns| ==> unchanged(ns[i])
    ensures Views(ns) == old(Views(ns))
  {
  }
}
