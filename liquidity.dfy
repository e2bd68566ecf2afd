/** The liquidity monitor (src/entities/debal_components.py): the per-node
    decision whether to ask for rebalancing, from the channel balances and the
    externally observed payment rates. Nothing here changes state. */
module Liquidity {
  import opened Common
  import opened Channels

  /** DEBALNodeState: the thresholds of the policy (defaults 0.35, 1.5, 0.001). */
  datatype DEBALNodeState = DEBALNodeState(theta: real, tau: real, epsilon: real)
  {
    /** The divisor of the time to depletion: max(outgoing - incoming, epsilon). */
    function NetFlow(outgoingRate: real, incomingRate: real): (f: real)
      ensures f >= epsilon && f >= outgoingRate - incomingRate
      ensures f == epsilon || f == outgoingRate - incomingRate
      ensures epsilon > 0.0 ==> f > 0.0
      ensures outgoingRate - incomingRate <= 0.0 && epsilon >= 0.0 ==> f == epsilon
    {
      Max(outgoingRate - incomingRate, epsilon)
    }

    /** calculate_ttd: total local balance over the (floored) net outflow. */
    ghost function CalculateTtd(localBalances: map<NodeId, real>, outgoingRate: real, incomingRate: real)
      : (ttd: real)
      requires NetFlow(outgoingRate, incomingRate) != 0.0
      ensures ttd * NetFlow(outgoingRate, incomingRate) == MapSum(localBalances)
    {
      var total, f := MapSum(localBalances), NetFlow(outgoingRate, incomingRate);
      QuotientFacts(total, f);
      total / f
    }

    /** The dictionaries hold every channel that check_balance_ratios looks up. */
    predicate RatiosReadable(localBalances: map<NodeId, real>, remoteBalances: map<NodeId, real>,
                             capacities: map<NodeId, real>)
    {
      forall c :: c in localBalances ==>
        c in remoteBalances && c in capacities && capacities[c] != 0.0
    }

    /** check_balance_ratios: some channel (a key of the local dictionary) has
        min(local/capacity, remote/capacity) below theta. */
    predicate CheckBalanceRatios(localBalances: map<NodeId, real>, remoteBalances: map<NodeId, real>,
                                 capacities: map<NodeId, real>)
      requires RatiosReadable(localBalances, remoteBalances, capacities)
    {
      exists c :: c in localBalances &&
        Min(localBalances[c] / capacities[c], remoteBalances[c] / capacities[c]) < theta
    }

    /** should_request_rebalancing: a ratio violation, or otherwise a time to
        depletion below tau. The time to depletion is only computed when no
        ratio is violated, so only then must its divisor be non-zero. */
    ghost predicate ShouldRequestRebalancing(localBalances: map<NodeId, real>,
                                             remoteBalances: map<NodeId, real>,
                                             capacities: map<NodeId, real>,
                                             outgoingRate: real, incomingRate: real)
      requires RatiosReadable(localBalances, remoteBalances, capacities)
      requires CheckBalanceRatios(localBalances, remoteBalances, capacities) ||
               NetFlow(outgoingRate, incomingRate) != 0.0
    {
      || CheckBalanceRatios(localBalances, remoteBalances, capacities)
      || CalculateTtd(localBalances, outgoingRate, incomingRate) < tau
    }
  }

  /** Balances and capacities of channels that are not keys of the local
      dictionary never influence the ratio check. */
  lemma RatioCheckReadsOnlyLocalKeys(s: DEBALNodeState, local: map<NodeId, real>,
                                     remote1: map<NodeId, real>, caps1: map<NodeId, real>,
                                     remote2: map<NodeId, real>, caps2: map<NodeId, real>)
    requires s.RatiosReadable(local, remote1, caps1) && s.RatiosReadable(local, remote2, caps2)
    requires forall c :: c in local ==> remote1[c] == remote2[c] && caps1[c] == caps2[c]
    ensures s.CheckBalanceRatios(local, remote1, caps1) == s.CheckBalanceRatios(local, remote2, caps2)
  {
  }

  /** With non-negative balances and a positive floor the time to depletion is
      never negative; with no net outflow it is the total over epsilon. */
  lemma TtdNonNegative(s: DEBALNodeState, local: map<NodeId, real>, outgoingRate: real, incomingRate: real)
    requires s.epsilon > 0.0
    requires forall c :: c in local ==> local[c] >= 0.0
    ensures s.CalculateTtd(local, outgoingRate, incomingRate) >= 0.0
    ensures outgoingRate <= incomingRate ==>
      s.CalculateTtd(local, outgoingRate, incomingRate) == MapSum(local) / s.epsilon
  {
    MapSumNonNegative(local);
    var f := s.NetFlow(outgoingRate, incomingRate);
    QuotientFacts(MapSum(local), f);
  }


  /** A node with a violated ratio asks for rebalancing whatever its rates. */
  lemma RatioViolationSuffices(s: DEBALNodeState, local: map<NodeId, real>, remote: map<NodeId, real>,
                               caps: map<NodeId, real>, c: NodeId, outgoingRate: real, incomingRate: real)
    requires s.RatiosReadable(local, remote, caps)
    requires c in local && (local[c] / caps[c] < s.theta || remote[c] / caps[c] < s.theta)
    ensures s.ShouldRequestRebalancing(local, remote, caps, outgoingRate, incomingRate)
  {
    assert Min(local[c] / caps[c], remote[c] / caps[c]) < s.theta;
  }
}
