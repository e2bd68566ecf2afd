/** The channel balance model of one node, as a value: the per-peer maps of
    local balance, remote balance and capacity, and the queries the simulator
    asks of them. The mutable node object (module Nodes) exposes its state
    through this view; every component that only reads balances works on it. */
module Channels {
  import opened Common

  type NodeId = string

  /** One entry of a channel's balance history: (time, local, remote). */
  datatype Sample = Sample(time: real, local: real, remote: real)

  /** Skewness of one channel, |local - remote| / capacity. */
  function Skewness(local: real, remote: real, capacity: real): (s: real)
    requires capacity != 0.0
    ensures s * capacity == Abs(local - remote)
    ensures capacity > 0.0 ==> s >= 0.0
    ensures 0.0 <= local && 0.0 <= remote && local + remote <= capacity ==> s <= 1.0
  {
    QuotientFacts(Abs(local - remote), capacity);
    Abs(local - remote) / capacity
  }

  /** What one node knows about its channels, keyed by peer id. */
  datatype NodeView = NodeView(
    id: NodeId,
    local: map<NodeId, real>,
    remote: map<NodeId, real>,
    capacity: map<NodeId, real>,
    requested: bool)
  {
    /** The three maps describe the same set of channels. */
    predicate Aligned()
    {
      local.Keys == remote.Keys && remote.Keys == capacity.Keys
    }

    /** Every channel can be divided by: the precondition of every ratio. */
    predicate WellFormed()
    {
      Aligned() && forall p :: p in capacity ==> capacity[p] > 0.0
    }

    /** Every key of the local map can be looked up in the other two maps and
        divided by: what a loop over `local_balances` with ratios needs. */
    predicate ChannelsReadable()
    {
      forall p :: p in local ==> p in remote && p in capacity && capacity[p] != 0.0
    }

    /** The entries a ratio or skewness of channel `p` reads exist and the
        capacity is non-zero (Python raises otherwise). */
    predicate Readable(p: NodeId)
    {
      p in capacity ==> p in local && p in remote && capacity[p] != 0.0
    }

    /** get_balance_ratio: local / capacity, and 0.0 for an unknown channel. */
    function BalanceRatio(p: NodeId): (r: real)
      requires Readable(p)
      ensures p !in capacity ==> r == 0.0
      ensures p in capacity ==> r * capacity[p] == local[p]
      ensures IsValidChannel(p) && capacity[p] > 0.0 ==> 0.0 <= r <= 1.0
    {
      if p !in capacity then 0.0
      else
        QuotientFacts(local[p], capacity[p]);
        local[p] / capacity[p]
    }

    /** get_channel_skewness: |local - remote| / capacity, 0.0 for an unknown channel. */
    function ChannelSkewness(p: NodeId): (s: real)
      requires Readable(p)
      ensures p !in capacity ==> s == 0.0
      ensures p in capacity ==> s * capacity[p] == Abs(local[p] - remote[p])
      ensures IsValidChannel(p) && capacity[p] > 0.0 ==> 0.0 <= s <= 1.0
    {
      if p !in capacity then 0.0 else Skewness(local[p], remote[p], capacity[p])
    }

    /** is_valid_channel: the channel exists and satisfies the capacity invariant. */
    predicate IsValidChannel(p: NodeId)
      requires p in capacity ==> p in local && p in remote
    {
      && p in capacity
      && local[p] >= 0.0
      && remote[p] >= 0.0
      && local[p] + remote[p] <= capacity[p]
    }

    /** Every channel of the node satisfies the capacity invariant. */
    predicate AllChannelsValid()
      requires Aligned()
    {
      forall p :: p in capacity ==> IsValidChannel(p)
    }

    /** get_total_outgoing_liquidity: sum of the local balances. */
    ghost function TotalOutgoing(): real
    {
      MapSum(local)
    }

    /** get_total_incoming_liquidity: sum of the remote balances. */
    ghost function TotalIncoming(): real
    {
      MapSum(remote)
    }
  }

  /** Total liquidity is bounded by total capacity when every channel is valid. */
  lemma {:induction false} TotalLiquidityBounded(v: NodeView)
    requires v.Aligned() && v.AllChannelsValid()
    ensures 0.0 <= v.TotalOutgoing() && 0.0 <= v.TotalIncoming()
    ensures v.TotalOutgoing() + v.TotalIncoming() <= MapSum(v.capacity)
    decreases |v.capacity|
  {
    if |v.capacity| == 0 {
      assert v.local == map[] && v.remote == map[];
    } else {
      var p := Pick(v.capacity);
      var w := v.(local := v.local - {p}, remote := v.remote - {p}, capacity := v.capacity - {p});
      assert w.Aligned() && w.AllChannelsValid() by {
        forall q | q in w.capacity ensures w.IsValidChannel(q) {
          assert v.IsValidChannel(q);
        }
      }
      assert v.IsValidChannel(p);
      TotalLiquidityBounded(w);
      MapSumRemove(v.local, p);
      MapSumRemove(v.remote, p);
      MapSumRemove(v.capacity, p);
    }
  }

  /** Largest timestamp of a non-empty history. */
  function MaxTime(h: seq<Sample>): (t: real)
    requires h != []
    ensures forall i :: 0 <= i < |h| ==> h[i].time <= t
    ensures exists i :: 0 <= i < |h| && h[i].time == t
  {
    if |h| == 1 then h[0].time
    else
      var t := MaxTime(h[..|h| - 1]);
      assert forall i :: 0 <= i < |h| - 1 ==> h[..|h| - 1][i] == h[i];
      Max(t, h[|h| - 1].time)
  }

  /** Time stamp of the sample update_balances appends: the clock's time when the
      node has one, otherwise one more than the latest sample (0 for none). */
  function NextSampleTime(h: seq<Sample>, clock: Option<real>): (t: real)
    ensures clock.Some? ==> t == clock.value
    ensures clock.None? && h == [] ==> t == 0.0
    ensures clock.None? ==> forall i :: 0 <= i < |h| ==> h[i].time < t
    ensures clock.None? && h != [] ==> exists i :: 0 <= i < |h| && t == h[i].time + 1.0
  {
    match clock
    case Some(now) => now
    case None => if h == [] then 0.0 else MaxTime(h) + 1.0
  }

  /** Timestamps strictly increase along a history. */
  predicate Increasing(h: seq<Sample>)
  {
    forall i, j :: 0 <= i < j < |h| ==> h[i].time < h[j].time
  }

  /** Without a clock every appended sample is later than all earlier ones, so
      a history seeded by add_channel stays strictly increasing. */
  lemma AppendKeepsIncreasing(h: seq<Sample>, local: real, remote: real)
    requires Increasing(h)
    ensures Increasing(h + [Sample(NextSampleTime(h, None), local, remote)])
  {
  }

  /** A whole network as seen by the engine: node id to that node's view. */
  type Network = map<NodeId, NodeView>

  /** Every registered node is stored under its own id and can be divided by. */
  predicate NetworkWellFormed(net: Network)
  {
    forall k :: k in net ==> net[k].id == k && net[k].WellFormed()
  }

  /** Every channel between registered nodes is known at both ends. */
  predicate Mirrored(net: Network)
  {
    forall u, v :: u in net && v in net && v in net[u].local ==> u in net[v].local
  }
}
