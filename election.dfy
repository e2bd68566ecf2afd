/** Leader election (src/entities/leader_election.py): a coordinator is chosen
    among the nodes that asked for rebalancing by ranking a digest of
    (node id, election time). The digest function is a parameter: any
    deterministic function from (id, timestamp) to a hexadecimal string. */
module Election {
  import opened Common
  import opened Channels
  import opened Nodes

  /** Python's ordering of strings: code point by code point, a proper prefix
      first. */
  predicate LexLess(a: string, b: string)
    decreases |a|
  {
    if |a| == 0 then |b| > 0
    else if |b| == 0 then false
    else if a[0] != b[0] then a[0] < b[0]
    else LexLess(a[1..], b[1..])
  }

  lemma {:induction false} LexLessIrreflexive(a: string)
    ensures !LexLess(a, a)
    decreases |a|
  {
    if |a| > 0 {
      LexLessIrreflexive(a[1..]);
    }
  }

  lemma {:induction false} LexLessTransitive(a: string, b: string, c: string)
    requires LexLess(a, b) && LexLess(b, c)
    ensures LexLess(a, c)
    decreases |a|
  {
    if |a| > 0 && |b| > 0 && |c| > 0 && a[0] == b[0] && b[0] == c[0] {
      LexLessTransitive(a[1..], b[1..], c[1..]);
    }
  }

  lemma {:induction false} LexLessAsymmetric(a: string, b: string)
    requires LexLess(a, b)
    ensures !LexLess(b, a)
  {
    if LexLess(b, a) {
      LexLessTransitive(a, b, a);
      LexLessIrreflexive(a);
    }
  }

  /** Two different strings are always ordered one way or the other. */
  lemma {:induction false} LexLessTrichotomy(a: string, b: string)
    ensures a == b || LexLess(a, b) || LexLess(b, a)
    decreases |a|
  {
    if |a| > 0 && |b| > 0 && a[0] == b[0] {
      LexLessTrichotomy(a[1..], b[1..]);
      if a[1..] == b[1..] {
        assert a == [a[0]] + a[1..] && b == [b[0]] + b[1..];
      }
    }
  }

  /** The message a new leader sends: its id, the election time and the digest. */
  datatype Announcement = Announcement(leaderId: NodeId, timestamp: real, hash: string)

  /** Index of the first view with the given id (`next(...)` over the node list). */
  function FindById(views: seq<NodeView>, nodeId: NodeId): (r: Option<nat>)
    ensures r.Some? ==> r.value < |views| && views[r.value].id == nodeId &&
                        forall j :: 0 <= j < r.value ==> views[j].id != nodeId
    ensures r.None? ==> forall j :: 0 <= j < |views| ==> views[j].id != nodeId
  {
    if views == [] then None
    else if views[0].id == nodeId then Some(0)
    else
      match FindById(views[1..], nodeId)
      case None => None
      case Some(i) => Some(i + 1)
  }

  /** Every view in the list can be checked for eligibility. */
  predicate AllReadable(views: seq<NodeView>)
  {
    forall i :: 0 <= i < |views| ==> views[i].ChannelsReadable()
  }

  /** A node with two channels "ch1" and "ch2" of capacity 1000 each. */
  function TestView(nodeId: NodeId, l1: real, r1: real, l2: real, r2: real, requested: bool)
    : (v: NodeView)
    ensures v.ChannelsReadable()
  {
    NodeView(nodeId, map["ch1" := l1, "ch2" := l2], map["ch1" := r1, "ch2" := r2],
             map["ch1" := 1000.0, "ch2" := 1000.0], requested)
  }

  class LeaderElection {
    const kappa: real
    const theta: real
    const deltaT: real
    /** SHA-256 of the id followed by the timestamp, as hexadecimal. */
    const hash: (NodeId, real) -> string
    var leaderTimeout: real
    var currentLeader: Node?

    constructor (kappa: real, theta: real, deltaT: real, hash: (NodeId, real) -> string)
      ensures this.kappa == kappa && this.theta == theta && this.deltaT == deltaT
      ensures this.hash == hash
      ensures leaderTimeout == 0.0 && currentLeader == null
    {
      this.kappa, this.theta, this.deltaT, this.hash := kappa, theta, deltaT, hash;
      leaderTimeout, currentLeader := 0.0, null;
    }

    /** compute_hash */
    function ComputeHash(nodeId: NodeId, timestamp: real): string
    {
      hash(nodeId, timestamp)
    }

    /** is_eligible_leader: the node asked for rebalancing and some channel has
        an outgoing ratio of at least kappa or an imbalance of at least
        theta times its capacity. */
    predicate IsEligibleLeader(v: NodeView)
      requires v.ChannelsReadable()
    {
      && v.requested
      && exists p :: p in v.local && (v.local[p] / v.capacity[p] >= kappa ||
                                      Abs(v.local[p] - v.remote[p]) >= v.capacity[p] * theta)
    }

    /** The incumbent may keep the role: it exists, its term has not run out
        and it is still eligible. */
    predicate TermHolds(timestamp: real)
      reads this`currentLeader, this`leaderTimeout, {currentLeader}`localBalances,
            {currentLeader}`remoteBalances, {currentLeader}`capacities, {currentLeader}`rebalancingRequested
      requires currentLeader != null ==> currentLeader.View().ChannelsReadable()
    {
      && currentLeader != null
      && timestamp - leaderTimeout < deltaT
      && IsEligibleLeader(currentLeader.View())
    }

    /** View `k` is eligible, its digest is at least that of every eligible
        view, and every eligible view before it has a strictly smaller one
        (Python's `max` keeps the first maximal element). */
    predicate FirstMaximal(views: seq<NodeView>, timestamp: real, k: int)
      requires AllReadable(views)
    {
      && 0 <= k < |views|
      && IsEligibleLeader(views[k])
      && (forall j :: 0 <= j < |views| && IsEligibleLeader(views[j]) ==>
            !LexLess(ComputeHash(views[k].id, timestamp), ComputeHash(views[j].id, timestamp)))
      && (forall j :: 0 <= j < k && IsEligibleLeader(views[j]) ==>
            LexLess(ComputeHash(views[j].id, timestamp), ComputeHash(views[k].id, timestamp)))
    }

    /** The eligible node with the largest digest, first in list order on a
        tie; -1 when no node is eligible. One pass that keeps the best node
        seen so far, as `max` over the filtered list does. */
    method SelectLeader(views: seq<NodeView>, timestamp: real) returns (k: int)
      requires AllReadable(views)
      ensures -1 <= k < |views|
      ensures k == -1 <==> forall j :: 0 <= j < |views| ==> !IsEligibleLeader(views[j])
      ensures k != -1 ==> FirstMaximal(views, timestamp, k)
    {
      k := -1;
      var best := "";
      var i := 0;
      while i < |views|
        invariant 0 <= i <= |views|
        invariant -1 <= k < i
        invariant k == -1 <==> forall j :: 0 <= j < i ==> !IsEligibleLeader(views[j])
        invariant k != -1 ==> IsEligibleLeader(views[k]) && best == ComputeHash(views[k].id, timestamp)
        invariant k != -1 ==> forall j :: 0 <= j < i && IsEligibleLeader(views[j]) ==>
                    !LexLess(best, ComputeHash(views[j].id, timestamp))
        invariant k != -1 ==> forall j :: 0 <= j < k && IsEligibleLeader(views[j]) ==>
                    LexLess(ComputeHash(views[j].id, timestamp), best)
      {
        if IsEligibleLeader(views[i]) {
          var h := ComputeHash(views[i].id, timestamp);
          if k == -1 {
            LexLessIrreflexive(h);
            k, best := i, h;
          } else if LexLess(best, h) {
            forall j | 0 <= j < i && IsEligibleLeader(views[j])
              ensures LexLess(ComputeHash(views[j].id, timestamp), h)
              ensures !LexLess(h, ComputeHash(views[j].id, timestamp))
            {
              var hj := ComputeHash(views[j].id, timestamp);
              LexLessTrichotomy(hj, best);
              if LexLess(hj, best) {
                LexLessTransitive(hj, best, h);
              }
              LexLessAsymmetric(hj, h);
            }
            LexLessIrreflexive(h);
            k, best := i, h;
          }
        }
        i := i + 1;
      }
    }

    /** elect_leader: keeps a still-eligible incumbent within its term;
        otherwise elects the eligible node with the largest digest, or reports
        none (with the request time) and leaves the state alone. */
    method ElectLeader(nodes: seq<Node>, timestamp: real) returns (leader: Node?, time: real)
      requires AllReadable(Views(nodes))
      requires currentLeader != null ==> currentLeader.View().ChannelsReadable()
      modifies this`currentLeader, this`leaderTimeout
      ensures Views(nodes) == old(Views(nodes))
      ensures leader == null || leader in nodes || leader == old(currentLeader)
      ensures leader != null ==> leader.View().ChannelsReadable() && IsEligibleLeader(leader.View())
      ensures currentLeader == old(currentLeader) || (currentLeader == leader && leader in nodes)
      ensures old(TermHolds(timestamp)) ==>
        && leader == old(currentLeader) && time == old(leaderTimeout)
        && currentLeader == old(currentLeader) && leaderTimeout == old(leaderTimeout)
      ensures !old(TermHolds(timestamp)) && (forall j :: 0 <= j < |nodes| ==> !IsEligibleLeader(old(Views(nodes))[j])) ==>
        && leader == null && time == timestamp
        && currentLeader == old(currentLeader) && leaderTimeout == old(leaderTimeout)
      ensures !old(TermHolds(timestamp)) && (exists j :: 0 <= j < |nodes| && IsEligibleLeader(old(Views(nodes))[j])) ==>
        && (exists k :: FirstMaximal(old(Views(nodes)), timestamp, k) && nodes[k] == leader)
        && currentLeader == leader && leaderTimeout == timestamp && time == timestamp
    {
      if currentLeader != null && timestamp - leaderTimeout < deltaT && IsEligibleLeader(currentLeader.View()) {
        leader, time := currentLeader, leaderTimeout;
      } else {
        var k := SelectLeader(Views(nodes), timestamp);
        if k == -1 {
          leader, time := null, timestamp;
        } else {
          ViewAt(nodes, k);
          leader := nodes[k];
          currentLeader, leaderTimeout := leader, timestamp;
          time := timestamp;
        }
      }
      ViewsKept(nodes);
    }

    /** announce_leader */
    function AnnounceLeader(leaderId: NodeId, timestamp: real): (a: Announcement)
      ensures a.leaderId == leaderId && a.timestamp == timestamp
    {
      Announcement(leaderId, timestamp, ComputeHash(leaderId, timestamp))
    }

    /** verify_announcement: the announced id names a node of the list, the
        digest recomputes, and that node is eligible now. */
    predicate VerifyAnnouncement(a: Announcement, views: seq<NodeView>)
      requires AllReadable(views)
    {
      match FindById(views, a.leaderId)
      case None => false
      case Some(i) => a.hash == ComputeHash(a.leaderId, a.timestamp) && IsEligibleLeader(views[i])
    }

    /** Announcing and verifying is a round trip: the announcement of `l` is
        accepted exactly when the first node with l's id is eligible. */
    lemma AnnounceVerifyRoundTrip(leaderId: NodeId, timestamp: real, views: seq<NodeView>)
      requires AllReadable(views)
      ensures VerifyAnnouncement(AnnounceLeader(leaderId, timestamp), views) <==>
        exists i :: 0 <= i < |views| && views[i].id == leaderId &&
          (forall j :: 0 <= j < i ==> views[j].id != leaderId) && IsEligibleLeader(views[i])
    {
      var r := FindById(views, leaderId);
      if r.Some? {
        var i := r.value;
        forall i' | 0 <= i' < |views| && views[i'].id == leaderId &&
                    (forall j :: 0 <= j < i' ==> views[j].id != leaderId)
          ensures i' == i
        {
        }
      }
    }

    /** The eligibility rule on the nodes of the election tests (kappa 0.5,
        theta 0.2, two channels of capacity 1000 each): the rule as written
        also admits the 100/900 and 950/50 nodes, because a large imbalance
        alone suffices; only the node that did not ask for rebalancing is out. */
    lemma EligibilityOnTestNodes()
      requires kappa == 0.5 && theta == 0.2
      ensures IsEligibleLeader(TestView("node1", 800.0, 200.0, 700.0, 300.0, true))
      ensures IsEligibleLeader(TestView("node2", 100.0, 900.0, 100.0, 900.0, true))
      ensures IsEligibleLeader(TestView("node3", 950.0, 50.0, 950.0, 50.0, true))
      ensures !IsEligibleLeader(TestView("node4", 600.0, 400.0, 600.0, 400.0, false))
      ensures IsEligibleLeader(TestView("node5", 700.0, 300.0, 600.0, 400.0, true))
    {
      assert TestView("node1", 800.0, 200.0, 700.0, 300.0, true).local["ch1"] == 800.0;
      assert TestView("node2", 100.0, 900.0, 100.0, 900.0, true).local["ch1"] == 100.0;
      assert TestView("node3", 950.0, 50.0, 950.0, 50.0, true).local["ch1"] == 950.0;
      assert TestView("node5", 700.0, 300.0, 600.0, 400.0, true).local["ch1"] == 700.0;
    }

    /** An unknown id or a digest that does not recompute is rejected. */
    lemma ForgedAnnouncementRejected(a: Announcement, views: seq<NodeView>)
      requires AllReadable(views)
      requires a.hash != ComputeHash(a.leaderId, a.timestamp) ||
               forall i :: 0 <= i < |views| ==> views[i].id != a.leaderId
      ensures !VerifyAnnouncement(a, views)
    {
    }
  }
}
