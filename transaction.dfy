/** A payment of the discrete-event simulation (src/entities/transaction.py):
    it travels from one end node to the other through the middle node "N",
    which forwards it when its balance on the outgoing channel covers the
    amount. */
module Transactions {
  import opened Common
  import opened Channels
  import opened Nodes

  datatype Status = Pending | Succeeded | Failed

  /** The only two payments the simulation knows: L to R and R to L. */
  predicate Supported(source: NodeId, destination: NodeId)
  {
    (source == "L" && destination == "R") || (source == "R" && destination == "L")
  }

  /** The route through the middle node, the hop the payment arrives on and
      the hop it leaves by. */
  datatype Route = Route(path: seq<NodeId>, previous: NodeId, next: NodeId)

  /** pathfinder: None is the input error on which the source exits the
      process. */
  function Pathfinder(source: NodeId, destination: NodeId): (r: Option<Route>)
    ensures r.Some? <==> Supported(source, destination)
    ensures r.Some? ==> r.value.path == [source, "N", destination]
    ensures r.Some? ==> r.value.previous == source && r.value.next == destination
  {
    if source == "L" && destination == "R" then Some(Route(["L", "N", "R"], "L", "R"))
    else if source == "R" && destination == "L" then Some(Route(["R", "N", "L"], "R", "L"))
    else None
  }

  /** The route back is the route there reversed, with its hops swapped. */
  lemma PathfinderMirror()
    ensures var there, back := Pathfinder("L", "R").value, Pathfinder("R", "L").value;
            && back.path == [there.path[2], there.path[1], there.path[0]]
            && back.previous == there.next && back.next == there.previous
  {
  }

  /** The test update_balances applies before changing channel `p` by the
      two deltas: the channel exists, neither balance goes negative, and
      their sum stays within the capacity. */
  predicate Admits(v: NodeView, p: NodeId, localDelta: real, remoteDelta: real)
  {
    && p in v.capacity && p in v.local && p in v.remote
    && v.local[p] + localDelta >= 0.0
    && v.remote[p] + remoteDelta >= 0.0
    && v.local[p] + localDelta + v.remote[p] + remoteDelta <= v.capacity[p]
  }

  /** The balances after update_balances: changed when admitted, otherwise
      as they were. */
  function Updated(v: NodeView, p: NodeId, localDelta: real, remoteDelta: real): NodeView
  {
    if Admits(v, p, localDelta, remoteDelta) then
      v.(local := v.local[p := v.local[p] + localDelta], remote := v.remote[p := v.remote[p] + remoteDelta])
    else v
  }

  /** A node view changed as update_balances reports is the Updated view. */
  lemma UpdatedFrom(v0: NodeView, v1: NodeView, p: NodeId, localDelta: real, remoteDelta: real, ok: bool)
    requires v0.local.Keys == v0.remote.Keys == v0.capacity.Keys
    requires v1.id == v0.id && v1.capacity == v0.capacity && v1.requested == v0.requested
    requires ok <==> (p in v0.capacity
                      && v0.local[p] + localDelta >= 0.0
                      && v0.remote[p] + remoteDelta >= 0.0
                      && v0.local[p] + localDelta + v0.remote[p] + remoteDelta <= v0.capacity[p])
    requires ok ==> v1.local == v0.local[p := v0.local[p] + localDelta]
    requires ok ==> v1.remote == v0.remote[p := v0.remote[p] + remoteDelta]
    requires !ok ==> v1.local == v0.local && v1.remote == v0.remote
    ensures v1 == Updated(v0, p, localDelta, remoteDelta)
  {
  }

  lemma UpdatedAdmitted(v: NodeView, p: NodeId, localDelta: real, remoteDelta: real)
    requires Admits(v, p, localDelta, remoteDelta)
    ensures var w := Updated(v, p, localDelta, remoteDelta);
            && w.local == v.local[p := v.local[p] + localDelta]
            && w.remote == v.remote[p := v.remote[p] + remoteDelta]
  {
  }

  /** Receiving `amount` on channel `p`: local up, remote down. */
  function Received(v: NodeView, p: NodeId, amount: real): NodeView
  {
    Updated(v, p, amount, -amount)
  }

  /** Sending `amount` on channel `p`: local down, remote up. */
  function Sent(v: NodeView, p: NodeId, amount: real): NodeView
  {
    Updated(v, p, -amount, amount)
  }

  /** The two updates of a forwarded payment: received on `inbound`, sent on
      `outbound`, each applied or refused on its own. */
  function Forwarded(v: NodeView, inbound: NodeId, outbound: NodeId, amount: real): NodeView
  {
    Sent(Received(v, inbound, amount), outbound, amount)
  }

  /** On a valid channel the sending update is admitted exactly when the
      local balance covers a non-negative amount, which is what run tests. */
  lemma SendAdmitted(v: NodeView, p: NodeId, amount: real)
    requires p in v.local && p in v.remote && v.IsValidChannel(p) && amount >= 0.0
    ensures Admits(v, p, -amount, amount) <==> v.local[p] >= amount
  {
  }

  /** On a valid channel the receiving update is admitted exactly when the
      remote balance covers a non-negative amount; run does not test this. */
  lemma ReceiveAdmitted(v: NodeView, p: NodeId, amount: real)
    requires p in v.local && p in v.remote && v.IsValidChannel(p) && amount >= 0.0
    ensures Admits(v, p, amount, -amount) <==> v.remote[p] >= amount
  {
  }

  /** When both updates are admitted, every channel keeps its total. */
  lemma ForwardKeepsChannels(v: NodeView, inbound: NodeId, outbound: NodeId, amount: real)
    requires Admits(v, inbound, amount, -amount)
    requires Admits(Received(v, inbound, amount), outbound, -amount, amount)
    ensures var w := Forwarded(v, inbound, outbound, amount);
            && w.local.Keys == v.local.Keys && w.remote.Keys == v.remote.Keys
            && forall p :: p in v.local && p in v.remote ==> w.local[p] + w.remote[p] == v.local[p] + v.remote[p]
  {
    var u := Received(v, inbound, amount);
    UpdatedAdmitted(v, inbound, amount, -amount);
    UpdatedAdmitted(u, outbound, -amount, amount);
  }

  /** An admitted update moves the node's totals by exactly its deltas. */
  lemma UpdatedTotals(v: NodeView, p: NodeId, localDelta: real, remoteDelta: real)
    requires Admits(v, p, localDelta, remoteDelta)
    ensures Updated(v, p, localDelta, remoteDelta).TotalOutgoing() == v.TotalOutgoing() + localDelta
    ensures Updated(v, p, localDelta, remoteDelta).TotalIncoming() == v.TotalIncoming() + remoteDelta
  {
    UpdatedAdmitted(v, p, localDelta, remoteDelta);
    MapSumUpdate(v.local, p, v.local[p] + localDelta);
    MapSumUpdate(v.remote, p, v.remote[p] + remoteDelta);
  }

  /** When both updates are admitted, the node's total local and total
      remote balances are unchanged. */
  lemma ForwardKeepsTotals(v: NodeView, inbound: NodeId, outbound: NodeId, amount: real)
    requires Admits(v, inbound, amount, -amount)
    requires Admits(Received(v, inbound, amount), outbound, -amount, amount)
    ensures var w := Forwarded(v, inbound, outbound, amount);
            w.TotalOutgoing() == v.TotalOutgoing() && w.TotalIncoming() == v.TotalIncoming()
  {
    UpdatedTotals(v, inbound, amount, -amount);
    UpdatedTotals(Received(v, inbound, amount), outbound, -amount, amount);
  }

  /** When the receiving update is refused but the sending one admitted, the
      node's local total drops by the amount: run still reports success. */
  lemma RefusedReceiveLosesFunds(v: NodeView, inbound: NodeId, outbound: NodeId, amount: real)
    requires !Admits(v, inbound, amount, -amount)
    requires Admits(v, outbound, -amount, amount)
    ensures Forwarded(v, inbound, outbound, amount).TotalOutgoing() == v.TotalOutgoing() - amount
  {
    UpdatedTotals(v, outbound, -amount, amount);
  }

  class Transaction {
    const timeOfArrival: real
    const source: NodeId
    const destination: NodeId
    const amount: real
    const path: seq<NodeId>
    const previousNode: NodeId
    const currentNode: Node
    const nextNode: NodeId
    var status: Status

    /** The route agrees with the endpoints and the middle node can be run. */
    ghost predicate Valid()
      reads currentNode`localBalances, currentNode`remoteBalances, currentNode`capacities,
            currentNode`balanceHistory
    {
      && Pathfinder(source, destination) == Some(Route(path, previousNode, nextNode))
      && currentNode.Valid()
      && nextNode in currentNode.localBalances
    }

    /** __init__ with pathfinder: the topology must hold the middle node and
        the endpoints must be a supported pair (the source exits the process
        otherwise). */
    constructor (topology: map<NodeId, Node>, timeOfArrival: real, source: NodeId, destination: NodeId,
                 amount: real)
      requires Supported(source, destination) && "N" in topology
      ensures this.timeOfArrival == timeOfArrival && this.source == source
      ensures this.destination == destination && this.amount == amount
      ensures status == Pending
      ensures Pathfinder(source, destination) == Some(Route(path, previousNode, nextNode))
      ensures currentNode == topology["N"]
    {
      this.timeOfArrival, this.source, this.destination, this.amount := timeOfArrival, source, destination, amount;
      if source == "L" && destination == "R" {
        path, previousNode, nextNode := ["L", "N", "R"], "L", "R";
      } else {
        path, previousNode, nextNode := ["R", "N", "L"], "R", "L";
      }
      currentNode := topology["N"];
      status := Pending;
    }

    /** run: the payment succeeds exactly when the middle node's local
        balance on the outgoing channel covers the amount; it is then
        received on the incoming channel and sent on the outgoing one, and
        the status is SUCCEEDED whatever the two updates return. A failed
        payment touches nothing. `clock` is the node's simulation time. */
    method Run(clock: Option<real>)
      requires Valid()
      modifies this`status, currentNode`localBalances, currentNode`remoteBalances, currentNode`balanceHistory
      ensures Valid()
      ensures status == (if old(currentNode.localBalances[nextNode]) >= amount then Succeeded else Failed)
      ensures status == Succeeded ==>
                currentNode.View() == Forwarded(old(currentNode.View()), previousNode, nextNode, amount)
      ensures status == Failed ==>
                && currentNode.localBalances == old(currentNode.localBalances)
                && currentNode.remoteBalances == old(currentNode.remoteBalances)
                && currentNode.balanceHistory == old(currentNode.balanceHistory)
    {
      if source == "L" && destination == "R" {
        if currentNode.localBalances["R"] >= amount {
          Forward("L", "R", clock);
          status := Succeeded;
        } else {
          status := Failed;
        }
      } else {
        if currentNode.localBalances["L"] >= amount {
          Forward("R", "L", clock);
          status := Succeeded;
        } else {
          status := Failed;
        }
      }
    }

    /** The two update_balances calls of a successful run, whose results
        are ignored. */
    method Forward(inbound: NodeId, outbound: NodeId, clock: Option<real>)
      requires currentNode.Valid()
      modifies currentNode`localBalances, currentNode`remoteBalances, currentNode`balanceHistory
      ensures currentNode.Valid() && currentNode.localBalances.Keys == old(currentNode.localBalances.Keys)
      ensures currentNode.View() == Forwarded(old(currentNode.View()), inbound, outbound, amount)
    {
      Receive(inbound, clock);
      Send(outbound, clock);
    }

    /** update_balances(inbound, amount, -amount) on the middle node. */
    method Receive(p: NodeId, clock: Option<real>)
      requires currentNode.Valid()
      modifies currentNode`localBalances, currentNode`remoteBalances, currentNode`balanceHistory
      ensures currentNode.Valid() && currentNode.localBalances.Keys == old(currentNode.localBalances.Keys)
      ensures currentNode.View() == Received(old(currentNode.View()), p, amount)
    {
      var ok := currentNode.UpdateBalances(p, amount, -amount, clock);
      UpdatedFrom(old(currentNode.View()), currentNode.View(), p, amount, -amount, ok);
    }

    /** update_balances(outbound, -amount, amount) on the middle node. */
    method Send(p: NodeId, clock: Option<real>)
      requires currentNode.Valid()
      modifies currentNode`localBalances, currentNode`remoteBalances, currentNode`balanceHistory
      ensures currentNode.Valid() && currentNode.localBalances.Keys == old(currentNode.localBalances.Keys)
      ensures currentNode.View() == Sent(old(currentNode.View()), p, amount)
    {
      var ok := currentNode.UpdateBalances(p, -amount, amount, clock);
      UpdatedFrom(old(currentNode.View()), currentNode.View(), p, -amount, amount, ok);
    }

    /** get_transaction_signature: arrival time, endpoints, amount and the
        current status. */
    function Signature(): (s: (real, NodeId, NodeId, real, Status))
      reads this`status
      ensures s.0 == timeOfArrival && s.1 == source && s.2 == destination && s.3 == amount && s.4 == status
    {
      (timeOfArrival, source, destination, amount, status)
    }
  }
}
