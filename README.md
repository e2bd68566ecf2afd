# DEBAL coordination layer in Dafny

This project models the coordination layer of DEBAL. DEBAL is a simulator for decentralised rebalancing of payment channels. Every balance, ratio and threshold is an exact `real`.

- **Node.** A node keeps, for each peer, a local balance, a remote balance, a capacity and an append-only balance history. It also keeps a rebalancing flag and a cached leader.
- **Liquidity monitor.** A node asks for rebalancing when a channel's balance ratio falls below theta, or when its time to depletion falls below tau.
- **Leader election.** This is a two-state machine over the current leader and its term:
  - only eligible nodes may lead;
  - an incumbent whose term still holds is kept;
  - otherwise the eligible node with the largest digest of `(id, timestamp)` wins, and ties go to the first such node in list order;
  - announcements are checked against the node list.
- **Rebalancing engine.**
  - It validates a path hop by hop: the channel exists, the balance is sufficient, a 20% floor holds on both sides, and the skewness stays below sigma or gets better.
  - It moves funds by writing both ends of every channel on the path.
  - It scores a path by the drop in summed skewness.
- **Discrete-event scheduler.**
  - It decides when an election is due, runs it and records the accepted leader.
  - It serves each requesting node by a direct transfer with a neighbour. Channels with skewness above 0.2 are tried most skewed first. The amount leaves the sender at or above 20% of capacity and the receiver at or below 80%, with one of the two bounds met exactly.
- **Path-discovery scheduler.**
  - It pairs a node with nodes whose local share differs by more than 0.2.
  - It searches breadth-first for short, diverse simple paths.
  - It tries the amounts 1000, 750, 500, 250 and 100 on each path, most first.
- **Smaller pieces.**
  - The forwarding step of a simulated payment through the middle node "N".
  - The imbalance ratio and the event detector of the results analysis.
  - The bounded replay memory of the soft actor-critic learner.

**How the project is arranged**
- Node objects are Dafny classes whose methods change their maps in place.
- The engine and both schedulers are classes over those objects.
- Every pure decision is stated over value snapshots. `Channels.NodeView` is one node's maps; a `Network` maps node ids to views.
- The in-place operations are proved to move the snapshot exactly as those functions say.
- SHA-256 is an arbitrary deterministic function `hash` given to the election object. `ComputeHash` is that function, so equal inputs give equal digests. Digests are compared lexicographically, as Python compares strings.

**Modules**
- `common.dfy`: Common. Option, absolute value and min/max, sums over maps and sequences, quotient facts.
- `channels.dfy`: Channels. Skewness, the node view, the history clock, networks.
- `node.dfy`: Nodes. The node class.
- `liquidity.dfy`: Liquidity. `DEBALNodeState`.
- `election.dfy`: Election. `LeaderElection`.
- `engine.dfy`: Engine. Validation, transfer, improvement, `RebalancingEngine`.
- `scheduler.dfy`: Scheduling. The discrete-event scheduler.
- `pathdiscovery.dfy`: PathDiscovery. The path-discovery scheduler.
- `transaction.dfy`: Transactions. Payments.
- `results.dfy`: Results. The results helpers.
- `replay.dfy`: Replay. `ReplayMemory`.

## Model

| member | source | states |
|---|---|---|
| Channels.Skewness | src/entities/debal_components.py:49-62 | skewness times capacity is \|local − remote\|; it is non-negative for a positive capacity and at most 1 when both balances are non-negative and sum to at most the capacity |
| Channels.NodeView.BalanceRatio | src/entities/node.py:40-52 | 0.0 for an unknown channel; otherwise ratio × capacity = local; in [0, 1] on a valid channel of positive capacity |
| Channels.NodeView.ChannelSkewness | src/entities/node.py:54-69 | 0.0 for an unknown channel; otherwise skewness × capacity = \|local − remote\|; in [0, 1] on a valid channel of positive capacity |
| Channels.NodeView.IsValidChannel | src/entities/node.py:183-206 | definition: the channel is known, neither balance is negative and their sum is within the capacity |
| Channels.NodeView.TotalOutgoing | src/entities/node.py:71-78 | definition: the sum of the local balances |
| Channels.NodeView.TotalIncoming | src/entities/node.py:80-87 | definition: the sum of the remote balances |
| Channels.TotalLiquidityBounded | src/entities/node.py:71-87 | when every channel is valid, the total outgoing (sum of local balances) and total incoming (sum of remote balances) are non-negative and together at most the sum of the capacities |
| Channels.MaxTime | src/entities/node.py:128 | the largest time of a non-empty history: no sample is later and some sample has it |
| Channels.NextSampleTime | src/entities/node.py:125-128 | the simulation clock when there is one; otherwise 0 for an empty history, else one more than some sample's time and later than every sample |
| Channels.AppendKeepsIncreasing | src/entities/node.py:125-129 | without a clock, appending a sample keeps the history's times strictly increasing |
| Nodes.Node.constructor | src/entities/node.py:11-38 | empty maps, no leader, both rebalancing flags down |
| Nodes.Node.RequestRebalancing | src/entities/node.py:89-91 | the rebalancing flag is raised |
| Nodes.Node.ClearRebalancingRequest | src/entities/node.py:93-95 | the rebalancing flag is lowered |
| Nodes.Node.UpdateBalances | src/entities/node.py:97-131 | accepted iff the channel exists, neither new balance is negative and their sum is within the capacity; on acceptance both balances move by their deltas, the channel is valid and exactly one sample (next time, new local, new remote) is appended; on refusal the balances and the history are unchanged |
| Nodes.Node.AddChannel | src/entities/node.py:133-147 | the three maps get the entry with no validity check, and the history is seeded with (0, local, remote) |
| Nodes.Node.RemoveChannel | src/entities/node.py:149-165 | the peer leaves all five maps; an unknown peer changes nothing |
| Nodes.Node.SetLeader | src/entities/node.py:167-176 | the leader id and election timestamp are set |
| Nodes.Node.ClearLeader | src/entities/node.py:178-181 | both leader fields are cleared |
| Liquidity.DEBALNodeState.NetFlow | src/entities/debal_components.py:24 | the divisor is the larger of the net outflow and epsilon; it is positive when epsilon is, and exactly epsilon when the net outflow is not positive |
| Liquidity.DEBALNodeState.CalculateTtd | src/entities/debal_components.py:10-25 | time to depletion × divisor = total local balance |
| Liquidity.DEBALNodeState.CheckBalanceRatios | src/entities/debal_components.py:27-47 | definition: some key of the local map has min(local/capacity, remote/capacity) below theta; the loop's early return is the existential |
| Liquidity.DEBALNodeState.ShouldRequestRebalancing | src/entities/debal_components.py:64-91 | definition: a ratio violation, or else a time to depletion below tau; the divisor must be non-zero only when no ratio is violated |
| Liquidity.TtdNonNegative | src/entities/debal_components.py:23-25 | with a positive epsilon and non-negative balances the time to depletion is non-negative, and equal to total local / epsilon when outflow does not exceed inflow |
| Liquidity.RatioCheckReadsOnlyLocalKeys | src/entities/debal_components.py:41-47 | the ratio check depends only on channels that are keys of the local map |
| Liquidity.RatioViolationSuffices | src/entities/debal_components.py:83-84 | a local key with local/capacity or remote/capacity below theta makes the node request rebalancing, whatever its time to depletion |
| Election.LexLessTransitive | src/entities/leader_election.py:103 | the digest order used by `max` is transitive |
| Election.LexLessTrichotomy | src/entities/leader_election.py:103 | any two digests are equal or ordered one way |
| Election.LexLessIrreflexive | src/entities/leader_election.py:103 | no digest is below itself |
| Election.LexLessAsymmetric | src/entities/leader_election.py:103 | two digests are never below each other |
| Election.FindById | src/entities/leader_election.py:144-146 | the first node with the id, or None when no node has it |
| Election.LeaderElection.constructor | src/entities/leader_election.py:11-24 | parameters stored, no leader, timeout 0 |
| Election.LeaderElection.ComputeHash | src/entities/leader_election.py:26-38 | definition: the election's deterministic digest function applied to (id, timestamp) |
| Election.LeaderElection.IsEligibleLeader | src/entities/leader_election.py:40-72 | definition: the node requests rebalancing and some channel has local/capacity at least kappa or an imbalance of at least theta × capacity |
| Election.LeaderElection.VerifyAnnouncement | src/entities/leader_election.py:128-153 | definition: the first listed node with the announced id exists, the digest recomputes, and that node is eligible |
| Election.LeaderElection.SelectLeader | src/entities/leader_election.py:94-103 | -1 iff no node is eligible; otherwise an eligible node whose digest no eligible node exceeds, with every earlier eligible node strictly smaller |
| Election.LeaderElection.ElectLeader | src/entities/leader_election.py:74-109 | the incumbent and old timeout are returned untouched while its term holds; with no eligible node, (None, timestamp) and no state change; otherwise the first maximal eligible node becomes leader with timeout = timestamp |
| Election.LeaderElection.AnnounceLeader | src/entities/leader_election.py:111-126 | the announcement carries the leader's id and the timestamp |
| Election.LeaderElection.AnnounceVerifyRoundTrip | src/entities/leader_election.py:128-153 | verifying an announcement made by announce_leader succeeds iff the first node with that id exists and is eligible |
| Election.LeaderElection.ForgedAnnouncementRejected | src/entities/leader_election.py:143-150 | an unknown id or a digest that does not recompute is rejected |
| Election.LeaderElection.EligibilityOnTestNodes | src/entities/leader_election.py:55-72 | with kappa 0.5 and theta 0.2, the non-requesting node is ineligible and the four requesting nodes of the election tests are all eligible |
| Engine.RejectedPaths | src/entities/rebalancing_engine.py:31-57 | paths of fewer than two nodes, hops with an unregistered end or an unknown channel, and hops whose sender cannot cover the amount are rejected |
| Engine.HopValid | src/entities/rebalancing_engine.py:34-74 | definition: both ends registered, the channel known to the sender, enough local balance, both sides at least 20% of capacity afterwards, and not a skewness above sigma that is no better than before |
| Engine.ValidatePath | src/entities/rebalancing_engine.py:20-76 | definition: at least two nodes and every hop valid on the balances before the transfer |
| Engine.FloorRejectsExample | src/entities/rebalancing_engine.py:64-66 | 600/400 on capacity 1000 with amount 500 breaks the 20% floor and is rejected |
| Engine.ImprovingHopAccepted | src/entities/rebalancing_engine.py:40-74 | a hop that passes the balance and floor checks and lowers skewness is accepted whatever sigma is |
| Engine.ValidatedHopsGainOrStayBelowSigma | src/entities/rebalancing_engine.py:69-74 | every hop of a valid path ends at skewness at most sigma or strictly improves |
| Engine.ValidatedHopsPresent | src/entities/rebalancing_engine.py:40-48 | on a mirrored network every hop of a valid path is a channel known at both ends |
| Engine.ApplyHop | src/entities/rebalancing_engine.py:93-107 | one hop keeps every node and every channel key |
| Engine.HopEntry | src/entities/rebalancing_engine.py:101-107 | one hop subtracts the amount from the sender's local entry, adds it to the receiver's local entry, and swaps the remote side; no other entry changes |
| Engine.ApplyPath | src/entities/rebalancing_engine.py:93-107 | the whole transfer keeps every node and channel key |
| Engine.PathEntry | src/entities/rebalancing_engine.py:93-107 | each entry after the transfer is its old value plus what the path moved into it minus what it moved out |
| Engine.ChannelTotalsConserved | src/entities/rebalancing_engine.py:101-107 | every channel view keeps local + remote |
| Engine.DistinctMoved | src/entities/rebalancing_engine.py:93-107 | on a path without repeated nodes each hop moves exactly the amount forward and nothing back |
| Engine.ValidatedTransferKeepsFloor | src/entities/rebalancing_engine.py:64-107 | after a validated transfer along a simple path every sender's channel moved by the amount and both sides stay at or above 20% of capacity |
| Engine.SendTotals | src/entities/rebalancing_engine.py:102-106 | sending lowers the node's total local balance by the amount and raises its total remote balance by it |
| Engine.ReceiveTotals | src/entities/rebalancing_engine.py:103-107 | receiving raises the total local balance and lowers the total remote balance by the amount |
| Engine.HopTotal | src/entities/rebalancing_engine.py:101-107 | one hop moves the sender's total local balance down and the receiver's up by the amount; other nodes are unchanged |
| Engine.PathTotal | src/entities/rebalancing_engine.py:93-107 | each node's total local balance moves by its net flow along the path, and its total remote balance by minus that |
| Engine.DistinctFlow | src/entities/rebalancing_engine.py:93-107 | on a simple path the source loses the amount, the destination gains it, and every intermediate node's total is unchanged |
| Engine.SendReceiveCancel | src/entities/rebalancing_engine.py:102-107 | receiving back what was sent on a channel restores the view |
| Engine.HopAsSteps | src/entities/rebalancing_engine.py:101-107 | one hop is the sender's write followed by the receiver's write |
| Engine.SendOn | src/entities/rebalancing_engine.py:102-106 | the node object's view becomes the sending update of its old view |
| Engine.ReceiveOn | src/entities/rebalancing_engine.py:103-107 | the node object's view becomes the receiving update of its old view |
| Engine.Skews | src/entities/rebalancing_engine.py:126-155 | one skewness per hop, each computed on the sender's channel shifted by the amount |
| Engine.CalculateImprovement | src/entities/rebalancing_engine.py:111-158 | 0 for a positive amount on an invalid path; otherwise the summed per-hop gain |
| Engine.SkewSumDifference | src/entities/rebalancing_engine.py:126-158 | the summed gain equals the sum of skews before minus the sum after |
| Engine.RebalancingEngine.constructor | src/entities/rebalancing_engine.py:10-18 | sigma stored, no nodes |
| Engine.RebalancingEngine.TransferHop | src/entities/rebalancing_engine.py:94-107 | the node objects' snapshot moves exactly as ApplyHop says |
| Engine.RebalancingEngine.TransferAlong | src/entities/rebalancing_engine.py:93-107 | the snapshot moves exactly as ApplyPath says |
| Engine.RebalancingEngine.ExecuteTransfer | src/entities/rebalancing_engine.py:78-109 | true iff the path validates on the old snapshot; on success the snapshot is ApplyPath of the old one; on failure nothing changes |
| Scheduling.CandidateOf | src/entities/scheduler.py:107-120 | the candidate record copies the channel's entries and its skewness × capacity is \|local − remote\| |
| Scheduling.InsertBySkew | src/entities/scheduler.py:124 | an insertion is a permutation of the list plus the element |
| Scheduling.InsertBySkewSorted | src/entities/scheduler.py:124 | inserting into a list sorted by descending skewness keeps it sorted |
| Scheduling.SortBySkew | src/entities/scheduler.py:124 | the result is a permutation of the input, sorted by descending skewness |
| Scheduling.NoDuplicatesPermutation | src/entities/scheduler.py:124 | sorting keeps the list free of repeated channels |
| Scheduling.PeersOf | src/entities/scheduler.py:107-120 | the set of peers is exactly the peers of the list |
| Scheduling.CollectImbalanced | src/entities/scheduler.py:107-120 | every collected record is an entry of the node, none repeats, and every channel with skewness above 0.2 is collected |
| Scheduling.ImbalancedChannels | src/entities/scheduler.py:106-124 | the list holds exactly the channels with skewness above 0.2, each once, sorted by descending skewness |
| Scheduling.DirectTransfer | src/entities/scheduler.py:133-157 | local > remote sends along [node, peer], otherwise along [peer, node]; the amount leaves the sending side at least 20% of capacity and the receiving side at most 80%, with one of the two bounds met exactly |
| Scheduling.Plans | src/entities/scheduler.py:127-157 | only positive amounts over two-node paths are planned, at most one per channel |
| Scheduling.IdMap | src/entities/scheduler.py:31 | the engine's dictionary maps each node's id to that node and holds nothing else |
| Scheduling.IdMapConsistent | src/entities/scheduler.py:31 | for well-formed nodes with distinct ids and mirrored channels, the engine's snapshot is well formed and mirrored |
| Scheduling.MemberAccepted | src/entities/scheduler.py:85-90 | the announcement of an eligible listed node always verifies |
| Scheduling.Cleared | src/entities/scheduler.py:145 | lowering a node's flag changes no balance and no other node |
| Scheduling.TransferKeepsTotals | src/entities/scheduler.py:143 | a transfer keeps every channel's local + remote |
| Scheduling.ServedKeepsTotals | src/entities/scheduler.py:143-146 | serving a node keeps every channel's local + remote |
| Scheduling.SameTotalsTransitive | src/entities/scheduler.py:103-163 | channel totals kept step by step are kept over the whole round |
| Scheduling.FirstValidIsFirst | src/entities/scheduler.py:127-163 | no plan is chosen iff none validates; a chosen plan validates and every earlier one does not |
| Scheduling.FirstValidAppend | src/entities/scheduler.py:127-163 | the first valid plan of a concatenation is the first of the prefix if it has one, else the first of the rest |
| Scheduling.PlansConcat | src/entities/scheduler.py:127-157 | planning a concatenation concatenates the plans |
| Scheduling.FirstValid | src/entities/scheduler.py:127-163 | definition: the first plan, in list order, that validates on the network; a failed attempt changes nothing, so every plan is judged on the same network |
| Scheduling.Lowered | src/entities/scheduler.py:103-146 | the flags after a round: a served node's flag is lowered and every other flag is kept |
| Scheduling.OnlyRequestedStep | src/entities/scheduler.py:103-104 | only requesting nodes are ever served |
| Scheduling.ServeStepKeepsShape | src/entities/scheduler.py:103-146 | serving one node keeps every node and every channel key |
| Scheduling.ServeStepKeepsTotals | src/entities/scheduler.py:143-146 | serving one node keeps every channel's local + remote |
| Scheduling.RoundExtend | src/entities/scheduler.py:103-104 | a round over a prefix of the nodes followed by one more service is a round over the longer prefix |
| Scheduling.RoundKeepsTotals | src/entities/scheduler.py:103-163 | over any prefix of a round every channel keeps its local + remote |
| Scheduling.AdvancedStep | src/entities/scheduler.py:103-104 | one more visit extends the round, the served list and the lowered flags, and keeps only requesting nodes served |
| Scheduling.RebalancingScheduler.constructor | src/entities/scheduler.py:8-31 | no leader, last election time 0, and the engine's nodes are the id map of the list |
| Scheduling.RebalancingScheduler.ShouldTriggerElection | src/entities/scheduler.py:49-73 | due iff there is no leader and some node requests, or the leader is ineligible, or delta_t has passed since the last election |
| Scheduling.RebalancingScheduler.HandleLeaderTransition | src/entities/scheduler.py:165-176 | every node's leader id is the new leader's and its election timestamp is now; no balance changes |
| Scheduling.RebalancingScheduler.ListedLeaderAccepted | src/entities/scheduler.py:87-90 | the announcement of an eligible member verifies against the node list |
| Scheduling.CachesInformed | src/entities/scheduler.py:174-176 | nodes that all cache the leader id and the time have the caches Informed(n, id, t) |
| Scheduling.InformedCaches | src/entities/scheduler.py:174-176 | the converse: caches equal to Informed(n, id, t) mean every node caches that id and time |
| Scheduling.Chosen | src/entities/scheduler.py:83 | definition: the election half of perform_election: a held term keeps the election's leader and timeout and returns them; otherwise no leader iff no node is eligible, else the first maximal node, which becomes the election's leader with timeout now |
| Scheduling.Recorded | src/entities/scheduler.py:85-97 | definition: the recording half: no leader changes nothing; a leader's announcement verifies, it is recorded with the election time, and the caches become Informed when it replaces a different leader and are kept otherwise |
| Scheduling.Elected | src/entities/scheduler.py:75-97 | definition: Chosen and Recorded on the same before and after states |
| Scheduling.RebalancingScheduler.RecordLeader | src/entities/scheduler.py:92-97 | the transition runs only for a different previous leader, and then every node caches the new leader's id and now; otherwise the caches are kept; then the leader and the election time are recorded |
| Scheduling.RebalancingScheduler.AcceptLeader | src/entities/scheduler.py:85-97 | a verified announcement, followed by RecordLeader's state change, caches included |
| Scheduling.RebalancingScheduler.PerformElection | src/entities/scheduler.py:75-97 | Elected from the old leadership state (scheduler leader and time, election leader and timeout, node caches) to the new: a held term is kept, a fresh election's winner is the first maximal eligible node and becomes the election's leader with timeout now; a returned leader's announcement verifies and it is recorded, the caches hearing of it when it replaces a different leader; with no leader nothing changes; the views are the old ones |
| Scheduling.RebalancingScheduler.LowerFlag | src/entities/scheduler.py:145 | the node's flag is lowered and the snapshot becomes Cleared of the old one |
| Scheduling.RebalancingScheduler.Attempt | src/entities/scheduler.py:133-163 | one channel's transfer is the DirectTransfer plan; it runs iff its amount is positive and it validates, and then lowers the flag; otherwise nothing changes |
| Scheduling.RebalancingScheduler.TryCandidates | src/entities/scheduler.py:127-163 | the first valid plan in list order is executed and the flag lowered; with none, nothing changes |
| Scheduling.RebalancingScheduler.ServeNode | src/entities/scheduler.py:105-163 | one service step: the node's list is exactly its channels with skewness above 0.2, sorted by descending skewness; served iff some plan of that list validates on the old snapshot; then the new snapshot is the first valid plan's transfer with the flag lowered, otherwise nothing changes |
| Scheduling.RebalancingScheduler.ServeIfRequested | src/entities/scheduler.py:103-163 | the ServeNode step for a requesting node, and no change for one that does not request; other nodes' flags are unchanged and the scheduler invariant is kept |
| Scheduling.RebalancingScheduler.Visit | src/entities/scheduler.py:103-163 | one iteration of the loop over the nodes extends the round, the served list and the snapshots by that node's service step |
| Scheduling.RebalancingScheduler.TriggerRebalancing | src/entities/scheduler.py:99-163 | the run is a round: one service step per node in list order, from the old snapshot to the new; channel totals are kept; the flags are the old ones minus the served nodes; only requesting nodes are served; with no requests nothing changes |
| Scheduling.RebalancingScheduler.ElectIfDue | src/entities/scheduler.py:39-40 | an election runs iff one is due, changes no balance, and when it runs has PerformElection's outcome, Elected from the old leadership state to the new (the election's term and the node caches included); when it does not run the leadership state is unchanged |
| Scheduling.RebalancingScheduler.RebalanceIfLed | src/entities/scheduler.py:42-44 | rebalancing runs iff there is a leader and some node requests; then the run is a round from the old snapshot to the new; otherwise nothing changes; channel totals are kept |
| Scheduling.RebalancingScheduler.Tick | src/entities/scheduler.py:37-47 | the next tick is now + delta_t/10; an election runs iff one was due, and then the leadership state goes from the old to the new by Elected, otherwise it is unchanged; after the election step, rebalancing runs iff there is a leader and a request, and is then a round; channel totals are kept; with no leader, or with no request before the tick, no balance changes |
| PathDiscovery.Ids | src/entities/rebalancing_scheduler.py:224 | the ids of a node path, position by position |
| PathDiscovery.IdPaths | src/entities/rebalancing_scheduler.py:224 | the id lists of a list of paths, path by path |
| PathDiscovery.TooSimilar | src/entities/rebalancing_scheduler.py:224-227 | definition: the id sets of the two paths share more than half of the new path's length |
| PathDiscovery.IsUniquePath | src/entities/rebalancing_scheduler.py:208-228 | definition: true with no existing paths, false at the first existing path that is too similar |
| PathDiscovery.IsUniquePathMeans | src/entities/rebalancing_scheduler.py:208-229 | a path is unique iff no existing path shares more than half of its length in node ids; with no existing paths it is always unique |
| PathDiscovery.ShortPathSameEndsTooSimilar | src/entities/rebalancing_scheduler.py:224-227 | a path of two or three nodes whose ends both lie on an earlier path is rejected |
| PathDiscovery.LongPathSharingEndsOnlyPasses | src/entities/rebalancing_scheduler.py:224-227 | a path of four or more nodes that shares only its ends with an earlier path passes |
| PathDiscovery.ShareFromSums | src/entities/rebalancing_scheduler.py:152-159 | the local share is total local / (total local + total remote) |
| PathDiscovery.LocalShareBounds | src/entities/rebalancing_scheduler.py:158-159 | with non-negative balances the local share lies in [0, 1] |
| PathDiscovery.Complementary | src/entities/rebalancing_scheduler.py:140-162 | definition: the two local shares differ by more than 0.2 |
| PathDiscovery.ComplementarySymmetric | src/entities/rebalancing_scheduler.py:162 | complementarity is symmetric, and two nodes with the same share are never complementary |
| PathDiscovery.Lookup | src/entities/rebalancing_scheduler.py:189 | a listed node with the id, or None when no listed node has it |
| PathDiscovery.LookupFirst | src/entities/rebalancing_scheduler.py:189 | the lookup yields the first listed node with the id |
| PathDiscovery.WalkExtend | src/entities/rebalancing_scheduler.py:194 | extending a simple walk by a neighbour not yet on it gives a simple walk |
| PathDiscovery.FirstAmount | src/entities/rebalancing_scheduler.py:97-101 | definition: the first amount, in list order, whose improvement along the path is positive |
| PathDiscovery.FirstScoring | src/entities/rebalancing_scheduler.py:93-105 | definition: the first path with a scoring amount, paired with that amount, in the order of the nested loops |
| PathDiscovery.FirstAmountNone | src/entities/rebalancing_scheduler.py:97-101 | no amount is chosen iff no amount scores a positive improvement |
| PathDiscovery.NoneScoresNothing | src/entities/rebalancing_scheduler.py:97-101 | when no amount is chosen, no amount scores a positive improvement |
| PathDiscovery.FirstAmountIsFirst | src/entities/rebalancing_scheduler.py:97-101 | the chosen amount scores positive and every amount before it does not |
| PathDiscovery.AmountsLargestFirst | src/entities/rebalancing_scheduler.py:91 | the trial amounts are positive and strictly decreasing |
| PathDiscovery.FirstAmountLargest | src/entities/rebalancing_scheduler.py:91-101 | with decreasing amounts the chosen one is the largest that scores |
| PathDiscovery.FirstScoringValidates | src/entities/rebalancing_scheduler.py:93-102 | a chosen trial's path validates at its amount and scores positive |
| PathDiscovery.UnregisteredPathsNeverScore | src/entities/rebalancing_scheduler.py:93-102 | paths none of whose entries the engine holds never score, so nothing would be executed |
| PathDiscovery.FirstAmountAppend | src/entities/rebalancing_scheduler.py:97-101 | the first scoring amount of a concatenation comes from the prefix if it has one |
| PathDiscovery.FirstScoringAppend | src/entities/rebalancing_scheduler.py:93-105 | the first scoring trial of a concatenation comes from the prefix if it has one |
| PathDiscovery.AmountStep | src/entities/rebalancing_scheduler.py:97-101 | after amounts that did not score, one more amount gives FirstAmount of the longer prefix: that amount if it scores, else none |
| PathDiscovery.AmountHit | src/entities/rebalancing_scheduler.py:97-101 | the first scoring amount met by the loop is FirstAmount of the whole list, and the path validates at it |
| PathDiscovery.PathStep | src/entities/rebalancing_scheduler.py:93-105 | after paths that found nothing, one more path gives FirstScoring of the longer prefix from that path's FirstAmount |
| PathDiscovery.PathHit | src/entities/rebalancing_scheduler.py:93-105 | the first path with a scoring amount met by the loop gives FirstScoring of the whole list |
| PathDiscovery.RebalancingScheduler.constructor | src/entities/rebalancing_scheduler.py:13-32 | components stored, not running |
| PathDiscovery.RebalancingScheduler.HasComplementaryImbalance | src/entities/rebalancing_scheduler.py:140-162 | None iff a node's totals add up to 0 (Python divides by zero); otherwise true iff the two local shares differ by more than 0.2 |
| PathDiscovery.RebalancingScheduler.Expand | src/entities/rebalancing_scheduler.py:184-204 | expanding one queue entry returns only unique simple paths from source to target, otherwise keeps the BFS frontier invariant; from the source, a directly reachable target is returned as [source, target] |
| PathDiscovery.RebalancingScheduler.FrontierPush | src/entities/rebalancing_scheduler.py:203-204 | enqueuing an extended walk keeps the frontier invariant |
| PathDiscovery.RebalancingScheduler.FindPath | src/entities/rebalancing_scheduler.py:164-206 | a returned path starts at source, ends at target, repeats no node, follows local-balance keys of listed nodes and passes the diversity filter; a target reachable in one admissible step is found as [source, target] |
| PathDiscovery.RebalancingScheduler.DiverseAppend | src/entities/rebalancing_scheduler.py:197-198 | adding a path unique against the kept ones keeps the list pairwise diverse |
| PathDiscovery.RebalancingScheduler.KeepPath | src/entities/rebalancing_scheduler.py:132-133 | a kept path of at most 5 nodes to a complementary partner keeps the candidate and diversity invariants |
| PathDiscovery.RebalancingScheduler.SearchPartner | src/entities/rebalancing_scheduler.py:130-133 | up to three searches per partner add at most three paths, all candidates that keep the list diverse; a partner reachable in one step from an empty list always adds a path |
| PathDiscovery.RebalancingScheduler.FindRebalancingPaths | src/entities/rebalancing_scheduler.py:109-138 | every path starts at the node and ends at a different, complementary listed node, has at most 5 nodes and is diverse; the cap check after each partner bounds the count by max_paths + 2; an early stop means the cap was reached; a raise names the node whose share divides by zero; an empty result means no scanned complementary partner was one step away |
| PathDiscovery.RebalancingScheduler.ScanNode | src/entities/rebalancing_scheduler.py:122-135 | one iteration over a listed node: it raises iff the node differs and a share divides by zero; the node itself adds nothing; otherwise the candidate and diversity invariants extend to that node and at most three paths are added |
| PathDiscovery.RebalancingScheduler.NoDirectPartnerWiden | src/entities/rebalancing_scheduler.py:122-133 | "no complementary partner one step away" extends by one scanned node |
| PathDiscovery.RebalancingScheduler.CandidatesListed | src/entities/rebalancing_scheduler.py:109-138 | every node on a found path is the requesting node or a listed node |
| PathDiscovery.RebalancingScheduler.TryAmounts | src/entities/rebalancing_scheduler.py:97-105 | executes at the first scoring amount of the path iff there is one; otherwise nothing changes |
| PathDiscovery.RebalancingScheduler.LowerNeed | src/entities/rebalancing_scheduler.py:104 | the node's needs_rebalancing flag is lowered and no balance changes |
| PathDiscovery.RebalancingScheduler.TryPaths | src/entities/rebalancing_scheduler.py:93-105 | the first scoring (path, amount) trial in loop order is executed iff there is one; otherwise nothing changes |
| PathDiscovery.RebalancingScheduler.ExecuteFirst | src/entities/rebalancing_scheduler.py:93-107 | as TryPaths, and on success the node's needs_rebalancing flag is lowered |
| PathDiscovery.RebalancingScheduler.ProcessRebalancingRequest | src/entities/rebalancing_scheduler.py:74-107 | the paths are those FindRebalancingPaths promises (candidates, diverse, bounded, the raise and the empty-result conditions); then the first scoring trial over their ids is executed and the flag lowered; nothing changes when no path or no trial is found |
| Transactions.Pathfinder | src/entities/transaction.py:19-32 | a route exists iff the pair is L→R or R→L; it is [source, N, destination] with previous = source and next = destination |
| Transactions.PathfinderMirror | src/entities/transaction.py:20-29 | the R→L route is the L→R route reversed, with previous and next swapped |
| Transactions.Admits | src/entities/node.py:109-119 | definition: the channel is known and neither new balance is negative and their sum is within the capacity |
| Transactions.Updated | src/entities/node.py:97-131 | definition: both balances moved by their deltas when admitted, otherwise the view unchanged |
| Transactions.UpdatedFrom | src/entities/node.py:97-131 | a node after update_balances is exactly the Updated view of the node before |
| Transactions.SendAdmitted | src/entities/transaction.py:38-41 | on a valid channel the sending update is admitted iff the local balance covers a non-negative amount, which is what run tests |
| Transactions.ReceiveAdmitted | src/entities/transaction.py:40 | on a valid channel the receiving update is admitted iff the remote balance covers the amount, which run never tests |
| Transactions.ForwardKeepsChannels | src/entities/transaction.py:40-41 | when both updates are admitted, every channel keeps its key and its local + remote |
| Transactions.UpdatedTotals | src/entities/node.py:121-122 | an admitted update moves the node's total local and total remote balances by exactly the deltas |
| Transactions.ForwardKeepsTotals | src/entities/transaction.py:40-41 | when both updates are admitted the node's total local and total remote balances are unchanged |
| Transactions.RefusedReceiveLosesFunds | src/entities/transaction.py:40-42 | when the receive is refused and the send admitted, the node's local total drops by the amount while the status is still SUCCEEDED |
| Transactions.Transaction.constructor | src/entities/transaction.py:5-14 | a new payment is PENDING, with the pathfinder's route and the middle node of the topology |
| Transactions.Transaction.Run | src/entities/transaction.py:34-53 | SUCCEEDED iff the middle node's local balance on the outgoing channel covers the amount, and then the node is the receive-then-send update of its old state; FAILED touches no balance and no history |
| Transactions.Transaction.Forward | src/entities/transaction.py:40-41 | the two updates: receive on the incoming channel, then send on the outgoing one |
| Transactions.Transaction.Receive | src/entities/transaction.py:40 | the node becomes the receiving update of its old state |
| Transactions.Transaction.Send | src/entities/transaction.py:41 | the node becomes the sending update of its old state |
| Transactions.Transaction.Signature | src/entities/transaction.py:60-62 | (arrival time, source, destination, amount, status) |
| Results.DebalImbalance | src/read_results.py:44-47 | None iff the two balances sum to zero; otherwise ratio × (local + remote) = \|local − remote\| |
| Results.DebalImbalanceBounds | src/read_results.py:44-47 | for non-negative balances not both zero the ratio is in [0, 1]; it is 0 iff the channel is balanced, and 1 iff one side is empty |
| Results.DebalImbalanceSymmetric | src/read_results.py:44-47 | swapping the sides keeps the ratio |
| Results.Jumps | src/read_results.py:53-55 | the jump indices below n lie in [1, n) |
| Results.JumpsMeans | src/read_results.py:53-55 | the listed indices are exactly the steps larger than the threshold, strictly increasing, at most n − 1 of them |
| Results.DetectRebalancingEvents | src/read_results.py:49-58 | raises iff some jump index has no time; otherwise the events are the times and the changes are the steps at exactly the jump indices, in order |
| Results.DetectedEventsMeaning | src/read_results.py:49-58 | equal lengths, at most len(values) − 1 events, every change above the threshold, and each event/change pair comes from one index i ≥ 1 |
| Results.AlignedHistoriesDoNotRaise | src/read_results.py:53-56 | with a time for every sample the scan never raises |
| Replay.LastN | src/learning/pytorch_soft_actor_critic/replay_memory.py:21 | the last n elements: the whole sequence when shorter, else exactly n of them, as a suffix |
| Replay.LastNFull | src/learning/pytorch_soft_actor_critic/replay_memory.py:21-34 | appending to a full deque drops exactly the oldest element |
| Replay.PushAllKeepsLast | src/learning/pytorch_soft_actor_critic/replay_memory.py:21-34 | any run of pushes keeps exactly the last capacity transitions seen |
| Replay.ReplayMemory.constructor | src/learning/pytorch_soft_actor_critic/replay_memory.py:14-21 | an empty memory of the given capacity |
| Replay.ReplayMemory.Push | src/learning/pytorch_soft_actor_critic/replay_memory.py:23-34 | the memory is the last capacity elements of the old memory plus the transition; a non-full memory grows by one; a full one keeps its length; the newest element is the transition |
| Replay.ReplayMemory.Length | src/learning/pytorch_soft_actor_critic/replay_memory.py:53-60 | the number of stored transitions, at most the capacity, zero iff empty |

## Left out

- Printing, `time.sleep`, the simpy environment and the `yield` of the run loops are left out. The simulated clock is a parameter: `now` for the scheduler, `clock` for update_balances (`hasattr(self, 'env')`).
- `start`, `stop` and `_scheduler_loop` of the path-discovery scheduler are left out: they are thread plumbing. `running` is kept as a field.
- `ReplayMemory.sample`, `save_buffer` and `load_buffer` are left out: random sampling, torch tensors and pickle I/O.
- The I/O, plotting and statistics parts of the results analysis are left out, as are the experiment drivers, the relay-node simulation, the neural-network learners and the GNN integration. `entities.Node`, imported by the relay-node simulation, is not part of this model.
- The node's learning-related methods (`get_state`, `decide_rebalancing`, `_calculate_reward`, `perform_rebalancing`) and its SAC construction are left out: numpy and torch glue.
- SHA-256 is not modelled: it is any deterministic function of (id, timestamp). No collision or distribution claims are made.
- Python raises `ZeroDivisionError` and `KeyError` in some places. These become `requires` clauses: a zero capacity, a channel key missing from one of the maps, or a leader that is not in the list.
  - The path-discovery share test instead returns None for a zero total, and the request reports it as `raised`.
  - The results ratio returns None where numpy would give nan or inf.
- Insertion order of Python dicts is not modelled. Iteration over channels, and the shuffled neighbour order of `_find_path`, are arbitrary.
  - This leaves open the order among channels of equal skewness after the stable sort, and which of several equally good paths the search finds.
  - The scheduler's list of served nodes and the path-discovery outputs `paths`, `raised` and `scanned` are ghost outputs.
- `execute_transfer` has no rollback. The model follows the code: it validates once and then writes every hop. The reverse channel of each hop must exist (`MirroredAlong`), because the code writes it unchecked.
- Engine.ValidatePath judges each hop on the balances before the transfer, as the code does. A path that repeats a channel can therefore overdraw it; the floor is proved only for simple paths (Engine.ValidatedTransferKeepsFloor).
- PathDiscovery.RebalancingScheduler.FindPath: proves soundness of every returned path, and completeness for a target one admissible step away. It does not state that None comes only after the queue is exhausted.
- PathDiscovery.RebalancingScheduler.FindRebalancingPaths: the `max_paths` cap is checked only after a partner's three attempts, so up to max_paths + 2 paths are returned. The contract states that bound rather than max_paths.
- Scheduling.RebalancingScheduler.HandleLeaderTransition: the old leader argument is unused by the code and is not a parameter.
  - The election short-circuit returns the incumbent. The model requires the incumbent to be one of the scheduler's nodes (`LeadersListed`).
- Transactions.Transaction.Run: the balance history is not stated in Run's ensures. Only the three balance views are tied to the payment (history samples are stated by Nodes.Node.UpdateBalances).
  - status becomes SUCCEEDED whatever the two update_balances calls return, as in the code; Transactions.RefusedReceiveLosesFunds states the consequence.
  - A pair other than L→R or R→L makes the code exit the process; the constructor requires a supported pair instead.
- The code's eligibility rule also admits the strongly imbalanced test nodes node2 and node3. The model follows the code (Election.LeaderElection.EligibilityOnTestNodes), not the test expectations.
  - The early-return loop of `is_eligible_leader` is stated as "some channel satisfies the rule". Both agree when every capacity is non-zero, which the model requires.
- Scheduling.RebalancingScheduler.constructor: requires distinct node ids, well-formed nodes (aligned maps, positive capacities), mirrored channels (a peer listed by one node lists it back) and an election whose current leader is none or a listed node. Python accepts any list; with repeated ids `{node.id: node}` keeps the last node, a case the model does not cover. The scheduler's Valid() carries these facts into every method.
- Engine.RebalancingEngine.ExecuteTransfer: requires every registered node to be well formed, not only the nodes on the path. Python raises nothing for a malformed node off the path.
- PathDiscovery.RebalancingScheduler.TryAmounts: requires the whole engine snapshot to be well formed and mirrored, though only the path's hops are read.
- PathDiscovery.RebalancingScheduler.TryPaths: the same whole-snapshot requirement as TryAmounts.
- PathDiscovery.RebalancingScheduler.ExecuteFirst: the same whole-snapshot requirement as TryAmounts.
- PathDiscovery.RebalancingScheduler.ProcessRebalancingRequest: the same whole-snapshot requirement as TryAmounts.
- Scheduling.RebalancingScheduler.Attempt: requires the whole engine snapshot to be well formed and mirrored, though only one channel pair is read.
- Scheduling.RebalancingScheduler.TryCandidates: the same whole-snapshot requirement as Attempt.
- Scheduling.RebalancingScheduler.ServeNode: the same whole-snapshot requirement as Attempt.
- Replay.Transition: `done` is stored as a real, as the learner passes it. State and action vectors are sequences of reals.
- `detect_rebalancing_events` raises IndexError when `times` is shorter than `values` at a jump. The model reports this as `raised`.

## Findings

| source | as written | input that shows it | evidently intended | confidence | as-written member | corrected member |
|---|---|---|---|---|---|---|
| src/entities/rebalancing_scheduler.py:93-102 | `_process_rebalancing_request` passes paths of Node objects to `calculate_improvement` and `execute_transfer`, whose engine dictionary is keyed by node id; Node defines no equality with strings, so every hop fails `node_id not in self.nodes`, every improvement is 0 and no request is ever served | any request with a found path, e.g. the path [n1, n2] of two Node objects registered under "n1" and "n2", scores 0.0 at every amount | the engine is given the paths' node ids | not executed | PathDiscovery.UnregisteredPathsNeverScore | PathDiscovery.RebalancingScheduler.ProcessRebalancingRequest |
