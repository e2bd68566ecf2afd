/** The two numeric helpers of the results analysis (src/read_results.py):
    the DEBAL imbalance ratio of a channel and the detection of rebalancing
    events in a balance history. */
module Results {
  import opened Common

  /** calculate_debal_imbalance: |local - remote| / (local + remote). A zero
      total has no ratio (None). */
  function DebalImbalance(local: real, remote: real): (r: Option<real>)
    ensures r.None? <==> local + remote == 0.0
    ensures r.Some? ==> r.value * (local + remote) == Abs(local - remote)
  {
    if local + remote == 0.0 then None
    else
      QuotientFacts(Abs(local - remote), local + remote);
      Some(Abs(local - remote) / (local + remote))
  }

  /** For non-negative balances, not both zero, the ratio lies in [0, 1]; it
      is 0 exactly for a balanced channel and 1 exactly when one side is
      empty. */
  lemma DebalImbalanceBounds(local: real, remote: real)
    requires local >= 0.0 && remote >= 0.0 && local + remote > 0.0
    ensures DebalImbalance(local, remote).Some?
    ensures 0.0 <= DebalImbalance(local, remote).value <= 1.0
    ensures DebalImbalance(local, remote).value == 0.0 <==> local == remote
    ensures DebalImbalance(local, remote).value == 1.0 <==> (local == 0.0 || remote == 0.0)
  {
    var t := local + remote;
    var d := Abs(local - remote);
    QuotientFacts(d, t);
    QuotientFacts(t, t);
    assert DebalImbalance(local, remote).value == d / t;
  }

  /** Swapping the two sides leaves the ratio as it was. */
  lemma DebalImbalanceSymmetric(local: real, remote: real)
    ensures DebalImbalance(local, remote) == DebalImbalance(remote, local)
  {
  }

  /** The default threshold of detect_rebalancing_events. */
  const DefaultThreshold: real := 20.0

  /** A step from values[i - 1] to values[i] larger than the threshold. */
  predicate IsJump(values: seq<real>, threshold: real, i: int)
  {
    1 <= i < |values| && Abs(values[i] - values[i - 1]) > threshold
  }

  /** The indices 1 <= i < n whose step is a jump, in increasing order. */
  function Jumps(values: seq<real>, threshold: real, n: nat): (r: seq<nat>)
    requires n <= |values|
    ensures forall k :: 0 <= k < |r| ==> 1 <= r[k] < n
  {
    if n <= 1 then []
    else Jumps(values, threshold, n - 1) + (if IsJump(values, threshold, n - 1) then [n - 1] else [])
  }

  /** Jumps lists exactly the jump indices below n, strictly increasing, and
      so at most n - 1 of them. */
  lemma {:induction false} JumpsMeans(values: seq<real>, threshold: real, n: nat)
    requires n <= |values|
    ensures forall k :: 0 <= k < |Jumps(values, threshold, n)| ==>
              var i := Jumps(values, threshold, n)[k]; i < n && IsJump(values, threshold, i)
    ensures forall i :: 0 <= i < n && IsJump(values, threshold, i) ==> i in Jumps(values, threshold, n)
    ensures forall k, l :: 0 <= k < l < |Jumps(values, threshold, n)| ==>
              Jumps(values, threshold, n)[k] < Jumps(values, threshold, n)[l]
    ensures |Jumps(values, threshold, n)| <= if n == 0 then 0 else n - 1
  {
    if n > 1 {
      JumpsMeans(values, threshold, n - 1);
    }
  }

  /** The times at the given indices. */
  function TimesAt(times: seq<real>, indices: seq<nat>): (r: seq<real>)
    requires forall k :: 0 <= k < |indices| ==> indices[k] < |times|
    ensures |r| == |indices| && forall k :: 0 <= k < |r| ==> r[k] == times[indices[k]]
  {
    seq(|indices|, k requires 0 <= k < |indices| => times[indices[k]])
  }

  /** The step into each of the given indices. */
  function ChangesAt(values: seq<real>, indices: seq<nat>): (r: seq<real>)
    requires forall k :: 0 <= k < |indices| ==> 1 <= indices[k] < |values|
    ensures |r| == |indices|
    ensures forall k :: 0 <= k < |r| ==> r[k] == values[indices[k]] - values[indices[k] - 1]
  {
    seq(|indices|, k requires 0 <= k < |indices| => values[indices[k]] - values[indices[k] - 1])
  }

  /** Some jump below n lands at or beyond the end of `times`. */
  predicate MissingTime(times: seq<real>, values: seq<real>, threshold: real, n: nat)
    requires n <= |values|
  {
    exists k :: 0 <= k < |Jumps(values, threshold, n)| && Jumps(values, threshold, n)[k] >= |times|
  }

  /** Adding one index adds its time and its step at the end. */
  lemma AtAppend(times: seq<real>, values: seq<real>, indices: seq<nat>, i: nat)
    requires 1 <= i < |values| && i < |times|
    requires forall k :: 0 <= k < |indices| ==> 1 <= indices[k] < |values| && indices[k] < |times|
    ensures TimesAt(times, indices + [i]) == TimesAt(times, indices) + [times[i]]
    ensures ChangesAt(values, indices + [i]) == ChangesAt(values, indices) + [values[i] - values[i - 1]]
  {
    var both := indices + [i];
    assert forall k :: 0 <= k < |indices| ==> both[k] == indices[k];
    assert TimesAt(times, both) == TimesAt(times, indices) + [times[i]];
    assert ChangesAt(values, both) == ChangesAt(values, indices) + [values[i] - values[i - 1]];
  }

  /** detect_rebalancing_events: scans the consecutive steps of `values` and,
      for each one larger than the threshold, records the time of its later
      sample and the step itself. Indexing `times` past its end raises
      (`raised`). */
  method DetectRebalancingEvents(times: seq<real>, values: seq<real>, threshold: real)
    returns (events: seq<real>, changes: seq<real>, raised: bool)
    ensures raised <==> MissingTime(times, values, threshold, |values|)
    ensures !raised ==>
              && events == TimesAt(times, Jumps(values, threshold, |values|))
              && changes == ChangesAt(values, Jumps(values, threshold, |values|))
  {
    events, changes, raised := [], [], false;
    if |values| <= 1 {
      assert Jumps(values, threshold, |values|) == [];
      return;
    }
    var i := 1;
    while i < |values|
      invariant 1 <= i <= |values|
      invariant forall k :: 0 <= k < |Jumps(values, threshold, i)| ==> Jumps(values, threshold, i)[k] < |times|
      invariant events == TimesAt(times, Jumps(values, threshold, i))
      invariant changes == ChangesAt(values, Jumps(values, threshold, i))
    {
      var change := values[i] - values[i - 1];
      if Abs(change) > threshold {
        if i >= |times| {
          MissingAt(times, values, threshold, i);
          return events, changes, true;
        }
        AtAppend(times, values, Jumps(values, threshold, i), i);
        events := events + [times[i]];
        changes := changes + [change];
      }
      i := i + 1;
    }
  }

  /** A jump at an index with no time makes the scan raise. */
  lemma MissingAt(times: seq<real>, values: seq<real>, threshold: real, i: nat)
    requires IsJump(values, threshold, i) && i >= |times|
    ensures MissingTime(times, values, threshold, |values|)
  {
    JumpsPrefix(values, threshold, i + 1, |values|, i);
    var J := Jumps(values, threshold, |values|);
    var k :| 0 <= k < |J| && J[k] == i;
  }

  /** A jump index below m is listed by Jumps for every n >= m. */
  lemma JumpsPrefix(values: seq<real>, threshold: real, m: nat, n: nat, i: nat)
    requires m <= n <= |values| && i < m && IsJump(values, threshold, i)
    ensures i in Jumps(values, threshold, n)
  {
    JumpsMeans(values, threshold, n);
  }

  /** The events and changes come in pairs, each change is a jump over the
      threshold into the sample the event time belongs to, events are in
      sample order, and there are at most |values| - 1 of them. */
  lemma DetectedEventsMeaning(times: seq<real>, values: seq<real>, threshold: real,
                              events: seq<real>, changes: seq<real>)
    requires |values| <= |times|
    requires events == TimesAt(times, Jumps(values, threshold, |values|))
    requires changes == ChangesAt(values, Jumps(values, threshold, |values|))
    ensures |events| == |changes|
    ensures |events| <= if |values| == 0 then 0 else |values| - 1
    ensures forall k :: 0 <= k < |changes| ==> Abs(changes[k]) > threshold
    ensures forall k :: 0 <= k < |events| ==>
              exists i :: 1 <= i < |values| && events[k] == times[i] && changes[k] == values[i] - values[i - 1]
  {
    JumpsMeans(values, threshold, |values|);
    var J := Jumps(values, threshold, |values|);
    forall k | 0 <= k < |events|
      ensures exists i :: 1 <= i < |values| && events[k] == times[i] && changes[k] == values[i] - values[i - 1]
    {
      var i := J[k];
      assert IsJump(values, threshold, i);
    }
  }

  /** With a time for every sample the scan never raises. */
  lemma AlignedHistoriesDoNotRaise(times: seq<real>, values: seq<real>, threshold: real)
    requires |values| <= |times|
    ensures !MissingTime(times, values, threshold, |values|)
  {
    JumpsMeans(values, threshold, |values|);
  }
}
