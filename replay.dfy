/** The experience buffer of the soft actor-critic learner
    (src/learning/pytorch_soft_actor_critic/replay_memory.py): a deque with
    a maximum length that forgets its oldest transitions. */
module Replay {

  /** One stored step: (state, action, reward, next_state, done). */
  datatype Transition = Transition(state: seq<real>, action: seq<real>, reward: real,
                                   nextState: seq<real>, done: real)

  /** The last `n` elements of `s` (all of them when there are fewer): what
      a deque with maxlen n keeps of everything appended to it. */
  function LastN<T>(s: seq<T>, n: nat): (r: seq<T>)
    ensures |r| == if |s| <= n then |s| else n
    ensures r == s[|s| - |r|..]
  {
    if |s| <= n then s else s[|s| - n..]
  }

  /** Appending to a deque that is not full keeps everything. */
  lemma LastNNotFull<T>(s: seq<T>, x: T, n: nat)
    requires |s| < n
    ensures LastN(s + [x], n) == s + [x]
  {
  }

  /** Appending to a full deque drops the oldest element. */
  lemma LastNFull<T>(s: seq<T>, x: T, n: nat)
    requires |s| == n > 0
    ensures LastN(s + [x], n) == s[1..] + [x]
  {
    assert (s + [x])[1..] == s[1..] + [x];
  }

  /** Pushing a whole sequence of transitions, one by one. */
  function PushAll<T>(s: seq<T>, xs: seq<T>, n: nat): seq<T>
    decreases |xs|
  {
    if xs == [] then s else PushAll(LastN(s + [xs[0]], n), xs[1..], n)
  }

  /** Starting from a trimmed memory, any run of pushes leaves exactly the
      last `n` of everything seen. */
  lemma {:induction false} PushAllKeepsLast<T>(s: seq<T>, xs: seq<T>, n: nat)
    requires |s| <= n
    ensures PushAll(s, xs, n) == LastN(s + xs, n)
    decreases |xs|
  {
    if xs != [] {
      var s' := LastN(s + [xs[0]], n);
      PushAllKeepsLastStep(s, xs, n);
      PushAllKeepsLast(s', xs[1..], n);
    }
  }

  /** One step of PushAllKeepsLast: trimming after the first push does not
      change what the last `n` elements of the rest will be. */
  lemma PushAllKeepsLastStep<T>(s: seq<T>, xs: seq<T>, n: nat)
    requires xs != []
    ensures LastN(LastN(s + [xs[0]], n) + xs[1..], n) == LastN(s + xs, n)
  {
    var u, r := s + [xs[0]], xs[1..];
    var w := u + r;
    assert s + xs == w;
    if |u| > n {
      var d := |u| - n;
      assert LastN(u, n) + r == w[d..];
      assert w[d..][|w[d..]| - n..] == w[|w| - n..];
    }
  }

  class ReplayMemory {
    const capacity: nat
    var memory: seq<Transition>

    /** The deque never holds more than its maxlen. */
    ghost predicate Valid()
      reads this
    {
      |memory| <= capacity
    }

    /** __init__: an empty deque with maxlen `capacity`. */
    constructor (capacity: nat)
      ensures Valid() && this.capacity == capacity && memory == []
    {
      this.capacity := capacity;
      memory := [];
    }

    /** push: appends the transition at the newest end; a full memory evicts
        its oldest transition first, and a memory of capacity 0 stays
        empty. */
    method Push(state: seq<real>, action: seq<real>, reward: real, nextState: seq<real>, done: real)
      requires Valid()
      modifies this
      ensures Valid()
      ensures memory == LastN(old(memory) + [Transition(state, action, reward, nextState, done)], capacity)
      ensures |old(memory)| < capacity ==> |memory| == |old(memory)| + 1
      ensures |old(memory)| == capacity ==> |memory| == capacity
      ensures capacity > 0 ==> memory[|memory| - 1] == Transition(state, action, reward, nextState, done)
    {
      var t := Transition(state, action, reward, nextState, done);
      if |memory| == capacity {
        if capacity > 0 {
          LastNFull(memory, t, capacity);
          memory := memory[1..] + [t];
        }
      } else {
        LastNNotFull(memory, t, capacity);
        memory := memory + [t];
      }
    }

    /** __len__: the number of stored transitions, at most the capacity. */
    function Length(): (n: nat)
      reads this
      requires Valid()
      ensures n <= capacity
      ensures n == 0 <==> memory == []
    {
      |memory|
    }
  }
}
