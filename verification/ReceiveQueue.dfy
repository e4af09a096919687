/** The bounded first-in first-out queue of received messages, which drops its oldest item when full. */
module ReceiveQueue {
  import opened Collections
  import opened Framing

  datatype ReceivedMessage = ReceivedMessage(fromPeerId: string, data: Bytes)

  datatype Op = Push(msg: ReceivedMessage) | Pop | Reset

  /** The queue and its past: everything pushed, the positions among the pushes of what was popped, and how many
      items were dropped or reset away. */
  datatype History = History(
    items: seq<ReceivedMessage>, pushed: seq<ReceivedMessage>, popped: seq<nat>, lost: nat)

  const EMPTY := History([], [], [], 0)

  function Step(capacity: nat, h: History, op: Op): History {
    match op
    case Push(msg) =>
      if |h.items| >= capacity && h.items != []
      then h.(items := h.items[1..] + [msg], pushed := h.pushed + [msg], lost := h.lost + 1)
      else h.(items := h.items + [msg], pushed := h.pushed + [msg])
    case Pop =>
      if h.items == [] || |h.items| > |h.pushed| then h
      else h.(items := h.items[1..], popped := h.popped + [|h.pushed| - |h.items|])
    case Reset => h.(items := [], lost := h.lost + |h.items|)
  }

  function Steps(capacity: nat, h: History, ops: seq<Op>): History {
    if ops == [] then h else Step(capacity, Steps(capacity, h, ops[..|ops| - 1]), ops[|ops| - 1])
  }

  /** Pushed items are accounted for exactly once, the queue holds the latest of them, never more than its
      capacity, and what was popped came out in push order. */
  ghost predicate Accounted(capacity: nat, h: History) {
    && |h.pushed| == |h.popped| + h.lost + |h.items|
    && |h.items| <= capacity
    && h.items == h.pushed[|h.pushed| - |h.items|..]
    && (forall i, j :: 0 <= i < j < |h.popped| ==> h.popped[i] < h.popped[j])
    && (forall i :: 0 <= i < |h.popped| ==> h.popped[i] < |h.pushed| - |h.items|)
  }

  lemma StepAccounted(capacity: nat, h: History, op: Op)
    requires capacity >= 1 && Accounted(capacity, h)
    ensures Accounted(capacity, Step(capacity, h, op))
  {
    var next := Step(capacity, h, op);
    if op.Push? {
      assert next.pushed[..|h.pushed|] == h.pushed;
    }
  }

  /** Under any interleaving of pushes, pops and resets: pushed = popped + lost + queued, and the pops are a
      subsequence of the pushes, in order. */
  lemma {:induction false} AccountedAlways(capacity: nat, h: History, ops: seq<Op>)
    requires capacity >= 1 && Accounted(capacity, h)
    ensures Accounted(capacity, Steps(capacity, h, ops)) && h.pushed <= Steps(capacity, h, ops).pushed
    decreases |ops|
  {
    if ops != [] {
      AccountedAlways(capacity, h, ops[..|ops| - 1]);
      StepAccounted(capacity, Steps(capacity, h, ops[..|ops| - 1]), ops[|ops| - 1]);
    }
  }

  function Pushes(msgs: seq<ReceivedMessage>): (ops: seq<Op>)
    ensures |ops| == |msgs| && forall i :: 0 <= i < |msgs| ==> ops[i] == Push(msgs[i])
  {
    seq(|msgs|, i requires 0 <= i < |msgs| => Push(msgs[i]))
  }

  /** Pushing a burst keeps the latest `capacity` of what was there and what came. */
  lemma {:induction false} BurstKeepsLatest(capacity: nat, h: History, msgs: seq<ReceivedMessage>)
    requires capacity >= 1 && |h.items| <= capacity
    ensures Steps(capacity, h, Pushes(msgs)).items == PyLast(h.items + msgs, capacity)
    ensures Steps(capacity, h, Pushes(msgs)).pushed == h.pushed + msgs
    decreases |msgs|
  {
    if msgs == [] {
      assert h.items + msgs == h.items && h.pushed + msgs == h.pushed;
    } else {
      var init, m := msgs[..|msgs| - 1], msgs[|msgs| - 1];
      BurstKeepsLatest(capacity, h, init);
      assert Pushes(msgs)[..|msgs| - 1] == Pushes(init);
      assert msgs == init + [m];
      BurstAfter(capacity, Steps(capacity, h, Pushes(init)), h.items, h.pushed, init, m);
    }
  }

  lemma BurstAfter(capacity: nat, h: History, items: seq<ReceivedMessage>, pushed: seq<ReceivedMessage>,
                   init: seq<ReceivedMessage>, m: ReceivedMessage)
    requires capacity >= 1 && h.items == PyLast(items + init, capacity) && h.pushed == pushed + init
    ensures Step(capacity, h, Push(m)).items == PyLast(items + (init + [m]), capacity)
    ensures Step(capacity, h, Push(m)).pushed == pushed + (init + [m])
  {
    LatestAfter(capacity, items + init, m);
    assert items + (init + [m]) == items + init + [m];
    assert pushed + (init + [m]) == pushed + init + [m];
  }

  lemma LatestAfter(capacity: nat, all: seq<ReceivedMessage>, m: ReceivedMessage)
    requires capacity >= 1
    ensures var kept := PyLast(all, capacity);
            PyLast(all + [m], capacity) == if |kept| >= capacity then kept[1..] + [m] else kept + [m]
  {
  }

  /** receivedQueue of api/recv.go, with its past. */
  class ReceivedQueue {
    var items: seq<ReceivedMessage>
    const capacity: nat
    ghost var history: History

    ghost predicate Valid()
      reads this
    {
      capacity >= 1 && history.items == items && Accounted(capacity, history)
    }

    constructor (capacity: nat)
      requires capacity >= 1
      ensures Valid() && this.capacity == capacity && history == EMPTY
    {
      items, this.capacity, history := [], capacity, EMPTY;
    }

    method Push(msg: ReceivedMessage)
      requires Valid()
      modifies this
      ensures Valid() && history == Step(capacity, old(history), Op.Push(msg))
      ensures items == (if |old(items)| >= capacity then old(items)[1..] else old(items)) + [msg]
    {
      StepAccounted(capacity, history, Op.Push(msg));
      if |items| >= capacity {
        items := items[1..];
      }
      items := items + [msg];
      history := Step(capacity, history, Op.Push(msg));
    }

    /** The oldest queued message, which is the push at the position recorded as popped. */
    method Pop() returns (msg: Option<ReceivedMessage>)
      requires Valid()
      modifies this
      ensures Valid() && history == Step(capacity, old(history), Op.Pop)
      ensures msg == if old(items) == [] then None else Some(history.pushed[history.popped[|history.popped| - 1]])
      ensures if old(items) == [] then items == [] else msg == Some(old(items)[0]) && items == old(items)[1..]
    {
      StepAccounted(capacity, history, Op.Pop);
      if items == [] {
        return None;
      }
      msg := Some(items[0]);
      items := items[1..];
      history := Step(capacity, history, Op.Pop);
    }

    method Reset()
      requires Valid()
      modifies this
      ensures Valid() && history == Step(capacity, old(history), Op.Reset) && items == []
    {
      items := [];
      history := Step(capacity, history, Op.Reset);
    }

    method Len() returns (n: nat)
      requires Valid()
      ensures n == |history.pushed| - |history.popped| - history.lost && n == |items|
    {
      n := |items|;
    }

    /** A copy of the queued messages: the latest pushes. */
    method Snapshot() returns (copied: seq<ReceivedMessage>)
      requires Valid()
      ensures |copied| == |history.pushed| - |history.popped| - history.lost
      ensures |copied| <= |history.pushed| && copied == history.pushed[|history.pushed| - |copied|..]
      ensures copied == items
    {
      copied := items;
    }
  }
}
