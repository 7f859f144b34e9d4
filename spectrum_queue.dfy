/** The bounded queue between the audio callback and the UI thread: a
    FIFO of at most QUEUE_CAPACITY frames whose non-blocking put drops the
    new frame when the queue is full. */
module BoundedQueue {
  import opened Settings
  import opened Wrappers
  import opened SpectrumTransform

  /** The contents after a non-blocking put: appended at the tail when there
      is room, unchanged (the frame is dropped) when full. */
  function Offer<T>(items: seq<T>, x: T): (r: seq<T>)
    ensures items <= r && |r| <= |items| + 1
    ensures |r| == |items| + 1 <==> |items| < QUEUE_CAPACITY
    ensures |r| == |items| + 1 ==> r[|items|] == x
    ensures |items| <= QUEUE_CAPACITY ==> |r| <= QUEUE_CAPACITY
  {
    if |items| < QUEUE_CAPACITY then items + [x] else items
  }

  /** The contents after offering xs one by one, with the number dropped. */
  datatype Outcome<T> = Outcome(retained: seq<T>, dropped: nat)

  function OfferAll<T>(items: seq<T>, xs: seq<T>): (o: Outcome<T>)
    ensures items <= o.retained
    ensures |o.retained| + o.dropped == |items| + |xs|
    ensures |items| <= QUEUE_CAPACITY ==> |o.retained| <= QUEUE_CAPACITY
    decreases |xs|
  {
    if xs == [] then Outcome(items, 0)
    else
      var next := OfferAll(Offer(items, xs[0]), xs[1..]);
      if |items| < QUEUE_CAPACITY then next else next.(dropped := next.dropped + 1)
  }

  /** Offering a sequence of frames keeps the earliest ones that fit, in the
      order they were offered, and drops exactly the overflow. */
  lemma {:induction false} OfferAllKeepsOldest<T>(items: seq<T>, xs: seq<T>)
    requires |items| <= QUEUE_CAPACITY
    ensures var n := Min(|items| + |xs|, QUEUE_CAPACITY);
      OfferAll(items, xs).retained == (items + xs)[..n] &&
      OfferAll(items, xs).dropped == |items| + |xs| - n
    decreases |xs|
  {
    if xs != [] {
      var items' := Offer(items, xs[0]);
      OfferAllKeepsOldest(items', xs[1..]);
      if |items| < QUEUE_CAPACITY {
        assert items' + xs[1..] == items + xs;
      } else {
        var n := Min(|items| + |xs|, QUEUE_CAPACITY);
        assert n == |items|;
        assert (items + xs)[..n] == items;
        assert (items' + xs[1..])[..n] == items;
      }
    }
  }

  /** With 100 slots and 150 frames offered to an empty queue, the first
      100 are retained in order and 50 are dropped. */
  lemma OverflowScenario<T>(xs: seq<T>)
    requires |xs| == 150
    ensures OfferAll([], xs) == Outcome(xs[..100], 50)
  {
    OfferAllKeepsOldest([], xs);
    assert [] + xs == xs;
  }

  class SpectrumQueue {
    /** The frames in the queue, oldest first. */
    var items: seq<Frame>

    ghost predicate Valid()
      reads this
    {
      |items| <= QUEUE_CAPACITY &&
      forall k :: 0 <= k < |items| ==> IsSpectrumFrame(items[k])
    }

    constructor ()
      ensures Valid() && items == []
    {
      items := [];
    }

    method Empty() returns (e: bool)
      ensures e <==> |items| == 0
    {
      e := |items| == 0;
    }

    /** Non-blocking put; `ok` is false when the frame was dropped because
        the queue was full. */
    method PutNowait(f: Frame) returns (ok: bool)
      requires Valid() && IsSpectrumFrame(f)
      modifies this
      ensures Valid()
      ensures ok <==> |old(items)| < QUEUE_CAPACITY
      ensures items == Offer(old(items), f)
      ensures ok ==> items == old(items) + [f]
      ensures !ok ==> items == old(items)
    {
      ok := |items| < QUEUE_CAPACITY;
      if ok {
        items := items + [f];
      }
    }

    /** Non-blocking get: the oldest frame, or None when the queue is empty. */
    method GetNowait() returns (r: Option<Frame>)
      requires Valid()
      modifies this
      ensures Valid()
      ensures old(items) == [] ==> r == None && items == []
      ensures old(items) != [] ==> r == Some(old(items)[0]) && items == old(items)[1..]
      ensures r.Some? ==> IsSpectrumFrame(r.value)
    {
      if |items| == 0 {
        r := None;
      } else {
        r := Some(items[0]);
        items := items[1..];
      }
    }
  }
}
