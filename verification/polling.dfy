/**
 * Readiness of an asynchronous stream, abstracted as a finite trace of poll
 * outcomes. Each element is what one poll of the stream observed: an item
 * that was ready, nothing ready yet, or the end of the stream. After the
 * trace every poll is taken to find nothing ready, for ever.
 *
 * Two ways of consuming the trace appear in the program: awaiting the next
 * item (`stream.next().await`), which sleeps through pending polls, and a
 * non-blocking drain (`stream.next().now_or_never()` in a loop), which takes
 * the items already ready and stops at the first poll that is not.
 */
module Polling {

  datatype Poll<T> = Ready(item: T) | Pending | Closed

  /** The items a stream delivers before it ends, in arrival order. */
  function Arrivals<T>(ps: seq<Poll<T>>): seq<T>
    decreases |ps|
  {
    if ps == [] then []
    else match ps[0]
      case Ready(x) => [x] + Arrivals(ps[1..])
      case Pending => Arrivals(ps[1..])
      case Closed => []
  }

  /** Some poll of the trace finds the stream ended. */
  predicate HasClosed<T>(ps: seq<Poll<T>>)
    decreases |ps|
  {
    ps != [] && (ps[0].Closed? || HasClosed(ps[1..]))
  }

  /**
   * Awaiting the next item: the polls that found nothing ready are slept
   * through; what remains starts with an item, with the end of the stream,
   * or is empty (the await never completes).
   */
  function Await<T>(ps: seq<Poll<T>>): (rest: seq<Poll<T>>)
    ensures |rest| <= |ps| && rest == ps[|ps| - |rest|..]
    ensures forall i :: 0 <= i < |ps| - |rest| ==> ps[i].Pending?
    ensures rest == [] || !rest[0].Pending?
    decreases |ps|
  {
    if ps != [] && ps[0].Pending? then Await(ps[1..]) else ps
  }

  /**
   * The outcome of a drain: the items taken, whether the drain stopped
   * because the stream had ended, and the polls left for later.
   */
  datatype Drained<T> = Drained(items: seq<T>, closed: bool, rest: seq<Poll<T>>)

  /**
   * A non-blocking drain. A poll that finds nothing ready stops it and is
   * used up; a poll that finds the stream ended stops it and stays, because
   * every later poll of an ended stream finds it ended again.
   */
  function Drain<T>(ps: seq<Poll<T>>): Drained<T>
    decreases |ps|
  {
    if ps == [] then Drained([], false, [])
    else match ps[0]
      case Ready(x) =>
        var d := Drain(ps[1..]);
        Drained([x] + d.items, d.closed, d.rest)
      case Pending => Drained([], false, ps[1..])
      case Closed => Drained([], true, ps)
  }

  /**
   * A drain takes exactly the items that are ready one after another and
   * stops at the first poll that is not ready, without looking further.
   */
  lemma {:induction false} DrainTakesReadyRun<T>(ps: seq<Poll<T>>)
    ensures var d := Drain(ps);
      && |d.items| <= |ps|
      && (forall i :: 0 <= i < |d.items| ==> ps[i] == Ready(d.items[i]))
      && (|d.items| == |ps| ==> !d.closed && d.rest == [])
      && (|d.items| < |ps| ==>
            && !ps[|d.items|].Ready?
            && d.closed == ps[|d.items|].Closed?
            && d.rest == (if d.closed then ps[|d.items|..] else ps[|d.items| + 1..]))
    decreases |ps|
  {
    if ps != [] && ps[0].Ready? {
      DrainTakesReadyRun(ps[1..]);
      var d, d' := Drain(ps), Drain(ps[1..]);
      assert forall i :: 1 <= i < |d.items| ==> d.items[i] == d'.items[i - 1];
      assert forall i :: 1 <= i < |ps| ==> ps[i] == ps[1..][i - 1];
    }
  }

  /** What one await-then-drain round yields. */
  datatype Next<T> = Idle | Ended | Burst(items: seq<T>, closed: bool, rest: seq<Poll<T>>)

  /**
   * One round: await the first item, then drain every item already ready.
   * `Idle` means the await never completes; `Ended` means the await found
   * the stream ended.
   */
  function NextBurst<T>(ps: seq<Poll<T>>): (n: Next<T>)
    ensures n.Burst? ==> |n.items| >= 1 && |n.rest| < |ps|
  {
    var w := Await(ps);
    if w == [] then Idle
    else if w[0].Closed? then Ended
    else
      var d := Drain(w[1..]);
      DrainShrinks(w[1..]);
      Burst([w[0].item] + d.items, d.closed, d.rest)
  }

  lemma {:induction false} AwaitKeepsArrivals<T>(ps: seq<Poll<T>>)
    ensures Arrivals(Await(ps)) == Arrivals(ps)
    decreases |ps|
  {
    if ps != [] && ps[0].Pending? {
      AwaitKeepsArrivals(ps[1..]);
    }
  }

  lemma {:induction false} AwaitKeepsEnd<T>(ps: seq<Poll<T>>)
    ensures HasClosed(Await(ps)) <==> HasClosed(ps)
    decreases |ps|
  {
    if ps != [] && ps[0].Pending? {
      AwaitKeepsEnd(ps[1..]);
    }
  }

  lemma {:induction false} DrainShrinks<T>(ps: seq<Poll<T>>)
    ensures |Drain(ps).rest| <= |ps|
    decreases |ps|
  {
    if ps != [] && ps[0].Ready? {
      DrainShrinks(ps[1..]);
    }
  }

  lemma {:induction false} DrainKeepsArrivals<T>(ps: seq<Poll<T>>)
    ensures Arrivals(ps) == Drain(ps).items + Arrivals(Drain(ps).rest)
    decreases |ps|
  {
    if ps != [] && ps[0].Ready? {
      DrainKeepsArrivals(ps[1..]);
    }
  }

  lemma {:induction false} DrainKeepsEnd<T>(ps: seq<Poll<T>>)
    ensures HasClosed(ps) <==> HasClosed(Drain(ps).rest)
    decreases |ps|
  {
    if ps != [] && ps[0].Ready? {
      DrainKeepsEnd(ps[1..]);
    }
  }

  /** A drain that found the stream ended leaves the end at the head of what remains. */
  lemma {:induction false} DrainStopsAtEnd<T>(ps: seq<Poll<T>>)
    ensures Drain(ps).closed ==> Drain(ps).rest != [] && Drain(ps).rest[0].Closed?
    decreases |ps|
  {
    if ps != [] && ps[0].Ready? {
      DrainStopsAtEnd(ps[1..]);
    }
  }

  /**
   * A round neither loses nor invents items: the burst is the next run of
   * arrivals, the stream's end is still ahead iff it was, and the round is
   * idle or ended exactly when nothing more arrives.
   */
  lemma NextBurstAccounts<T>(ps: seq<Poll<T>>)
    ensures NextBurst(ps).Idle? <==> Arrivals(ps) == [] && !HasClosed(ps)
    ensures NextBurst(ps).Ended? <==> Arrivals(ps) == [] && HasClosed(ps)
    ensures NextBurst(ps).Burst? ==> Arrivals(ps) == NextBurst(ps).items + Arrivals(NextBurst(ps).rest)
    ensures NextBurst(ps).Burst? ==> (HasClosed(ps) <==> HasClosed(NextBurst(ps).rest))
  {
    AwaitKeepsArrivals(ps);
    AwaitKeepsEnd(ps);
    var w := Await(ps);
    if w != [] && !w[0].Closed? {
      DrainKeepsArrivals(w[1..]);
      DrainKeepsEnd(w[1..]);
    }
  }

  /** A round whose drain found the stream ended leaves that end to the very next await. */
  lemma NextBurstSeesEnd<T>(ps: seq<Poll<T>>)
    requires NextBurst(ps).Burst? && NextBurst(ps).closed
    ensures HasClosed(NextBurst(ps).rest)
    ensures NextBurst(NextBurst(ps).rest).Ended?
  {
    DrainStopsAtEnd(Await(ps)[1..]);
  }

  /** The whole trace cut into rounds, and whether the stream was found ended. */
  datatype Schedule<T> = Schedule(bursts: seq<seq<T>>, ended: bool)

  function Bursts<T>(ps: seq<Poll<T>>): Schedule<T>
    decreases |ps|
  {
    match NextBurst(ps)
    case Idle => Schedule([], false)
    case Ended => Schedule([], true)
    case Burst(items, _, rest) =>
      var s := Bursts(rest);
      Schedule([items] + s.bursts, s.ended)
  }

  function Flatten<T>(bs: seq<seq<T>>): seq<T>
    decreases |bs|
  {
    if bs == [] then [] else bs[0] + Flatten(bs[1..])
  }

  /** Cutting a trace into rounds starts with the first round's burst. */
  lemma BurstsCons<T>(ps: seq<Poll<T>>)
    requires NextBurst(ps).Burst?
    ensures Bursts(ps).bursts == [NextBurst(ps).items] + Bursts(NextBurst(ps).rest).bursts
  {
  }

  /** Flattening the first `i` bursts starts with the first burst. */
  lemma FlattenFirst<T>(bs: seq<seq<T>>, i: nat)
    requires 1 <= i <= |bs|
    ensures Flatten(bs[..i]) == bs[0] + Flatten(bs[1..][..i - 1])
  {
    assert bs[..i][1..] == bs[1..][..i - 1];
  }

  /** Flattening distributes over concatenation. */
  lemma {:induction false} FlattenAppend<T>(a: seq<seq<T>>, b: seq<seq<T>>)
    ensures Flatten(a + b) == Flatten(a) + Flatten(b)
    decreases |a|
  {
    if a == [] {
      assert a + b == b;
    } else {
      FlattenAppend(a[1..], b);
      assert (a + b)[1..] == a[1..] + b;
    }
  }

  /** Concatenation regroups. */
  lemma AppendAssoc<T>(a: seq<T>, b: seq<T>, c: seq<T>)
    ensures a + (b + c) == (a + b) + c
  {
  }

  /**
   * Cutting the trace into rounds partitions the arrivals: concatenated in
   * order the bursts are exactly the items delivered, in arrival order.
   */
  lemma {:induction false} BurstsPartitionArrivals<T>(ps: seq<Poll<T>>)
    ensures Flatten(Bursts(ps).bursts) == Arrivals(ps)
    decreases |ps|
  {
    NextBurstAccounts(ps);
    match NextBurst(ps)
    case Idle =>
    case Ended =>
    case Burst(items, _, rest) =>
      BurstsPartitionArrivals(rest);
      assert ([items] + Bursts(rest).bursts)[1..] == Bursts(rest).bursts;
  }

  /** The schedule records the end of the stream iff some poll finds it. */
  lemma {:induction false} BurstsEndWithStream<T>(ps: seq<Poll<T>>)
    ensures Bursts(ps).ended <==> HasClosed(ps)
    decreases |ps|
  {
    NextBurstAccounts(ps);
    if NextBurst(ps).Burst? {
      BurstsEndWithStream(NextBurst(ps).rest);
    }
  }

  /** Every round starts with the item it awaited, so no burst is empty. */
  lemma {:induction false} BurstsAreNonEmpty<T>(ps: seq<Poll<T>>)
    ensures forall i :: 0 <= i < |Bursts(ps).bursts| ==> |Bursts(ps).bursts[i]| >= 1
    decreases |ps|
  {
    if NextBurst(ps).Burst? {
      BurstsAreNonEmpty(NextBurst(ps).rest);
    }
  }
}
