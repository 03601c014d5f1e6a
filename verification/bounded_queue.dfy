/**
 * The sample queue shared by the BLE worker and the page: Python's `queue.Queue`
 * (non-blocking calls only), the handler's drop-oldest insertion, and the page's
 * drain loop.
 */
module BoundedQueue {
  import opened Wrappers

  /** `queue.Queue(maxsize)`: the FIFO contents and the bound; `maxsize <= 0` means unbounded. */
  datatype Queue<T> = Queue(items: seq<T>, maxsize: int) {

    /** `Queue.full()`. */
    predicate Full() {
      0 < maxsize <= |items|
    }

    /** The bound holds. Every operation below keeps it. */
    predicate Valid() {
      maxsize > 0 ==> |items| <= maxsize
    }
  }

  function EmptyQueue<T>(maxsize: int): Queue<T> {
    Queue([], maxsize)
  }

  /** `put_nowait(x)`: `None` when it would raise `queue.Full`. */
  function PutNowait<T>(q: Queue<T>, x: T): Option<Queue<T>> {
    if q.Full() then None else Some(q.(items := q.items + [x]))
  }

  /** `get_nowait()`: the head and the rest, `None` when it would raise `queue.Empty`. */
  function GetNowait<T>(q: Queue<T>): Option<(T, Queue<T>)> {
    if |q.items| == 0 then None else Some((q.items[0], q.(items := q.items[1..])))
  }

  /**
   * The handler's insertion: try `put_nowait`; when the queue is full, `get_nowait`
   * the oldest sample, `put_nowait` again and report one overflow. A failure inside
   * the recovery is swallowed. The flag says whether the overflow counter goes up.
   */
  function PushDropOldest<T>(q: Queue<T>, x: T): (r: (Queue<T>, bool))
    ensures r.0.maxsize == q.maxsize
    ensures !q.Full() ==> r.0.items == q.items + [x] && !r.1
    ensures q.Full() && q.Valid() ==> r.0.items == q.items[1..] + [x] && |r.0.items| == q.maxsize && r.1
    ensures q.Valid() ==> r.0.Valid()
  {
    match PutNowait(q, x)
    case Some(q') => (q', false)
    case None =>
      match GetNowait(q)
      case None => (q, false)
      case Some((_, rest)) =>
        match PutNowait(rest, x)
        case Some(q') => (q', true)
        case None => (rest, false)
  }

  /** Pushes `xs` one after another; the count is how many pushes reported an overflow. */
  function PushAll<T>(q: Queue<T>, xs: seq<T>): (Queue<T>, nat)
    decreases |xs|
  {
    if |xs| == 0 then (q, 0)
    else
      var (q1, dropped) := PushDropOldest(q, xs[0]);
      var (q2, n) := PushAll(q1, xs[1..]);
      (q2, n + if dropped then 1 else 0)
  }

  /** The newest `n` elements of `s` (all of them when there are no more than `n`). */
  function LastN<T>(s: seq<T>, n: nat): (r: seq<T>)
    ensures |r| == if |s| <= n then |s| else n
  {
    if |s| <= n then s else s[|s| - n..]
  }

  lemma LastNDropHead<T>(s: seq<T>, n: nat)
    requires |s| > n
    ensures LastN(s[1..], n) == LastN(s, n)
  {
  }

  function Max0(x: int): nat {
    if x > 0 then x else 0
  }

  /**
   * Pushing into a bounded queue keeps the newest `maxsize` of everything it has
   * seen, in order, and counts one overflow for every element beyond the bound.
   */
  lemma {:induction false} PushAllKeepsNewest<T>(q: Queue<T>, xs: seq<T>)
    requires q.maxsize > 0 && q.Valid()
    ensures PushAll(q, xs).0.items == LastN(q.items + xs, q.maxsize)
    ensures PushAll(q, xs).0.maxsize == q.maxsize
    ensures PushAll(q, xs).1 == Max0(|q.items| + |xs| - q.maxsize)
    decreases |xs|
  {
    if |xs| > 0 {
      var (q1, dropped) := PushDropOldest(q, xs[0]);
      PushAllKeepsNewest(q1, xs[1..]);
      assert xs == [xs[0]] + xs[1..];
      if q.Full() {
        assert q1.items + xs[1..] == (q.items + xs)[1..];
        LastNDropHead(q.items + xs, q.maxsize);
      } else {
        assert q1.items + xs[1..] == q.items + xs;
      }
    }
  }

  /**
   * The headline property of the buffer: after `n` pushes into an empty queue of
   * capacity `C` it holds the last `min(n, C)` samples in push order and the
   * overflow count is `max(0, n - C)`.
   */
  lemma PushAllFromEmpty<T>(capacity: int, xs: seq<T>)
    requires capacity >= 1
    ensures PushAll(EmptyQueue<T>(capacity), xs).0.items == LastN(xs, capacity)
    ensures PushAll(EmptyQueue<T>(capacity), xs).1 == Max0(|xs| - capacity)
  {
    PushAllKeepsNewest(EmptyQueue<T>(capacity), xs);
    assert [] + xs == xs;
  }

  /** With `maxsize <= 0` nothing is ever dropped: the queue just grows. */
  lemma {:induction false} PushAllUnbounded<T>(q: Queue<T>, xs: seq<T>)
    requires q.maxsize <= 0
    ensures PushAll(q, xs).0.items == q.items + xs
    ensures PushAll(q, xs).1 == 0
    decreases |xs|
  {
    if |xs| > 0 {
      PushAllUnbounded(q.(items := q.items + [xs[0]]), xs[1..]);
      assert q.items + [xs[0]] + xs[1..] == q.items + xs;
    }
  }

  /** The numbers `from, from + 1, ..., from + n - 1`. */
  function Numbered(from: nat, n: nat): (r: seq<nat>)
    ensures |r| == n && forall i :: 0 <= i < n ==> r[i] == from + i
  {
    seq(n, i => from + i)
  }

  /**
   * Pushing the numbers `0 .. n-1` into an empty queue of capacity `C` leaves
   * `n - C .. n-1` (or all of them) and `max(0, n - C)` overflows.
   */
  lemma NumberedPushes(capacity: int, n: nat)
    requires capacity >= 1
    ensures var r := PushAll(EmptyQueue<nat>(capacity), Numbered(0, n));
      && r.0.items == Numbered(Max0(n - capacity), if n <= capacity then n else capacity)
      && r.1 == Max0(n - capacity)
  {
    PushAllFromEmpty(capacity, Numbered(0, n));
  }

  /** Ten thousand and five numbered pushes into the default capacity keep samples 5 to 10004. */
  lemma TenThousandAndFive()
    ensures var r := PushAll(EmptyQueue<nat>(10000), Numbered(0, 10005));
      && r.0.items == Numbered(5, 10000)
      && r.1 == 5
  {
    NumberedPushes(10000, 10005);
  }

  /** The consumer's view of a drain: everything queued, oldest first, and an empty queue. */
  function Drain<T>(q: Queue<T>, recorded: seq<T>): (Queue<T>, seq<T>) {
    (q.(items := []), recorded + q.items)
  }

  /**
   * The page's loop `while not q.empty(): recorded.append(q.get_nowait())`
   * (stopping if `get_nowait` raises): every queued element moves, in FIFO order,
   * onto the end of `recorded`, and the queue is left empty with its bound.
   */
  method DrainInto<T>(q: Queue<T>, recorded: seq<T>) returns (q': Queue<T>, recorded': seq<T>)
    ensures recorded' == recorded + q.items
    ensures q'.items == [] && q'.maxsize == q.maxsize
  {
    q', recorded' := q, recorded;
    while |q'.items| > 0
      invariant recorded' + q'.items == recorded + q.items
      invariant q'.maxsize == q.maxsize
      decreases |q'.items|
    {
      match GetNowait(q')
      case None =>
        break;
      case Some((x, rest)) =>
        assert q'.items == [x] + rest.items;
        recorded' := recorded' + [x];
        q' := rest;
    }
  }

  /** Draining after pushes into an empty queue appends the newest `C` pushed samples, in push order. */
  lemma DrainAfterPushes<T>(capacity: int, xs: seq<T>, recorded: seq<T>)
    requires capacity >= 1
    ensures Drain(PushAll(EmptyQueue<T>(capacity), xs).0, recorded).1 == recorded + LastN(xs, capacity)
    ensures Drain(PushAll(EmptyQueue<T>(capacity), xs).0, recorded).0.items == []
  {
    PushAllFromEmpty(capacity, xs);
  }
}
