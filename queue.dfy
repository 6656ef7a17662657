/**
 * The command queue of BitRate.py seen as a value: a FIFO of command texts in
 * which None is the sentinel that stops the worker. These functions say what
 * the worker takes from a queue: the texts before the first sentinel, in
 * order, and what stays behind after it.
 */
module CommandQueue {
  import opened Wrappers

  /** A queue item: a command text, or None, the sentinel. */
  type Item = Option<string>

  /** How many sentinels `q` holds. */
  function SentinelCount(q: seq<Item>): nat {
    multiset(q)[None]
  }

  /** The commands the worker processes from `q`: the texts before the first sentinel, in order. */
  function UntilSentinel(q: seq<Item>): (r: seq<string>)
    ensures |r| <= |q|
    ensures forall i :: 0 <= i < |r| ==> q[i] == Some(r[i])
    ensures |r| < |q| ==> q[|r|] == None
    ensures None !in q ==> |r| == |q|
    decreases |q|
  {
    if q == [] || q[0].None? then [] else [q[0].value] + UntilSentinel(q[1..])
  }

  /** What remains of `q` once the worker has taken its first sentinel; empty when there is none. */
  function AfterSentinel(q: seq<Item>): (r: seq<Item>)
    ensures None in q ==> r == q[|UntilSentinel(q)| + 1..]
    ensures None !in q ==> r == []
    decreases |q|
  {
    if q == [] then [] else if q[0].None? then q[1..] else AfterSentinel(q[1..])
  }

  /** FIFO: the texts of a sentinel-free queue come out before anything queued behind them. */
  lemma {:induction false} UntilSentinelAppend(p: seq<Item>, rest: seq<Item>)
    requires None !in p
    ensures UntilSentinel(p + rest) == UntilSentinel(p) + UntilSentinel(rest)
    ensures AfterSentinel(p + rest) == AfterSentinel(rest)
    decreases |p|
  {
    if p != [] {
      assert (p + rest)[1..] == p[1..] + rest;
      UntilSentinelAppend(p[1..], rest);
    } else {
      assert p + rest == rest;
    }
  }

  /** Nothing queued behind a sentinel is ever processed; it is all left behind. */
  lemma SentinelCutsOff(p: seq<Item>, rest: seq<Item>)
    requires None !in p
    ensures UntilSentinel(p + [None] + rest) == UntilSentinel(p)
    ensures AfterSentinel(p + [None] + rest) == rest
  {
    assert p + [None] + rest == p + ([None] + rest);
    UntilSentinelAppend(p, [None] + rest);
  }

  /** Taking a command off the head of the queue: it is the first one processed, and the rest is unchanged. */
  lemma TakeCommand(q: seq<Item>, t: string)
    requires q != [] && q[0] == Some(t)
    ensures UntilSentinel(q) == [t] + UntilSentinel(q[1..])
    ensures AfterSentinel(q) == AfterSentinel(q[1..])
    ensures SentinelCount(q) == SentinelCount(q[1..])
  {
    assert q == [q[0]] + q[1..];
  }

  /** Taking the sentinel off the head of the queue: nothing is processed and the rest stays. */
  lemma TakeSentinel(q: seq<Item>)
    requires q != [] && q[0] == None
    ensures UntilSentinel(q) == [] && AfterSentinel(q) == q[1..]
    ensures SentinelCount(q) == SentinelCount(q[1..]) + 1
  {
    assert q == [q[0]] + q[1..];
  }
}
