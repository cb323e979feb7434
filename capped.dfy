/**
 * Python's `collections.deque(maxlen=cap)`, the bounded FIFO behind every
 * sample buffer and level history of the visualizer. A deque is a value here:
 * the visualizer stores each one in a field and replaces it after each update.
 */
module Capped {
  import opened Wrappers

  /** The newest `cap` items of `s` (all of `s` when it is shorter), oldest first. */
  function Keep<T>(s: seq<T>, cap: nat): (r: seq<T>)
    ensures |r| == Min(|s|, cap)
    ensures r == s[|s| - |r|..]
  {
    if |s| <= cap then s else s[|s| - cap..]
  }

  /** Keeping from any suffix of `v` that is at least as long as the kept part gives the same result. */
  lemma KeepOfLongSuffix<T>(u: seq<T>, v: seq<T>, cap: nat)
    requires |u| <= |v| && u == v[|v| - |u|..]
    requires Min(|v|, cap) <= |u|
    ensures Keep(u, cap) == Keep(v, cap)
  {
    var a, b := Keep(u, cap), Keep(v, cap);
    assert |a| == |b|;
    forall k | 0 <= k < |a| ensures a[k] == b[k] {
      assert a[k] == u[|u| - |a| + k];
      assert b[k] == v[|v| - |b| + k];
    }
  }

  /** Trimming before an extension and trimming after it agree: a deque may evict eagerly. */
  lemma KeepConcat<T>(s: seq<T>, t: seq<T>, cap: nat)
    ensures Keep(Keep(s, cap) + t, cap) == Keep(s + t, cap)
  {
    var k := Keep(s, cap);
    assert (s + t)[|s + t| - |k + t|..] == k + t;
    KeepOfLongSuffix(k + t, s + t, cap);
  }

  /** Keeping twice, the second time with a capacity no larger, is keeping once. */
  lemma KeepKeep<T>(s: seq<T>, c1: nat, c2: nat)
    requires c2 <= c1
    ensures Keep(Keep(s, c1), c2) == Keep(s, c2)
  {
    KeepOfLongSuffix(Keep(s, c1), s, c2);
  }

  /** A deque with its maximum length; `Valid` is the bound Python enforces. */
  datatype Deque<T> = Deque(items: seq<T>, maxlen: nat) {
    predicate Valid() { |items| <= maxlen }
  }

  function Empty<T>(maxlen: nat): (d: Deque<T>)
    ensures d.Valid() && d.items == [] && d.maxlen == maxlen
  {
    Deque([], maxlen)
  }

  /** `deque.append(x)`: evict the oldest item first when the deque is full. */
  function Append<T>(d: Deque<T>, x: T): (r: Deque<T>)
    requires d.Valid()
    ensures r.Valid() && r.maxlen == d.maxlen
    ensures r.items == Keep(d.items + [x], d.maxlen)
  {
    if d.maxlen == 0 then d
    else if |d.items| == d.maxlen then Deque(d.items[1..] + [x], d.maxlen)
    else Deque(d.items + [x], d.maxlen)
  }

  /** The deque after `deque.extend(xs)`: the newest `maxlen` items of old contents followed by `xs`. */
  function Extended<T>(d: Deque<T>, xs: seq<T>): Deque<T>
  {
    Deque(Keep(d.items + xs, d.maxlen), d.maxlen)
  }

  /** `deque.extend(xs)`: append the items one by one, in order. */
  method Extend<T>(d: Deque<T>, xs: seq<T>) returns (r: Deque<T>)
    requires d.Valid()
    ensures r.Valid() && r.maxlen == d.maxlen
    ensures r.items == Keep(d.items + xs, d.maxlen)
  {
    r := d;
    for i := 0 to |xs|
      invariant r.Valid() && r.maxlen == d.maxlen
      invariant r.items == Keep(d.items + xs[..i], d.maxlen)
    {
      KeepConcat(d.items + xs[..i], [xs[i]], d.maxlen);
      assert d.items + xs[..i + 1] == (d.items + xs[..i]) + [xs[i]];
      r := Append(r, xs[i]);
    }
    assert xs[..|xs|] == xs;
  }

  /** Two extensions in a row are one extension by the concatenation: arrival order is kept. */
  lemma ExtendedTwice<T>(d: Deque<T>, a: seq<T>, b: seq<T>)
    ensures Extended(Extended(d, a), b) == Extended(d, a + b)
  {
    KeepConcat(d.items + a, b, d.maxlen);
    assert d.items + a + b == d.items + (a + b);
  }

  /** `deque(list(d), maxlen=cap)`: the same items under a new bound, newest kept. */
  function Resized<T>(d: Deque<T>, cap: nat): (r: Deque<T>)
    ensures r.Valid() && r.maxlen == cap
    ensures |r.items| == Min(|d.items|, cap)
    ensures r.items == d.items[|d.items| - |r.items|..]
  {
    Deque(Keep(d.items, cap), cap)
  }
}
