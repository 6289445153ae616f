/** A bounded deque (`collections.deque(maxlen = n)`) seen as a value: it
    keeps the last `n` elements appended to it, oldest first. */
module Deque {

  function Min(a: int, b: int): int { if a <= b then a else b }

  /** The last `n` elements of `s`, or all of `s` when it is shorter. */
  function Window<T>(s: seq<T>, n: nat): (r: seq<T>)
    ensures |r| == Min(|s|, n)
  {
    if |s| <= n then s else s[|s| - n..]
  }

  /** `append(x)` on a deque holding `buf` with capacity `maxlen`: when the
      deque is full its oldest element is dropped (and a deque of capacity
      0 stays empty). */
  function Append<T>(buf: seq<T>, x: T, maxlen: nat): (r: seq<T>)
    requires |buf| <= maxlen
    ensures r == Window(buf + [x], maxlen)
    ensures |r| <= maxlen && (maxlen > 0 ==> r[|r| - 1] == x)
  {
    if maxlen == 0 then []
    else if |buf| < maxlen then buf + [x]
    else buf[1..] + [x]
  }

  /** Appending `xs` one at a time, front first. */
  function AppendAll<T>(buf: seq<T>, xs: seq<T>, maxlen: nat): (r: seq<T>)
    requires |buf| <= maxlen
    ensures |r| <= maxlen
    decreases |xs|
  {
    if xs == [] then buf else AppendAll(Append(buf, xs[0], maxlen), xs[1..], maxlen)
  }

  /** Cutting a window early loses nothing that a later window would keep. */
  lemma WindowOfWindow<T>(s: seq<T>, t: seq<T>, n: nat)
    ensures Window(Window(s, n) + t, n) == Window(s + t, n)
  {
    var w := Window(s, n);
    var a, b := Window(w + t, n), Window(s + t, n);
    assert |a| == |b|;
    forall i | 0 <= i < |a|
      ensures a[i] == b[i]
    {
      var j := |w + t| - |a| + i;
      var k := |s + t| - |b| + i;
      if j < |w| {
        assert a[i] == w[j] == s[|s| - |w| + j];
        assert k == |s| - |w| + j;
      } else {
        assert a[i] == t[j - |w|] == (s + t)[k];
      }
    }
  }

  /** A deque that receives `xs` holds the last `maxlen` elements of
      everything it has seen, in arrival order. */
  lemma {:induction false} AppendAllIsWindow<T>(buf: seq<T>, xs: seq<T>, maxlen: nat)
    requires |buf| <= maxlen
    ensures AppendAll(buf, xs, maxlen) == Window(buf + xs, maxlen)
    decreases |xs|
  {
    if xs == [] {
      assert buf + xs == buf;
    } else {
      var next := Append(buf, xs[0], maxlen);
      calc {
        AppendAll(buf, xs, maxlen);
        AppendAll(next, xs[1..], maxlen);
        { AppendAllIsWindow(next, xs[1..], maxlen); }
        Window(Window(buf + [xs[0]], maxlen) + xs[1..], maxlen);
        { WindowOfWindow(buf + [xs[0]], xs[1..], maxlen); }
        Window(buf + [xs[0]] + xs[1..], maxlen);
        { assert buf + [xs[0]] + xs[1..] == buf + xs; }
        Window(buf + xs, maxlen);
      }
    }
  }
}
