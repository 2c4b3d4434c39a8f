/** The handler decorator factory of web/middlewares/Middleware.py. A handler
    is any value of type H and a middleware a function from handlers to
    handlers. */
module Middleware {

  /** The handler that `middleware(*ms)` makes of `h`: the first listed
      middleware is the outermost wrapper. */
  function Compose<H>(ms: seq<H -> H>, h: H): H
    decreases |ms|
  {
    if ms == [] then h else ms[0](Compose(ms[1..], h))
  }

  /** The decorator's loop: walks the middlewares from last to first, each
      wrapping the handler built so far. */
  method Decorate<H>(ms: seq<H -> H>, handler: H) returns (current: H)
    ensures current == Compose(ms, handler)
  {
    current := handler;
    var i := |ms|;
    while i > 0
      invariant 0 <= i <= |ms|
      invariant current == Compose(ms[i..], handler)
    {
      i := i - 1;
      assert ms[i..][1..] == ms[i + 1..];
      current := ms[i](current);
    }
  }

  /** No middleware leaves the handler as it is. */
  lemma ComposeNone<H>(h: H)
    ensures Compose([], h) == h
  {
  }

  /** One middleware is simply applied to the handler. */
  lemma ComposeOne<H>(m: H -> H, h: H)
    ensures Compose([m], h) == m(h)
  {
    assert [m][1..] == [];
  }

  /** Decorating with a + b is decorating with b, then with a around it. */
  lemma {:induction false} ComposeAppend<H>(a: seq<H -> H>, b: seq<H -> H>, h: H)
    ensures Compose(a + b, h) == Compose(a, Compose(b, h))
    decreases |a|
  {
    if a == [] {
      assert a + b == b;
    } else {
      assert (a + b)[1..] == a[1..] + b;
      ComposeAppend(a[1..], b, h);
    }
  }

  /** A middleware that records its tag in front of the trace it wraps. */
  function Recorder<L>(tag: L): seq<L> -> seq<L> {
    (t: seq<L>) => [tag] + t
  }

  function Recorders<L>(labels: seq<L>): (ms: seq<seq<L> -> seq<L>>)
    ensures |ms| == |labels|
    ensures forall k :: 0 <= k < |labels| ==> ms[k] == Recorder(labels[k])
  {
    seq(|labels|, k requires 0 <= k < |labels| => Recorder(labels[k]))
  }

  /** Each listed middleware wraps the handler exactly once, in list order
      from the outside in: recording middlewares leave their labels once
      each, first tag outermost. */
  lemma {:induction false} EachAppliedOnceInOrder<L>(labels: seq<L>, t: seq<L>)
    ensures Compose(Recorders(labels), t) == labels + t
    decreases |labels|
  {
    if labels != [] {
      assert Recorders(labels)[1..] == Recorders(labels[1..]);
      EachAppliedOnceInOrder(labels[1..], t);
      assert labels + t == [labels[0]] + (labels[1..] + t);
    }
  }
}
