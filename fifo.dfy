/**
 * The drop-on-full discipline the plugin applies to every `dsp::RingBuffer`
 * it fills: the producer first asks `full()` and pushes only when there is
 * room, so an element offered to a full buffer is silently lost.  The
 * buffers are modelled by their contents, oldest first.
 */
module Fifo {

  /** Offer `x` to a buffer of capacity `cap` holding `q`. */
  function Offer<T>(q: seq<T>, x: T, cap: nat): (r: seq<T>)
    ensures |q| < cap ==> r == q + [x]
    ensures |q| >= cap ==> r == q
  {
    if |q| < cap then q + [x] else q
  }

  /** Offer every element of `xs` in turn. */
  function OfferAll<T>(q: seq<T>, xs: seq<T>, cap: nat): seq<T>
    decreases |xs|
  {
    if xs == [] then q else OfferAll(Offer(q, xs[0], cap), xs[1..], cap)
  }

  function Min(a: int, b: int): int {
    if a <= b then a else b
  }

  /**
   * Offering a batch to a buffer with room for `cap - |q|` more keeps exactly
   * the first `cap - |q|` elements of the batch, in order, and drops the rest.
   */
  lemma {:induction false} OfferAllKeepsPrefix<T>(q: seq<T>, xs: seq<T>, cap: nat)
    requires |q| <= cap
    ensures OfferAll(q, xs, cap) == q + xs[..Min(|xs|, cap - |q|)]
    decreases |xs|
  {
    if xs != [] {
      var q' := Offer(q, xs[0], cap);
      OfferAllKeepsPrefix(q', xs[1..], cap);
      if |q| < cap {
        assert q' == q + [xs[0]];
        assert xs[1..][..Min(|xs| - 1, cap - |q| - 1)] == xs[1..Min(|xs|, cap - |q|)];
        assert [xs[0]] + xs[1..Min(|xs|, cap - |q|)] == xs[..Min(|xs|, cap - |q|)];
      } else {
        assert xs[1..][..0] == [];
      }
    }
  }

  /** A buffer never grows past its capacity. */
  lemma {:induction false} OfferAllBounded<T>(q: seq<T>, xs: seq<T>, cap: nat)
    requires |q| <= cap
    ensures |OfferAll(q, xs, cap)| <= cap
  {
    OfferAllKeepsPrefix(q, xs, cap);
  }
}
