/** Keeping the values a partial reading gives, as the import loops that push
    only what parses do. */
module Seqs {
  import opened Wrappers

  /** What `f` gives for one element: its value, or nothing. */
  function Kept<T, U>(x: T, f: T -> Option<U>): (r: seq<U>)
    ensures |r| <= 1
  {
    if f(x).Some? then [f(x).value] else []
  }

  /** The values `f` gives for the elements of `xs`, in order, skipping the
      elements it gives none for. */
  function Keep<T, U>(xs: seq<T>, f: T -> Option<U>): (r: seq<U>)
    ensures |r| <= |xs|
  {
    if xs == [] then [] else Keep(xs[..|xs| - 1], f) + Kept(xs[|xs| - 1], f)
  }

  /** One more element read extends what was kept by what it gives. */
  lemma KeepStep<T, U>(xs: seq<T>, i: nat, f: T -> Option<U>)
    requires i < |xs|
    ensures Keep(xs[..i + 1], f) == Keep(xs[..i], f) + Kept(xs[i], f)
  {
    assert xs[..i + 1][..i] == xs[..i];
  }

  /** Keeping the elements of `xs` and then `x`. */
  lemma KeepSnoc<T, U>(xs: seq<T>, x: T, f: T -> Option<U>)
    ensures Keep(xs + [x], f) == Keep(xs, f) + Kept(x, f)
  {
    assert (xs + [x])[..|xs|] == xs;
  }

  lemma Snoc<T>(b: seq<T>)
    requires b != []
    ensures b == b[..|b| - 1] + [b[|b| - 1]]
  {
  }

  /** Keeping distributes over concatenation, so the input order is kept. */
  lemma {:induction false} KeepAppend<T, U>(a: seq<T>, b: seq<T>, f: T -> Option<U>)
    ensures Keep(a + b, f) == Keep(a, f) + Keep(b, f)
    decreases |b|
  {
    if b == [] {
      assert a + b == a;
    } else {
      var b', x := b[..|b| - 1], b[|b| - 1];
      Snoc(b);
      calc {
        Keep(a + b, f);
        { assert a + b == (a + b') + [x]; KeepSnoc(a + b', x, f); }
        Keep(a + b', f) + Kept(x, f);
        { KeepAppend(a, b', f); }
        (Keep(a, f) + Keep(b', f)) + Kept(x, f);
        Keep(a, f) + (Keep(b', f) + Kept(x, f));
        { KeepSnoc(b', x, f); }
        Keep(a, f) + Keep(b, f);
      }
    }
  }

  /** A single element gives what `f` gives for it. */
  lemma KeepOne<T, U>(x: T, f: T -> Option<U>)
    ensures Keep([x], f) == Kept(x, f)
  {
    assert [x][..0] == [];
  }

  /** Three elements give what `f` gives for each, in order. */
  lemma KeepThree<T, U>(x0: T, x1: T, x2: T, f: T -> Option<U>)
    ensures Keep([x0, x1, x2], f) == Kept(x0, f) + Kept(x1, f) + Kept(x2, f)
  {
    calc {
      Keep([x0, x1, x2], f);
      { assert [x0, x1, x2] == [x0, x1] + [x2]; KeepSnoc([x0, x1], x2, f); }
      Keep([x0, x1], f) + Kept(x2, f);
      { assert [x0, x1] == [x0] + [x1]; KeepSnoc([x0], x1, f); KeepOne(x0, f); }
      Kept(x0, f) + Kept(x1, f) + Kept(x2, f);
    }
  }
}
