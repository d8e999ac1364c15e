/** What deleting elements leaves of a sequence. */
module Subsequence {

  /** `a` is `b` with some elements left out. */
  predicate IsSub<T(==)>(a: seq<T>, b: seq<T>)
    decreases |b|
  {
    if a == [] then true
    else if b == [] then false
    else
      || (a[|a| - 1] == b[|b| - 1] && IsSub(a[..|a| - 1], b[..|b| - 1]))
      || IsSub(a, b[..|b| - 1])
  }

  lemma {:induction false} SubRefl<T>(a: seq<T>)
    ensures IsSub(a, a)
    decreases |a|
  {
    if a != [] {
      SubRefl(a[..|a| - 1]);
    }
  }

  /** Nothing was left out exactly when the lengths agree. */
  lemma {:induction false} SubLength<T>(a: seq<T>, b: seq<T>)
    requires IsSub(a, b)
    ensures |a| <= |b| && (|a| == |b| <==> a == b)
    decreases |b|
  {
    if a != [] {
      if a[|a| - 1] == b[|b| - 1] && IsSub(a[..|a| - 1], b[..|b| - 1]) {
        SubLength(a[..|a| - 1], b[..|b| - 1]);
        assert a == a[..|a| - 1] + [a[|a| - 1]] && b == b[..|b| - 1] + [b[|b| - 1]];
      } else {
        SubLength(a, b[..|b| - 1]);
      }
    }
  }

  lemma {:induction false} SubAppend<T>(a: seq<T>, b: seq<T>, c: seq<T>)
    requires IsSub(a, b)
    ensures IsSub(a + c, b + c)
    decreases |c|
  {
    if c == [] {
      assert a + c == a && b + c == b;
    } else {
      SubAppend(a, b, c[..|c| - 1]);
      assert (a + c)[..|a + c| - 1] == a + c[..|c| - 1];
      assert (b + c)[..|b + c| - 1] == b + c[..|c| - 1];
    }
  }

  lemma {:induction false} SubExtend<T>(a: seq<T>, b: seq<T>, c: seq<T>)
    requires IsSub(a, b)
    ensures IsSub(a, b + c)
    decreases |c|
  {
    if c == [] {
      assert b + c == b;
    } else {
      SubExtend(a, b, c[..|c| - 1]);
      assert (b + c)[..|b + c| - 1] == b + c[..|c| - 1];
    }
  }

  lemma {:induction false} SubTrans<T>(a: seq<T>, b: seq<T>, c: seq<T>)
    requires IsSub(a, b) && IsSub(b, c)
    ensures IsSub(a, c)
    decreases |c|
  {
    if a != [] {
      var cc := c[..|c| - 1];
      if b[|b| - 1] == c[|c| - 1] && IsSub(b[..|b| - 1], cc) {
        if a[|a| - 1] == b[|b| - 1] && IsSub(a[..|a| - 1], b[..|b| - 1]) {
          SubTrans(a[..|a| - 1], b[..|b| - 1], cc);
        } else {
          SubTrans(a, b[..|b| - 1], cc);
        }
      } else {
        SubTrans(a, b, cc);
      }
    }
  }

  /** Leaving out a piece in the middle. */
  lemma SubSkip<T>(x: seq<T>, y: seq<T>, z: seq<T>)
    ensures IsSub(x + z, x + y + z)
  {
    SubRefl(x);
    SubExtend(x, x, y);
    SubAppend(x, x + y, z);
  }

  lemma {:induction false} SubPrepend<T>(p: seq<T>, a: seq<T>, b: seq<T>)
    requires IsSub(a, b)
    ensures IsSub(p + a, p + b)
    decreases |b|
  {
    if a == [] {
      SubRefl(p);
      SubExtend(p, p, b);
      assert p + a == p;
    } else {
      assert (p + a)[..|p + a| - 1] == p + a[..|a| - 1];
      assert (p + b)[..|p + b| - 1] == p + b[..|b| - 1];
      if a[|a| - 1] == b[|b| - 1] && IsSub(a[..|a| - 1], b[..|b| - 1]) {
        SubPrepend(p, a[..|a| - 1], b[..|b| - 1]);
      } else {
        SubPrepend(p, a, b[..|b| - 1]);
      }
    }
  }
}
