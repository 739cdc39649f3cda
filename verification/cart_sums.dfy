/**
 Exact sums over a cart (the `Array.prototype.reduce` calls of src/hooks/useCart.ts)
 and how they behave under concatenation, point updates and filtering.
 */
module CartSums {
  import opened SalesTypes
  import Seqs

  /** Integer sum of `f` over the lines of a cart. */
  function SumInt(s: seq<CartItem>, f: CartItem -> int): int
    decreases |s|
  {
    if s == [] then 0 else f(s[0]) + SumInt(s[1..], f)
  }

  /** Exact real sum of `f` over the lines of a cart. */
  function SumReal(s: seq<CartItem>, f: CartItem -> real): real
    decreases |s|
  {
    if s == [] then 0.0 else f(s[0]) + SumReal(s[1..], f)
  }

  lemma {:induction false} SumIntAppend(a: seq<CartItem>, b: seq<CartItem>, f: CartItem -> int)
    ensures SumInt(a + b, f) == SumInt(a, f) + SumInt(b, f)
    decreases |a|
  {
    if a == [] {
      assert a + b == b;
    } else {
      assert (a + b)[1..] == a[1..] + b;
      SumIntAppend(a[1..], b, f);
    }
  }

  lemma {:induction false} SumRealAppend(a: seq<CartItem>, b: seq<CartItem>, f: CartItem -> real)
    ensures SumReal(a + b, f) == SumReal(a, f) + SumReal(b, f)
    decreases |a|
  {
    if a == [] {
      assert a + b == b;
    } else {
      assert (a + b)[1..] == a[1..] + b;
      SumRealAppend(a[1..], b, f);
    }
  }

  /** Replacing the line at `i` changes an integer sum by the difference of the two lines. */
  lemma SumIntUpdate(s: seq<CartItem>, i: int, x: CartItem, f: CartItem -> int)
    requires 0 <= i < |s|
    ensures SumInt(s[i := x], f) == SumInt(s, f) - f(s[i]) + f(x)
  {
    var pre, post := s[..i], s[i + 1..];
    var mid, mid' := [s[i]] + post, [x] + post;
    assert s == pre + mid;
    assert s[i := x] == pre + mid';
    assert SumInt(mid, f) == f(s[i]) + SumInt(post, f) by {
      assert mid[0] == s[i] && mid[1..] == post;
    }
    assert SumInt(mid', f) == f(x) + SumInt(post, f) by {
      assert mid'[0] == x && mid'[1..] == post;
    }
    SumIntAppend(pre, mid, f);
    SumIntAppend(pre, mid', f);
  }

  /** Replacing the line at `i` changes a real sum by the difference of the two lines. */
  lemma SumRealUpdate(s: seq<CartItem>, i: int, x: CartItem, f: CartItem -> real)
    requires 0 <= i < |s|
    ensures SumReal(s[i := x], f) == SumReal(s, f) - f(s[i]) + f(x)
  {
    var pre, post := s[..i], s[i + 1..];
    var mid, mid' := [s[i]] + post, [x] + post;
    assert s == pre + mid;
    assert s[i := x] == pre + mid';
    assert SumReal(mid, f) == f(s[i]) + SumReal(post, f) by {
      assert mid[0] == s[i] && mid[1..] == post;
    }
    assert SumReal(mid', f) == f(x) + SumReal(post, f) by {
      assert mid'[0] == x && mid'[1..] == post;
    }
    SumRealAppend(pre, mid, f);
    SumRealAppend(pre, mid', f);
  }

  /** Deleting the line at `i` lowers an integer sum by that line's value. */
  lemma SumIntDelete(s: seq<CartItem>, i: int, f: CartItem -> int)
    requires 0 <= i < |s|
    ensures SumInt(s[..i] + s[i + 1..], f) == SumInt(s, f) - f(s[i])
  {
    var pre, post := s[..i], s[i + 1..];
    var mid := [s[i]] + post;
    assert s == pre + mid;
    assert SumInt(mid, f) == f(s[i]) + SumInt(post, f) by {
      assert mid[0] == s[i] && mid[1..] == post;
    }
    SumIntAppend(pre, mid, f);
    SumIntAppend(pre, post, f);
  }

  /** Deleting the line at `i` lowers a real sum by that line's value. */
  lemma SumRealDelete(s: seq<CartItem>, i: int, f: CartItem -> real)
    requires 0 <= i < |s|
    ensures SumReal(s[..i] + s[i + 1..], f) == SumReal(s, f) - f(s[i])
  {
    var pre, post := s[..i], s[i + 1..];
    var mid := [s[i]] + post;
    assert s == pre + mid;
    assert SumReal(mid, f) == f(s[i]) + SumReal(post, f) by {
      assert mid[0] == s[i] && mid[1..] == post;
    }
    SumRealAppend(pre, mid, f);
    SumRealAppend(pre, post, f);
  }

  /** Filtering out only lines on which `f` is zero leaves the sum unchanged. */
  lemma {:induction false} SumIntFilterDropsZeros(s: seq<CartItem>, keep: CartItem -> bool, f: CartItem -> int)
    requires forall i :: 0 <= i < |s| && !keep(s[i]) ==> f(s[i]) == 0
    ensures SumInt(Seqs.Filter(s, keep), f) == SumInt(s, f)
    decreases |s|
  {
    if s != [] {
      SumIntFilterDropsZeros(s[1..], keep, f);
      var rest := Seqs.Filter(s[1..], keep);
      if keep(s[0]) {
        assert Seqs.Filter(s, keep) == [s[0]] + rest;
        assert ([s[0]] + rest)[1..] == rest;
        assert SumInt([s[0]] + rest, f) == f(s[0]) + SumInt(rest, f);
      } else {
        assert Seqs.Filter(s, keep) == rest;
      }
    }
  }

  /** A sum of a function that is zero on every line is zero. */
  lemma {:induction false} SumIntAllZero(s: seq<CartItem>, f: CartItem -> int)
    requires forall i :: 0 <= i < |s| ==> f(s[i]) == 0
    ensures SumInt(s, f) == 0
    decreases |s|
  {
    if s != [] {
      SumIntAllZero(s[1..], f);
    }
  }

  /** A sum of non-negative terms is non-negative. */
  lemma {:induction false} SumRealNonNegative(s: seq<CartItem>, f: CartItem -> real)
    requires forall i :: 0 <= i < |s| ==> f(s[i]) >= 0.0
    ensures SumReal(s, f) >= 0.0
    decreases |s|
  {
    if s != [] {
      SumRealNonNegative(s[1..], f);
    }
  }

  /** A sum of terms that are each at least 1 is at least the number of terms. */
  lemma {:induction false} SumIntAtLeastLength(s: seq<CartItem>, f: CartItem -> int)
    requires forall i :: 0 <= i < |s| ==> f(s[i]) >= 1
    ensures SumInt(s, f) >= |s|
    decreases |s|
  {
    if s != [] {
      SumIntAtLeastLength(s[1..], f);
    }
  }
}
