/**
 * The order in which the table keeps and scans its row keys: strings are
 * compared character by character, and a proper prefix sorts before every
 * extension of it.
 */
module Lexicographic {

  /** Strict lexicographic order: `a` sorts strictly before `b`. */
  predicate Below(a: string, b: string)
    decreases |a|
  {
    |b| > 0 && (|a| == 0 || a[0] < b[0] || (a[0] == b[0] && Below(a[1..], b[1..])))
  }

  lemma {:induction false} BelowIrreflexive(a: string)
    ensures !Below(a, a)
    decreases |a|
  {
    if |a| > 0 {
      BelowIrreflexive(a[1..]);
    }
  }

  lemma {:induction false} BelowTransitive(a: string, b: string, c: string)
    requires Below(a, b) && Below(b, c)
    ensures Below(a, c)
    decreases |a|
  {
    if |a| > 0 && a[0] == b[0] && b[0] == c[0] {
      BelowTransitive(a[1..], b[1..], c[1..]);
    }
  }

  lemma {:induction false} BelowTotal(a: string, b: string)
    requires a != b
    ensures Below(a, b) || Below(b, a)
    decreases |a|
  {
    if |a| > 0 && |b| > 0 && a[0] == b[0] {
      assert a == [a[0]] + a[1..] && b == [b[0]] + b[1..];
      BelowTotal(a[1..], b[1..]);
    }
  }

  /** Keys at or after `s` stay at or after `s` further up the order. */
  lemma AtOrAfterUpward(a: string, b: string, s: string)
    requires !Below(a, s) && Below(a, b)
    ensures !Below(b, s)
  {
    if Below(b, s) {
      BelowTransitive(a, b, s);
    }
  }

  /** A common prefix does not change how two strings compare. */
  lemma {:induction false} CommonPrefixKeepsOrder(p: string, a: string, b: string)
    ensures Below(p + a, p + b) <==> Below(a, b)
    decreases |p|
  {
    if |p| > 0 {
      assert (p + a)[1..] == p[1..] + a;
      assert (p + b)[1..] == p[1..] + b;
      CommonPrefixKeepsOrder(p[1..], a, b);
    } else {
      assert p + a == a && p + b == b;
    }
  }

  /**
   * The strings that start with `p` form one contiguous block of the order:
   * anything between two of them starts with `p` too.
   */
  lemma {:induction false} PrefixBlockContiguous(p: string, x: string, y: string, z: string)
    requires p <= x && p <= z
    requires !Below(y, x) && !Below(z, y)
    ensures p <= y
    decreases |p|
  {
    if |p| > 0 {
      assert x[0] == p[0] && z[0] == p[0];
      assert |y| > 0 && y[0] == p[0];
      assert p[1..] <= x[1..] && p[1..] <= z[1..];
      PrefixBlockContiguous(p[1..], x[1..], y[1..], z[1..]);
      assert y == [y[0]] + y[1..];
    }
  }

}
