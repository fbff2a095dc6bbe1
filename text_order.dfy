/**
 * The order in which JavaScript's default `Array.prototype.sort` arranges
 * strings: character by character from the left, a proper prefix before any
 * longer string that extends it.
 */
module TextOrder {

  /** `a` sorts strictly before `b`. */
  predicate Below(a: string, b: string)
  {
    if a == [] then b != []
    else if b == [] then false
    else if a[0] != b[0] then a[0] < b[0]
    else Below(a[1..], b[1..])
  }

  /** `a` sorts before `b` or is equal to it. */
  predicate AtMost(a: string, b: string)
  {
    a == b || Below(a, b)
  }

  lemma {:induction false} BelowIrreflexive(a: string)
    ensures !Below(a, a)
  {
    if a != [] {
      BelowIrreflexive(a[1..]);
    }
  }

  lemma {:induction false} BelowTransitive(a: string, b: string, c: string)
    requires Below(a, b) && Below(b, c)
    ensures Below(a, c)
  {
    if a != [] && b != [] && c != [] && a[0] == b[0] && b[0] == c[0] {
      BelowTransitive(a[1..], b[1..], c[1..]);
    }
  }

  /** Two different strings are always ordered one way or the other. */
  lemma {:induction false} BelowTotal(a: string, b: string)
    requires a != b
    ensures Below(a, b) || Below(b, a)
  {
    if a != [] && b != [] && a[0] == b[0] {
      assert a == [a[0]] + a[1..] && b == [b[0]] + b[1..];
      BelowTotal(a[1..], b[1..]);
    }
  }

  lemma BelowAsymmetric(a: string, b: string)
    requires Below(a, b)
    ensures !Below(b, a)
  {
    if Below(b, a) {
      BelowTransitive(a, b, a);
      BelowIrreflexive(a);
    }
  }

  lemma AtMostTransitive(a: string, b: string, c: string)
    requires AtMost(a, b) && AtMost(b, c)
    ensures AtMost(a, c)
  {
    if a != b && b != c {
      BelowTransitive(a, b, c);
    }
  }

  /** Every character of `s` sorts after `sep`. */
  predicate AllAbove(s: string, sep: char)
  {
    forall i :: 0 <= i < |s| ==> sep < s[i]
  }

  /**
   * Appending a tail that starts with `sep` to two different strings whose
   * characters all sort after `sep` keeps their order: the separator of the
   * shorter one meets a larger character of the longer one.
   */
  lemma {:induction false} BelowKeptBySeparator(a: string, b: string, sep: char, s: string, t: string)
    requires a != b && AllAbove(a, sep) && AllAbove(b, sep)
    ensures Below(a + [sep] + s, b + [sep] + t) <==> Below(a, b)
  {
    var x, y := a + [sep] + s, b + [sep] + t;
    if a == [] {
      assert x[0] == sep && y[0] == b[0];
    } else if b == [] {
      assert x[0] == a[0] && y[0] == sep;
    } else if a[0] != b[0] {
      assert x[0] == a[0] && y[0] == b[0];
    } else {
      assert x[1..] == a[1..] + [sep] + s;
      assert y[1..] == b[1..] + [sep] + t;
      BelowKeptBySeparator(a[1..], b[1..], sep, s, t);
    }
  }
}
