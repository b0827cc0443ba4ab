/**
 * The order Rust's `Ord` gives `String`: lexicographic, position by position,
 * with a proper prefix before its extensions. Rust compares the UTF-8 bytes;
 * comparing code points instead gives the same answer, because UTF-8 encoding
 * preserves code-point order.
 */
module StringOrder {

  /** `a < b` on strings. */
  predicate Less(a: string, b: string)
    decreases |a|
  {
    if |a| == 0 then |b| > 0
    else if |b| == 0 then false
    else if a[0] != b[0] then a[0] < b[0]
    else Less(a[1..], b[1..])
  }

  /**
   * Reference definition: `a` and `b` agree on their first `k` characters,
   * and position `k` is where `a` runs out first or holds the smaller character.
   */
  ghost predicate FirstDifferenceAt(a: string, b: string, k: nat) {
    && k <= |a| && k <= |b|
    && a[..k] == b[..k]
    && ((k == |a| && k < |b|) || (k < |a| && k < |b| && a[k] < b[k]))
  }

  ghost predicate LessByDifference(a: string, b: string) {
    exists k: nat :: FirstDifferenceAt(a, b, k)
  }

  lemma {:induction false} LessSound(a: string, b: string)
    requires Less(a, b)
    ensures LessByDifference(a, b)
    decreases |a|
  {
    if |a| == 0 || a[0] != b[0] {
      assert FirstDifferenceAt(a, b, 0);
    } else {
      LessSound(a[1..], b[1..]);
      var k: nat :| FirstDifferenceAt(a[1..], b[1..], k);
      assert a[..k + 1] == [a[0]] + a[1..][..k];
      assert b[..k + 1] == [b[0]] + b[1..][..k];
      assert FirstDifferenceAt(a, b, k + 1);
    }
  }

  lemma {:induction false} LessComplete(a: string, b: string, k: nat)
    requires FirstDifferenceAt(a, b, k)
    ensures Less(a, b)
    decreases k
  {
    if k > 0 {
      assert a[0] == a[..k][0] == b[..k][0] == b[0];
      assert a[1..][..k - 1] == a[..k][1..];
      assert b[1..][..k - 1] == b[..k][1..];
      LessComplete(a[1..], b[1..], k - 1);
    }
  }

  /** `Less` is exactly the textbook lexicographic order. */
  lemma LessIffDifference(a: string, b: string)
    ensures Less(a, b) <==> LessByDifference(a, b)
  {
    if Less(a, b) {
      LessSound(a, b);
    }
    if LessByDifference(a, b) {
      var k: nat :| FirstDifferenceAt(a, b, k);
      LessComplete(a, b, k);
    }
  }

  lemma {:induction false} LessIrreflexive(a: string)
    ensures !Less(a, a)
    decreases |a|
  {
    if |a| > 0 {
      LessIrreflexive(a[1..]);
    }
  }

  lemma {:induction false} LessAsymmetric(a: string, b: string)
    requires Less(a, b)
    ensures !Less(b, a)
    decreases |a|
  {
    if |a| > 0 && a[0] == b[0] {
      LessAsymmetric(a[1..], b[1..]);
    }
  }

  lemma {:induction false} LessTransitive(a: string, b: string, c: string)
    requires Less(a, b) && Less(b, c)
    ensures Less(a, c)
    decreases |a|
  {
    if |a| > 0 && a[0] == b[0] && b[0] == c[0] {
      LessTransitive(a[1..], b[1..], c[1..]);
    }
  }

  lemma {:induction false} LessTotal(a: string, b: string)
    requires a != b
    ensures Less(a, b) || Less(b, a)
    decreases |a|
  {
    if |a| > 0 && |b| > 0 && a[0] == b[0] {
      assert a == [a[0]] + a[1..] && b == [b[0]] + b[1..];
      LessTotal(a[1..], b[1..]);
    }
  }
}
