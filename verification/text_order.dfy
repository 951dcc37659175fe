/**
 * The order in which `start_time` strings are compared.  Show times are stored
 * as a string column and compared with the current-time string by the
 * database, so "later" means "greater in lexicographic character order".
 */
module TextOrder {

  /** `a` sorts strictly before `b`, character by character; a proper prefix sorts first. */
  predicate StrLess(a: string, b: string)
    decreases |a|
  {
    if |a| == 0 then |b| > 0
    else |b| > 0 && (a[0] < b[0] || (a[0] == b[0] && StrLess(a[1..], b[1..])))
  }

  lemma {:induction false} StrLessIrreflexive(a: string)
    ensures !StrLess(a, a)
    decreases |a|
  {
    if |a| > 0 {
      StrLessIrreflexive(a[1..]);
    }
  }

  lemma {:induction false} StrLessAsymmetric(a: string, b: string)
    ensures StrLess(a, b) ==> !StrLess(b, a)
    decreases |a|
  {
    if |a| > 0 && |b| > 0 && a[0] == b[0] {
      StrLessAsymmetric(a[1..], b[1..]);
    }
  }

  lemma {:induction false} StrLessTransitive(a: string, b: string, c: string)
    ensures StrLess(a, b) && StrLess(b, c) ==> StrLess(a, c)
    decreases |a|
  {
    if |a| > 0 && |b| > 0 && |c| > 0 {
      StrLessTransitive(a[1..], b[1..], c[1..]);
    }
  }

  /** Any two strings are ordered one way, the other way, or are equal. */
  lemma {:induction false} StrLessTrichotomy(a: string, b: string)
    ensures StrLess(a, b) || a == b || StrLess(b, a)
    decreases |a|
  {
    if |a| > 0 && |b| > 0 && a[0] == b[0] {
      StrLessTrichotomy(a[1..], b[1..]);
      if a[1..] == b[1..] {
        assert a == [a[0]] + a[1..];
        assert b == [b[0]] + b[1..];
      }
    }
  }

  /**
   * The comparison is a strict total order: irreflexive, transitive, and any
   * two distinct strings are ordered one way or the other.
   */
  lemma StrLessIsStrictTotalOrder(a: string, b: string, c: string)
    ensures !StrLess(a, a)
    ensures StrLess(a, b) && StrLess(b, c) ==> StrLess(a, c)
    ensures a != b ==> StrLess(a, b) || StrLess(b, a)
  {
    StrLessIrreflexive(a);
    StrLessTransitive(a, b, c);
    StrLessTrichotomy(a, b);
  }

  /** Comparing two strings that start with equally long prefixes compares the prefixes first. */
  lemma {:induction false} StrLessConcat(a1: string, b1: string, a2: string, b2: string)
    requires |a1| == |a2|
    ensures StrLess(a1 + b1, a2 + b2) <==> StrLess(a1, a2) || (a1 == a2 && StrLess(b1, b2))
    decreases |a1|
  {
    if |a1| == 0 {
      assert a1 + b1 == b1;
      assert a2 + b2 == b2;
    } else {
      assert (a1 + b1)[1..] == a1[1..] + b1;
      assert (a2 + b2)[1..] == a2[1..] + b2;
      StrLessConcat(a1[1..], b1, a2[1..], b2);
      if a1[0] == a2[0] && a1[1..] == a2[1..] {
        assert a1 == [a1[0]] + a1[1..];
        assert a2 == [a2[0]] + a2[1..];
      }
    }
  }
}
