/** The order of strings by code points. */
module TextOrder {
  import opened Orders

  predicate AtMost(a: string, b: string) {
    a == [] || (b != [] && (a[0] < b[0] || (a[0] == b[0] && AtMost(a[1..], b[1..]))))
  }

  lemma {:induction false} AtMostTotal(a: string, b: string)
    ensures AtMost(a, b) || AtMost(b, a)
    ensures AtMost(a, a)
  {
    if a != [] {
      AtMostTotal(a[1..], if b != [] then b[1..] else []);
    }
  }

  lemma {:induction false} AtMostAntisymmetric(a: string, b: string)
    requires AtMost(a, b) && AtMost(b, a)
    ensures a == b
  {
    if a != [] {
      AtMostAntisymmetric(a[1..], b[1..]);
      assert a == [a[0]] + a[1..] && b == [b[0]] + b[1..];
    }
  }

  lemma {:induction false} AtMostTransitive(a: string, b: string, c: string)
    requires AtMost(a, b) && AtMost(b, c)
    ensures AtMost(a, c)
  {
    if a != [] && a[0] == b[0] == c[0] {
      AtMostTransitive(a[1..], b[1..], c[1..]);
    }
  }

  lemma AtMostIsTotalOrder()
    ensures TotalOrder(AtMost)
  {
    forall a, b
      ensures (AtMost(a, b) || AtMost(b, a)) && (AtMost(a, b) && AtMost(b, a) ==> a == b)
    {
      AtMostTotal(a, b);
      if AtMost(a, b) && AtMost(b, a) {
        AtMostAntisymmetric(a, b);
      }
    }
    forall a, b, c | AtMost(a, b) && AtMost(b, c)
      ensures AtMost(a, c)
    {
      AtMostTransitive(a, b, c);
    }
  }

  /** One text is at most another if it is a first part of it, or has the smaller character where they first differ. */
  lemma {:induction false} AtMostIsByFirstDifference(a: string, b: string)
    ensures AtMost(a, b)
            <==> a <= b || exists k :: 0 <= k < |a| && k < |b| && a[..k] == b[..k] && a[k] < b[k]
  {
    if a != [] && b != [] && a[0] == b[0] {
      AtMostIsByFirstDifference(a[1..], b[1..]);
      assert a == [a[0]] + a[1..] && b == [b[0]] + b[1..];
      assert a <= b <==> a[1..] <= b[1..];
      if k :| 0 <= k < |a| && k < |b| && a[..k] == b[..k] && a[k] < b[k] {
        assert a[1..][..k-1] == a[..k][1..] && b[1..][..k-1] == b[..k][1..];
        assert a[1..][k-1] < b[1..][k-1];
      }
      if k :| 0 <= k < |a[1..]| && k < |b[1..]| && a[1..][..k] == b[1..][..k] && a[1..][k] < b[1..][k] {
        assert a[..k+1] == [a[0]] + a[1..][..k] && b[..k+1] == [b[0]] + b[1..][..k];
        assert a[k+1] < b[k+1];
      }
    } else if a != [] && b != [] {
      assert a[..0] == b[..0];
      assert forall k | 0 < k <= |a| && k <= |b| :: a[..k][0] != b[..k][0];
    }
  }
}
