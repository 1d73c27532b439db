/** Texts in the order of their characters, as databases and sort functions compare them. */
module TextOrder {

  /** `a` comes before `b` as text, and `k` is where they first differ. */
  predicate BeforeAt(a: string, b: string, k: nat) {
    && k <= |a| && k < |b| && a[..k] == b[..k]
    && (k == |a| || a[k] < b[k])
  }

  ghost predicate Before(a: string, b: string) {
    exists k: nat :: BeforeAt(a, b, k)
  }

  lemma BeforeIsStrict(a: string, b: string, k: nat)
    requires BeforeAt(a, b, k)
    ensures !Before(b, a)
  {
    forall m: nat ensures !BeforeAt(b, a, m) {
      assert forall i :: 0 <= i < k ==> a[i] == a[..k][i] && b[i] == b[..k][i];
      assert forall i :: 0 <= i < m && m <= |a| && m <= |b| ==> a[i] == a[..m][i] && b[i] == b[..m][i];
    }
  }

  lemma NotBeforeItself(a: string)
    ensures !Before(a, a)
  {
    forall k: nat ensures !BeforeAt(a, a, k) {
    }
  }

  lemma NotBothBefore(a: string, b: string)
    ensures !(Before(a, b) && Before(b, a))
  {
    if k: nat :| BeforeAt(a, b, k) {
      BeforeIsStrict(a, b, k);
    }
  }

  /** Between texts of one length what follows does not matter, nor does what stands before. */
  lemma FrontDecides(x: string, y: string, p: string, q: string)
    requires |x| == |y| && Before(x, y)
    ensures Before(x + p, y + q)
  {
    var k: nat :| BeforeAt(x, y, k);
    assert (x + p)[..k] == x[..k] && (y + q)[..k] == y[..k];
    assert BeforeAt(x + p, y + q, k);
  }

  lemma BackDecides(x: string, p: string, q: string)
    requires Before(p, q)
    ensures Before(x + p, x + q)
  {
    var k: nat :| BeforeAt(p, q, k);
    assert (x + p)[..|x| + k] == x + p[..k] && (x + q)[..|x| + k] == x + q[..k];
    assert BeforeAt(x + p, x + q, |x| + k);
  }

  lemma BeforeChains(a: string, b: string, c: string)
    requires Before(a, b) && Before(b, c)
    ensures Before(a, c)
  {
    var k: nat :| BeforeAt(a, b, k);
    var m: nat :| BeforeAt(b, c, m);
    if k < m {
      assert a[..k] == b[..m][..k] == c[..m][..k] == c[..k];
      assert b[k] == b[..m][k] == c[k];
      assert BeforeAt(a, c, k);
    } else {
      assert a[..m] == a[..k][..m] == b[..k][..m] == c[..m];
      if m < k {
        assert a[m] == a[..k][m] == b[m];
      }
      assert BeforeAt(a, c, m);
    }
  }

  /** Of two different texts one comes before the other. */
  lemma {:induction false} OneIsBefore(a: string, b: string)
    ensures a == b || Before(a, b) || Before(b, a)
  {
    if a == [] {
      assert b == [] || BeforeAt(a, b, 0);
    } else if b == [] {
      assert BeforeAt(b, a, 0);
    } else if a[0] != b[0] {
      assert BeforeAt(a, b, 0) || BeforeAt(b, a, 0);
    } else {
      OneIsBefore(a[1..], b[1..]);
      if k: nat :| BeforeAt(a[1..], b[1..], k) {
        assert a[..k + 1] == [a[0]] + a[1..][..k] == [b[0]] + b[1..][..k] == b[..k + 1];
        assert BeforeAt(a, b, k + 1);
      } else if k: nat :| BeforeAt(b[1..], a[1..], k) {
        assert a[..k + 1] == [a[0]] + a[1..][..k] == [b[0]] + b[1..][..k] == b[..k + 1];
        assert BeforeAt(b, a, k + 1);
      } else {
        assert a == [a[0]] + a[1..] && b == [b[0]] + b[1..];
      }
    }
  }

  method TextBefore(a: string, b: string) returns (yes: bool)
    ensures yes <==> Before(a, b)
    ensures !yes ==> a == b || Before(b, a)
  {
    var k := 0;
    while k < |a| && k < |b| && a[k] == b[k]
      invariant k <= |a| && k <= |b| && a[..k] == b[..k]
    {
      k := k + 1;
    }
    if k < |b| && (k == |a| || a[k] < b[k]) {
      assert BeforeAt(a, b, k);
      return true;
    }
    if k == |a| && k == |b| {
      assert a == a[..k] && b == b[..k];
      assert forall j: nat :: !BeforeAt(a, b, j);
    } else {
      assert BeforeAt(b, a, k);
      BeforeIsStrict(b, a, k);
    }
    return false;
  }
}
