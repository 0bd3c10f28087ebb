/**
 * The grayscale quantisation of the recolourer: with `k` colours, bucket `i` covers
 * [i/k, (i+1)/k], both ends included, and the last bucket that matches wins.
 */
module Buckets {
  import opened Errors

  /** Bucket `i` of `k` contains `gray`: `gray >= i * increment && gray <= (i + 1) * increment`, increment = 1/k. */
  predicate InBucket(gray: real, k: nat, i: int)
    requires k >= 1
  {
    var increment := 1.0 / k as real;
    (i as real) * increment <= gray <= ((i + 1) as real) * increment
  }

  /** The last bucket below `bound` containing `gray`: what the inner loop has picked after trying buckets 0 .. bound-1. */
  function LastBucketBelow(gray: real, k: nat, bound: nat): (b: Option<nat>)
    requires k >= 1
    ensures b.Some? ==> b.value < bound && InBucket(gray, k, b.value)
    ensures b.Some? ==> forall j :: b.value < j < bound ==> !InBucket(gray, k, j)
    ensures b.None? ==> forall j :: 0 <= j < bound ==> !InBucket(gray, k, j)
  {
    if bound == 0 then None
    else if InBucket(gray, k, bound - 1) then Some(bound - 1)
    else LastBucketBelow(gray, k, bound - 1)
  }

  /** The bucket a pixel of grayscale `gray` is given, if any. */
  function Bucket(gray: real, k: nat): Option<nat>
    requires k >= 1
  {
    LastBucketBelow(gray, k, k)
  }

  /** Membership of a bucket without the division: i <= gray * k <= i + 1. */
  lemma InBucketScaled(gray: real, k: nat, i: int)
    requires k >= 1
    ensures InBucket(gray, k, i) <==> (i as real) <= gray * (k as real) <= ((i + 1) as real)
  {
    var kk := k as real;
    var increment := 1.0 / kk;
    assert increment * kk == 1.0;
    assert (i as real) * increment * kk == i as real;
    assert ((i + 1) as real) * increment * kk == (i + 1) as real;
    assert (i as real) * increment <= gray <==> (i as real) * increment * kk <= gray * kk by {
      MultiplyPositive((i as real) * increment, gray, kk);
    }
    assert gray <= ((i + 1) as real) * increment <==> gray * kk <= ((i + 1) as real) * increment * kk by {
      MultiplyPositive(gray, ((i + 1) as real) * increment, kk);
    }
  }

  lemma MultiplyPositive(x: real, y: real, c: real)
    requires c > 0.0
    ensures x <= y <==> x * c <= y * c
  {
    if x <= y {
      assert (y - x) * c >= 0.0;
    } else {
      assert (x - y) * c > 0.0;
    }
  }

  /** A gray value is given some bucket exactly when it lies in [0, 1]; outside it keeps the default colour. */
  lemma BucketDefinedInUnitRange(gray: real, k: nat)
    requires k >= 1
    ensures Bucket(gray, k).Some? <==> 0.0 <= gray <= 1.0
    ensures Bucket(gray, k).Some? ==> Bucket(gray, k).value < k
  {
    if 0.0 <= gray <= 1.0 {
      UnitRangeHasBucket(gray, k);
    }
    if Bucket(gray, k).Some? {
      BucketedIsInUnitRange(gray, k, Bucket(gray, k).value);
    }
  }

  lemma UnitRangeHasBucket(gray: real, k: nat)
    requires k >= 1 && 0.0 <= gray <= 1.0
    ensures Bucket(gray, k).Some?
  {
    var kk := k as real;
    var x := gray * kk;
    ScaledInRange(gray, kk);
    var f := x.Floor;
    FloorBounds(x);
    var b := if f >= k then k - 1 else f;
    assert 0 <= b < k;
    assert b as real <= x <= (b + 1) as real;
    InBucketScaled(gray, k, b);
  }

  /** Scaling a gray value in [0, 1] by a positive k keeps it in [0, k]. */
  lemma ScaledInRange(gray: real, kk: real)
    requires kk > 0.0 && 0.0 <= gray <= 1.0
    ensures 0.0 <= gray * kk <= kk
  {
    MultiplyPositive(gray, 1.0, kk);
    MultiplyPositive(0.0, gray, kk);
  }

  lemma FloorBounds(x: real)
    ensures x.Floor as real <= x < x.Floor as real + 1.0
  {
  }

  lemma BucketedIsInUnitRange(gray: real, k: nat, i: int)
    requires k >= 1 && 0 <= i < k && InBucket(gray, k, i)
    ensures 0.0 <= gray <= 1.0
  {
    var kk := k as real;
    InBucketScaled(gray, k, i);
    assert 0.0 <= gray * kk <= kk;
    MultiplyPositive(gray, 1.0, kk);
    MultiplyPositive(0.0, gray, kk);
  }

  /** A higher gray value never lands in a lower bucket. */
  lemma BucketMonotone(g1: real, g2: real, k: nat)
    requires k >= 1
    requires 0.0 <= g1 <= g2 <= 1.0
    ensures Bucket(g1, k).Some? && Bucket(g2, k).Some?
    ensures Bucket(g1, k).value <= Bucket(g2, k).value
  {
    BucketDefinedInUnitRange(g1, k);
    BucketDefinedInUnitRange(g2, k);
    var b1, b2 := Bucket(g1, k).value, Bucket(g2, k).value;
    if b1 > b2 {
      // then g2 would also lie in bucket b2 + 1 < k, a later match than b2
      LaterBucketToo(g1, g2, k, b1, b2);
      assert false;
    }
  }

  /** If a lower gray value lies in a later bucket b1, a higher one in bucket b2 lies in bucket b2 + 1 too. */
  lemma LaterBucketToo(g1: real, g2: real, k: nat, b1: nat, b2: nat)
    requires k >= 1 && b2 < b1 < k && g1 <= g2
    requires InBucket(g1, k, b1) && InBucket(g2, k, b2)
    ensures InBucket(g2, k, b2 + 1)
  {
    MultiplyPositive((b2 + 1) as real, b1 as real, 1.0 / k as real);
    MultiplyPositive((b2 + 1) as real, (b2 + 2) as real, 1.0 / k as real);
  }

  /** A gray value on the edge shared by buckets j-1 and j goes to the higher one: the last match wins. */
  lemma SharedEdgeGoesUp(k: nat, j: nat)
    requires 1 <= j < k
    ensures Bucket(j as real / k as real, k) == Some(j)
  {
    var kk := k as real;
    var gray := j as real / kk;
    assert gray * kk == j as real;
    InBucketScaled(gray, k, j);
    var b := Bucket(gray, k);
    assert b.Some? && b.value >= j;
    if b.value > j {
      InBucketScaled(gray, k, b.value);
      assert false;
    }
  }
}
