/** The play zone: mapping camera coordinates into zone-relative ones. */
module Zone {
  import opened Types

  /** Both spans are non-zero, so the zone mapping divides by neither. */
  predicate NonDegenerate(b: ZoneBounds)
  {
    b.right - b.left != 0.0 && b.bottom - b.top != 0.0
  }

  /** The zone is a proper rectangle, oriented like the camera frame. */
  predicate Valid(b: ZoneBounds)
  {
    b.right > b.left && b.bottom > b.top
  }

  /** The landmark lies inside the zone rectangle (edges included). */
  predicate InZone(lm: Landmark, b: ZoneBounds)
  {
    b.left <= lm.x <= b.right && b.top <= lm.y <= b.bottom
  }

  /** Camera coordinates of a zone-relative point: the affine map that
      sends the unit square onto the zone. */
  function FromZone(p: Landmark, b: ZoneBounds): Landmark
  {
    Landmark(b.left + p.x * (b.right - b.left), b.top + p.y * (b.bottom - b.top), p.z)
  }

  /** Rescales a landmark so that the zone spans [0,1] x [0,1]. Depth passes
      through unscaled and nothing is clamped. */
  function NormalizeToZone(lm: Landmark, b: ZoneBounds): (p: Landmark)
    requires NonDegenerate(b)
    ensures p.z == lm.z
  {
    Landmark((lm.x - b.left) / (b.right - b.left), (lm.y - b.top) / (b.bottom - b.top), lm.z)
  }

  /** Normalising is undone by `FromZone`, and a landmark lies in a valid
      zone exactly when its normalised point lies in the unit square. */
  lemma NormalizeToZoneInverse(lm: Landmark, b: ZoneBounds)
    requires NonDegenerate(b)
    ensures var p := NormalizeToZone(lm, b);
            && FromZone(p, b) == lm
            && (Valid(b) ==> (InZone(lm, b) <==> 0.0 <= p.x <= 1.0 && 0.0 <= p.y <= 1.0))
  {
    var p := NormalizeToZone(lm, b);
    assert p.x * (b.right - b.left) == lm.x - b.left;
    assert p.y * (b.bottom - b.top) == lm.y - b.top;
    UnitInterval(lm.x, b.left, b.right);
    UnitInterval(lm.y, b.top, b.bottom);
  }

  lemma UnitInterval(v: real, lo: real, hi: real)
    requires hi - lo != 0.0
    ensures lo < hi ==> (lo <= v <= hi <==> 0.0 <= (v - lo) / (hi - lo) <= 1.0)
  {
    var t := (v - lo) / (hi - lo);
    assert t * (hi - lo) == v - lo;
    if lo < hi {
      UnitIntervalOrdered(v, lo, hi);
    }
  }

  lemma UnitIntervalOrdered(v: real, lo: real, hi: real)
    requires lo < hi
    ensures lo <= v <= hi <==> 0.0 <= (v - lo) / (hi - lo) <= 1.0
  {
    var t := (v - lo) / (hi - lo);
    assert t * (hi - lo) == v - lo;
    if 0.0 <= t <= 1.0 {
      ProductInRange(t, hi - lo);
    }
    if lo <= v <= hi {
      QuotientInUnit(v - lo, hi - lo);
    }
  }

  lemma ProductInRange(t: real, d: real)
    requires 0.0 <= t <= 1.0 && d > 0.0
    ensures 0.0 <= t * d <= d
  {
    assert d - t * d == (1.0 - t) * d;
  }

  lemma QuotientInUnit(x: real, d: real)
    requires 0.0 <= x <= d && d > 0.0
    ensures 0.0 <= x / d <= 1.0
  {
    var t := x / d;
    assert t * d == x;
    assert (1.0 - t) * d == d - x;
  }

  /** The other round trip: normalising the camera image of a zone point
      gives the point back, so the mapping is a bijection. */
  lemma NormalizeFromZone(p: Landmark, b: ZoneBounds)
    requires NonDegenerate(b)
    ensures NormalizeToZone(FromZone(p, b), b) == p
  {
    var q := NormalizeToZone(FromZone(p, b), b);
    assert q.x * (b.right - b.left) == p.x * (b.right - b.left);
    assert q.y * (b.bottom - b.top) == p.y * (b.bottom - b.top);
  }

  /** The zone's corners map to the corners of the unit square. */
  lemma NormalizeCorners(b: ZoneBounds, z: real)
    requires NonDegenerate(b)
    ensures NormalizeToZone(Landmark(b.left, b.top, z), b) == Landmark(0.0, 0.0, z)
    ensures NormalizeToZone(Landmark(b.right, b.top, z), b) == Landmark(1.0, 0.0, z)
    ensures NormalizeToZone(Landmark(b.left, b.bottom, z), b) == Landmark(0.0, 1.0, z)
    ensures NormalizeToZone(Landmark(b.right, b.bottom, z), b) == Landmark(1.0, 1.0, z)
  {
    SelfQuotient(b.right - b.left);
    SelfQuotient(b.bottom - b.top);
  }

  lemma SelfQuotient(d: real)
    requires d != 0.0
    ensures d / d == 1.0
  {
  }
}
