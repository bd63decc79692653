/** Postage-stamp sizing: getGoodPhotImageSize and GalSimSiliconInterpeter.getStampBounds. */
module StampSizing {
  import opened Base
  import opened Geometry
  import opened Profiles

  // The grow and shrink steps multiply and divide N by the factor 1.1, written out as a
  // literal so that the arithmetic stays linear.
  const PhotNmax: real := 4096.0     // largest size the grow loop reaches
  const ShrinkFloor: real := 70.4    // 64 * 1.1: the shrink loop stops below it

  /** The 4 edge midpoints and 4 corners of the box of half-side h, in the order sampled. */
  function EdgePoints(h: real): (r: seq<(real, real)>)
    ensures |r| == 8
  {
    [(h, 0.0), (-h, 0.0), (0.0, h), (0.0, -h), (h, h), (h, -h), (-h, h), (-h, -h)]
  }

  /** np.max of the surface brightness at the points. */
  function MaxOver(eng: Engine, obj: Profile, pts: seq<(real, real)>): real
    requires |pts| > 0
  {
    if |pts| == 1 then eng.xValue(obj, pts[0].0, pts[0].1)
    else MaxR(eng.xValue(obj, pts[0].0, pts[0].1), MaxOver(eng, obj, pts[1..]))
  }

  /** Largest surface brightness at the edge midpoints and corners of the box of half-side h. */
  function MaxSample(eng: Engine, obj: Profile, h: real): real {
    MaxOver(eng, obj, EdgePoints(h))
  }

  /** The largest sample on the N x N box (half-side N/2 pixels of scale ps). */
  function BoxSample(eng: Engine, obj: Profile, ps: real, n: real): real {
    MaxSample(eng, obj, n / 2.0 * ps)
  }

  /** The largest sample on the box smaller by the factor (half-side N/(2*1.1) pixels). */
  function SmallerBoxSample(eng: Engine, obj: Profile, ps: real, n: real): real {
    MaxSample(eng, obj, n / (2.0 * 1.1) * ps)
  }

  /** Each grow step brings N closer to the cap: the measure of the grow loop decreases. */
  lemma GrowMeasure(n: real)
    requires 1.0 <= n < PhotNmax
    ensures ((PhotNmax - n * 1.1) * 10.0).Floor < ((PhotNmax - n) * 10.0).Floor
  {
  }

  /** Each shrink step from at least 70.4 lowers the integer part of N. */
  lemma ShrinkMeasure(n: real)
    requires n >= ShrinkFloor
    ensures (n / 1.1).Floor < n.Floor
  {
  }

  /** The grow phase: the size at which the growing loop stops when it is at n. */
  function Grow(eng: Engine, obj: Profile, level: real, ps: real, n: real): (r: real)
    requires n >= 1.0
    ensures r >= n
    decreases ((PhotNmax - n) * 10.0).Floor
  {
    if n < PhotNmax && !(BoxSample(eng, obj, ps, n) < level)
    then Grow(eng, obj, level, ps, n * 1.1)
    else n
  }

  /** The shrink phase: the size at which the shrinking loop stops when it is at n. */
  function Shrink(eng: Engine, obj: Profile, level: real, ps: real, n: real): (r: real)
    requires n > 0.0
    ensures 0.0 < r <= n
    decreases n.Floor
  {
    if n >= ShrinkFloor && !(SmallerBoxSample(eng, obj, ps, n) > level)
    then Shrink(eng, obj, level, ps, n / 1.1)
    else n
  }

  /** One grow step: on, through the next size, while below the cap with a sample not below
      the level; otherwise stopped. */
  lemma GrowStep(eng: Engine, obj: Profile, level: real, ps: real, n: real)
    requires n >= 1.0
    ensures n < PhotNmax && !(BoxSample(eng, obj, ps, n) < level) ==>
              n * 1.1 >= 1.0 && Grow(eng, obj, level, ps, n) == Grow(eng, obj, level, ps, n * 1.1)
    ensures !(n < PhotNmax && !(BoxSample(eng, obj, ps, n) < level)) ==> Grow(eng, obj, level, ps, n) == n
  {
  }

  /** One shrink step, likewise. */
  lemma ShrinkStep(eng: Engine, obj: Profile, level: real, ps: real, n: real)
    requires n > 0.0
    ensures n >= ShrinkFloor && !(SmallerBoxSample(eng, obj, ps, n) > level) ==>
              n / 1.1 > 0.0 && Shrink(eng, obj, level, ps, n) == Shrink(eng, obj, level, ps, n / 1.1)
    ensures !(n >= ShrinkFloor && !(SmallerBoxSample(eng, obj, ps, n) > level)) ==> Shrink(eng, obj, level, ps, n) == n
  {
  }

  /** N after the grow loop and the cap at 4096, starting from GalSim's estimate. */
  function PostGrow(eng: Engine, obj: Profile, level: real, ps: real): (r: real)
    ensures 1.0 <= r <= PhotNmax
  {
    GrowStops(eng, obj, level, ps, eng.goodImageSize(obj, ps) as real);
    MinR(Grow(eng, obj, level, ps, eng.goodImageSize(obj, ps) as real), PhotNmax)
  }

  /** getGoodPhotImageSize's result: int() of N after both phases. */
  function PhotImageSize(eng: Engine, obj: Profile, level: real, ps: real): int {
    Trunc(Shrink(eng, obj, level, ps, PostGrow(eng, obj, level, ps)))
  }

  /** The grow phase never shrinks N, and it stops only at the cap or once every edge and
      corner sample is below the level. */
  lemma {:induction false} GrowStops(eng: Engine, obj: Profile, level: real, ps: real, n: real)
    requires n >= 1.0
    ensures Grow(eng, obj, level, ps, n) >= n
    ensures Grow(eng, obj, level, ps, n) >= PhotNmax ||
            BoxSample(eng, obj, ps, Grow(eng, obj, level, ps, n)) < level
    ensures n < PhotNmax ==> Grow(eng, obj, level, ps, n) < PhotNmax * 1.1
    decreases ((PhotNmax - n) * 10.0).Floor
  {
    if n < PhotNmax && !(BoxSample(eng, obj, ps, n) < level) {
      GrowMeasure(n);
      GrowStops(eng, obj, level, ps, n * 1.1);
      assert Grow(eng, obj, level, ps, n) == Grow(eng, obj, level, ps, n * 1.1);
    } else {
      assert Grow(eng, obj, level, ps, n) == n;
    }
  }

  /** The shrink phase never grows N, never goes below 64 from 64 or more, and stops only
      below 64*1.1 or once the smaller box has a sample above the level. */
  lemma {:induction false} ShrinkStops(eng: Engine, obj: Profile, level: real, ps: real, n: real)
    requires n > 0.0
    ensures Shrink(eng, obj, level, ps, n) <= n
    ensures n >= 64.0 ==> Shrink(eng, obj, level, ps, n) >= 64.0
    ensures Shrink(eng, obj, level, ps, n) > 0.0
    ensures n >= 1.0 ==> Shrink(eng, obj, level, ps, n) >= 1.0
    ensures Shrink(eng, obj, level, ps, n) < ShrinkFloor ||
            SmallerBoxSample(eng, obj, ps, Shrink(eng, obj, level, ps, n)) > level
    decreases n.Floor
  {
    if n >= ShrinkFloor && !(SmallerBoxSample(eng, obj, ps, n) > level) {
      ShrinkMeasure(n);
      ShrinkStops(eng, obj, level, ps, n / 1.1);
      assert Shrink(eng, obj, level, ps, n) == Shrink(eng, obj, level, ps, n / 1.1);
    }
  }

  /** The photon-shooting stamp size is at most 4096, and at least 64 whenever N was at
      least 64 after the grow phase. */
  lemma PhotImageSizeBounds(eng: Engine, obj: Profile, level: real, ps: real)
    ensures 1 <= PhotImageSize(eng, obj, level, ps) <= 4096
    ensures PostGrow(eng, obj, level, ps) >= 64.0 ==> PhotImageSize(eng, obj, level, ps) >= 64
  {
    var n0 := eng.goodImageSize(obj, ps) as real;
    GrowStops(eng, obj, level, ps, n0);
    var p := PostGrow(eng, obj, level, ps);
    ShrinkStops(eng, obj, level, ps, p);
  }

  /** getGoodPhotImageSize's first loop: grow N by 1.1 until the edges of the N x N box are
      below the level, or N reaches 4096. */
  method GrowSize(eng: Engine, obj: Profile, level: real, ps: real, n0: real) returns (n: real)
    requires n0 >= 1.0
    ensures n == Grow(eng, obj, level, ps, n0)
  {
    n := n0;
    while n < PhotNmax
      invariant n >= 1.0
      invariant Grow(eng, obj, level, ps, n) == Grow(eng, obj, level, ps, n0)
      decreases ((PhotNmax - n) * 10.0).Floor
    {
      var h := n / 2.0 * ps;
      var maxval := MaxSample(eng, obj, h);
      GrowStep(eng, obj, level, ps, n);
      if maxval < level {
        return;
      }
      GrowMeasure(n);
      n := n * 1.1;
    }
    GrowStep(eng, obj, level, ps, n);
  }

  /** getGoodPhotImageSize's second loop: shrink N by 1.1 while it is at least 64 * 1.1 and
      the box smaller by the factor has no sample above the level. */
  method ShrinkSize(eng: Engine, obj: Profile, level: real, ps: real, n1: real) returns (n: real)
    requires n1 > 0.0
    ensures n == Shrink(eng, obj, level, ps, n1)
  {
    n := n1;
    while n >= ShrinkFloor
      invariant n > 0.0
      invariant Shrink(eng, obj, level, ps, n) == Shrink(eng, obj, level, ps, n1)
      decreases n.Floor
    {
      var h := n / (2.0 * 1.1) * ps;
      var maxval := MaxSample(eng, obj, h);
      ShrinkStep(eng, obj, level, ps, n);
      if maxval > level {
        return;
      }
      ShrinkMeasure(n);
      n := n / 1.1;
    }
    ShrinkStep(eng, obj, level, ps, n);
  }

  /** getGoodPhotImageSize: the grow loop from GalSim's estimate, the cap at 4096, the shrink
      loop, and int() of the result. */
  method GetGoodPhotImageSize(eng: Engine, obj: Profile, level: real, ps: real) returns (r: int)
    ensures r == PhotImageSize(eng, obj, level, ps)
    ensures r <= 4096
    ensures PostGrow(eng, obj, level, ps) >= 64.0 ==> r >= 64
  {
    var n := eng.goodImageSize(obj, ps) as real;
    GrowStops(eng, obj, level, ps, n);
    n := GrowSize(eng, obj, level, ps, n);
    n := MinR(n, PhotNmax);
    n := ShrinkSize(eng, obj, level, ps, n);
    r := Trunc(n);
    PhotImageSizeBounds(eng, obj, level, ps);
  }

  /** Folding threshold for sizing a bright point source: sky/flux when it is below GalSim's
      default, otherwise the default GSParams (None). */
  function FoldingThreshold(sky: real, flux: nat, ftDefault: real): (r: Option<real>)
    requires flux > 0
    ensures r.Some? <==> sky / flux as real < ftDefault
    ensures r.Some? ==> r.value == sky / flux as real
  {
    var ft := sky / flux as real;
    if ft >= ftDefault then None else Some(ft)
  }

  /** Side of the stamp of an extended object rescaled to the realised flux: GalSim's
      estimate, refined at the keep level only for bright objects (more than 10 photons per
      pixel on average), and redone at the relaxed level when it exceeds nmax. */
  function ExtendedSide(eng: Engine, obj: Profile, flux: nat, keep: real, large: real, nmax: int, ps: real): int {
    var n0 := eng.goodImageSize(obj, ps) as int;
    var n1 := if flux > 10 * n0 * n0 then PhotImageSize(eng, obj, keep, ps) else n0;
    if n1 > nmax then Max(PhotImageSize(eng, obj, large, ps), nmax) else n1
  }

  /** The side of the square stamp getStampBounds centres on the object. */
  function StampSide(eng: Engine, src: Source, flux: nat, keep: real, large: real, nmax: int, ps: real, sky: real): (r: Result<int>)
    ensures flux < 10 ==> r == Ok(32)
    ensures KnownType(src.galSimType) ==> r.Ok?
  {
    if flux < 10 then Ok(32)
    else if Lower(src.galSimType) == "pointsource" then
      var psf := KolmogorovGaussianPsf(FoldingThreshold(sky, flux, eng.defaultFoldingThreshold));
      var obj := DrawPointSource(src, Some(psf), None).value;
      Ok(eng.goodImageSize(obj, ps) as int)
    else
      // The PSF argument is given, so the configured PSF is never consulted here.
      match CreateCenteredObject(src, Some(DoubleGaussianPsf), None)
      case Err(e) => Err(e)
      case Ok(p) => Ok(ExtendedSide(eng, WithFlux(p, flux as real), flux, keep, large, nmax, ps))
  }

  /** Integer bounds of a stamp of the given side around the position:
      int(floor(pos) - side/2) .. int(ceil(pos) + side/2) on each axis. */
  function StampBoundsAt(pos: (real, real), side: int): Bounds {
    var half := side as real / 2.0;
    Bounds(Trunc(pos.0.Floor as real - half), Trunc(Ceil(pos.0) as real + half),
           Trunc(pos.1.Floor as real - half), Trunc(Ceil(pos.1) as real + half))
  }

  /** getStampBounds. */
  function StampBounds(eng: Engine, src: Source, flux: nat, pos: (real, real), keep: real, large: real,
                       nmax: int, ps: real, sky: real): (r: Result<Bounds>)
    ensures KnownType(src.galSimType) ==> r.Ok?
  {
    var side :- StampSide(eng, src, flux, keep, large, nmax, ps, sky);
    Ok(StampBoundsAt(pos, side))
  }

  /** An extended object's side never exceeds the larger of nmax and the size at the relaxed
      level; it is the relaxed size clamped below by nmax whenever the first size exceeds
      nmax; and a faint object keeps GalSim's estimate when that fits under nmax. */
  lemma ExtendedSideClamp(eng: Engine, obj: Profile, flux: nat, keep: real, large: real, nmax: int, ps: real)
    ensures ExtendedSide(eng, obj, flux, keep, large, nmax, ps) <= Max(nmax, PhotImageSize(eng, obj, large, ps))
    ensures nmax <= 4096 ==> 1 <= ExtendedSide(eng, obj, flux, keep, large, nmax, ps) <= 4096
    ensures var n0 := eng.goodImageSize(obj, ps) as int;
            flux <= 10 * n0 * n0 && n0 <= nmax ==> ExtendedSide(eng, obj, flux, keep, large, nmax, ps) == n0
    ensures var n0 := eng.goodImageSize(obj, ps) as int;
            var n1 := if flux > 10 * n0 * n0 then PhotImageSize(eng, obj, keep, ps) else n0;
            n1 > nmax ==> ExtendedSide(eng, obj, flux, keep, large, nmax, ps) == Max(PhotImageSize(eng, obj, large, ps), nmax)
  {
    PhotImageSizeBounds(eng, obj, keep, ps);
    PhotImageSizeBounds(eng, obj, large, ps);
  }

  /** The stamp reaches from at or below floor(pos) to at or above ceil(pos) on both axes, so
      it is defined and holds the pixel of the object, whatever the sign of the position. */
  lemma StampBoundsCover(pos: (real, real), side: nat)
    ensures var b := StampBoundsAt(pos, side);
            b.xmin <= pos.0.Floor <= Ceil(pos.0) <= b.xmax &&
            b.ymin <= pos.1.Floor <= Ceil(pos.1) <= b.ymax
    ensures StampBoundsAt(pos, side).Defined()
    ensures StampBoundsAt(pos, side).Contains(pos.0.Floor, pos.1.Floor)
  {
  }

  /** getStampBounds, calling the looping getGoodPhotImageSize. */
  method GetStampBounds(eng: Engine, src: Source, flux: nat, pos: (real, real), keep: real, large: real,
                        nmax: int, ps: real, sky: real) returns (r: Result<Bounds>)
    ensures r == StampBounds(eng, src, flux, pos, keep, large, nmax, ps, sky)
    ensures r.Ok? ==> r.value.Defined() && r.value.Contains(pos.0.Floor, pos.1.Floor)
    ensures flux < 10 ==> r == Ok(StampBoundsAt(pos, 32))
  {
    var side: int;
    if flux < 10 {
      side := 32;
    } else if Lower(src.galSimType) == "pointsource" {
      var psf := KolmogorovGaussianPsf(FoldingThreshold(sky, flux, eng.defaultFoldingThreshold));
      var obj := DrawPointSource(src, Some(psf), None).value;
      side := eng.goodImageSize(obj, ps) as int;
    } else {
      var centered := CreateCenteredObject(src, Some(DoubleGaussianPsf), None);
      if centered.Err? {
        return Err(centered.error);
      }
      var obj := WithFlux(centered.value, flux as real);
      side := eng.goodImageSize(obj, ps) as int;
      if flux > 10 * side * side {
        side := GetGoodPhotImageSize(eng, obj, keep, ps);
      }
      if side > nmax {
        side := GetGoodPhotImageSize(eng, obj, large, ps);
        side := Max(side, nmax);
      }
      PhotImageSizeBounds(eng, obj, keep, ps);
      PhotImageSizeBounds(eng, obj, large, ps);
      assert side == ExtendedSide(eng, obj, flux, keep, large, nmax, ps);
    }
    assert side >= 1;
    StampBoundsCover(pos, side);
    r := Ok(StampBoundsAt(pos, side));
  }
}
