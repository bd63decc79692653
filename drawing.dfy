/** The value-level specification of drawObject's loops over bands and detectors, for the
    base interpreter and for GalSimSiliconInterpeter. */
module Drawing {
  import opened Base
  import opened Geometry
  import opened Profiles
  import opened StampSizing
  import opened Checkpoint

  /** Which drawObject runs: the base interpreter's, or GalSimSiliconInterpeter's with its
      sky background per pixel and keep level sqrt(sky)/3, given as a number whose square
      is a ninth of the sky. */
  datatype Variant = Basic | Silicon(skyBgPerPixel: real, keepSbLevel: real)

  predicate VariantOk(v: Variant) {
    v.Silicon? ==> v.keepSbLevel >= 0.0 && 9.0 * v.keepSbLevel * v.keepSbLevel == v.skyBgPerPixel
  }

  /** getStampBounds' defaults, used by drawObject: Nmax and the pixel scale. */
  const StampNmax := 1400
  const PixelScale := 0.2

  /** What the drawing loops change besides centroid_list: the images and the rng. */
  datatype DrawState = DrawState(images: map<string, Image>, rng: Rng)

  /** Everything one drawObject call draws with: the source and its centred profile, the
      detectors it falls on, the bands with nominal and realised fluxes, the variant, GalSim,
      the camera's pupil-to-pixel map, the centroid base name, and the silicon variant's
      stamp bounds at a realised flux and pixel position (StampOf). */
  datatype DrawContext = DrawContext(
    src: Source, centered: Profile, detectors: seq<Detector>, bands: seq<string>,
    fluxes: seq<real>, realized: seq<nat>, variant: Variant, eng: Engine,
    pixelCoords: (Source, string) -> (real, real), centroidBase: Option<string>,
    stamp: (nat, (real, real)) -> Bounds)

  predicate ContextOk(ctx: DrawContext) {
    |ctx.fluxes| == |ctx.bands| && |ctx.realized| == |ctx.bands|
  }

  /** getStampBounds as drawObject calls it: keep level sqrt(sky)/3, large-object level three
      times that, and the defaults. A known type always has bounds. */
  function StampOf(eng: Engine, src: Source, v: Variant): (nat, (real, real)) -> Bounds
    requires KnownType(src.galSimType) && v.Silicon?
  {
    (flux: nat, pos: (real, real)) =>
      StampBounds(eng, src, flux, pos, v.keepSbLevel, 3.0 * v.keepSbLevel, StampNmax, PixelScale,
                  v.skyBgPerPixel).value
  }

  /** The context a drawObject call draws with. Only the silicon variant sizes stamps, and
      it only draws objects of a known type; the base variant's stamp is never consulted. */
  function ObjectContext(src: Source, centered: Profile, ds: seq<Detector>, bands: seq<string>,
                         fluxes: seq<real>, realized: seq<nat>, v: Variant, eng: Engine,
                         pixelCoords: (Source, string) -> (real, real), centroidBase: Option<string>): DrawContext
  {
    var stamp := if v.Silicon? && KnownType(src.galSimType) then StampOf(eng, src, v)
                 else (flux: nat, pos: (real, real)) => Bounds(1, 0, 1, 0);
    DrawContext(src, centered, ds, bands, fluxes, realized, v, eng, pixelCoords, centroidBase, stamp)
  }

  /** Every (band, detector) image exists. */
  predicate HasTargets(ctx: DrawContext, images: map<string, Image>) {
    forall bi, j :: 0 <= bi < |ctx.bands| && 0 <= j < |ctx.detectors| ==>
      FileName(ctx.detectors[j], ctx.bands[bi]) in images
  }

  function PixelPosition(ctx: DrawContext, d: Detector): (real, real) {
    ctx.pixelCoords(ctx.src, d.name)
  }

  /** Where the (band, detector) draw goes, given the bounds of the image: the window drawn
      onto and the object's offset. The base interpreter draws on the whole image, offset
      from the detector's pixel centre; the silicon one on the stamp clipped to the image,
      offset from the clipped stamp's true centre, and not at all when the clip is empty. */
  function Placement(ctx: DrawContext, bi: int, d: Detector, imageBounds: Bounds): (r: Option<(Bounds, (real, real))>)
    requires ContextOk(ctx) && 0 <= bi < |ctx.bands|
    ensures ctx.variant.Basic? ==> r.Some? && r.value.0 == imageBounds
    ensures ctx.variant.Silicon? && r.Some? ==>
              (r.value.0.Defined() && forall x, y :: r.value.0.Contains(x, y) ==> imageBounds.Contains(x, y))
  {
    var pos := PixelPosition(ctx, d);
    match ctx.variant
    case Basic => Some((imageBounds, (pos.0 - d.xCenterPix, pos.1 - d.yCenterPix)))
    case Silicon(sky, keep) =>
      var stamp := ctx.stamp(ctx.realized[bi], pos);
      var clip := Intersect(stamp, imageBounds);
      assert forall x, y :: clip.Contains(x, y) ==> imageBounds.Contains(x, y) by {
        forall x, y { IntersectContains(stamp, imageBounds, x, y); }
      }
      if clip.Defined() then
        var center := clip.TrueCenter();
        Some((clip, (pos.0 - center.0, pos.1 - center.1)))
      else None
  }

  /** The centroid_list tuple of a (band, detector) draw: the nominal flux, not the
      realised one. */
  function Entry(ctx: DrawContext, bi: int, d: Detector): CentroidEntry
    requires ContextOk(ctx) && 0 <= bi < |ctx.bands|
  {
    var pos := PixelPosition(ctx, d);
    CentroidEntry(d.fileName, ctx.bands[bi], ctx.src.uniqueId, ctx.fluxes[bi], pos.0, pos.1)
  }

  /** Whether the (band, detector) draw happens on images of these shapes. */
  predicate Drawn(ctx: DrawContext, images: map<string, Image>, bi: int, d: Detector)
    requires ContextOk(ctx) && 0 <= bi < |ctx.bands| && FileName(d, ctx.bands[bi]) in images
  {
    Placement(ctx, bi, d, ImageBounds(images[FileName(d, ctx.bands[bi])])).Some?
  }

  predicate SameBounds(a: map<string, Image>, b: map<string, Image>) {
    a.Keys == b.Keys && forall k :: k in a ==> ImageBounds(a[k]) == ImageBounds(b[k])
  }

  /** One (band, detector) iteration: render the object with its realised flux through the
      draw oracle and add the stamp into the window of the detector's image. */
  function Step(ctx: DrawContext, s: DrawState, bi: int, d: Detector): (r: DrawState)
    requires ContextOk(ctx) && 0 <= bi < |ctx.bands| && FileName(d, ctx.bands[bi]) in s.images
    ensures r.images.Keys == s.images.Keys
  {
    var band := ctx.bands[bi];
    var name := FileName(d, band);
    var img := s.images[name];
    match Placement(ctx, bi, d, ImageBounds(img))
    case None => s
    case Some((window, offset)) =>
      var obj := WithFlux(ctx.centered, ctx.realized[bi] as real);
      var req := DrawRequest(obj, d, band, offset, window, ctx.variant.Silicon?);
      var (stamp, rng') := ctx.eng.draw(req, s.rng);
      DrawState(s.images[name := AddInto(img, window, stamp)], rng')
  }

  /** The centroid entry a (band, detector) iteration records: one when it draws and
      centroid files are written, none otherwise. */
  function PairEntries(ctx: DrawContext, images: map<string, Image>, bi: int, d: Detector): seq<CentroidEntry>
    requires ContextOk(ctx) && 0 <= bi < |ctx.bands| && FileName(d, ctx.bands[bi]) in images
  {
    if ctx.centroidBase.Some? && Drawn(ctx, images, bi, d) then [Entry(ctx, bi, d)] else []
  }

  /** A step keeps the bounds of every image and changes no image but its own. */
  lemma StepImages(ctx: DrawContext, s: DrawState, bi: int, d: Detector, key: string)
    requires ContextOk(ctx) && 0 <= bi < |ctx.bands| && FileName(d, ctx.bands[bi]) in s.images
    requires key in s.images
    ensures ImageBounds(Step(ctx, s, bi, d).images[key]) == ImageBounds(s.images[key])
    ensures key != FileName(d, ctx.bands[bi]) ==> Step(ctx, s, bi, d).images[key] == s.images[key]
  {
  }

  /** The inner loop: the detectors ctx.detectors[..j] in band bi, in list order. */
  function DrawDetectors(ctx: DrawContext, s: DrawState, bi: int, j: nat): (r: DrawState)
    requires ContextOk(ctx) && 0 <= bi < |ctx.bands| && j <= |ctx.detectors| && HasTargets(ctx, s.images)
    ensures r.images.Keys == s.images.Keys
  {
    if j == 0 then s
    else Step(ctx, DrawDetectors(ctx, s, bi, j - 1), bi, ctx.detectors[j - 1])
  }

  /** The outer loop: bands ctx.bands[..k], band-major. */
  function DrawBands(ctx: DrawContext, s: DrawState, k: nat): (r: DrawState)
    requires ContextOk(ctx) && k <= |ctx.bands| && HasTargets(ctx, s.images)
    ensures r.images.Keys == s.images.Keys
  {
    if k == 0 then s
    else DrawDetectors(ctx, DrawBands(ctx, s, k - 1), k - 1, |ctx.detectors|)
  }

  /** The centroid entries band bi records for ctx.detectors[..j], in list order. */
  function BandEntries(ctx: DrawContext, images: map<string, Image>, bi: int, j: nat): seq<CentroidEntry>
    requires ContextOk(ctx) && 0 <= bi < |ctx.bands| && j <= |ctx.detectors| && HasTargets(ctx, images)
  {
    if j == 0 then []
    else
      var d := ctx.detectors[j - 1];
      BandEntries(ctx, images, bi, j - 1) + PairEntries(ctx, images, bi, d)
  }

  /** The centroid entries of bands ctx.bands[..k], band-major. */
  function Entries(ctx: DrawContext, images: map<string, Image>, k: nat): seq<CentroidEntry>
    requires ContextOk(ctx) && k <= |ctx.bands| && HasTargets(ctx, images)
  {
    if k == 0 then [] else Entries(ctx, images, k - 1) + BandEntries(ctx, images, k - 1, |ctx.detectors|)
  }

  /** One band keeps the bounds of every image and changes no image but the (band,
      detector) ones. */
  lemma {:induction false} DrawDetectorsImages(ctx: DrawContext, s: DrawState, bi: int, j: nat, key: string)
    requires ContextOk(ctx) && 0 <= bi < |ctx.bands| && j <= |ctx.detectors| && HasTargets(ctx, s.images)
    requires key in s.images
    ensures ImageBounds(DrawDetectors(ctx, s, bi, j).images[key]) == ImageBounds(s.images[key])
    ensures key !in Targets(ctx.detectors, ctx.bands) ==> DrawDetectors(ctx, s, bi, j).images[key] == s.images[key]
  {
    if j > 0 {
      DrawDetectorsImages(ctx, s, bi, j - 1, key);
      var d := ctx.detectors[j - 1];
      StepImages(ctx, DrawDetectors(ctx, s, bi, j - 1), bi, d, key);
      assert FileName(d, ctx.bands[bi]) in Targets(ctx.detectors, ctx.bands);
    }
  }

  /** The drawing loops keep the bounds of every image and change no image but the (band,
      detector) ones. */
  lemma {:induction false} DrawBandsImages(ctx: DrawContext, s: DrawState, k: nat, key: string)
    requires ContextOk(ctx) && k <= |ctx.bands| && HasTargets(ctx, s.images)
    requires key in s.images
    ensures ImageBounds(DrawBands(ctx, s, k).images[key]) == ImageBounds(s.images[key])
    ensures key !in Targets(ctx.detectors, ctx.bands) ==> DrawBands(ctx, s, k).images[key] == s.images[key]
  {
    if k > 0 {
      DrawBandsImages(ctx, s, k - 1, key);
      DrawDetectorsImages(ctx, DrawBands(ctx, s, k - 1), k - 1, |ctx.detectors|, key);
    }
  }

  lemma DrawBandsBounds(ctx: DrawContext, s: DrawState, k: nat)
    requires ContextOk(ctx) && k <= |ctx.bands| && HasTargets(ctx, s.images)
    ensures SameBounds(DrawBands(ctx, s, k).images, s.images)
  {
    forall key | key in s.images
      ensures ImageBounds(DrawBands(ctx, s, k).images[key]) == ImageBounds(s.images[key])
    {
      DrawBandsImages(ctx, s, k, key);
    }
  }

  /** The (band, detector) images exist in both maps with the same bounds. */
  predicate TargetBounds(ctx: DrawContext, a: map<string, Image>, b: map<string, Image>) {
    forall bi, j {:trigger FileName(ctx.detectors[j], ctx.bands[bi])} ::
      0 <= bi < |ctx.bands| && 0 <= j < |ctx.detectors| ==>
        FileName(ctx.detectors[j], ctx.bands[bi]) in a && FileName(ctx.detectors[j], ctx.bands[bi]) in b &&
        ImageBounds(a[FileName(ctx.detectors[j], ctx.bands[bi])]) == ImageBounds(b[FileName(ctx.detectors[j], ctx.bands[bi])])
  }

  /** A pair records the same entry on any images where its image has the same bounds, so
      the entries of a draw can be read off the images it starts from. */
  lemma PairEntriesStable(ctx: DrawContext, a: map<string, Image>, b: map<string, Image>, bi: int, d: Detector)
    requires ContextOk(ctx) && 0 <= bi < |ctx.bands|
    requires FileName(d, ctx.bands[bi]) in a && FileName(d, ctx.bands[bi]) in b
    requires ImageBounds(a[FileName(d, ctx.bands[bi])]) == ImageBounds(b[FileName(d, ctx.bands[bi])])
    ensures PairEntries(ctx, a, bi, d) == PairEntries(ctx, b, bi, d)
  {
  }

  /** A step keeps the bounds of every (band, detector) image. */
  lemma StepTargetBounds(ctx: DrawContext, s: DrawState, bi: int, d: Detector, images0: map<string, Image>)
    requires ContextOk(ctx) && 0 <= bi < |ctx.bands| && FileName(d, ctx.bands[bi]) in s.images
    requires TargetBounds(ctx, s.images, images0)
    ensures TargetBounds(ctx, Step(ctx, s, bi, d).images, images0)
  {
    var r := Step(ctx, s, bi, d).images;
    forall bj, j | 0 <= bj < |ctx.bands| && 0 <= j < |ctx.detectors|
      ensures FileName(ctx.detectors[j], ctx.bands[bj]) in r
      ensures ImageBounds(r[FileName(ctx.detectors[j], ctx.bands[bj])]) == ImageBounds(images0[FileName(ctx.detectors[j], ctx.bands[bj])])
    {
      StepImages(ctx, s, bi, d, FileName(ctx.detectors[j], ctx.bands[bj]));
    }
  }

  /** The state of drawObject's inner loop after the first j listed detectors of band bi. */
  predicate BandAt(ctx: DrawContext, s0: DrawState, images0: map<string, Image>, bi: int, j: nat, cur: DrawState) {
    ContextOk(ctx) && 0 <= bi < |ctx.bands| && j <= |ctx.detectors| &&
    HasTargets(ctx, s0.images) && HasTargets(ctx, images0) &&
    cur == DrawDetectors(ctx, s0, bi, j) && TargetBounds(ctx, cur.images, images0)
  }

  /** The inner loop starts from the state it is given. */
  lemma BandStart(ctx: DrawContext, s0: DrawState, images0: map<string, Image>, bi: int)
    requires ContextOk(ctx) && 0 <= bi < |ctx.bands| && TargetBounds(ctx, s0.images, images0)
    ensures BandAt(ctx, s0, images0, bi, 0, s0)
  {
  }

  /** One iteration of the inner loop from a state reached by it: the step is the next
      state of the loop, records the entry read off the images the loop started from, and
      keeps the bounds of the (band, detector) images. */
  lemma BandStep(ctx: DrawContext, s0: DrawState, images0: map<string, Image>, bi: int, j: nat, cur: DrawState,
                 prefix: seq<CentroidEntry>)
    requires BandAt(ctx, s0, images0, bi, j, cur) && j < |ctx.detectors|
    ensures FileName(ctx.detectors[j], ctx.bands[bi]) in cur.images
    ensures BandAt(ctx, s0, images0, bi, j + 1, Step(ctx, cur, bi, ctx.detectors[j]))
    ensures prefix + BandEntries(ctx, images0, bi, j + 1) ==
              (prefix + BandEntries(ctx, images0, bi, j)) + PairEntries(ctx, cur.images, bi, ctx.detectors[j])
  {
    var d := ctx.detectors[j];
    assert FileName(ctx.detectors[j], ctx.bands[bi]) in cur.images;
    PairEntriesStable(ctx, images0, cur.images, bi, d);
    StepTargetBounds(ctx, cur, bi, d, images0);
  }

  /** Without a centroid base name no entry is recorded. */
  lemma {:induction false} NoBaseNoEntries(ctx: DrawContext, images: map<string, Image>, k: nat)
    requires ContextOk(ctx) && k <= |ctx.bands| && HasTargets(ctx, images) && ctx.centroidBase.None?
    ensures Entries(ctx, images, k) == []
  {
    if k > 0 {
      NoBaseNoEntries(ctx, images, k - 1);
      NoBaseNoBandEntries(ctx, images, k - 1, |ctx.detectors|);
    }
  }

  lemma {:induction false} NoBaseNoBandEntries(ctx: DrawContext, images: map<string, Image>, bi: int, j: nat)
    requires ContextOk(ctx) && 0 <= bi < |ctx.bands| && j <= |ctx.detectors| && HasTargets(ctx, images)
    requires ctx.centroidBase.None?
    ensures BandEntries(ctx, images, bi, j) == []
  {
    if j > 0 {
      NoBaseNoBandEntries(ctx, images, bi, j - 1);
    }
  }

  /** One entry per detector of ctx.detectors[..j], in list order, for band bi. */
  function BandList(ctx: DrawContext, bi: int, j: nat): seq<CentroidEntry>
    requires ContextOk(ctx) && 0 <= bi < |ctx.bands| && j <= |ctx.detectors|
  {
    if j == 0 then [] else BandList(ctx, bi, j - 1) + [Entry(ctx, bi, ctx.detectors[j - 1])]
  }

  /** One entry per (band, detector) pair of bands ctx.bands[..k], band-major. */
  function PairList(ctx: DrawContext, k: nat): seq<CentroidEntry>
    requires ContextOk(ctx) && k <= |ctx.bands|
  {
    if k == 0 then [] else PairList(ctx, k - 1) + BandList(ctx, k - 1, |ctx.detectors|)
  }

  /** In the base interpreter every (band, detector) pair is drawn, so a band records one
      entry per detector, in list order. */
  lemma {:induction false} BasicBandEntries(ctx: DrawContext, images: map<string, Image>, bi: int, j: nat)
    requires ContextOk(ctx) && 0 <= bi < |ctx.bands| && j <= |ctx.detectors| && HasTargets(ctx, images)
    requires ctx.variant.Basic? && ctx.centroidBase.Some?
    ensures BandEntries(ctx, images, bi, j) == BandList(ctx, bi, j)
  {
    if j > 0 {
      BasicBandEntries(ctx, images, bi, j - 1);
    }
  }

  lemma {:induction false} BasicPairList(ctx: DrawContext, images: map<string, Image>, k: nat)
    requires ContextOk(ctx) && k <= |ctx.bands| && HasTargets(ctx, images)
    requires ctx.variant.Basic? && ctx.centroidBase.Some?
    ensures Entries(ctx, images, k) == PairList(ctx, k)
  {
    if k > 0 {
      BasicPairList(ctx, images, k - 1);
      BasicBandEntries(ctx, images, k - 1, |ctx.detectors|);
    }
  }

  lemma {:induction false} BandListAt(ctx: DrawContext, bi: int, j: nat)
    requires ContextOk(ctx) && 0 <= bi < |ctx.bands| && j <= |ctx.detectors|
    ensures |BandList(ctx, bi, j)| == j
    ensures forall i :: 0 <= i < j ==> BandList(ctx, bi, j)[i] == Entry(ctx, bi, ctx.detectors[i])
  {
    if j > 0 {
      BandListAt(ctx, bi, j - 1);
    }
  }

  /** Where entry (bi, j) falls relative to the last band's block of n entries. */
  lemma Offset(bi: nat, k: nat, n: nat, j: nat)
    requires bi < k && j < n
    ensures bi < k - 1 ==> bi * n + j < (k - 1) * n
    ensures bi == k - 1 ==> bi * n + j == (k - 1) * n + j
  {
    if bi < k - 1 {
      var m: nat := k - 2 - bi;
      assert (k - 1) * n == bi * n + n + m * n;
    }
  }

  lemma {:induction false} PairListLength(ctx: DrawContext, k: nat)
    requires ContextOk(ctx) && k <= |ctx.bands|
    ensures |PairList(ctx, k)| == k * |ctx.detectors|
  {
    if k > 0 {
      PairListLength(ctx, k - 1);
      BandListAt(ctx, k - 1, |ctx.detectors|);
      assert k * |ctx.detectors| == (k - 1) * |ctx.detectors| + |ctx.detectors|;
    }
  }

  lemma {:induction false} PairListAt(ctx: DrawContext, k: nat, bi: nat, j: nat)
    requires ContextOk(ctx) && k <= |ctx.bands|
    requires bi < k && j < |ctx.detectors|
    ensures bi * |ctx.detectors| + j < |PairList(ctx, k)|
    ensures PairList(ctx, k)[bi * |ctx.detectors| + j] == Entry(ctx, bi, ctx.detectors[j])
  {
    var n := |ctx.detectors|;
    var prev := PairList(ctx, k - 1);
    var band := BandList(ctx, k - 1, n);
    PairListLength(ctx, k - 1);
    BandListAt(ctx, k - 1, n);
    var p := bi * n + j;
    Offset(bi, k, n, j);
    if bi < k - 1 {
      PairListAt(ctx, k - 1, bi, j);
      assert (prev + band)[p] == prev[p];
    } else {
      assert (prev + band)[p] == band[j];
    }
  }

  /** In the base interpreter the centroid entries are exactly one per (band, detector)
      pair, band-major: the entry of band bi and detector j is at bi * |detectors| + j. */
  lemma BasicEntries(ctx: DrawContext, images: map<string, Image>, k: nat)
    requires ContextOk(ctx) && k <= |ctx.bands| && HasTargets(ctx, images)
    requires ctx.variant.Basic? && ctx.centroidBase.Some?
    ensures |Entries(ctx, images, k)| == k * |ctx.detectors|
    ensures forall bi, j :: 0 <= bi < k && 0 <= j < |ctx.detectors| ==>
              bi * |ctx.detectors| + j < |Entries(ctx, images, k)| &&
              Entries(ctx, images, k)[bi * |ctx.detectors| + j] == Entry(ctx, bi, ctx.detectors[j])
  {
    BasicPairList(ctx, images, k);
    PairListLength(ctx, k);
    forall bi, j | 0 <= bi < k && 0 <= j < |ctx.detectors|
      ensures bi * |ctx.detectors| + j < |PairList(ctx, k)| &&
              PairList(ctx, k)[bi * |ctx.detectors| + j] == Entry(ctx, bi, ctx.detectors[j])
    {
      PairListAt(ctx, k, bi, j);
    }
  }

  /** In the silicon interpreter a (band, detector) pair is drawn, and its centroid entry
      recorded when centroid files are written, exactly when its stamp bounds clipped to the
      image are defined. */
  lemma SiliconDrawn(ctx: DrawContext, images: map<string, Image>, bi: int, d: Detector)
    requires ContextOk(ctx) && 0 <= bi < |ctx.bands| && FileName(d, ctx.bands[bi]) in images
    requires ctx.variant.Silicon?
    ensures Drawn(ctx, images, bi, d) <==>
              Intersect(ctx.stamp(ctx.realized[bi], PixelPosition(ctx, d)),
                        ImageBounds(images[FileName(d, ctx.bands[bi])])).Defined()
  {
  }
}
