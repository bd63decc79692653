/** GalSimInterpreter: the images it accumulates, the objects it has drawn, its checkpoint
    file and its centroid files. */
module Interpreter {
  import opened Base
  import opened Geometry
  import opened Profiles
  import opened StampSizing
  import opened Dispatch
  import opened Checkpoint
  import opened CentroidLog
  import opened Drawing
  import opened Accumulator

  /** Every realised flux is zero (vacuously so without bands). */
  predicate AllZero(realized: seq<nat>) {
    forall i :: 0 <= i < |realized| ==> realized[i] == 0
  }

  /** What make_galsim_detector builds, by detector name: every detector is named by its
      key and has non-empty pixel bounds. */
  predicate BuiltOk(built: map<string, Detector>) {
    forall n {:trigger built[n]} :: n in built ==> built[n].name == n && WellFormed(built[n])
  }

  /** The blank image restore_checkpoint adds each saved key's array into: blankImage of
      the detector named by the unmangled key. */
  function Blanks(cache: map<string, Image>, built: map<string, Detector>, keys: set<string>): (r: map<string, Image>)
    requires BuiltOk(built)
    ensures r.Keys == keys
  {
    map key | key in keys :: BlankOf(cache, built, key)
  }

  function BlankOf(cache: map<string, Image>, built: map<string, Detector>, key: string): Image
    requires BuiltOk(built)
  {
    if |key| >= 7 && Unmangle(key).value in built then BlankFrom(cache, built[Unmangle(key).value]).0
    else Image(0, 0, [])
  }

  /** What restore_checkpoint demands of the saved record: every key unmangles to the name
      of a detector make_galsim_detector builds, and every saved array has the shape of that
      detector's blank image. */
  predicate RestorableRecord(cache: map<string, Image>, built: map<string, Detector>, rec: Record) {
    BuiltOk(built) &&
    (forall key {:trigger rec.images[key]} :: key in rec.images ==> |key| >= 7 && Unmangle(key).value in built) &&
    Restorable(Blanks(cache, built, rec.images.Keys), rec.images)
  }

  /** A blank-image cache grown from cache0 by blankImage on detectors make_galsim_detector
      builds: the old entries are kept and every new one is the blank image of the detector
      of its name. */
  ghost predicate CacheGrown(cache0: map<string, Image>, built: map<string, Detector>, cache: map<string, Image>)
    requires BuiltOk(built)
  {
    (forall n {:trigger cache0[n]} :: n in cache0 ==> n in cache && cache[n] == cache0[n]) &&
    (forall n {:trigger cache[n]} :: n in cache && n !in cache0 ==> n in built && cache[n] == Blank(built[n]))
  }

  /** restore_checkpoint part way through its loop, with the keys in todo still to visit:
      every visited saved key holds its blank image plus the saved array, every other key
      its image from before. */
  predicate PartlyRestored(images: map<string, Image>, before: map<string, Image>, blanks: map<string, Image>,
                           saved: map<string, seq<seq<real>>>, todo: set<string>) {
    Restorable(blanks, saved) && todo <= saved.Keys &&
    (forall k {:trigger before[k]} :: k in before ==> k in images) &&
    (forall k {:trigger saved[k]} :: k in saved && k !in todo ==> k in images) &&
    (forall k {:trigger images[k]} :: k in images ==>
       (k in before || (k in saved && k !in todo)) &&
       images[k] == if k in saved && k !in todo then Plus(blanks[k], saved[k]) else before[k])
  }

  lemma RestoredNone(before: map<string, Image>, blanks: map<string, Image>, saved: map<string, seq<seq<real>>>)
    requires Restorable(blanks, saved)
    ensures PartlyRestored(before, before, blanks, saved, saved.Keys)
  {
  }

  /** Visiting one more key. */
  lemma RestoredStep(images: map<string, Image>, before: map<string, Image>, blanks: map<string, Image>,
                     saved: map<string, seq<seq<real>>>, todo: set<string>, key: string)
    requires PartlyRestored(images, before, blanks, saved, todo) && key in todo
    ensures key in blanks && key in saved
    ensures PartlyRestored(images[key := Plus(blanks[key], saved[key])], before, blanks, saved, todo - {key})
  {
  }

  /** Once every saved key has been visited, the images are the old ones overwritten by the
      restored ones. */
  lemma RestoredAll(images: map<string, Image>, before: map<string, Image>,
                    blanks: map<string, Image>, saved: map<string, seq<seq<real>>>)
    requires PartlyRestored(images, before, blanks, saved, {})
    ensures images == before + Restored(blanks, saved)
  {
  }

  /** Restoring a record onto blank images gives back every saved array exactly. */
  lemma RestoredIsSaved(cache: map<string, Image>, built: map<string, Detector>, rec: Record)
    requires ZeroCache(cache) && RestorableRecord(cache, built, rec)
    ensures forall k :: k in rec.images ==> Restored(Blanks(cache, built, rec.images.Keys), rec.images)[k].pix == rec.images[k]
  {
    var blanks := Blanks(cache, built, rec.images.Keys);
    forall k | k in rec.images
      ensures Restored(blanks, rec.images)[k].pix == rec.images[k]
    {
      assert blanks[k] == BlankFrom(cache, built[Unmangle(k).value]).0;
      PlusZero(blanks[k], rec.images[k]);
    }
  }

  /** Every detector findAllDetectors selects is one of the configured ones. */
  lemma SelectedWellFormed(ds: seq<Detector>, b: Box)
    requires AllWellFormed(ds)
    ensures AllWellFormed(Selected(ds, b))
  {
    var sel := Selected(ds, b);
    forall j | 0 <= j < |sel|
      ensures WellFormed(sel[j])
    {
      SelectedMembers(ds, b, sel[j]);
    }
  }

  /** After _addNoiseAndBackground over a detector list every (band, detector) image of
      the list exists. */
  lemma InitHasTargets(s: InitState, ctx: DrawContext, noise: Option<Noise>)
    requires AllWellFormed(ctx.detectors)
    ensures HasTargets(ctx, InitDetectors(s, ctx.detectors, ctx.bands, noise).images)
  {
    InitDetectorsFacts(s, ctx.detectors, ctx.bands, noise);
    forall bi, j | 0 <= bi < |ctx.bands| && 0 <= j < |ctx.detectors|
      ensures FileName(ctx.detectors[j], ctx.bands[bi]) in Targets(ctx.detectors, ctx.bands)
    {
    }
  }

  class GalSimInterpreter {
    const detectors: seq<Detector>
    /** The bandpass names of bandpassDict, in its order. */
    const bands: seq<string>
    const noise: Option<Noise>
    /** The base interpreter, or GalSimSiliconInterpeter with its sky level. */
    const variant: Variant
    /** The camera's pupil-to-pixel map for this observation. */
    const pixelCoords: (Source, string) -> (real, real)
    var psf: Option<Psf>
    var rng: Rng
    var detectorImages: map<string, Image>
    var blankImageCache: map<string, Image>
    var checkpointFile: Option<string>
    var drawnObjects: set<int>
    var nobjCheckpoint: Pos
    var centroidBaseName: Option<string>
    var centroidHandles: Handles
    var centroidList: seq<CentroidEntry>
    /** The checkpoint files on disk by path: what the last rename put there. */
    var disk: map<string, Record>

    /** Every configured detector has non-empty pixel bounds and every cached image is the
        blank image of a detector of its name. */
    ghost predicate Valid()
      reads this
    {
      AllWellFormed(detectors) && ZeroCache(blankImageCache) && BlankCache(blankImageCache) && VariantOk(variant)
    }

    constructor (detectors: seq<Detector>, bands: seq<string>, variant: Variant, pixelCoords: (Source, string) -> (real, real),
                 noise: Option<Noise>, rng: Rng, disk: map<string, Record>)
      requires AllWellFormed(detectors) && VariantOk(variant)
      ensures Valid()
      ensures this.detectors == detectors && this.bands == bands && this.variant == variant
      ensures this.pixelCoords == pixelCoords && this.noise == noise && this.rng == rng
      ensures this.disk == disk
      ensures psf.None? && detectorImages == map[] && blankImageCache == map[] && checkpointFile.None?
      ensures drawnObjects == {} && nobjCheckpoint == 1000 && centroidBaseName.None?
      ensures centroidHandles == map[] && centroidList == []
    {
      this.detectors := detectors;
      this.bands := bands;
      this.noise := noise;
      this.variant := variant;
      this.pixelCoords := pixelCoords;
      this.rng := rng;
      this.disk := disk;
      psf := None;
      detectorImages := map[];
      blankImageCache := map[];
      checkpointFile := None;
      drawnObjects := {};
      nobjCheckpoint := 1000;
      centroidBaseName := None;
      centroidHandles := map[];
      centroidList := [];
    }

    method SetPSF(p: Option<Psf>)
      modifies this`psf
      ensures psf == p
    {
      psf := p;
    }

    /** _getFileName. */
    function GetFileName(d: Detector, band: string): (r: string)
      ensures |r| == |d.fileName| + |band| + 6 && r[..|d.fileName|] == d.fileName
    {
      FileName(d, band)
    }

    /** blankImage: a copy of the cached blank image of the detector's name, or a new one,
        cached. */
    method BlankImage(d: Detector) returns (img: Image)
      requires WellFormed(d)
      modifies this`blankImageCache
      ensures (img, blankImageCache) == BlankFrom(old(blankImageCache), d)
      ensures ZeroCache(old(blankImageCache)) ==> IsZero(img) && ZeroCache(blankImageCache)
    {
      if d.name in blankImageCache {
        img := blankImageCache[d.name];
      } else {
        img := Blank(d);
        blankImageCache := blankImageCache[d.name := img];
      }
    }

    /** write_checkpoint: without a checkpoint file nothing happens; otherwise, when forced or
        when the number of drawn objects is a multiple of nobj_checkpoint, the snapshot of the
        images' arrays, the rng, the drawn set (or object_list) and the centroid list
        replaces the file. */
    method WriteCheckpoint(force: bool, objectList: Option<set<int>>)
      modifies this`disk
      ensures disk == if checkpointFile.Some? && CommitDue(force, |drawnObjects|, nobjCheckpoint)
                      then old(disk)[checkpointFile.value := Snapshot(detectorImages, rng, drawnObjects, objectList, centroidList)]
                      else old(disk)
    {
      if checkpointFile.None? {
        return;
      }
      if force || |drawnObjects| % nobjCheckpoint == 0 {
        var rec := Snapshot(detectorImages, rng, drawnObjects, objectList, centroidList);
        disk := disk[checkpointFile.value := rec];
      }
    }

    /** The disk after _addNoiseAndBackground's forced checkpoints since the images had
        the keys `keys`: the last one holds the images as they are now. */
    ghost predicate ForcedCheckpoints(disk0: map<string, Record>, keys: set<string>)
      reads this
    {
      disk == if checkpointFile.Some? && noise.Some? && detectorImages.Keys != keys
              then disk0[checkpointFile.value := Snapshot(detectorImages, rng, drawnObjects, Some({}), centroidList)]
              else disk0
    }

    /** One (detector, band) iteration of _addNoiseAndBackground. */
    method AddPair(d: Detector, band: string)
      requires Valid() && WellFormed(d)
      modifies this`detectorImages, this`blankImageCache, this`disk
      ensures Valid() && old(detectorImages).Keys <= detectorImages.Keys
      ensures detectorImages.Keys == old(detectorImages).Keys ==> detectorImages == old(detectorImages)
      ensures InitState(detectorImages, blankImageCache) ==
              InitPair(InitState(old(detectorImages), old(blankImageCache)), d, band, noise)
      ensures ForcedCheckpoints(old(disk), old(detectorImages).Keys)
    {
      var name := GetFileName(d, band);
      if name !in detectorImages {
        var img := BlankImage(d);
        detectorImages := detectorImages[name := img];
        if noise.Some? {
          detectorImages := detectorImages[name := noise.value(detectorImages[name], band, d)];
          WriteCheckpoint(true, Some({}));
        }
      }
    }

    /** _addNoiseAndBackground's inner loop after the first k bands for one detector,
        started from the images and cache s0 and the disk disk0. */
    ghost predicate BandsInitAt(s0: InitState, d: Detector, k: nat, disk0: map<string, Record>)
      requires WellFormed(d) && k <= |bands|
      reads this
    {
      Valid() && s0.images.Keys <= detectorImages.Keys &&
      (detectorImages.Keys == s0.images.Keys ==> detectorImages == s0.images) &&
      InitState(detectorImages, blankImageCache) == InitBands(s0, d, bands, k, noise) &&
      ForcedCheckpoints(disk0, s0.images.Keys)
    }

    /** One turn of the inner loop: band bi for detector d. */
    method AddBandAt(d: Detector, bi: nat, ghost s0: InitState, ghost disk0: map<string, Record>)
      requires WellFormed(d) && bi < |bands| && BandsInitAt(s0, d, bi, disk0)
      modifies this`detectorImages, this`blankImageCache, this`disk
      ensures BandsInitAt(s0, d, bi + 1, disk0)
    {
      ghost var keys := detectorImages.Keys;
      ghost var disk1, images1 := disk, detectorImages;
      AddPair(d, bands[bi]);
      assert ForcedCheckpoints(disk0, s0.images.Keys) by {
        if detectorImages.Keys == keys {
          assert disk == disk1 && detectorImages == images1;
        } else if checkpointFile.Some? && noise.Some? {
          var snap := Snapshot(detectorImages, rng, drawnObjects, Some({}), centroidList);
          assert disk == disk1[checkpointFile.value := snap];
          if keys != s0.images.Keys {
            var prev := Snapshot(images1, rng, drawnObjects, Some({}), centroidList);
            assert disk1 == disk0[checkpointFile.value := prev];
            assert disk0[checkpointFile.value := prev][checkpointFile.value := snap] == disk0[checkpointFile.value := snap];
          }
        }
      }
    }

    /** _addNoiseAndBackground's inner loop, over the bands for one detector. */
    method AddBands(d: Detector)
      requires Valid() && WellFormed(d)
      modifies this`detectorImages, this`blankImageCache, this`disk
      ensures Valid() && old(detectorImages).Keys <= detectorImages.Keys
      ensures detectorImages.Keys == old(detectorImages).Keys ==> detectorImages == old(detectorImages)
      ensures InitState(detectorImages, blankImageCache) ==
              InitBands(InitState(old(detectorImages), old(blankImageCache)), d, bands, |bands|, noise)
      ensures ForcedCheckpoints(old(disk), old(detectorImages).Keys)
    {
      ghost var s0 := InitState(detectorImages, blankImageCache);
      var bi := 0;
      while bi < |bands|
        invariant bi <= |bands| && BandsInitAt(s0, d, bi, old(disk))
      {
        AddBandAt(d, bi, s0, old(disk));
        bi := bi + 1;
      }
    }

    /** _addNoiseAndBackground: for every listed detector and every band, an image not yet
        present is created from blankImage, with noise and background when a noise wrapper
        is set, and then a forced checkpoint records an empty drawn set. */
    method AddNoiseAndBackground(detectorList: seq<Detector>)
      requires Valid() && AllWellFormed(detectorList)
      modifies this`detectorImages, this`blankImageCache, this`disk
      ensures Valid()
      ensures InitState(detectorImages, blankImageCache) ==
              InitDetectors(InitState(old(detectorImages), old(blankImageCache)), detectorList, bands, noise)
      ensures ForcedCheckpoints(old(disk), old(detectorImages).Keys)
    {
      ghost var s0 := InitState(detectorImages, blankImageCache);
      var j := 0;
      while j < |detectorList|
        invariant 0 <= j <= |detectorList|
        invariant Valid() && s0.images.Keys <= detectorImages.Keys
        invariant InitState(detectorImages, blankImageCache) == InitDetectors(s0, detectorList[..j], bands, noise)
        invariant ForcedCheckpoints(old(disk), s0.images.Keys)
      {
        assert detectorList[..j + 1][..j] == detectorList[..j];
        ghost var keys, disk1, images1 := detectorImages.Keys, disk, detectorImages;
        AddBands(detectorList[j]);
        assert ForcedCheckpoints(old(disk), s0.images.Keys) by {
          if detectorImages.Keys == keys {
            assert disk == disk1 && detectorImages == images1;
          } else if checkpointFile.Some? && noise.Some? {
            var snap := Snapshot(detectorImages, rng, drawnObjects, Some({}), centroidList);
            assert disk == disk1[checkpointFile.value := snap];
            if keys != s0.images.Keys {
              var prev := Snapshot(images1, rng, drawnObjects, Some({}), centroidList);
              assert disk1 == old(disk)[checkpointFile.value := prev];
              assert old(disk)[checkpointFile.value := prev][checkpointFile.value := snap] == old(disk)[checkpointFile.value := snap];
            }
          }
        }
        j := j + 1;
      }
      assert detectorList[..j] == detectorList;
    }

    /** One (band, detector) iteration of drawObject's loops: locate the object on the
        detector, choose the window (the whole image, or in the silicon variant the stamp
        bounds clipped to the image, skipping the pair when that clip is empty), shoot the
        photons of the realised flux into it, and record the centroid entry when centroid
        files are written. */
    method DrawPair(ctx: DrawContext, bi: int, d: Detector)
      requires ContextOk(ctx) && 0 <= bi < |ctx.bands| && FileName(d, ctx.bands[bi]) in detectorImages
      requires ctx.centroidBase == centroidBaseName
      modifies this`detectorImages, this`rng, this`centroidList
      ensures DrawState(detectorImages, rng) == Step(ctx, DrawState(old(detectorImages), old(rng)), bi, d)
      ensures centroidList == old(centroidList) + PairEntries(ctx, old(detectorImages), bi, d)
    {
      var band := ctx.bands[bi];
      var name := GetFileName(d, band);
      var img := detectorImages[name];
      var placement := Placement(ctx, bi, d, ImageBounds(img));
      if placement.None? {
        return;
      }
      var (window, offset) := placement.value;
      var obj := WithFlux(ctx.centered, ctx.realized[bi] as real);
      var (stamp, rng') := ctx.eng.draw(DrawRequest(obj, d, band, offset, window, ctx.variant.Silicon?), rng);
      detectorImages := detectorImages[name := AddInto(img, window, stamp)];
      rng := rng';
      if centroidBaseName.Some? {
        centroidList := centroidList + [Entry(ctx, bi, d)];
      }
    }

    /** One turn of drawObject's inner loop: the next listed detector of band bi. */
    method DrawNext(ctx: DrawContext, ghost s0: DrawState, ghost images0: map<string, Image>, bi: int, j: nat,
                    ghost prefix: seq<CentroidEntry>)
      requires BandAt(ctx, s0, images0, bi, j, DrawState(detectorImages, rng)) && j < |ctx.detectors|
      requires centroidList == prefix + BandEntries(ctx, images0, bi, j)
      requires ctx.centroidBase == centroidBaseName
      modifies this`detectorImages, this`rng, this`centroidList
      ensures BandAt(ctx, s0, images0, bi, j + 1, DrawState(detectorImages, rng))
      ensures centroidList == prefix + BandEntries(ctx, images0, bi, j + 1)
    {
      BandStep(ctx, s0, images0, bi, j, DrawState(detectorImages, rng), prefix);
      DrawPair(ctx, bi, ctx.detectors[j]);
    }

    /** drawObject's inner loop: every listed detector in band bi, in list order. The
        centroid entries depend only on the bounds of the images, here those of images0. */
    method DrawBand(ctx: DrawContext, bi: int, ghost images0: map<string, Image>)
      requires ContextOk(ctx) && 0 <= bi < |ctx.bands| && TargetBounds(ctx, detectorImages, images0)
      requires ctx.centroidBase == centroidBaseName
      modifies this`detectorImages, this`rng, this`centroidList
      ensures BandAt(ctx, DrawState(old(detectorImages), old(rng)), images0, bi, |ctx.detectors|, DrawState(detectorImages, rng))
      ensures centroidList == old(centroidList) + BandEntries(ctx, images0, bi, |ctx.detectors|)
    {
      ghost var s0 := DrawState(detectorImages, rng);
      BandStart(ctx, s0, images0, bi);
      var j := 0;
      while j < |ctx.detectors|
        invariant BandAt(ctx, s0, images0, bi, j, DrawState(detectorImages, rng))
        invariant centroidList == old(centroidList) + BandEntries(ctx, images0, bi, j)
      {
        DrawNext(ctx, s0, images0, bi, j, old(centroidList));
        j := j + 1;
      }
    }

    /** drawObject's loops over bands and listed detectors, band-major: the images and the
        rng are those of the drawing loops' specification, and centroid_list grows by the
        entries of the pairs drawn. */
    method DrawAll(ctx: DrawContext)
      requires ContextOk(ctx) && HasTargets(ctx, detectorImages)
      requires ctx.centroidBase == centroidBaseName
      modifies this`detectorImages, this`rng, this`centroidList
      ensures DrawState(detectorImages, rng) == DrawBands(ctx, DrawState(old(detectorImages), old(rng)), |ctx.bands|)
      ensures centroidList == old(centroidList) + Entries(ctx, old(detectorImages), |ctx.bands|)
    {
      ghost var s0 := DrawState(detectorImages, rng);
      assert TargetBounds(ctx, detectorImages, s0.images);
      var bi := 0;
      while bi < |ctx.bands|
        invariant 0 <= bi <= |ctx.bands|
        invariant DrawState(detectorImages, rng) == DrawBands(ctx, s0, bi)
        invariant centroidList == old(centroidList) + Entries(ctx, s0.images, bi)
        invariant TargetBounds(ctx, detectorImages, s0.images)
      {
        DrawBand(ctx, bi, s0.images);
        assert centroidList == old(centroidList) + (Entries(ctx, s0.images, bi) + BandEntries(ctx, s0.images, bi, |ctx.detectors|));
        bi := bi + 1;
      }
    }

    /** The state after drawing on ctx's detectors from images0, cache0, rng0, disk0 and
        list0: _addNoiseAndBackground's images and cache, with the forced checkpoint when
        it created images under a noise wrapper; every band drawn in order on those
        images; the centroid entries appended; and the checkpoint written when one is due. */
    ghost predicate DrawnOn(ctx: DrawContext, images0: map<string, Image>, cache0: map<string, Image>, rng0: Rng,
                            disk0: map<string, Record>, list0: seq<CentroidEntry>)
      reads this
    {
      ContextOk(ctx) && AllWellFormed(ctx.detectors) && ctx.bands == bands &&
      var init := InitDetectors(InitState(images0, cache0), ctx.detectors, bands, noise);
      var forced := if checkpointFile.Some? && noise.Some? && init.images.Keys != images0.Keys
                    then disk0[checkpointFile.value := Snapshot(init.images, rng0, drawnObjects, Some({}), list0)]
                    else disk0;
      blankImageCache == init.cache && HasTargets(ctx, init.images) &&
      DrawState(detectorImages, rng) == DrawBands(ctx, DrawState(init.images, rng0), |bands|) &&
      centroidList == list0 + Entries(ctx, init.images, |bands|) &&
      disk == if checkpointFile.Some? && CommitDue(false, |drawnObjects|, nobjCheckpoint)
              then forced[checkpointFile.value := Snapshot(detectorImages, rng, drawnObjects, None, centroidList)]
              else forced
    }

    /** drawObject once the object is known to fall on ctx.detectors with some non-zero
        realised flux: the missing images are created, the loops over bands and detectors
        draw the object and record centroid entries, and an unforced checkpoint may be
        written. */
    method DrawOnDetectors(ctx: DrawContext)
      requires Valid() && ContextOk(ctx) && AllWellFormed(ctx.detectors)
      requires ctx.bands == bands && ctx.centroidBase == centroidBaseName
      modifies this`rng, this`detectorImages, this`blankImageCache, this`disk, this`centroidList
      ensures Valid()
      ensures DrawnOn(ctx, old(detectorImages), old(blankImageCache), old(rng), old(disk), old(centroidList))
    {
      AddNoiseAndBackground(ctx.detectors);
      InitHasTargets(InitState(old(detectorImages), old(blankImageCache)), ctx, noise);
      DrawAndCommit(ctx);
    }

    /** The drawing loops of drawObject followed by its unforced write_checkpoint. */
    method DrawAndCommit(ctx: DrawContext)
      requires ContextOk(ctx) && HasTargets(ctx, detectorImages)
      requires ctx.centroidBase == centroidBaseName
      modifies this`detectorImages, this`rng, this`centroidList, this`disk
      ensures DrawState(detectorImages, rng) == DrawBands(ctx, DrawState(old(detectorImages), old(rng)), |ctx.bands|)
      ensures centroidList == old(centroidList) + Entries(ctx, old(detectorImages), |ctx.bands|)
      ensures disk == if checkpointFile.Some? && CommitDue(false, |drawnObjects|, nobjCheckpoint)
                      then old(disk)[checkpointFile.value := Snapshot(detectorImages, rng, drawnObjects, None, centroidList)]
                      else old(disk)
    {
      DrawAll(ctx);
      WriteCheckpoint(false, None);
    }

    /** drawObject after findAllDetectors found the centred object and the detector list:
        the object is marked drawn and the realised fluxes are drawn from the rng; when they
        are all zero or the list is empty nothing else happens, and else the object is drawn
        on the listed detectors. */
    method DrawFound(src: Source, found: Found, eng: Engine, fluxes: seq<real>, realized: seq<nat>, rngAfter: Rng)
      requires Valid() && AllWellFormed(found.detectorList) && |fluxes| == |bands| && |realized| == |bands|
      modifies this`drawnObjects, this`rng, this`detectorImages, this`blankImageCache, this`disk, this`centroidList
      ensures Valid() && drawnObjects == old(drawnObjects) + {src.uniqueId}
      ensures AllZero(realized) || found.detectorList == [] ==>
                rng == rngAfter && detectorImages == old(detectorImages) &&
                blankImageCache == old(blankImageCache) && disk == old(disk) && centroidList == old(centroidList)
      ensures !AllZero(realized) && found.detectorList != [] ==>
                DrawnOn(ObjectContext(src, found.centeredObj, found.detectorList, bands, fluxes, realized, variant, eng,
                                      pixelCoords, centroidBaseName),
                        old(detectorImages), old(blankImageCache), rngAfter, old(disk), old(centroidList))
    {
      drawnObjects := drawnObjects + {src.uniqueId};
      rng := rngAfter;
      if AllZero(realized) || |found.detectorList| == 0 {
        return;
      }
      var ctx := ObjectContext(src, found.centeredObj, found.detectorList, bands, fluxes, realized, variant, eng,
                               pixelCoords, centroidBaseName);
      DrawOnDetectors(ctx);
    }

    /** drawObject, of either variant: findAllDetectors' failure leaves everything as it
        was; otherwise the object is drawn on the detectors found, as DrawFound says, and
        the result is findAllDetectors' output string. */
    method DrawObject(src: Source, eng: Engine, fluxes: seq<real>, realized: seq<nat>, rngAfter: Rng)
      returns (r: Result<Option<string>>)
      requires Valid() && |fluxes| == |bands| && |realized| == |bands|
      modifies this`drawnObjects, this`rng, this`detectorImages, this`blankImageCache, this`disk, this`centroidList
      ensures Valid()
      ensures var c := CreateCenteredObject(src, None, psf);
              c.Err? ==> r == Err(c.error) && drawnObjects == old(drawnObjects) && rng == old(rng) &&
                         detectorImages == old(detectorImages) && blankImageCache == old(blankImageCache) &&
                         disk == old(disk) && centroidList == old(centroidList)
      ensures var c := CreateCenteredObject(src, None, psf);
              c.Ok? ==> var list := Selected(detectors, SourceBox(eng, src, c.value, 10.0));
                        r == Ok(OutputString(list)) && drawnObjects == old(drawnObjects) + {src.uniqueId} &&
                        AllWellFormed(list)
      ensures var c := CreateCenteredObject(src, None, psf);
              c.Ok? ==> var list := Selected(detectors, SourceBox(eng, src, c.value, 10.0));
                        AllZero(realized) || list == [] ==>
                          rng == rngAfter && detectorImages == old(detectorImages) &&
                          blankImageCache == old(blankImageCache) && disk == old(disk) && centroidList == old(centroidList)
      ensures var c := CreateCenteredObject(src, None, psf);
              c.Ok? ==> var list := Selected(detectors, SourceBox(eng, src, c.value, 10.0));
                        !AllZero(realized) && list != [] ==>
                          DrawnOn(ObjectContext(src, c.value, list, bands, fluxes, realized, variant, eng, pixelCoords,
                                                centroidBaseName),
                                  old(detectorImages), old(blankImageCache), rngAfter, old(disk), old(centroidList))
    {
      var found := FindAllDetectors(detectors, src, psf, eng, 10.0);
      if found.Err? {
        return Err(found.error);
      }
      SelectedWellFormed(detectors, SourceBox(eng, src, found.value.centeredObj, 10.0));
      DrawFound(src, found.value, eng, fluxes, realized, rngAfter);
      return Ok(found.value.outputString);
    }

    /** One key of restore_checkpoint: the blank image of the detector of the key's
        unmangled name, plus the saved array. */
    method RestoreKey(key: string, saved: seq<seq<real>>, built: map<string, Detector>, ghost cache0: map<string, Image>)
      requires Valid() && BuiltOk(built) && |key| >= 7 && Unmangle(key).value in built
      requires CacheGrown(cache0, built, blankImageCache)
      requires var blank := BlankFrom(cache0, built[Unmangle(key).value]).0;
               Shaped(blank.pix, blank.width, blank.height) && Shaped(saved, blank.width, blank.height)
      modifies this`detectorImages, this`blankImageCache
      ensures Valid() && CacheGrown(cache0, built, blankImageCache)
      ensures blankImageCache.Keys == old(blankImageCache).Keys + {Unmangle(key).value}
      ensures detectorImages == old(detectorImages)[key := Plus(BlankFrom(cache0, built[Unmangle(key).value]).0, saved)]
    {
      var detector := built[Unmangle(key).value];
      var img := BlankImage(detector);
      assert img == BlankFrom(cache0, detector).0;
      detectorImages := detectorImages[key := Plus(img, saved)];
    }

    /** restore_checkpoint's loop over the saved keys, in no particular order: each key's
        image becomes the blank image of the detector of its unmangled name plus the saved
        array. The result does not depend on the order. */
    method RestoreImages(saved: map<string, seq<seq<real>>>, built: map<string, Detector>)
      requires Valid() && BuiltOk(built)
      requires forall key {:trigger saved[key]} :: key in saved ==> |key| >= 7 && Unmangle(key).value in built
      requires Restorable(Blanks(blankImageCache, built, saved.Keys), saved)
      modifies this`detectorImages, this`blankImageCache
      ensures Valid()
      ensures detectorImages == old(detectorImages) + Restored(Blanks(old(blankImageCache), built, saved.Keys), saved)
      ensures CacheGrown(old(blankImageCache), built, blankImageCache)
    {
      ghost var blanks := Blanks(blankImageCache, built, saved.Keys);
      RestoredNone(detectorImages, blanks, saved);
      var todo := saved.Keys;
      while todo != {}
        invariant Valid() && PartlyRestored(detectorImages, old(detectorImages), blanks, saved, todo)
        invariant CacheGrown(old(blankImageCache), built, blankImageCache)
        decreases todo
      {
        var key :| key in todo;
        RestoredStep(detectorImages, old(detectorImages), blanks, saved, todo, key);
        assert blanks[key] == BlankFrom(old(blankImageCache), built[Unmangle(key).value]).0;
        RestoreKey(key, saved[key], built, old(blankImageCache));
        todo := todo - {key};
      }
      RestoredAll(detectorImages, old(detectorImages), blanks, saved);
    }

    /** restore_checkpoint: without a checkpoint file, or when there is none on disk, nothing
        happens. Otherwise the saved images are rebuilt, and the rng, the drawn set and the
        centroid list are those saved. */
    method RestoreCheckpoint(built: map<string, Detector>)
      requires Valid()
      requires checkpointFile.Some? && checkpointFile.value in disk ==>
                 RestorableRecord(blankImageCache, built, disk[checkpointFile.value])
      modifies this`detectorImages, this`blankImageCache, this`rng, this`drawnObjects, this`centroidList
      ensures Valid()
      ensures checkpointFile.None? || checkpointFile.value !in disk ==>
                detectorImages == old(detectorImages) && blankImageCache == old(blankImageCache) &&
                rng == old(rng) && drawnObjects == old(drawnObjects) && centroidList == old(centroidList)
      ensures checkpointFile.Some? && checkpointFile.value in disk ==>
                var rec := disk[checkpointFile.value];
                detectorImages == old(detectorImages) + Restored(Blanks(old(blankImageCache), built, rec.images.Keys), rec.images) &&
                rng == rec.rng && drawnObjects == rec.drawnObjects && centroidList == rec.centroidObjects &&
                CacheGrown(old(blankImageCache), built, blankImageCache)
    ensures checkpointFile.Some? && checkpointFile.value in disk ==>
                var rec := disk[checkpointFile.value];
                forall k :: k in rec.images ==> k in detectorImages && detectorImages[k].pix == rec.images[k]
    {
      if checkpointFile.None? || checkpointFile.value !in disk {
        return;
      }
      var rec := disk[checkpointFile.value];
      rng, drawnObjects, centroidList := rec.rng, rec.drawnObjects, rec.centroidObjects;
      RestoreImages(rec.images, built);
      RestoredIsSaved(old(blankImageCache), built, rec);
    }

    /** open_centroid_file: a new handle for the centroid name, holding the header line.
        Without a centroid base name the file name cannot be formed and nothing changes. */
    method OpenCentroidFile(name: string, visit: string) returns (err: Option<Error>)
      modifies this`centroidHandles
      ensures centroidBaseName.None? ==> err == Some(NoCentroidBaseName) && centroidHandles == old(centroidHandles)
      ensures centroidBaseName.Some? ==>
                err.None? &&
                centroidHandles == old(centroidHandles)[name := Handle(CentroidPath(centroidBaseName.value, visit, name), [Header], true)]
    {
      if centroidBaseName.None? {
        return Some(NoCentroidBaseName);
      }
      centroidHandles := centroidHandles[name := Handle(CentroidPath(centroidBaseName.value, visit, name), [Header], true)];
      err := None;
    }

    /** _writeObjectToCentroidFile: the handles WriteEntry describes, or, on its error,
        the handles as they were. */
    method WriteObjectToCentroidFile(e: CentroidEntry, visit: string) returns (err: Option<Error>)
      modifies this`centroidHandles
      ensures match WriteEntry(old(centroidHandles), centroidBaseName, visit, e)
              case Ok(hs) => err.None? && centroidHandles == hs
              case Err(x) => err == Some(x) && centroidHandles == old(centroidHandles)
    {
      var name := CentroidName(e);
      if name !in centroidHandles {
        err := OpenCentroidFile(name, visit);
        if err.Some? {
          return;
        }
      }
      var h := centroidHandles[name];
      if !h.isOpen {
        return Some(ClosedCentroidFile(name));
      }
      centroidHandles := centroidHandles[name := h.(lines := h.lines + [RowOf(e)])];
      err := None;
    }

    /** The closing loop of write_centroid_files. */
    method CloseCentroidFiles()
      modifies this`centroidHandles
      ensures centroidHandles == CloseAll(old(centroidHandles))
    {
      var todo := centroidHandles.Keys;
      while todo != {}
        invariant todo <= centroidHandles.Keys && centroidHandles.Keys == old(centroidHandles).Keys
        invariant forall n {:trigger centroidHandles[n]} :: n in centroidHandles ==>
                    centroidHandles[n] == if n in todo then old(centroidHandles)[n] else old(centroidHandles)[n].(isOpen := false)
        decreases todo
      {
        var name :| name in todo;
        centroidHandles := centroidHandles[name := centroidHandles[name].(isOpen := false)];
        todo := todo - {name};
      }
    }

    /** write_centroid_files: the entries of centroid_list written in order, then every
        handle closed. An error stops the writing and leaves the handles reached open. */
    method WriteCentroidFiles(visit: string) returns (err: Option<Error>)
      modifies this`centroidHandles
      ensures var (hs, e) := WriteAll(old(centroidHandles), centroidBaseName, visit, centroidList);
              err == e && centroidHandles == if e.None? then CloseAll(hs) else hs
    {
      var i := 0;
      while i < |centroidList|
        invariant 0 <= i <= |centroidList|
        invariant WriteAll(old(centroidHandles), centroidBaseName, visit, centroidList) ==
                  WriteAll(centroidHandles, centroidBaseName, visit, centroidList[i..])
      {
        assert centroidList[i..][1..] == centroidList[i + 1..];
        err := WriteObjectToCentroidFile(centroidList[i], visit);
        if err.Some? {
          return;
        }
        i := i + 1;
      }
      CloseCentroidFiles();
      err := None;
    }
  }
}
