# GalSimInterpreter bookkeeping, in Dafny

This project models the bookkeeping core of `GalSimInterpreter` and `GalSimSiliconInterpeter`,
which turn an instance catalog into per-detector, per-band FITS images. GalSim does the rendering
and is treated as an oracle. The model covers:

- **Detector dispatch.** `findAllDetectors` builds a box around the source's pupil position
  and keeps, in order, every detector the box strictly overlaps. It also builds the `//`-joined
  name string.
- **The image accumulator.**
  - `blankImage` caches one blank image per detector name.
  - `_addNoiseAndBackground` creates each `fileName_band.fits` image once.
  - `_getFileName` builds that key.
- **`drawObject`, both variants.** Each variant:
  - marks the source drawn;
  - returns early when every realised flux is zero or no detector was found;
  - creates the images it needs;
  - draws every (band, detector) pair, band-major;
  - records centroid entries;
  - runs the checkpoint cadence.

  The base interpreter draws on the whole image. The silicon interpreter draws on the stamp
  clipped to the image and skips the pair when the clip is empty.
- **The checkpoint protocol.**
  - `write_checkpoint` has a cadence, an optional force and a snapshot record that
    replaces the file wholesale.
  - `restore_checkpoint` rebuilds each image as the blank image of the unmangled detector
    name plus the saved array. It also restores the rng, the drawn set and the centroid list.
- **Stamp sizing.**
  - `getStampBounds` picks a size and builds the integer bounds.
  - `getGoodPhotImageSize` is a grow loop and then a shrink loop over a surface-brightness
    oracle.
- **Centroid files.** `write_centroid_files`, `_writeObjectToCentroidFile` and
  `open_centroid_file` write one header per `detector_band` file when it is first seen.
  Each file is a sequence of abstract lines.

## How GalSim and the collaborators are modelled

- **GalSim.** `Profiles.Engine` is a datatype of function values:
  `getGoodImageSize(pixel_scale)`, `xValue(x, y)`, the photon-shooting `drawImage`, and the
  default folding threshold.
  - `drawImage` returns the stamp it renders into the window, together with the advanced rng.
  - A centred object is modelled as a record of how it was built (`Profiles.Profile`).
- **Rng and Poisson draws.** The rng is an opaque value. The Poisson draws are inputs:
  - the realised fluxes;
  - the rng after they were drawn.

  The nominal fluxes `gsObject.flux(band)` are an unconstrained input of `DrawObject` too.
  They are recorded in the centroid entries.
- **Other collaborators.** These are function values or maps:
  - the camera's pupil-to-pixel map;
  - the noise wrapper;
  - the detectors `make_galsim_detector` builds, given as a map from name to detector.
- **The file system.** The committed checkpoint files are the field `disk`, a map from path
  to record, so the atomic rename is a single map update. The centroid handles are a map
  from centroid name to a handle holding its lines.
- **Algorithms.** The loops of the source are `while` loops in Dafny methods. Each is proved
  against a recursive function and lemmas about it:
  - `Accumulator.InitDetectors` for `_addNoiseAndBackground`;
  - `Drawing.DrawBands` and `Drawing.Entries` for the drawing loops;
  - `StampSizing.Grow` and `StampSizing.Shrink` for `getGoodPhotImageSize`;
  - `CentroidLog.WriteAll` for `write_centroid_files`;
  - `Checkpoint.Restored` for `restore_checkpoint`.

The model follows the code as written in six places:
- `drawObject` does not skip a source whose id is already in the drawn set.
- The forced checkpoint of `_addNoiseAndBackground` records an empty drawn set.
- `drawFitsImage` returns the unlensed object.
- The name string of `findAllDetectors` stays empty for as long as the detector names are
  empty.
- An unknown galSimType ends in an error, though the source's message names an undefined
  variable.
- The base interpreter offsets the draw from the detector's pixel centre, while the silicon
  one offsets it from the true centre of the clipped bounds.

## Model

All paths are relative to the repository root; `galSimInterpreter.py` stands for
`python/lsst/sims/GalSimInterface/galSimInterpreter.py` in the prose, while the table cells
spell the path out.

| member | source | states |
|---|---|---|
| Geometry.IntersectContains | python/lsst/sims/GalSimInterface/galSimInterpreter.py:818 | the stamp clipped to the image holds exactly the pixels in both, and an empty stamp gives an empty clip |
| Geometry.Intersect | python/lsst/sims/GalSimInterface/galSimInterpreter.py:818 | the `&` of two BoundsI: the larger minima and smaller maxima, so the clip lies inside both |
| Geometry.Blank | python/lsst/sims/GalSimInterface/galSimInterpreter.py:237-238 | a new blank image is (xMaxPix-xMinPix+1) by (yMaxPix-yMinPix+1) and every pixel is zero |
| Geometry.Plus | python/lsst/sims/GalSimInterface/galSimInterpreter.py:634 | `image += array` keeps the shape and adds the array pixel by pixel |
| Geometry.PlusZero | python/lsst/sims/GalSimInterface/galSimInterpreter.py:633-634 | adding a saved array into a blank image gives back exactly the saved array |
| Geometry.AddIntoPixel | python/lsst/sims/GalSimInterface/galSimInterpreter.py:824-833 | drawing into a window keeps the image's shape, leaves every pixel outside the window unchanged and adds the stamp inside it |
| Geometry.AddInto | python/lsst/sims/GalSimInterface/galSimInterpreter.py:824-833 | drawImage with add_to_image on image[bounds]: the image keeps its width and height (AddIntoPixel gives the pixels) |
| Profiles.WithFlux | python/lsst/sims/GalSimInterface/galSimInterpreter.py:790 | withFlux sets the flux and keeps the source, kind and PSF |
| Profiles.DrawPointSource | python/lsst/sims/GalSimInterface/galSimInterpreter.py:335-349 | fails with the no-PSF error iff neither a PSF argument nor a configured PSF exists; otherwise it convolves with the argument if given, else with the configured PSF |
| Profiles.DrawExtended | python/lsst/sims/GalSimInterface/galSimInterpreter.py:351-449 | drawSersic, drawRandomWalk and drawFitsImage: the object keeps the source and kind, has no flux set, takes the PSF argument if given else the configured PSF, and is lensed iff the kind is not FitsImage (drawFitsImage returns the unlensed object at :441) |
| Profiles.CreateCenteredObject | python/lsst/sims/GalSimInterface/galSimInterpreter.py:451-479 | succeeds iff the type is one of the four exact names (and, for pointSource, a PSF exists); an unknown type is an error naming it; the result has the kind of its type and the PSF chosen as the drawers choose it; only sersic and RandomWalk keep the lensing |
| Profiles.Lower | python/lsst/sims/GalSimInterface/galSimInterpreter.py:884 | lower-casing maps every character and keeps the length |
| Profiles.PointSourceTestOnKnownTypes | python/lsst/sims/GalSimInterface/galSimInterpreter.py:884 | among the known types, the case-insensitive "pointsource" test holds exactly for "pointSource" |
| Dispatch.BoxAround | python/lsst/sims/GalSimInterface/galSimInterpreter.py:193-198 | the box has the given side on both axes and is centred on the pupil position |
| Dispatch.Selected | python/lsst/sims/GalSimInterface/galSimInterpreter.py:206-215 | the detectors the box overlaps, in configured order: never more than configured, and each one configured and overlapped (SelectedMembers gives the converse) |
| Dispatch.OutputString | python/lsst/sims/GalSimInterface/galSimInterpreter.py:210-218 | no detector gives None, and a string that is returned is never empty |
| Dispatch.SelectedMembers | python/lsst/sims/GalSimInterface/galSimInterpreter.py:206-215 | a detector is in the output list iff it is configured and the box strictly overlaps it on both axes |
| Dispatch.SelectedAppend | python/lsst/sims/GalSimInterface/galSimInterpreter.py:206-215 | selection distributes over concatenation, so the output list keeps the configured order |
| Dispatch.SelectedIgnoresOrder | python/lsst/sims/GalSimInterface/galSimInterpreter.py:206-215 | two configured lists with the same members select the same detectors |
| Dispatch.AccumulatedEmpty | python/lsst/sims/GalSimInterface/galSimInterpreter.py:210-213 | the accumulated string is empty iff every selected name is empty |
| Dispatch.OutputStringJoins | python/lsst/sims/GalSimInterface/galSimInterpreter.py:210-218 | with non-empty names the string is the names joined by '//', and the output is None iff the list is empty |
| Dispatch.FindAllDetectors | python/lsst/sims/GalSimInterface/galSimInterpreter.py:161-219 | fails as createCenteredObject fails; otherwise returns the centred object, exactly the overlapped detectors in order, and their output string |
| Checkpoint.Snapshot | python/lsst/sims/GalSimInterface/galSimInterpreter.py:581-586 | the record holds the array of every image under its key, the rng, object_list if given else the drawn set, and the centroid list |
| Checkpoint.CommitDue | python/lsst/sims/GalSimInterface/galSimInterpreter.py:576 | the cadence test: forced, or the drawn count is a multiple of nobj_checkpoint |
| Checkpoint.DueCountIsQuotient | python/lsst/sims/GalSimInterface/galSimInterpreter.py:576 | of the drawn-set sizes 1..n, exactly n / nobj_checkpoint pass the unforced cadence test |
| Checkpoint.Unmangle | python/lsst/sims/GalSimInterface/galSimInterpreter.py:627 | a key of seven or more characters unmangles to "R:a,b S:c,d" from its characters 1, 2, 5 and 6 |
| Checkpoint.UnmangleFileName | python/lsst/sims/GalSimInterface/galSimInterpreter.py:627 | unmangling any band's image key of an LSST sensor named "R:r,r S:s,s" with file name "Rrr_Sss" gives back the sensor's name |
| Checkpoint.Restored | python/lsst/sims/GalSimInterface/galSimInterpreter.py:625-634 | the rebuilt images: one per saved key, each with its blank image's width and height |
| Checkpoint.RestoreSnapshot | python/lsst/sims/GalSimInterface/galSimInterpreter.py:581-634 | restoring a snapshot onto blank images of the right shapes gives back exactly the images saved |
| StampSizing.EdgePoints | python/lsst/sims/GalSimInterface/galSimInterpreter.py:977-980 | the surface brightness is sampled at eight points: four edge midpoints and four corners |
| StampSizing.GrowMeasure | python/lsst/sims/GalSimInterface/galSimInterpreter.py:985 | each grow step brings N closer to 4096, so the grow loop ends |
| StampSizing.ShrinkMeasure | python/lsst/sims/GalSimInterface/galSimInterpreter.py:1003 | each shrink step from 70.4 or more lowers the integer part of N, so the shrink loop ends |
| StampSizing.Grow | python/lsst/sims/GalSimInterface/galSimInterpreter.py:974-985 | the size the grow loop stops at from n, never below n |
| StampSizing.Shrink | python/lsst/sims/GalSimInterface/galSimInterpreter.py:992-1003 | the size the shrink loop stops at from n, positive and never above n |
| StampSizing.PhotImageSize | python/lsst/sims/GalSimInterface/galSimInterpreter.py:967-1005 | int(N) after the grow loop, the 4096 cap and the shrink loop (bounds in PhotImageSizeBounds) |
| StampSizing.GrowStep | python/lsst/sims/GalSimInterface/galSimInterpreter.py:974-985 | the grow loop goes on to N*1.1 while N < 4096 and the largest sample is not below the level, and stops otherwise |
| StampSizing.ShrinkStep | python/lsst/sims/GalSimInterface/galSimInterpreter.py:992-1003 | the shrink loop goes on to N/1.1 while N >= 64*1.1 and the smaller box has no sample above the level, and stops otherwise |
| StampSizing.PostGrow | python/lsst/sims/GalSimInterface/galSimInterpreter.py:967-987 | after the grow loop and the cap, 1 <= N <= 4096 |
| StampSizing.GrowStops | python/lsst/sims/GalSimInterface/galSimInterpreter.py:974-985 | the grow loop never lowers N, overshoots 4096 by less than one step, and stops only at the cap or once every sample of the N x N box is below the level |
| StampSizing.ShrinkStops | python/lsst/sims/GalSimInterface/galSimInterpreter.py:992-1003 | the shrink loop never raises N, never takes it below 64 from 64 or more, and stops only below 64*1.1 or once the smaller box has a sample above the level |
| StampSizing.PhotImageSizeBounds | python/lsst/sims/GalSimInterface/galSimInterpreter.py:933-1005 | the photon-shooting size is between 1 and 4096, and at least 64 whenever N was at least 64 after the grow loop |
| StampSizing.GrowSize | python/lsst/sims/GalSimInterface/galSimInterpreter.py:974-985 | the grow loop ends at the size Grow specifies |
| StampSizing.ShrinkSize | python/lsst/sims/GalSimInterface/galSimInterpreter.py:992-1003 | the shrink loop ends at the size Shrink specifies |
| StampSizing.GetGoodPhotImageSize | python/lsst/sims/GalSimInterface/galSimInterpreter.py:933-1005 | the result is int() of N after both loops, at most 4096, and at least 64 whenever the post-grow N is at least 64 |
| StampSizing.FoldingThreshold | python/lsst/sims/GalSimInterface/galSimInterpreter.py:889-893 | a tightened folding threshold sky/flux is used iff it is below GalSim's default |
| StampSizing.ExtendedSide | python/lsst/sims/GalSimInterface/galSimInterpreter.py:903-922 | the extended object's side: GalSim's N, the keep-level size for flux > 10*N^2, and max(relaxed size, Nmax) above Nmax (bounds in ExtendedSideClamp) |
| StampSizing.StampSide | python/lsst/sims/GalSimInterface/galSimInterpreter.py:881-922 | a flux below 10 gives side 32, and a known type always gets a side |
| StampSizing.StampBounds | python/lsst/sims/GalSimInterface/galSimInterpreter.py:844-930 | a known type always gets stamp bounds |
| StampSizing.StampBoundsAt | python/lsst/sims/GalSimInterface/galSimInterpreter.py:925-930 | int(floor(pos) - side/2) .. int(ceil(pos) + side/2) on each axis, truncating toward zero (StampBoundsCover gives the cover) |
| StampSizing.ExtendedSideClamp | python/lsst/sims/GalSimInterface/galSimInterpreter.py:903-922 | the side never exceeds max(Nmax, the size at the relaxed level); a faint object (flux <= 10*N^2) keeps GalSim's N when N fits under Nmax; a first size above Nmax becomes max(relaxed size, Nmax); the side is between 1 and 4096 when Nmax is at most 4096 |
| StampSizing.StampBoundsCover | python/lsst/sims/GalSimInterface/galSimInterpreter.py:925-930 | xmin <= floor(x) <= ceil(x) <= xmax (and the same for y), so the bounds are defined and hold the object's pixel |
| StampSizing.GetStampBounds | python/lsst/sims/GalSimInterface/galSimInterpreter.py:844-930 | returns the bounds StampBounds specifies, which hold the object's pixel, and the 32-pixel stamp for a flux below 10 |
| Drawing.Placement | python/lsst/sims/GalSimInterface/galSimInterpreter.py:813-822 | the base interpreter draws on the whole image; the silicon one draws on a defined window inside the image, or not at all |
| Drawing.StampOf | python/lsst/sims/GalSimInterface/galSimInterpreter.py:813-815 | the silicon variant's stamp: getStampBounds at keep level sqrt(sky)/3 and large-object level three times that, with Nmax 1400 and pixel scale 0.2 |
| Drawing.Entry | python/lsst/sims/GalSimInterface/galSimInterpreter.py:304-305 | the centroid tuple of a pair: file name, band, uniqueId, the nominal (not realised) flux and the pixel position |
| Drawing.Step | python/lsst/sims/GalSimInterface/galSimInterpreter.py:281-300 | one (band, detector) draw: withFlux at the realised flux, the window of Placement, the photons added into it, the rng advanced; the image keys are kept |
| Drawing.DrawDetectors | python/lsst/sims/GalSimInterface/galSimInterpreter.py:792-839 | the inner loop over detectors for one band, folding Step; the image keys are kept |
| Drawing.DrawBands | python/lsst/sims/GalSimInterface/galSimInterpreter.py:278-306 | the outer loop over bands, folding DrawDetectors; the image keys are kept |
| Drawing.Entries | python/lsst/sims/GalSimInterface/galSimInterpreter.py:302-306 | the centroid entries of the loops, band-major (BasicEntries and SiliconDrawn give their contents) |
| Drawing.StepImages | python/lsst/sims/GalSimInterface/galSimInterpreter.py:824-833 | one draw keeps the bounds of every image and changes no image but its own |
| Drawing.DrawDetectorsImages | python/lsst/sims/GalSimInterface/galSimInterpreter.py:792-833 | one band keeps every image's bounds and changes only the (band, detector) images |
| Drawing.DrawBandsImages | python/lsst/sims/GalSimInterface/galSimInterpreter.py:278-300 | the drawing loops keep every image's bounds and change only the (band, detector) images |
| Drawing.DrawBandsBounds | python/lsst/sims/GalSimInterface/galSimInterpreter.py:278-300 | the drawing loops keep the keys and the bounds of all images |
| Drawing.PairEntriesStable | python/lsst/sims/GalSimInterface/galSimInterpreter.py:818-839 | whether a pair records an entry depends only on its image's bounds |
| Drawing.StepTargetBounds | python/lsst/sims/GalSimInterface/galSimInterpreter.py:818-833 | one draw keeps the bounds of every (band, detector) image |
| Drawing.BandStart | python/lsst/sims/GalSimInterface/galSimInterpreter.py:792 | the inner loop starts from the state it is given |
| Drawing.BandStep | python/lsst/sims/GalSimInterface/galSimInterpreter.py:792-839 | one turn of the inner loop advances the specified state and appends the entry read off the starting images |
| Drawing.NoBaseNoBandEntries | python/lsst/sims/GalSimInterface/galSimInterpreter.py:836-839 | without a centroid base name a band records no entry |
| Drawing.NoBaseNoEntries | python/lsst/sims/GalSimInterface/galSimInterpreter.py:302-306 | without a centroid base name no entry is recorded |
| Drawing.BasicBandEntries | python/lsst/sims/GalSimInterface/galSimInterpreter.py:279-306 | in the base interpreter, a band records one entry per detector, in list order |
| Drawing.BasicPairList | python/lsst/sims/GalSimInterface/galSimInterpreter.py:278-306 | in the base interpreter the entries are one per (band, detector) pair, band-major |
| Drawing.BandListAt | python/lsst/sims/GalSimInterface/galSimInterpreter.py:279-306 | that list for a band has one entry per detector, the j-th for detector j |
| Drawing.PairListLength | python/lsst/sims/GalSimInterface/galSimInterpreter.py:278-306 | that list has bands times detectors entries |
| Drawing.PairListAt | python/lsst/sims/GalSimInterface/galSimInterpreter.py:278-306 | the entry of band bi and detector j is at bi*|detectors|+j |
| Drawing.BasicEntries | python/lsst/sims/GalSimInterface/galSimInterpreter.py:278-306 | the base interpreter with a centroid base name records exactly one entry per (band, detector) pair, band-major and in list order, each the entry of its own pair with the nominal, not the realised, flux |
| Drawing.SiliconDrawn | python/lsst/sims/GalSimInterface/galSimInterpreter.py:818-839 | the silicon interpreter draws a pair, and records its entry, iff the stamp clipped to the image is defined |
| Accumulator.BlankFrom | python/lsst/sims/GalSimInterface/galSimInterpreter.py:221-242 | blankImage returns the cached image of the detector's name, or caches and returns a new blank one; no entry is replaced, and a cache of blank images stays blank |
| Accumulator.BlankCache | python/lsst/sims/GalSimInterface/galSimInterpreter.py:221-242 | the cache invariant: every cached image is the blank image of a detector of its name |
| Accumulator.InitPair | python/lsst/sims/GalSimInterface/galSimInterpreter.py:319-333 | one iteration adds exactly its key, never touches an existing image or cache entry, changes nothing when the key exists, and otherwise stores the detector's blankImage, passed through the noise wrapper when one is set |
| Accumulator.InitBands | python/lsst/sims/GalSimInterface/galSimInterpreter.py:318-333 | the inner loop over bands for one detector, folding InitPair (keys in InitBandsKeys) |
| Accumulator.InitDetectors | python/lsst/sims/GalSimInterface/galSimInterpreter.py:317-333 | _addNoiseAndBackground over the detector list, detector-major (keys in InitDetectorsFacts) |
| Accumulator.InitBandsKeys | python/lsst/sims/GalSimInterface/galSimInterpreter.py:318-321 | one detector's loop adds exactly its images in every band |
| Accumulator.InitBandsKeep | python/lsst/sims/GalSimInterface/galSimInterpreter.py:318-321 | one detector's loop keeps every existing image and cache entry |
| Accumulator.InitBandsZero | python/lsst/sims/GalSimInterface/galSimInterpreter.py:318-321 | without a noise wrapper, one detector's loop leaves only blank images |
| Accumulator.InitDetectorsFacts | python/lsst/sims/GalSimInterface/galSimInterpreter.py:311-333 | _addNoiseAndBackground adds exactly the keys fileName_band.fits of the listed detectors and keeps every existing image and cache entry |
| Accumulator.InitDetectorsZero | python/lsst/sims/GalSimInterface/galSimInterpreter.py:311-333 | without a noise wrapper every created image is blank |
| Accumulator.InitBandsDone | python/lsst/sims/GalSimInterface/galSimInterpreter.py:320 | once all of a detector's images exist, its loop changes nothing |
| Accumulator.InitDetectorsDone | python/lsst/sims/GalSimInterface/galSimInterpreter.py:320 | once all listed images exist, _addNoiseAndBackground changes nothing |
| Accumulator.InitIdempotent | python/lsst/sims/GalSimInterface/galSimInterpreter.py:311-333 | each image is created at most once: a second _addNoiseAndBackground over the same detectors changes nothing |
| Accumulator.InitBandsBlank | python/lsst/sims/GalSimInterface/galSimInterpreter.py:317-321 | without a noise wrapper and with a cache fitting the detector, every image one detector's loop creates is that detector's blank image, and only its cache entry is added |
| Accumulator.InitDetectorsBlankCreated | python/lsst/sims/GalSimInterface/galSimInterpreter.py:311-333 | without a noise wrapper and with a cache fitting the listed detectors, every created image is the blank image of a listed detector whose key it is |
| Accumulator.InitDetectorsBlank | python/lsst/sims/GalSimInterface/galSimInterpreter.py:311-333 | then each created image fileName_band.fits is exactly its detector's zero image of (xMaxPix-xMinPix+1) by (yMaxPix-yMinPix+1) pixels |
| CentroidLog.WriteEntry | python/lsst/sims/GalSimInterface/galSimInterpreter.py:525-548 | writing succeeds iff the file exists or a base name is set, and its handle is open; a new file gets the header first; the entry's line is appended to its own file only |
| CentroidLog.WriteAll | python/lsst/sims/GalSimInterface/galSimInterpreter.py:561-562 | the write loop over centroid_list, stopping at the first error: it never drops a handle, and an error needs an entry |
| CentroidLog.CloseAll | python/lsst/sims/GalSimInterface/galSimInterpreter.py:564-566 | closing keeps every handle's path and lines and closes it |
| CentroidLog.WriteAllSucceeds | python/lsst/sims/GalSimInterface/galSimInterpreter.py:561-562 | with a base name and open handles every entry is written, and the files are the old ones plus one per new centroid name |
| CentroidLog.WriteEntryExpected | python/lsst/sims/GalSimInterface/galSimInterpreter.py:540-548 | writing the first entry moves its line from the rows to come into its file |
| CentroidLog.WriteAllLines | python/lsst/sims/GalSimInterface/galSimInterpreter.py:561-562 | after the loop a file holds its old lines (or one header when new), then its entries' lines in list order |
| CentroidLog.OneHeaderPerFile | python/lsst/sims/GalSimInterface/galSimInterpreter.py:515-562 | starting with no handles, there is one file per centroid name at the open_centroid_file path, holding one header and then its rows in list order |
| CentroidLog.NoBaseName | python/lsst/sims/GalSimInterface/galSimInterpreter.py:515-516 | without a base name, the first entry of a new name is an error |
| CentroidLog.SecondWriteFails | python/lsst/sims/GalSimInterface/galSimInterpreter.py:550-566 | the centroid list is never cleared and the handles stay closed, so a second write_centroid_files fails on its first entry |
| Interpreter.Blanks | python/lsst/sims/GalSimInterface/galSimInterpreter.py:627-633 | there is one blank image for every saved key |
| Interpreter.RestoredNone | python/lsst/sims/GalSimInterface/galSimInterpreter.py:624-625 | restore_checkpoint's loop starts with every saved key still to visit |
| Interpreter.RestoredStep | python/lsst/sims/GalSimInterface/galSimInterpreter.py:625-634 | visiting one key rebuilds its image and keeps the rest |
| Interpreter.RestoredAll | python/lsst/sims/GalSimInterface/galSimInterpreter.py:624-634 | after the loop the images are the old ones overwritten by the restored ones, in any visiting order |
| Interpreter.RestoredIsSaved | python/lsst/sims/GalSimInterface/galSimInterpreter.py:624-634 | every restored image's pixels are exactly the saved array, since each blank image is zero |
| Interpreter.SelectedWellFormed | python/lsst/sims/GalSimInterface/galSimInterpreter.py:206-215 | every selected detector is a configured one |
| Interpreter.InitHasTargets | python/lsst/sims/GalSimInterface/galSimInterpreter.py:276 | after _addNoiseAndBackground every (band, detector) image of the list exists |
| Interpreter.GalSimInterpreter.constructor | python/lsst/sims/GalSimInterface/galSimInterpreter.py:47-97 | the initial state: no PSF, no images, an empty cache, no checkpoint file, nothing drawn, cadence 1000, no centroid base name, and no handles or entries |
| Interpreter.GalSimInterpreter.SetPSF | python/lsst/sims/GalSimInterface/galSimInterpreter.py:99-105 | the PSF is replaced |
| Interpreter.GalSimInterpreter.GetFileName | python/lsst/sims/GalSimInterface/galSimInterpreter.py:107-117 | the key starts with the detector's file name and is six characters longer than the name and band together |
| Interpreter.GalSimInterpreter.BlankImage | python/lsst/sims/GalSimInterface/galSimInterpreter.py:221-242 | the image and the new cache are those BlankFrom specifies, and the image is blank |
| Interpreter.GalSimInterpreter.WriteCheckpoint | python/lsst/sims/GalSimInterface/galSimInterpreter.py:568-595 | without a checkpoint file nothing happens; otherwise the snapshot replaces the file iff forced or the drawn count is a multiple of nobj_checkpoint |
| Interpreter.GalSimInterpreter.AddPair | python/lsst/sims/GalSimInterface/galSimInterpreter.py:319-333 | one iteration gives InitPair's images and cache, with a forced checkpoint only when it created the image under a noise wrapper |
| Interpreter.GalSimInterpreter.AddBandAt | python/lsst/sims/GalSimInterface/galSimInterpreter.py:318-333 | one turn of the band loop keeps the loop's specification |
| Interpreter.GalSimInterpreter.AddBands | python/lsst/sims/GalSimInterface/galSimInterpreter.py:318-333 | one detector's loop gives InitBands' state, and the disk holds the last forced snapshot if any image was created |
| Interpreter.GalSimInterpreter.AddNoiseAndBackground | python/lsst/sims/GalSimInterface/galSimInterpreter.py:311-333 | the images and cache are InitDetectors' state; the forced checkpoint, with an empty drawn set, is written iff an image was created and a noise wrapper is set |
| Interpreter.GalSimInterpreter.DrawPair | python/lsst/sims/GalSimInterface/galSimInterpreter.py:792-839 | one (band, detector) draw gives Step's state and appends its entry when it draws and a base name is set |
| Interpreter.GalSimInterpreter.DrawNext | python/lsst/sims/GalSimInterface/galSimInterpreter.py:792-839 | one turn of the inner loop keeps its specification |
| Interpreter.GalSimInterpreter.DrawBand | python/lsst/sims/GalSimInterface/galSimInterpreter.py:792-839 | one band gives DrawDetectors' state and appends that band's entries |
| Interpreter.GalSimInterpreter.DrawAll | python/lsst/sims/GalSimInterface/galSimInterpreter.py:278-306 | the drawing loops give DrawBands' state and append Entries, read off the images they start from |
| Interpreter.GalSimInterpreter.DrawAndCommit | python/lsst/sims/GalSimInterface/galSimInterpreter.py:278-308 | the drawing loops followed by the unforced checkpoint on the state they reach |
| Interpreter.GalSimInterpreter.DrawOnDetectors | python/lsst/sims/GalSimInterface/galSimInterpreter.py:276-308 | creating the images, drawing and committing give the state DrawnOn describes |
| Interpreter.GalSimInterpreter.DrawFound | python/lsst/sims/GalSimInterface/galSimInterpreter.py:263-308 | the source is always marked drawn; with all-zero fluxes or no detector nothing else changes, in particular no image, entry or checkpoint; otherwise the object is drawn as DrawnOn describes |
| Interpreter.GalSimInterpreter.DrawObject | python/lsst/sims/GalSimInterface/galSimInterpreter.py:244-309 | createCenteredObject's error leaves everything unchanged; otherwise the result is findAllDetectors' output string, the id is added to the drawn set, and the object is drawn as DrawFound says |
| Interpreter.GalSimInterpreter.RestoreKey | python/lsst/sims/GalSimInterface/galSimInterpreter.py:627-634 | a saved key's image becomes the blank image of its unmangled detector plus the saved array |
| Interpreter.GalSimInterpreter.RestoreImages | python/lsst/sims/GalSimInterface/galSimInterpreter.py:624-634 | the images become the old ones overwritten by the restored ones, and the cache only grows by blank images of built detectors |
| Interpreter.GalSimInterpreter.RestoreCheckpoint | python/lsst/sims/GalSimInterface/galSimInterpreter.py:597-637 | a no-op without a file; otherwise the images are rebuilt and every saved key's image holds exactly the saved array, and the rng, drawn set and centroid list are the saved ones |
| Interpreter.GalSimInterpreter.OpenCentroidFile | python/lsst/sims/GalSimInterface/galSimInterpreter.py:506-523 | the new handle is at base + visit + '_' + name + '.txt.gz' and holds the header; without a base name it is an error and nothing changes |
| Interpreter.GalSimInterpreter.WriteObjectToCentroidFile | python/lsst/sims/GalSimInterface/galSimInterpreter.py:525-548 | the handles become those WriteEntry gives; on its error they are unchanged |
| Interpreter.GalSimInterpreter.CloseCentroidFiles | python/lsst/sims/GalSimInterface/galSimInterpreter.py:564-566 | every handle is closed, keeping its path and lines |
| Interpreter.GalSimInterpreter.WriteCentroidFiles | python/lsst/sims/GalSimInterface/galSimInterpreter.py:550-566 | the handles are those WriteAll reaches and are then closed; an error stops the loop and leaves them open |

## Left out

- Pixel rendering, PSFs and profiles:
  - drawSersic, drawRandomWalk and drawFitsImage are modelled only by the kind, lensing,
    PSF and flux of the object they build;
  - GalSim's photon shooting is the `draw` oracle of `Profiles.Engine`.
- The sensor model is modelled only as a flag in the draw request. This covers:
  - the silicon interpreter's set-up (bandpass lookup tables, the double-Gaussian and
    Kolmogorov PSF parameters, SiliconSensor objects);
  - the per-pair sensor rng reset;
  - the surface operations (FRatioAngles, PhotonDCR, WavelengthSampler) and the hour angle.
- The observatory and astropy calls, WCS, pupil-coordinate conversions and
  `_doesObjectImpingeOnDetector` are foreign code with no bookkeeping.
- Poisson deviates are inputs of `DrawObject`. They are the realised fluxes and the rng after
  drawing them, since they are random.
- `np.sqrt` of the sky level is not computed. The silicon variant carries its keep level `k`
  with `9*k*k == sky` and `k >= 0`, because Dafny reals have no square root.
- Floating point is modelled as exact reals. The factor 1.1 and the divisions of
  getGoodPhotImageSize are not rounded.
- Pickling, tempfile, fsync, chmod and gzip are left out, because they are file I/O. A commit
  is one update of `disk`. A missing checkpoint file is a missing key of `disk`.
- The `{:15.5f}`-style formatting of centroid lines is left out, because it is float
  formatting. A line is a `CentroidLog.Line` value.
- The visit id `obs_metadata.OpsimMetaData['obshistID']` is a parameter of the centroid
  methods, because the observation metadata is not modelled.
- writeImages, getHourAngle, observatory and make_gs_interpreter are outside the modelled
  bookkeeping.
- The constructor's seeding of the rng from `seed` is left out, because the rng is opaque.
  So is the RuntimeError when `detectors` is None, because a Dafny sequence is never None.
- The noise wrapper is an oracle of the image, band and detector. Its m5, seeing and
  photParams arguments are not modelled.
- `make_galsim_detector` is given as the map `built` from detector name to detector.
- `Interpreter.GalSimInterpreter.RestoreCheckpoint` requires:
  - that every saved key has at least seven characters and unmangles to a built detector;
  - that every saved array has that detector's shape.

  On a shorter key the source raises while formatting the name, and make_galsim_detector
  fails on an unknown name. Those error paths are not modelled.
- `Interpreter.GalSimInterpreter.RestoreImages` visits the saved keys in an arbitrary order
  rather than in the pickled dict's order. Its result does not depend on the order.
- getStampBounds' RuntimeError for an unknown type is modelled in `StampSizing.StampSide`,
  but `Drawing.StampOf` does not carry it. It cannot arise inside the silicon `drawObject`,
  because `findAllDetectors` has already built the object, so the type is known.
- The silicon interpreter with its sky level unset is not modelled. `__init__` leaves
  `sky_bg_per_pixel` at None, and `np.sqrt(None)` then raises a TypeError in `drawObject`.
  By then the id is marked drawn, the images are created and forced checkpoints are written.
  `Drawing.Variant.Silicon` always carries a sky level.
- An `nobj_checkpoint` of zero is not modelled. The source raises ZeroDivisionError there on
  any unforced `write_checkpoint` with a checkpoint file set. The field has type `Pos`.
- `Checkpoint.DueCountIsQuotient` counts cadence hits over drawn-set sizes only. `drawObject`
  skips `write_checkpoint` on its two early exits (all-zero fluxes, no detector), and a
  re-drawn id does not grow the drawn set. So the commits of a run are not simply one per
  nobj_checkpoint calls.
- `Accumulator.InitDetectorsBlank` requires that:
  - detectors are told apart by their names and by their image keys;
  - the cache holds, under a detector's name, nothing or that detector's blank image;
  - no noise wrapper is set, since noise images are the wrapper's output.
- `StampSizing.GetGoodPhotImageSize` takes `np.max` of the samples as `StampSizing.MaxOver`,
  a right fold of `max`.
- `Interpreter.GalSimInterpreter.DrawObject`: createCenteredObject's error for an unknown
  type is a single error value. In the source, the message refers to an undefined name, so a
  NameError is raised instead of the RuntimeError. Either way the call fails before any
  state changes.
