/** The image accumulator: blankImage's cache of blank images by detector name, and
    _addNoiseAndBackground's creation of every (detector, band) image not yet present. */
module Accumulator {
  import opened Base
  import opened Geometry

  /** noiseWrapper.addNoiseAndBackground for one band and detector. */
  type Noise = (Image, string, Detector) -> Image

  /** What the initialisation changes: detectorImages and blankImageCache. */
  datatype InitState = InitState(images: map<string, Image>, cache: map<string, Image>)

  predicate AllWellFormed(ds: seq<Detector>) {
    forall j :: 0 <= j < |ds| ==> WellFormed(ds[j])
  }

  predicate ZeroCache(cache: map<string, Image>) {
    forall n :: n in cache ==> IsZero(cache[n])
  }

  /** Every cached image is the blank image of a detector of its name. */
  ghost predicate BlankCache(cache: map<string, Image>) {
    forall n :: n in cache ==> exists e :: WellFormed(e) && e.name == n && cache[n] == Blank(e)
  }

  /** blankImage: a copy of the image cached under the detector's name, or else a new
      blank image of the detector's size, which is cached. An entry, once cached, is
      never replaced. */
  function BlankFrom(cache: map<string, Image>, d: Detector): (r: (Image, map<string, Image>))
    requires WellFormed(d)
    ensures r.1.Keys == cache.Keys + {d.name} && r.1[d.name] == r.0
    ensures forall n :: n in cache ==> r.1[n] == cache[n]
    ensures d.name !in cache ==> r.0 == Blank(d)
    ensures ZeroCache(cache) ==> IsZero(r.0) && ZeroCache(r.1)
    ensures BlankCache(cache) ==> BlankCache(r.1)
  {
    if d.name in cache then (cache[d.name], cache)
    else (Blank(d), cache[d.name := Blank(d)])
  }

  /** One (detector, band) iteration: an image already present is kept; otherwise the
      blank image, with noise and background when a noise wrapper is set. */
  function InitPair(s: InitState, d: Detector, band: string, noise: Option<Noise>): (r: InitState)
    requires WellFormed(d)
    ensures r.images.Keys == s.images.Keys + {FileName(d, band)}
    ensures forall k :: k in s.images ==> r.images[k] == s.images[k]
    ensures r.cache.Keys >= s.cache.Keys && forall n :: n in s.cache ==> r.cache[n] == s.cache[n]
    ensures FileName(d, band) in s.images ==> r == s
    ensures FileName(d, band) !in s.images ==>
              r.images[FileName(d, band)] == if noise.Some? then noise.value(BlankFrom(s.cache, d).0, band, d)
                                             else BlankFrom(s.cache, d).0
  {
    var name := FileName(d, band);
    if name in s.images then s
    else
      var (blank, cache') := BlankFrom(s.cache, d);
      InitState(s.images[name := if noise.Some? then noise.value(blank, band, d) else blank], cache')
  }

  /** The inner loop over bands[..k] for one detector. */
  function InitBands(s: InitState, d: Detector, bands: seq<string>, k: nat, noise: Option<Noise>): InitState
    requires WellFormed(d) && k <= |bands|
  {
    if k == 0 then s else InitPair(InitBands(s, d, bands, k - 1, noise), d, bands[k - 1], noise)
  }

  /** _addNoiseAndBackground over a detector list, detector-major. */
  function InitDetectors(s: InitState, ds: seq<Detector>, bands: seq<string>, noise: Option<Noise>): InitState
    requires AllWellFormed(ds)
    decreases |ds|
  {
    if ds == [] then s
    else InitBands(InitDetectors(s, ds[..|ds| - 1], bands, noise), ds[|ds| - 1], bands, |bands|, noise)
  }

  /** The keys of one detector's images in bands[..k]. */
  function BandTargets(d: Detector, bands: seq<string>, k: nat): set<string>
    requires k <= |bands|
  {
    if k == 0 then {} else BandTargets(d, bands, k - 1) + {FileName(d, bands[k - 1])}
  }

  lemma {:induction false} BandTargetsMembers(d: Detector, bands: seq<string>, k: nat)
    requires k <= |bands|
    ensures BandTargets(d, bands, k) == set bi | 0 <= bi < k :: FileName(d, bands[bi])
  {
    if k > 0 {
      BandTargetsMembers(d, bands, k - 1);
      var pre := set bi | 0 <= bi < k - 1 :: FileName(d, bands[bi]);
      var all := set bi | 0 <= bi < k :: FileName(d, bands[bi]);
      assert all == pre + {FileName(d, bands[k - 1])} by {
        forall key | key in all ensures key in pre + {FileName(d, bands[k - 1])} {
          var bi :| 0 <= bi < k && key == FileName(d, bands[bi]);
          if bi < k - 1 { assert key in pre; }
        }
      }
    }
  }

  lemma TargetsSnoc(ds: seq<Detector>, bands: seq<string>)
    requires ds != []
    ensures Targets(ds, bands) == Targets(ds[..|ds| - 1], bands) + BandTargets(ds[|ds| - 1], bands, |bands|)
  {
    var pre, last := ds[..|ds| - 1], ds[|ds| - 1];
    BandTargetsMembers(last, bands, |bands|);
    forall key | key in Targets(ds, bands)
      ensures key in Targets(pre, bands) + BandTargets(last, bands, |bands|)
    {
      var bi, j :| 0 <= bi < |bands| && 0 <= j < |ds| && key == FileName(ds[j], bands[bi]);
      if j < |ds| - 1 {
        assert key == FileName(pre[j], bands[bi]);
      }
    }
    forall key | key in Targets(pre, bands)
      ensures key in Targets(ds, bands)
    {
      var bi, j :| 0 <= bi < |bands| && 0 <= j < |pre| && key == FileName(pre[j], bands[bi]);
      assert key == FileName(ds[j], bands[bi]);
    }
    forall key | key in BandTargets(last, bands, |bands|)
      ensures key in Targets(ds, bands)
    {
      var bi :| 0 <= bi < |bands| && key == FileName(last, bands[bi]);
      assert key == FileName(ds[|ds| - 1], bands[bi]);
    }
  }

  /** One detector's loop adds exactly its band images. */
  lemma {:induction false} InitBandsKeys(s: InitState, d: Detector, bands: seq<string>, k: nat, noise: Option<Noise>)
    requires WellFormed(d) && k <= |bands|
    ensures InitBands(s, d, bands, k, noise).images.Keys == s.images.Keys + BandTargets(d, bands, k)
  {
    if k > 0 {
      InitBandsKeys(s, d, bands, k - 1, noise);
    }
  }

  /** One detector's loop keeps every image and cache entry already there. */
  lemma {:induction false} InitBandsKeep(s: InitState, d: Detector, bands: seq<string>, k: nat, noise: Option<Noise>)
    requires WellFormed(d) && k <= |bands|
    ensures forall key :: key in s.images ==> (key in InitBands(s, d, bands, k, noise).images &&
                                           InitBands(s, d, bands, k, noise).images[key] == s.images[key])
    ensures forall n :: n in s.cache ==> (n in InitBands(s, d, bands, k, noise).cache &&
                                      InitBands(s, d, bands, k, noise).cache[n] == s.cache[n])
  {
    if k > 0 {
      InitBandsKeep(s, d, bands, k - 1, noise);
    }
  }

  /** With no noise wrapper and a cache of blank images, one detector's loop leaves only
      blank images and blank cache entries behind. */
  lemma {:induction false} InitBandsZero(s: InitState, d: Detector, bands: seq<string>, k: nat)
    requires WellFormed(d) && k <= |bands| && ZeroCache(s.cache)
    requires forall key :: key in s.images ==> IsZero(s.images[key])
    ensures ZeroCache(InitBands(s, d, bands, k, None).cache)
    ensures forall key :: key in InitBands(s, d, bands, k, None).images ==> IsZero(InitBands(s, d, bands, k, None).images[key])
  {
    if k > 0 {
      InitBandsZero(s, d, bands, k - 1);
    }
  }

  /** _addNoiseAndBackground adds exactly the images of the listed detectors in every band
      and keeps every image and cache entry already there. */
  lemma {:induction false} InitDetectorsFacts(s: InitState, ds: seq<Detector>, bands: seq<string>, noise: Option<Noise>)
    requires AllWellFormed(ds)
    decreases |ds|
    ensures InitDetectors(s, ds, bands, noise).images.Keys == s.images.Keys + Targets(ds, bands)
    ensures forall key :: key in s.images ==> InitDetectors(s, ds, bands, noise).images[key] == s.images[key]
    ensures forall n :: n in s.cache ==> (n in InitDetectors(s, ds, bands, noise).cache &&
                                      InitDetectors(s, ds, bands, noise).cache[n] == s.cache[n])
  {
    if ds != [] {
      var pre := ds[..|ds| - 1];
      InitDetectorsFacts(s, pre, bands, noise);
      InitBandsKeys(InitDetectors(s, pre, bands, noise), ds[|ds| - 1], bands, |bands|, noise);
      InitBandsKeep(InitDetectors(s, pre, bands, noise), ds[|ds| - 1], bands, |bands|, noise);
      TargetsSnoc(ds, bands);
    }
  }

  /** Without a noise wrapper, starting from blank images and a cache of blank images,
      every image and cache entry stays blank. */
  lemma {:induction false} InitDetectorsZero(s: InitState, ds: seq<Detector>, bands: seq<string>)
    requires AllWellFormed(ds) && ZeroCache(s.cache)
    requires forall key :: key in s.images ==> IsZero(s.images[key])
    decreases |ds|
    ensures ZeroCache(InitDetectors(s, ds, bands, None).cache)
    ensures forall key :: key in InitDetectors(s, ds, bands, None).images ==> IsZero(InitDetectors(s, ds, bands, None).images[key])
  {
    if ds != [] {
      var pre := ds[..|ds| - 1];
      InitDetectorsZero(s, pre, bands);
      InitBandsZero(InitDetectors(s, pre, bands, None), ds[|ds| - 1], bands, |bands|);
    }
  }

  /** The cache holds nothing under d's name, or d's own blank image. */
  predicate FitsCache(cache: map<string, Image>, d: Detector)
    requires WellFormed(d)
  {
    d.name in cache ==> cache[d.name] == Blank(d)
  }

  /** Without a noise wrapper, when the cache fits d, every image one detector's loop creates
      is d's blank image; all of d's images exist afterwards; the only new cache entry is
      d's, and it still fits. */
  lemma {:induction false} InitBandsBlank(s: InitState, d: Detector, bands: seq<string>, k: nat)
    requires WellFormed(d) && k <= |bands| && FitsCache(s.cache, d)
    ensures FitsCache(InitBands(s, d, bands, k, None).cache, d)
    ensures forall n :: n in InitBands(s, d, bands, k, None).cache && n !in s.cache ==> n == d.name
    ensures forall key :: key in InitBands(s, d, bands, k, None).images && key !in s.images ==>
              (exists b :: b in bands && key == FileName(d, b)) &&
              InitBands(s, d, bands, k, None).images[key] == Blank(d)
  {
    if k > 0 {
      InitBandsBlank(s, d, bands, k - 1);
    }
  }

  /** Detectors are told apart by their names and by their image keys, as a camera's are. */
  predicate Distinct(ds: seq<Detector>, bands: seq<string>) {
    (forall d, e :: d in ds && e in ds && d.name == e.name ==> d == e) &&
    (forall d, e, b, c :: d in ds && e in ds && b in bands && c in bands && FileName(d, b) == FileName(e, c)
       ==> d == e)
  }

  /** The cache fits every listed detector. */
  predicate AllFit(cache: map<string, Image>, ds: seq<Detector>) {
    forall d :: d in ds ==> WellFormed(d) && FitsCache(cache, d)
  }

  /** What InitDetectorsBlank says of the state r reached from s over ds. */
  predicate BlankCreated(s: InitState, r: InitState, ds: seq<Detector>, bands: seq<string>) {
    AllFit(r.cache, ds) &&
    (forall n :: n in r.cache && n !in s.cache ==> exists d :: d in ds && d.name == n) &&
    (forall key :: key in r.images && key !in s.images ==>
       exists d, b :: d in ds && WellFormed(d) && b in bands && key == FileName(d, b) && r.images[key] == Blank(d))
  }

  /** Once the first detectors' images are blank, a last detector whose name is new or fits
      finds the cache fitting it. */
  lemma MidFits(s: InitState, mid: InitState, pre: seq<Detector>, last: Detector, bands: seq<string>)
    requires Distinct(pre + [last], bands) && AllFit(s.cache, pre + [last])
    requires BlankCreated(s, mid, pre, bands)
    requires forall n :: n in s.cache ==> n in mid.cache && mid.cache[n] == s.cache[n]
    ensures WellFormed(last) && FitsCache(mid.cache, last)
  {
    assert last in pre + [last];
    if last.name in mid.cache && last.name !in s.cache {
      var d :| d in pre && d.name == last.name;
      assert d in pre + [last];
    }
  }

  /** Adding the last detector's loop to the first detectors' keeps BlankCreated. */
  lemma BlankStep(s: InitState, mid: InitState, r: InitState, pre: seq<Detector>, last: Detector, bands: seq<string>)
    requires WellFormed(last) && Distinct(pre + [last], bands) && AllFit(s.cache, pre + [last])
    requires BlankCreated(s, mid, pre, bands)
    requires forall n :: n in s.cache ==> n in mid.cache && mid.cache[n] == s.cache[n]
    requires FitsCache(r.cache, last)
    requires forall n :: n in r.cache && n !in mid.cache ==> n == last.name
    requires forall key :: key in r.images && key !in mid.images ==>
               (exists b :: b in bands && key == FileName(last, b)) && r.images[key] == Blank(last)
    requires forall key :: key in mid.images ==> key in r.images && r.images[key] == mid.images[key]
    requires forall n :: n in mid.cache ==> n in r.cache && r.cache[n] == mid.cache[n]
    ensures BlankCreated(s, r, pre + [last], bands)
  {
    var ds := pre + [last];
    assert last in ds;
    forall d | d in ds ensures WellFormed(d) && FitsCache(r.cache, d) {
      if d != last {
        assert d in pre;
      }
    }
    forall n | n in r.cache && n !in s.cache ensures exists d :: d in ds && d.name == n {
      if n in mid.cache {
        var d :| d in pre && d.name == n;
        assert d in ds;
      }
    }
    forall key | key in r.images && key !in s.images
      ensures exists d, b :: d in ds && WellFormed(d) && b in bands && key == FileName(d, b) && r.images[key] == Blank(d)
    {
      if key in mid.images {
        var d, b :| d in pre && WellFormed(d) && b in bands && key == FileName(d, b) && mid.images[key] == Blank(d);
        assert d in ds;
      } else {
        var b :| b in bands && key == FileName(last, b);
      }
    }
  }

  /** Without a noise wrapper, and when the cache fits the listed detectors, every image
      _addNoiseAndBackground creates is the blank image of a listed detector, and every
      new cache entry is named after one. */
  lemma {:induction false} InitDetectorsBlankCreated(s: InitState, ds: seq<Detector>, bands: seq<string>)
    requires AllWellFormed(ds) && Distinct(ds, bands) && AllFit(s.cache, ds)
    decreases |ds|
    ensures BlankCreated(s, InitDetectors(s, ds, bands, None), ds, bands)
  {
    if ds != [] {
      var pre, last := ds[..|ds| - 1], ds[|ds| - 1];
      assert ds == pre + [last];
      var mid := InitDetectors(s, pre, bands, None);
      assert Distinct(pre, bands) && AllFit(s.cache, pre) by {
        forall d | d in pre ensures d in ds { }
      }
      InitDetectorsBlankCreated(s, pre, bands);
      InitDetectorsFacts(s, pre, bands, None);
      MidFits(s, mid, pre, last, bands);
      InitBandsBlank(mid, last, bands, |bands|);
      InitBandsKeep(mid, last, bands, |bands|, None);
      BlankStep(s, mid, InitBands(mid, last, bands, |bands|, None), pre, last, bands);
    }
  }

  /** Without a noise wrapper, and when the cache fits the listed detectors, every image
      _addNoiseAndBackground creates for a detector is that detector's blank image, of
      (xMaxPix-xMinPix+1) by (yMaxPix-yMinPix+1) zero pixels. */
  lemma InitDetectorsBlank(s: InitState, ds: seq<Detector>, bands: seq<string>, j: nat, bi: nat)
    requires AllWellFormed(ds) && Distinct(ds, bands) && AllFit(s.cache, ds)
    requires j < |ds| && bi < |bands| && FileName(ds[j], bands[bi]) !in s.images
    ensures FileName(ds[j], bands[bi]) in InitDetectors(s, ds, bands, None).images
    ensures var img := InitDetectors(s, ds, bands, None).images[FileName(ds[j], bands[bi])];
            img == Blank(ds[j]) && IsZero(img) &&
            img.width == ds[j].xMaxPix - ds[j].xMinPix + 1 && img.height == ds[j].yMaxPix - ds[j].yMinPix + 1
  {
    var key := FileName(ds[j], bands[bi]);
    InitDetectorsFacts(s, ds, bands, None);
    assert key in Targets(ds, bands);
    InitDetectorsBlankCreated(s, ds, bands);
    var r := InitDetectors(s, ds, bands, None);
    var d, b :| d in ds && WellFormed(d) && b in bands && key == FileName(d, b) && r.images[key] == Blank(d);
    assert ds[j] in ds && bands[bi] in bands;
  }

  /** Once every image of the listed detectors exists, one detector's loop changes nothing. */
  lemma {:induction false} InitBandsDone(s: InitState, d: Detector, bands: seq<string>, k: nat, noise: Option<Noise>)
    requires WellFormed(d) && k <= |bands|
    requires forall bi :: 0 <= bi < k ==> FileName(d, bands[bi]) in s.images
    ensures InitBands(s, d, bands, k, noise) == s
  {
    if k > 0 {
      InitBandsDone(s, d, bands, k - 1, noise);
    }
  }

  lemma {:induction false} InitDetectorsDone(s: InitState, ds: seq<Detector>, bands: seq<string>, noise: Option<Noise>)
    requires AllWellFormed(ds) && Targets(ds, bands) <= s.images.Keys
    decreases |ds|
    ensures InitDetectors(s, ds, bands, noise) == s
  {
    if ds != [] {
      var pre, last := ds[..|ds| - 1], ds[|ds| - 1];
      TargetsSnoc(ds, bands);
      InitDetectorsDone(s, pre, bands, noise);
      BandTargetsMembers(last, bands, |bands|);
      forall bi | 0 <= bi < |bands|
        ensures FileName(last, bands[bi]) in s.images
      {
        assert FileName(last, bands[bi]) in BandTargets(last, bands, |bands|);
      }
      InitBandsDone(s, last, bands, |bands|, noise);
    }
  }

  /** Initialising is idempotent: a second _addNoiseAndBackground over the same detectors
      changes neither the images nor the cache. */
  lemma InitIdempotent(s: InitState, ds: seq<Detector>, bands: seq<string>, noise: Option<Noise>)
    requires AllWellFormed(ds)
    ensures InitDetectors(InitDetectors(s, ds, bands, noise), ds, bands, noise) == InitDetectors(s, ds, bands, noise)
  {
    InitDetectorsFacts(s, ds, bands, noise);
    InitDetectorsDone(InitDetectors(s, ds, bands, noise), ds, bands, noise);
  }
}
