/** Celestial sources, the light profiles built for them, and GalSim as an oracle. */
module Profiles {
  import opened Base
  import opened Geometry

  /** The fields of a GalSimCelestialObject that the interpreter itself reads. */
  datatype Source = Source(uniqueId: int, galSimType: string, xPupilArcsec: real, yPupilArcsec: real)

  datatype Kind = Sersic | PointSource | RandomWalk | FitsImage

  /** The profile kinds createCenteredObject dispatches on (exact, case-sensitive names). */
  function KindOf(galSimType: string): (k: Option<Kind>)
  {
    if galSimType == "sersic" then Some(Sersic)
    else if galSimType == "pointSource" then Some(PointSource)
    else if galSimType == "RandomWalk" then Some(RandomWalk)
    else if galSimType == "FitsImage" then Some(FitsImage)
    else None
  }

  predicate KnownType(galSimType: string) { KindOf(galSimType).Some? }

  /** The PSFs a profile can be convolved with: the one set by setPSF, the double-Gaussian
      proxy used for sizing extended objects, and the Kolmogorov+Gaussian PSF used for sizing
      point sources (with a tightened folding threshold, or GalSim's default when None). */
  datatype Psf = ConfiguredPsf(id: nat) | DoubleGaussianPsf | KolmogorovGaussianPsf(foldingThreshold: Option<real>)

  /** A centred GalSim object, described by how it was built: the source, its kind, whether
      the weak-lensing distortion was kept, the PSF it was convolved with, and the flux it was
      rescaled to by withFlux (None: nominal flux). Its light distribution is the engine's. */
  datatype Profile = Profile(source: Source, kind: Kind, lensed: bool, psf: Option<Psf>, flux: Option<real>)

  function WithFlux(p: Profile, f: real): (r: Profile)
    ensures r.flux == Some(f) && r.source == p.source && r.kind == p.kind && r.psf == p.psf
  {
    p.(flux := Some(f))
  }

  /** The opaque state of galsim.UniformDeviate. */
  datatype Rng = Rng(state: int)

  /** One photon-shooting drawImage call: the profile, the detector (gain, sensor), the band,
      the offset of the object, the sub-image drawn onto and whether the silicon sensor model
      and surface operations are used. */
  datatype DrawRequest = DrawRequest(profile: Profile, detector: Detector, band: string,
                                     offset: (real, real), window: Bounds, sensorModel: bool)

  /** GalSim, as far as the interpreter uses it: getGoodImageSize(pixel_scale), xValue(x, y),
      drawImage (the stamp it renders into the window and the advanced rng) and the default
      GSParams folding threshold. */
  datatype Engine = Engine(
    goodImageSize: (Profile, real) -> Pos,
    xValue: (Profile, real, real) -> real,
    draw: (DrawRequest, Rng) -> (seq<seq<real>>, Rng),
    defaultFoldingThreshold: real)

  /** drawPointSource: uses the given PSF, else the configured one, and fails without either. */
  function DrawPointSource(src: Source, psf: Option<Psf>, configured: Option<Psf>): (r: Result<Profile>)
    ensures r.Err? <==> psf.None? && configured.None?
    ensures r.Err? ==> r.error == NoPsf
    ensures r.Ok? ==> r.value.kind == PointSource && r.value.source == src && r.value.flux.None?
    ensures r.Ok? ==> r.value.psf == Some(if psf.Some? then psf.value else configured.value)
  {
    if psf.Some? then Ok(Profile(src, PointSource, false, psf, None))
    else if configured.Some? then Ok(Profile(src, PointSource, false, configured, None))
    else Err(NoPsf)
  }

  /** drawSersic and drawRandomWalk shear and lens the profile; drawFitsImage computes the
      lensed object but convolves and returns the unlensed one. An absent PSF
      leaves these profiles unconvolved. */
  function DrawExtended(src: Source, kind: Kind, psf: Option<Psf>, configured: Option<Psf>): (r: Profile)
    requires kind != PointSource
    ensures r.source == src && r.kind == kind && r.flux.None?
    ensures r.lensed <==> kind != FitsImage
    ensures r.psf == if psf.Some? then psf else configured
  {
    Profile(src, kind, kind != FitsImage, if psf.Some? then psf else configured, None)
  }

  /** createCenteredObject: dispatch on galSimType. */
  function CreateCenteredObject(src: Source, psf: Option<Psf>, configured: Option<Psf>): (r: Result<Profile>)
    ensures r.Ok? <==> (KnownType(src.galSimType) &&
                        (src.galSimType == "pointSource" ==> psf.Some? || configured.Some?))
    ensures !KnownType(src.galSimType) ==> r == Err(UnknownGalSimType(src.galSimType))
    ensures KnownType(src.galSimType) && r.Err? ==> r.error == NoPsf
    ensures r.Ok? ==> r.value.source == src && r.value.kind == KindOf(src.galSimType).value && r.value.flux.None?
    ensures r.Ok? ==> r.value.psf == (if psf.Some? then psf else configured)
    ensures r.Ok? ==> (r.value.lensed <==> src.galSimType in {"sersic", "RandomWalk"})
  {
    match KindOf(src.galSimType)
    case None => Err(UnknownGalSimType(src.galSimType))
    case Some(PointSource) => DrawPointSource(src, psf, configured)
    case Some(k) => Ok(DrawExtended(src, k, psf, configured))
  }

  /** ASCII lower-casing. str.lower() is Unicode-aware and may change a string's length,
      but no non-ASCII character lower-cases to a letter of "pointsource", so the only use,
      getStampBounds' `== "pointsource"` test, has the same outcome on every string. */
  function LowerChar(c: char): char {
    if 'A' <= c <= 'Z' then (c as int + 32) as char else c
  }

  function Lower(s: string): (r: string)
    ensures |r| == |s| && forall i :: 0 <= i < |s| ==> r[i] == LowerChar(s[i])
  {
    if s == [] then [] else [LowerChar(s[0])] + Lower(s[1..])
  }

  /** getStampBounds tests `galSimType.lower() == "pointsource"`; of the types that
      createCenteredObject accepts, only "pointSource" passes that test. */
  lemma {:induction false} PointSourceTestOnKnownTypes(t: string)
    requires KnownType(t)
    ensures Lower(t) == "pointsource" <==> t == "pointSource"
  {
    if t == "sersic" {
      assert Lower(t)[0] == 's';
    } else if t == "RandomWalk" {
      assert Lower(t)[0] == 'r';
    } else if t == "FitsImage" {
      assert Lower(t)[0] == 'f';
    } else {
      assert t == "pointSource";
      var l := Lower(t);
      assert l[5] == 's';
      assert l == "pointsource";
    }
  }
}
