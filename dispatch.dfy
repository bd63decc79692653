/** findAllDetectors: which detectors a source may cast light on. */
module Dispatch {
  import opened Base
  import opened Geometry
  import opened Profiles

  /** An axis-aligned box in pupil arcseconds. */
  datatype Box = Box(xmin: real, xmax: real, ymin: real, ymax: real)

  /** The box of the given side centred on (x, y). */
  function BoxAround(x: real, y: real, side: real): (b: Box)
    ensures b.xmax - b.xmin == side && b.ymax - b.ymin == side
    ensures (b.xmin + b.xmax) / 2.0 == x && (b.ymin + b.ymax) / 2.0 == y
  {
    Box(x - side / 2.0, x + side / 2.0, y - side / 2.0, y + side / 2.0)
  }

  /** The test of findAllDetectors: strict overlap of the 1-D intervals on both axes. */
  predicate Overlaps(b: Box, d: Detector) {
    MinR(b.xmax, d.xMaxArcsec) > MaxR(b.xmin, d.xMinArcsec) &&
    MinR(b.ymax, d.yMaxArcsec) > MaxR(b.ymin, d.yMinArcsec)
  }

  /** The detectors of ds that the box overlaps, in the order of ds. */
  function Selected(ds: seq<Detector>, b: Box): (r: seq<Detector>)
    ensures |r| <= |ds|
    ensures forall i :: 0 <= i < |r| ==> r[i] in ds && Overlaps(b, r[i])
  {
    if ds == [] then []
    else Selected(ds[..|ds| - 1], b) + (if Overlaps(b, ds[|ds| - 1]) then [ds[|ds| - 1]] else [])
  }

  /** One step of the name accumulation: '//' only once the string is non-empty. */
  function Accumulate(s: string, name: string): string {
    if s != "" then s + "//" + name else s + name
  }

  function AccumulatedNames(ds: seq<Detector>): string {
    if ds == [] then "" else Accumulate(AccumulatedNames(ds[..|ds| - 1]), ds[|ds| - 1].name)
  }

  /** The output string: the accumulated names, or None when nothing was accumulated. */
  function OutputString(ds: seq<Detector>): (r: Option<string>)
    ensures ds == [] ==> r.None?
    ensures r.Some? ==> r.value != ""
  {
    var s := AccumulatedNames(ds);
    if s == "" then None else Some(s)
  }

  /** The names joined by '//'. */
  function JoinNames(ds: seq<Detector>): string {
    if |ds| == 0 then ""
    else if |ds| == 1 then ds[0].name
    else JoinNames(ds[..|ds| - 1]) + "//" + ds[|ds| - 1].name
  }

  /** A detector is selected iff it is among ds and the box overlaps it. */
  lemma {:induction false} SelectedMembers(ds: seq<Detector>, b: Box, d: Detector)
    ensures d in Selected(ds, b) <==> d in ds && Overlaps(b, d)
  {
    if ds != [] {
      var init := ds[..|ds| - 1];
      SelectedMembers(init, b, d);
      assert ds == init + [ds[|ds| - 1]];
    }
  }

  /** Selection distributes over concatenation, so it keeps the detectors' order. */
  lemma {:induction false} SelectedAppend(a: seq<Detector>, c: seq<Detector>, b: Box)
    ensures Selected(a + c, b) == Selected(a, b) + Selected(c, b)
    decreases |c|
  {
    if c == [] {
      assert a + c == a;
    } else {
      var init := c[..|c| - 1];
      assert (a + c)[..|a + c| - 1] == a + init;
      SelectedAppend(a, init, b);
    }
  }

  /** Two detector lists with the same members select the same detectors. */
  lemma SelectedIgnoresOrder(ds: seq<Detector>, es: seq<Detector>, b: Box)
    requires forall d :: d in ds <==> d in es
    ensures forall d :: d in Selected(ds, b) <==> d in Selected(es, b)
  {
    forall d
      ensures d in Selected(ds, b) <==> d in Selected(es, b)
    {
      SelectedMembers(ds, b, d);
      SelectedMembers(es, b, d);
    }
  }

  /** Nothing is accumulated exactly when every name is empty. */
  lemma {:induction false} AccumulatedEmpty(ds: seq<Detector>)
    ensures AccumulatedNames(ds) == "" <==> forall d :: d in ds ==> d.name == ""
  {
    if ds != [] {
      var init := ds[..|ds| - 1];
      AccumulatedEmpty(init);
      assert ds == init + [ds[|ds| - 1]];
      var s := AccumulatedNames(init);
      if s != "" {
        assert |Accumulate(s, ds[|ds| - 1].name)| >= |s| + 2;
      }
    }
  }

  /** With non-empty detector names, the output string is the names joined by '//', and it
      is None exactly when no detector is listed. */
  lemma {:induction false} OutputStringJoins(ds: seq<Detector>)
    requires forall d :: d in ds ==> d.name != ""
    ensures AccumulatedNames(ds) == JoinNames(ds)
    ensures OutputString(ds) == (if ds == [] then None else Some(JoinNames(ds)))
  {
    AccumulatedEmpty(ds);
    if |ds| > 1 {
      var init := ds[..|ds| - 1];
      assert forall d :: d in init ==> d in ds;
      OutputStringJoins(init);
      AccumulatedEmpty(init);
      assert ds[0] in init;
    } else if |ds| == 1 {
      assert ds[..0] == [];
    }
  }

  /** The three results of findAllDetectors. */
  datatype Found = Found(outputString: Option<string>, detectorList: seq<Detector>, centeredObj: Profile)

  /** The box findAllDetectors tests: GalSim's size at unit pixel scale (arcseconds) times
      the conservative factor, centred on the source's pupil position. */
  function SourceBox(eng: Engine, src: Source, centered: Profile, conservativeFactor: real): Box {
    BoxAround(src.xPupilArcsec, src.yPupilArcsec, eng.goodImageSize(centered, 1.0) as real * conservativeFactor)
  }

  /** findAllDetectors: create the centred object (or fail as createCenteredObject does),
      then keep, in order, every detector the box overlaps and accumulate their names. */
  method FindAllDetectors(detectors: seq<Detector>, src: Source, configuredPsf: Option<Psf>,
                          eng: Engine, conservativeFactor: real) returns (r: Result<Found>)
    ensures var c := CreateCenteredObject(src, None, configuredPsf);
            c.Err? ==> r == Err(c.error)
    ensures var c := CreateCenteredObject(src, None, configuredPsf);
            c.Ok? ==> r.Ok? && r.value.centeredObj == c.value &&
                      r.value.detectorList == Selected(detectors, SourceBox(eng, src, c.value, conservativeFactor)) &&
                      r.value.outputString == OutputString(r.value.detectorList)
  {
    var centered := CreateCenteredObject(src, None, configuredPsf);
    if centered.Err? {
      return Err(centered.error);
    }
    var sizeArcsec := eng.goodImageSize(centered.value, 1.0) as real;
    sizeArcsec := sizeArcsec * conservativeFactor;
    var xmax := src.xPupilArcsec + sizeArcsec / 2.0;
    var xmin := src.xPupilArcsec - sizeArcsec / 2.0;
    var ymax := src.yPupilArcsec + sizeArcsec / 2.0;
    var ymin := src.yPupilArcsec - sizeArcsec / 2.0;
    ghost var box := Box(xmin, xmax, ymin, ymax);
    assert box == SourceBox(eng, src, centered.value, conservativeFactor);

    var outputString: string := "";
    var outputList: seq<Detector> := [];
    var i := 0;
    while i < |detectors|
      invariant 0 <= i <= |detectors|
      invariant outputList == Selected(detectors[..i], box)
      invariant outputString == AccumulatedNames(outputList)
    {
      var dd := detectors[i];
      var xOverLaps := MinR(xmax, dd.xMaxArcsec) > MaxR(xmin, dd.xMinArcsec);
      var yOverLaps := MinR(ymax, dd.yMaxArcsec) > MaxR(ymin, dd.yMinArcsec);
      assert detectors[..i + 1][..i] == detectors[..i];
      if xOverLaps && yOverLaps {
        if outputString != "" {
          outputString := outputString + "//";
        }
        outputString := outputString + dd.name;
        assert outputList + [dd] == (outputList + [dd])[..|outputList|] + [dd];
        outputList := outputList + [dd];
      }
      i := i + 1;
    }
    assert detectors[..i] == detectors;
    var s: Option<string> := if outputString == "" then None else Some(outputString);
    r := Ok(Found(s, outputList, centered.value));
  }
}
