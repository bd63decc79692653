/** Detectors, integer pixel bounds and pixel buffers (GalSimDetector, galsim.BoundsI, galsim.Image). */
module Geometry {
  import opened Base

  /** The part of a GalSimDetector the interpreter reads: names, pixel bounds, pixel centre
      and the pupil-plane footprint in arcseconds. */
  datatype Detector = Detector(
    name: string,
    fileName: string,
    xMinPix: int, xMaxPix: int, yMinPix: int, yMaxPix: int,
    xCenterPix: real, yCenterPix: real,
    xMinArcsec: real, xMaxArcsec: real, yMinArcsec: real, yMaxArcsec: real)

  predicate WellFormed(d: Detector) {
    d.xMinPix <= d.xMaxPix && d.yMinPix <= d.yMaxPix
  }

  /** Key of the image of one detector in one band: detectorName_bandpassName.fits. */
  function FileName(d: Detector, band: string): string {
    d.fileName + "_" + band + ".fits"
  }

  /** The keys of the images of detectors ds in bands. */
  function Targets(ds: seq<Detector>, bands: seq<string>): set<string> {
    set bi, j | 0 <= bi < |bands| && 0 <= j < |ds| :: FileName(ds[j], bands[bi])
  }

  /** galsim.BoundsI; it is defined when neither axis is empty. */
  datatype Bounds = Bounds(xmin: int, xmax: int, ymin: int, ymax: int) {
    predicate Defined() { xmin <= xmax && ymin <= ymax }
    predicate Contains(x: int, y: int) { xmin <= x <= xmax && ymin <= y <= ymax }
    function TrueCenter(): (real, real) {
      ((xmin + xmax) as real / 2.0, (ymin + ymax) as real / 2.0)
    }
  }

  /** The `&` of two BoundsI. */
  function Intersect(a: Bounds, b: Bounds): (r: Bounds)
    ensures a.xmin <= r.xmin && b.xmin <= r.xmin && r.xmax <= a.xmax && r.xmax <= b.xmax
    ensures a.ymin <= r.ymin && b.ymin <= r.ymin && r.ymax <= a.ymax && r.ymax <= b.ymax
  {
    Bounds(Max(a.xmin, b.xmin), Min(a.xmax, b.xmax), Max(a.ymin, b.ymin), Min(a.ymax, b.ymax))
  }

  lemma IntersectContains(a: Bounds, b: Bounds, x: int, y: int)
    ensures Intersect(a, b).Contains(x, y) <==> a.Contains(x, y) && b.Contains(x, y)
    ensures !a.Defined() ==> !Intersect(a, b).Defined()
  {
  }

  /** A pixel buffer: `width` columns and `height` rows, row-major, pixel (x, y) at pix[y-1][x-1]. */
  datatype Image = Image(width: nat, height: nat, pix: seq<seq<real>>)

  predicate Shaped(a: seq<seq<real>>, w: nat, h: nat) {
    |a| == h && forall y :: 0 <= y < h ==> |a[y]| == w
  }

  predicate IsZero(img: Image) {
    Shaped(img.pix, img.width, img.height) &&
    forall y, x :: 0 <= y < img.height && 0 <= x < img.width ==> img.pix[y][x] == 0.0
  }

  /** galsim.Image(ncol, nrow) has bounds (1, ncol, 1, nrow). */
  function ImageBounds(img: Image): Bounds {
    Bounds(1, img.width, 1, img.height)
  }

  /** A new blank galsim.Image sized to the detector. */
  function Blank(d: Detector): (img: Image)
    requires WellFormed(d)
    ensures IsZero(img)
    ensures img.width == d.xMaxPix - d.xMinPix + 1 && img.height == d.yMaxPix - d.yMinPix + 1
  {
    var w := d.xMaxPix - d.xMinPix + 1;
    var h := d.yMaxPix - d.yMinPix + 1;
    Image(w, h, seq(h, _ => seq(w, _ => 0.0)))
  }

  /** `image += array` for an array of the image's shape. */
  function Plus(img: Image, a: seq<seq<real>>): (r: Image)
    requires Shaped(img.pix, img.width, img.height) && Shaped(a, img.width, img.height)
    ensures r.width == img.width && r.height == img.height && Shaped(r.pix, r.width, r.height)
    ensures forall y, x :: 0 <= y < r.height && 0 <= x < r.width ==> r.pix[y][x] == img.pix[y][x] + a[y][x]
  {
    Image(img.width, img.height,
          seq(img.height, y requires 0 <= y < img.height =>
            seq(img.width, x requires 0 <= x < img.width => img.pix[y][x] + a[y][x])))
  }

  /** Adding a saved array into a blank image gives back exactly the saved array. */
  lemma PlusZero(img: Image, a: seq<seq<real>>)
    requires IsZero(img) && Shaped(a, img.width, img.height)
    ensures Plus(img, a).pix == a
  {
    var r := Plus(img, a);
    forall y | 0 <= y < img.height
      ensures r.pix[y] == a[y]
    {
      forall x | 0 <= x < img.width
        ensures r.pix[y][x] == a[y][x]
      {
        assert img.pix[y][x] == 0.0;
      }
    }
  }

  /** Value of a stamp at offset (i, j) from its lower-left corner; zero outside it. */
  function StampAt(stamp: seq<seq<real>>, i: int, j: int): real {
    if 0 <= j < |stamp| && 0 <= i < |stamp[j]| then stamp[j][i] else 0.0
  }

  /** The value after drawing of pixel (x, y), one-based, holding v. */
  function AddedPixel(v: real, x: int, y: int, window: Bounds, stamp: seq<seq<real>>): real {
    if window.Contains(x, y) then v + StampAt(stamp, x - window.xmin, y - window.ymin) else v
  }

  /** Row y (one-based) of pixels after drawing, for its first |row| pixels. */
  function AddRow(row: seq<real>, y: int, window: Bounds, stamp: seq<seq<real>>): (r: seq<real>)
    ensures |r| == |row|
    ensures forall x :: 0 <= x < |row| ==> r[x] == AddedPixel(row[x], x + 1, y, window, stamp)
    decreases |row|
  {
    if row == [] then []
    else AddRow(row[..|row| - 1], y, window, stamp) + [AddedPixel(row[|row| - 1], |row|, y, window, stamp)]
  }

  /** The rows of an image after drawing, for its first |rows| rows. */
  function AddRows(rows: seq<seq<real>>, window: Bounds, stamp: seq<seq<real>>): (r: seq<seq<real>>)
    ensures |r| == |rows|
    ensures forall y :: 0 <= y < |rows| ==> r[y] == AddRow(rows[y], y + 1, window, stamp)
    decreases |rows|
  {
    if rows == [] then []
    else AddRows(rows[..|rows| - 1], window, stamp) + [AddRow(rows[|rows| - 1], |rows|, window, stamp)]
  }

  /** drawImage(..., add_to_image=True) onto the view image[window]: the rendered stamp is
      added into the pixels inside the window, every other pixel is kept. */
  function AddInto(img: Image, window: Bounds, stamp: seq<seq<real>>): (r: Image)
    ensures r.width == img.width && r.height == img.height
  {
    Image(img.width, img.height, AddRows(img.pix, window, stamp))
  }

  /** Drawing into a window keeps the shape of the image, changes no pixel outside the
      window and adds the stamp inside it. */
  lemma AddIntoPixel(img: Image, window: Bounds, stamp: seq<seq<real>>, y: nat, x: nat)
    requires y < |img.pix| && x < |img.pix[y]|
    ensures |AddInto(img, window, stamp).pix| == |img.pix| && |AddInto(img, window, stamp).pix[y]| == |img.pix[y]|
    ensures !window.Contains(x + 1, y + 1) ==> AddInto(img, window, stamp).pix[y][x] == img.pix[y][x]
    ensures window.Contains(x + 1, y + 1) ==>
      AddInto(img, window, stamp).pix[y][x] == img.pix[y][x] + StampAt(stamp, x + 1 - window.xmin, y + 1 - window.ymin)
  {
  }
}
