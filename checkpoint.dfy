/** The checkpoint record of write_checkpoint / restore_checkpoint, its cadence and the
    detector-name unmangling of restored image keys. */
module Checkpoint {
  import opened Base
  import opened Geometry
  import opened Profiles

  /** One entry of centroid_list: (detector fileName, bandpass name, uniqueId, nominal flux,
      xPix, yPix). */
  datatype CentroidEntry = CentroidEntry(detectorFileName: string, bandpassName: string, uniqueId: int,
                                         flux: real, xPix: real, yPix: real)

  /** The pickled image_state: pixel arrays by image key, the rng, the drawn object ids and
      the centroid list. */
  datatype Record = Record(images: map<string, seq<seq<real>>>, rng: Rng, drawnObjects: set<int>,
                           centroidObjects: seq<CentroidEntry>)

  /** The record write_checkpoint builds: only the arrays of the images are kept, and the
      drawn set is object_list when one is given. */
  function Snapshot(images: map<string, Image>, rng: Rng, drawn: set<int>, objectList: Option<set<int>>,
                    centroids: seq<CentroidEntry>): (r: Record)
    ensures r.images.Keys == images.Keys
    ensures forall k :: k in images ==> r.images[k] == images[k].pix
    ensures r.rng == rng && r.centroidObjects == centroids
    ensures r.drawnObjects == if objectList.Some? then objectList.value else drawn
  {
    Record(map k | k in images :: images[k].pix, rng, objectList.GetOr(drawn), centroids)
  }

  /** The cadence test of write_checkpoint. */
  predicate CommitDue(force: bool, nDrawn: nat, nobj: Pos) {
    force || nDrawn % nobj == 0
  }

  /** How many of the drawn-set sizes 1..n trigger an unforced commit. */
  function DueCount(n: nat, nobj: Pos): nat {
    if n == 0 then 0 else DueCount(n - 1, nobj) + (if CommitDue(false, n, nobj) then 1 else 0)
  }

  /** A proof step of DivUnique. */
  lemma MulAtLeast(k: int, d: int)
    requires k >= 1 && d > 0
    ensures k * d >= d
  {
    var j := k - 1;
    assert k * d == j * d + d;
  }

  lemma DivUnique(n: int, d: int, q: int, r: int)
    requires d > 0 && n == q * d + r && 0 <= r < d
    ensures n / d == q
  {
    var q0, r0 := n / d, n % d;
    assert (q0 - q) * d == r - r0;
    if q0 > q {
      MulAtLeast(q0 - q, d);
    } else if q0 < q {
      MulAtLeast(q - q0, d);
    }
  }

  lemma DivStep(n: nat, nobj: Pos)
    requires n > 0
    ensures n % nobj == 0 ==> n / nobj == (n - 1) / nobj + 1
    ensures n % nobj != 0 ==> n / nobj == (n - 1) / nobj
  {
    var q, r := (n - 1) / nobj, (n - 1) % nobj;
    assert n - 1 == q * nobj + r && 0 <= r < nobj;
    if r == nobj - 1 {
      assert n == (q + 1) * nobj + 0;
      DivUnique(n, nobj, q + 1, 0);
    } else {
      assert n == q * nobj + (r + 1) && r + 1 < nobj;
      DivUnique(n, nobj, q, r + 1);
      assert n % nobj == r + 1;
    }
  }

  /** Growing the drawn set one object at a time from empty to n, unforced commits happen
      exactly n / nobj_checkpoint times: once every nobj_checkpoint objects. */
  lemma {:induction false} DueCountIsQuotient(n: nat, nobj: Pos)
    ensures DueCount(n, nobj) == n / nobj
  {
    if n > 0 {
      DueCountIsQuotient(n - 1, nobj);
      DivStep(n, nobj);
    }
  }

  /** The detector name restore_checkpoint unmangles from an image key:
      "R:{},{} S:{},{}" filled with the key's characters 1, 2, 5 and 6; a key shorter than
      seven characters leaves the format without its arguments. */
  function Unmangle(key: string): (r: Option<string>)
    ensures r.Some? <==> |key| >= 7
    ensures r.Some? ==> |r.value| == 11 && r.value[1] == ':' && r.value[2] == key[1] &&
                        r.value[4] == key[2] && r.value[8] == key[5] && r.value[10] == key[6]
  {
    if |key| < 7 then None
    else Some(['R', ':', key[1], ',', key[2], ' ', 'S', ':', key[5], ',', key[6]])
  }

  /** An LSST raft/sensor detector name, "R:r,r S:s,s", and its file name, "Rrr_Sss". */
  function LsstName(r0: char, r1: char, s0: char, s1: char): string {
    ['R', ':', r0, ',', r1, ' ', 'S', ':', s0, ',', s1]
  }

  function LsstFileName(r0: char, r1: char, s0: char, s1: char): string {
    ['R', r0, r1, '_', 'S', s0, s1]
  }

  /** Unmangling the key of any band's image of an LSST sensor gives back the sensor's name. */
  lemma UnmangleFileName(d: Detector, band: string, r0: char, r1: char, s0: char, s1: char)
    requires d.fileName == LsstFileName(r0, r1, s0, s1) && d.name == LsstName(r0, r1, s0, s1)
    ensures Unmangle(FileName(d, band)) == Some(d.name)
  {
    var key := FileName(d, band);
    assert key[1] == r0 && key[2] == r1 && key[5] == s0 && key[6] == s1;
  }

  /** Every saved key has a blank image, and every saved array has that image's shape. */
  predicate Restorable(blanks: map<string, Image>, saved: map<string, seq<seq<real>>>) {
    forall k {:trigger saved[k]} :: k in saved ==>
      k in blanks && Shaped(blanks[k].pix, blanks[k].width, blanks[k].height) &&
      Shaped(saved[k], blanks[k].width, blanks[k].height)
  }

  /** The images restore_checkpoint rebuilds: for every saved key, its blank image plus the
      saved array. */
  function Restored(blanks: map<string, Image>, saved: map<string, seq<seq<real>>>): (r: map<string, Image>)
    requires Restorable(blanks, saved)
    ensures r.Keys == saved.Keys
    ensures forall k :: k in saved ==> r[k].width == blanks[k].width && r[k].height == blanks[k].height
  {
    map k | k in saved :: Plus(blanks[k], saved[k])
  }

  /** Restoring the snapshot of a set of images whose shapes are those of their blank
      images gives back exactly those images. */
  lemma RestoreSnapshot(blanks: map<string, Image>, images: map<string, Image>, rng: Rng, drawn: set<int>,
                        objectList: Option<set<int>>, centroids: seq<CentroidEntry>)
    requires forall k :: k in images ==>
               (k in blanks && IsZero(blanks[k]) &&
                images[k].width == blanks[k].width && images[k].height == blanks[k].height &&
                Shaped(images[k].pix, images[k].width, images[k].height))
    ensures var rec := Snapshot(images, rng, drawn, objectList, centroids);
            Restorable(blanks, rec.images) && Restored(blanks, rec.images) == images
  {
    var rec := Snapshot(images, rng, drawn, objectList, centroids);
    var r := Restored(blanks, rec.images);
    forall k | k in images
      ensures r[k] == images[k]
    {
      PlusZero(blanks[k], images[k].pix);
    }
  }
}
