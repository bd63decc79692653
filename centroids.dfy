/** The centroid files of write_centroid_files / _writeObjectToCentroidFile: one gzip text
    file per detector_band, modelled as the sequence of lines written to its handle. */
module CentroidLog {
  import opened Base
  import opened Checkpoint

  /** The header line (SourceID, Flux, xPix, yPix) or one object's line. */
  datatype Line = Header | Row(uniqueId: int, flux: real, xPix: real, yPix: real)

  /** An open (or closed) gzip handle and everything written to it. */
  datatype Handle = Handle(path: string, lines: seq<Line>, isOpen: bool)

  type Handles = map<string, Handle>

  /** The centroid_name of an entry: detector_name + '_' + bandpass_name. */
  function CentroidName(e: CentroidEntry): string {
    e.detectorFileName + "_" + e.bandpassName
  }

  /** The file open_centroid_file creates: base name, visit id, '_', centroid name, .txt.gz. */
  function CentroidPath(base: string, visit: string, name: string): string {
    base + visit + "_" + name + ".txt.gz"
  }

  function RowOf(e: CentroidEntry): Line {
    Row(e.uniqueId, e.flux, e.xPix, e.yPix)
  }

  /** _writeObjectToCentroidFile: open the file of the entry's centroid name the first time
      it is seen (which fails without a centroid base name), then write the entry's line
      (which fails on a closed handle). */
  function WriteEntry(hs: Handles, base: Option<string>, visit: string, e: CentroidEntry): (r: Result<Handles>)
    ensures r.Ok? ==> r.value.Keys == hs.Keys + {CentroidName(e)}
    ensures r.Ok? ==> forall n :: n in hs && n != CentroidName(e) ==> r.value[n] == hs[n]
    ensures r.Ok? <==> (CentroidName(e) in hs || base.Some?) && (CentroidName(e) in hs ==> hs[CentroidName(e)].isOpen)
    ensures r.Ok? ==> var h := r.value[CentroidName(e)];
                      h.isOpen && h.lines == (if CentroidName(e) in hs then hs[CentroidName(e)].lines else [Header]) + [RowOf(e)]
  {
    var name := CentroidName(e);
    var withFile :- if name in hs then Ok(hs)
                  else if base.None? then Err(NoCentroidBaseName)
                  else Ok(hs[name := Handle(CentroidPath(base.value, visit, name), [Header], true)]);
    var h := withFile[name];
    if !h.isOpen then Err(ClosedCentroidFile(name))
    else Ok(withFile[name := h.(lines := h.lines + [RowOf(e)])])
  }

  /** The loop of write_centroid_files over centroid_list: the handles reached, and the error
      that stopped it, if any. */
  function WriteAll(hs: Handles, base: Option<string>, visit: string, es: seq<CentroidEntry>): (r: (Handles, Option<Error>))
    decreases |es|
    ensures hs.Keys <= r.0.Keys
    ensures r.1.Some? ==> es != []
  {
    if es == [] then (hs, None)
    else match WriteEntry(hs, base, visit, es[0])
      case Err(err) => (hs, Some(err))
      case Ok(hs') => WriteAll(hs', base, visit, es[1..])
  }

  /** Closing every handle. */
  function CloseAll(hs: Handles): (r: Handles)
    ensures r.Keys == hs.Keys
    ensures forall n :: n in hs ==> !r[n].isOpen && r[n].path == hs[n].path && r[n].lines == hs[n].lines
  {
    map n | n in hs :: hs[n].(isOpen := false)
  }

  /** The lines of the entries of one centroid name, in list order. */
  function RowsFor(es: seq<CentroidEntry>, name: string): seq<Line> {
    if es == [] then []
    else (if CentroidName(es[0]) == name then [RowOf(es[0])] else []) + RowsFor(es[1..], name)
  }

  function Names(es: seq<CentroidEntry>): set<string> {
    set e | e in es :: CentroidName(e)
  }

  predicate AllOpen(hs: Handles) {
    forall n :: n in hs ==> hs[n].isOpen
  }

  /** With a centroid base name and open handles, every entry is written: no error, all
      handles open, the files those already open plus one per new centroid name. */
  lemma {:induction false} WriteAllSucceeds(hs: Handles, base: string, visit: string, es: seq<CentroidEntry>)
    requires AllOpen(hs)
    decreases |es|
    ensures WriteAll(hs, Some(base), visit, es).1.None?
    ensures AllOpen(WriteAll(hs, Some(base), visit, es).0)
    ensures WriteAll(hs, Some(base), visit, es).0.Keys == hs.Keys + Names(es)
  {
    if es != [] {
      var e := es[0];
      var hs' := WriteEntry(hs, Some(base), visit, e).value;
      WriteAllSucceeds(hs', base, visit, es[1..]);
      assert Names(es) == {CentroidName(e)} + Names(es[1..]) by {
        assert forall x :: x in es <==> x == e || x in es[1..];
      }
    }
  }

  /** The lines a file holds after the loop: what it held, or a single header when it is
      new, followed by its entries' lines in list order. */
  function Expected(hs: Handles, es: seq<CentroidEntry>, n: string): seq<Line> {
    (if n in hs then hs[n].lines else [Header]) + RowsFor(es, n)
  }

  /** Writing the first entry moves it from the rows still to come into the file. */
  lemma WriteEntryExpected(hs: Handles, base: string, visit: string, es: seq<CentroidEntry>, n: string)
    requires AllOpen(hs) && es != []
    ensures var hs' := WriteEntry(hs, Some(base), visit, es[0]).value;
            Expected(hs', es[1..], n) == Expected(hs, es, n) &&
            (n in hs' <==> n in hs || n == CentroidName(es[0])) &&
            (n in hs' ==> hs'[n].path == (if n in hs then hs[n].path else CentroidPath(base, visit, n)))
  {
    var e := es[0];
    var hs' := WriteEntry(hs, Some(base), visit, e).value;
    var start := if n in hs then hs[n].lines else [Header];
    if n == CentroidName(e) {
      assert hs'[n].lines == start + [RowOf(e)];
      assert RowsFor(es, n) == [RowOf(e)] + RowsFor(es[1..], n);
      assert Expected(hs', es[1..], n) == (start + [RowOf(e)]) + RowsFor(es[1..], n);
    } else {
      assert RowsFor(es, n) == RowsFor(es[1..], n);
    }
  }

  lemma {:induction false} WriteAllLines(hs: Handles, base: string, visit: string, es: seq<CentroidEntry>, n: string)
    requires AllOpen(hs)
    requires n in WriteAll(hs, Some(base), visit, es).0
    decreases |es|
    ensures WriteAll(hs, Some(base), visit, es).0[n].lines == Expected(hs, es, n)
    ensures WriteAll(hs, Some(base), visit, es).0[n].path == (if n in hs then hs[n].path else CentroidPath(base, visit, n))
  {
    if es != [] {
      var hs' := WriteEntry(hs, Some(base), visit, es[0]).value;
      assert WriteAll(hs, Some(base), visit, es) == WriteAll(hs', Some(base), visit, es[1..]);
      WriteAllLines(hs', base, visit, es[1..], n);
      WriteEntryExpected(hs, base, visit, es, n);
    }
  }

  /** Starting without handles, each file gets exactly one header, first, then its rows. */
  lemma OneHeaderPerFile(base: string, visit: string, es: seq<CentroidEntry>)
    ensures var (r, err) := WriteAll(map[], Some(base), visit, es);
            err.None? && r.Keys == Names(es) &&
            forall n :: n in r ==> r[n].lines == [Header] + RowsFor(es, n) &&
                                   r[n].path == CentroidPath(base, visit, n)
  {
    WriteAllSucceeds(map[], base, visit, es);
    var r := WriteAll(map[], Some(base), visit, es).0;
    forall n | n in r
      ensures r[n].lines == [Header] + RowsFor(es, n) && r[n].path == CentroidPath(base, visit, n)
    {
      WriteAllLines(map[], base, visit, es, n);
    }
  }

  /** Without a centroid base name, the first entry of a new name is an error. */
  lemma NoBaseName(hs: Handles, visit: string, es: seq<CentroidEntry>)
    requires es != [] && CentroidName(es[0]) !in hs
    ensures WriteAll(hs, None, visit, es) == (hs, Some(NoCentroidBaseName))
  {
  }

  /** centroid_list is never cleared and the handles stay closed, so writing the centroid
      files a second time fails on the first entry. */
  lemma SecondWriteFails(hs: Handles, base: string, visit: string, es: seq<CentroidEntry>)
    requires AllOpen(hs) && es != []
    ensures var closed := CloseAll(WriteAll(hs, Some(base), visit, es).0);
            WriteAll(closed, Some(base), visit, es).1 == Some(ClosedCentroidFile(CentroidName(es[0])))
  {
    WriteAllSucceeds(hs, base, visit, es);
    assert es[0] in es;
  }
}
