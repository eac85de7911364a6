/** `oskar_TelescopeLoadElementPattern`: while the telescope directory tree
    is walked, keep a map from spline file names to the absolute path of
    the deepest copy seen so far; at the deepest level load each station's
    element pattern from those files, memoising the result per file pair. */
module ElementPattern {
  import opened Status

  const SplineNameX: string := "spline_data_cache_x.bin"
  const SplineNameY: string := "spline_data_cache_y.bin"

  /** A directory: its absolute path and the names of the files in it. */
  datatype Dir = Dir(path: string, files: set<string>)
  {
    predicate Exists(name: string)
    {
      name in files
    }

    function AbsoluteFilePath(name: string): (p: string)
      ensures |p| == |path| + 1 + |name| && p[|path|] == '/'
      ensures p[..|path|] == path && p[|path| + 1..] == name
    {
      path + "/" + name
    }
  }

  /** An element model, seen through the spline files read into it: each
      read adds (port, path), port 1 for the X dipole and 2 for Y. */
  datatype Element = Element(loads: seq<(nat, string)>)

  const Blank: Element := Element([])

  /** The file map after visiting `cwd`: an entry for a spline file name is
      set to its absolute path in `cwd` when the file is there. */
  function UpdatedMap(filemap: map<string, string>, cwd: Dir): (m: map<string, string>)
    ensures forall name :: name in {SplineNameX, SplineNameY} && cwd.Exists(name) ==>
      name in m && m[name] == cwd.AbsoluteFilePath(name)
    ensures forall name :: !(name in {SplineNameX, SplineNameY} && cwd.Exists(name)) ==>
      (name in m <==> name in filemap) && (name in m ==> m[name] == filemap[name])
  {
    var m1 := if cwd.Exists(SplineNameX)
              then filemap[SplineNameX := cwd.AbsoluteFilePath(SplineNameX)] else filemap;
    if cwd.Exists(SplineNameY)
    then m1[SplineNameY := cwd.AbsoluteFilePath(SplineNameY)] else m1
  }

  /** The path stored for `name`, or the empty string. */
  function PathOf(filemap: map<string, string>, name: string): string
  {
    if name in filemap then filemap[name] else ""
  }

  /** The cache key: the X path followed by the Y path. */
  function Key(filemap: map<string, string>): (key: string)
    ensures key == "" <==> PathOf(filemap, SplineNameX) == "" && PathOf(filemap, SplineNameY) == ""
  {
    PathOf(filemap, SplineNameX) + PathOf(filemap, SplineNameY)
  }

  /** A file is read when its path is non-empty and the file exists. */
  predicate Wanted(path: string, fileExists: string -> bool)
  {
    path != "" && fileExists(path)
  }

  /** The state `load_element_patterns` leaves: status, station element 0
      and the cache of element models. */
  datatype Loaded = Loaded(status: Status, element: Element, models: map<string, Element>)

  /** One read into port `port`, skipped when the status is already set
      (every OSKAR routine returns at once on a set status). */
  function Read(status: Status, e: Element, port: nat, path: string,
                readStatus: (nat, string) -> Status): (Status, Element)
  {
    if status != Ok then (status, e)
    else (readStatus(port, path), Element(e.loads + [(port, path)]))
  }

  /** `load_element_patterns` as a function of its inputs. `readStatus`
      and `copyStatus` are the statuses the element read and copy report. */
  function LoadPatterns(status: Status, enabled: bool, filemap: map<string, string>,
                        models: map<string, Element>, e0: Element, fileExists: string -> bool,
                        readStatus: (nat, string) -> Status, copyStatus: Status): (r: Loaded)
    // Nothing happens on a set status, with numerical patterns disabled, or
    // when neither spline file is known.
    ensures status != Ok || !enabled || Key(filemap) == "" ==> r == Loaded(status, e0, models)
    // A cache hit copies the cached model and reads nothing.
    ensures status == Ok && enabled && Key(filemap) in models && Key(filemap) != "" ==>
      && r.models == models && r.status == copyStatus
      && r.element == (if copyStatus == Ok then models[Key(filemap)] else e0)
    // A miss reads, then caches the result under the key.
    ensures status == Ok && enabled && Key(filemap) !in models && Key(filemap) != "" ==>
      && |e0.loads| <= |r.element.loads| && r.element.loads[..|e0.loads|] == e0.loads
      && r.models == models[Key(filemap) := r.element]
    ensures status == Ok && enabled && Key(filemap) !in models && Key(filemap) != "" &&
            |e0.loads| <= |r.element.loads| ==>
      var px, py := PathOf(filemap, SplineNameX), PathOf(filemap, SplineNameY);
      var newLoads := r.element.loads[|e0.loads|..];
      && (forall k :: 0 <= k < |newLoads| ==> newLoads[k] == (1, px) || newLoads[k] == (2, py))
      && ((1, px) in newLoads <==> Wanted(px, fileExists))
      && ((2, py) in newLoads ==> Wanted(py, fileExists))
      && (r.status == Ok ==> newLoads == (if Wanted(px, fileExists) then [(1, px)] else [])
                                    + (if Wanted(py, fileExists) then [(2, py)] else []))
  {
    if status != Ok || !enabled then Loaded(status, e0, models)
    else
      var px := PathOf(filemap, SplineNameX);
      var py := PathOf(filemap, SplineNameY);
      var files := px + py;
      if |files| == 0 then Loaded(status, e0, models)
      else if files in models then
        Loaded(copyStatus, if copyStatus == Ok then models[files] else e0, models)
      else
        var afterX := if Wanted(px, fileExists) then Read(status, e0, 1, px, readStatus) else (status, e0);
        var afterY := if Wanted(py, fileExists) then Read(afterX.0, afterX.1, 2, py, readStatus) else afterX;
        var readX := if Wanted(px, fileExists) then [(1, px)] else [];
        var readY := if Wanted(py, fileExists) && afterX.0 == Ok then [(2, py)] else [];
        assert afterY.1.loads == e0.loads + readX + readY;
        assert afterY.1.loads[|e0.loads|..] == readX + readY;
        assert (1, px) in readX + readY <==> (1, px) in readX;
        Loaded(afterY.0, afterY.1, models[files := afterY.1])
  }

  /** After a miss that succeeded, a second call with the same file map
      hits the cache: it reads nothing and copies the model just stored. */
  lemma SecondCallHits(enabled: bool, filemap: map<string, string>, models: map<string, Element>,
                       e0: Element, e1: Element, fileExists: string -> bool,
                       readStatus: (nat, string) -> Status, copyStatus: Status)
    requires enabled && Key(filemap) != "" && Key(filemap) !in models
    requires LoadPatterns(Ok, enabled, filemap, models, e0, fileExists, readStatus, copyStatus).status == Ok
    ensures var first := LoadPatterns(Ok, enabled, filemap, models, e0, fileExists, readStatus, copyStatus);
            var second := LoadPatterns(Ok, enabled, filemap, first.models, e1, fileExists, readStatus, Ok);
            && Key(filemap) in first.models
            && second.models == first.models
            && second.element == first.element
            && second.status == Ok
  {
  }

  /** A station: its element models ("element types"). */
  class Station {
    var elements: seq<Element>

    constructor (elements: seq<Element>)
      ensures this.elements == elements
    {
      this.elements := elements;
    }
  }

  /** `oskar_station_resize_element_types(station, 1, status)`: keep the
      first element type, or create a blank one. Skipped on a set status.
      `resizeStatus` is the status the resize itself reports (an allocation
      failure); a failed resize leaves the element types as they were. */
  method ResizeElementTypes(station: Station, status: Status, resizeStatus: Status)
    returns (st: Status)
    modifies station
    ensures st == if status != Ok then status else resizeStatus
    ensures st != Ok ==> station.elements == old(station.elements)
    ensures st == Ok ==> |station.elements| == 1
    ensures st == Ok && |old(station.elements)| >= 1 ==> station.elements[0] == old(station.elements[0])
    ensures st == Ok && |old(station.elements)| == 0 ==> station.elements[0] == Blank
  {
    if status != Ok {
      return status;
    }
    st := resizeStatus;
    if st == Ok {
      station.elements := if |station.elements| >= 1 then station.elements[..1] else [Blank];
    }
  }

  /** The first element type of a station, or a blank one when it has
      none: what a resize to one element type keeps. */
  function FirstElement(elems: seq<Element>): Element
  {
    if |elems| >= 1 then elems[0] else Blank
  }

  /** Every station's element types, in station order. */
  ghost function ElementsOf(stations: seq<Station>): (r: seq<seq<Element>>)
    reads set s | s in stations
    ensures |r| == |stations| && forall i :: 0 <= i < |stations| ==> r[i] == stations[i].elements
  {
    seq(|stations|, i reads set s | s in stations requires 0 <= i < |stations| => stations[i].elements)
  }

  /** The state a walk over stations leaves: the status, the cache of
      element models and every station's element types. */
  datatype Walk = Walk(status: Status, models: map<string, Element>, elements: seq<seq<Element>>)

  /** One station at the deepest level: the resize to one element type,
      reporting `resizeStatus`, then `load_element_patterns`; both are
      skipped on a set status. The result is the status, the cache and the
      station's element types. */
  function LoadOne(status: Status, enabled: bool, filemap: map<string, string>,
                   models: map<string, Element>, elems: seq<Element>, fileExists: string -> bool,
                   resizeStatus: Status, readStatus: (nat, string) -> Status, copyStatus: Status)
    : (Status, map<string, Element>, seq<Element>)
  {
    if status != Ok then (status, models, elems)
    else if resizeStatus != Ok then (resizeStatus, models, elems)
    else
      var r := LoadPatterns(Ok, enabled, filemap, models, FirstElement(elems),
                            fileExists, readStatus, copyStatus);
      (r.status, r.models, [r.element])
  }

  /** The station loop at the deepest level, in station order, as a
      function of the stations' element types: station `i` resizes with
      `resizeStatus(i)`, and the status and the cache are threaded from
      one station to the next. */
  function LoadStations(status: Status, enabled: bool, filemap: map<string, string>,
                        models: map<string, Element>, elems: seq<seq<Element>>,
                        fileExists: string -> bool, resizeStatus: nat -> Status,
                        readStatus: (nat, string) -> Status, copyStatus: Status): (w: Walk)
    ensures |w.elements| == |elems|
    decreases |elems|
  {
    if |elems| == 0 then Walk(status, models, [])
    else
      var n := |elems| - 1;
      var p := LoadStations(status, enabled, filemap, models, elems[..n],
                            fileExists, resizeStatus, readStatus, copyStatus);
      var o := LoadOne(p.status, enabled, filemap, p.models, elems[n],
                       fileExists, resizeStatus(n), readStatus, copyStatus);
      Walk(o.0, o.1, p.elements + [o.2])
  }

  /** The walk over the first `i + 1` stations is the walk over the first
      `i` followed by station `i`. */
  lemma LoadStationsStep(status: Status, enabled: bool, filemap: map<string, string>,
                         models: map<string, Element>, elems: seq<seq<Element>>, i: nat,
                         fileExists: string -> bool, resizeStatus: nat -> Status,
                         readStatus: (nat, string) -> Status, copyStatus: Status)
    requires i < |elems|
    ensures var w := LoadStations(status, enabled, filemap, models, elems[..i],
                                  fileExists, resizeStatus, readStatus, copyStatus);
            var o := LoadOne(w.status, enabled, filemap, w.models, elems[i],
                             fileExists, resizeStatus(i), readStatus, copyStatus);
            LoadStations(status, enabled, filemap, models, elems[..i + 1],
                         fileExists, resizeStatus, readStatus, copyStatus)
            == Walk(o.0, o.1, w.elements + [o.2])
  {
    assert elems[..i + 1][..i] == elems[..i];
  }

  /** Once the status is set after the first `k` stations, the walk stops
      there: the status and the cache stay, and every later station keeps
      its element types. */
  lemma {:induction false} WalkStops(status: Status, enabled: bool, filemap: map<string, string>,
                                     models: map<string, Element>, elems: seq<seq<Element>>,
                                     fileExists: string -> bool, resizeStatus: nat -> Status,
                                     readStatus: (nat, string) -> Status, copyStatus: Status, k: nat)
    requires k <= |elems|
    requires LoadStations(status, enabled, filemap, models, elems[..k],
                          fileExists, resizeStatus, readStatus, copyStatus).status != Ok
    ensures var p := LoadStations(status, enabled, filemap, models, elems[..k],
                                  fileExists, resizeStatus, readStatus, copyStatus);
            var w := LoadStations(status, enabled, filemap, models, elems,
                                  fileExists, resizeStatus, readStatus, copyStatus);
            w.status == p.status && w.models == p.models && w.elements == p.elements + elems[k..]
    decreases |elems|
  {
    if k == |elems| {
      assert elems[..k] == elems;
      assert elems[k..] == [];
    } else {
      var n := |elems| - 1;
      assert elems[..n][..k] == elems[..k];
      WalkStops(status, enabled, filemap, models, elems[..n], fileExists, resizeStatus, readStatus, copyStatus, k);
      assert elems[..n][k..] + [elems[n]] == elems[k..];
    }
  }

  /** A walk that ends with status 0, with numerical patterns enabled and
      a spline file known, leaves the key in the cache: on a hit the cache
      is unchanged, on a miss only the key is added, bound to what the
      first station read. Every station then holds that cached model as
      its one element type. */
  lemma {:induction false} WalkCached(enabled: bool, filemap: map<string, string>,
                                      models: map<string, Element>, elems: seq<seq<Element>>,
                                      fileExists: string -> bool, resizeStatus: nat -> Status,
                                      readStatus: (nat, string) -> Status, copyStatus: Status)
    requires enabled && Key(filemap) != "" && |elems| > 0
    requires LoadStations(Ok, enabled, filemap, models, elems,
                          fileExists, resizeStatus, readStatus, copyStatus).status == Ok
    ensures var w := LoadStations(Ok, enabled, filemap, models, elems,
                                  fileExists, resizeStatus, readStatus, copyStatus);
            var key := Key(filemap);
            && key in w.models
            && (key in models ==> w.models == models)
            && (key !in models ==>
                  w.models == models[key := LoadPatterns(Ok, enabled, filemap, models, FirstElement(elems[0]),
                                                         fileExists, readStatus, copyStatus).element])
            && forall j :: 0 <= j < |elems| ==> w.elements[j] == [w.models[key]]
    decreases |elems|
  {
    var n := |elems| - 1;
    var p := LoadStations(Ok, enabled, filemap, models, elems[..n],
                          fileExists, resizeStatus, readStatus, copyStatus);
    if n > 0 {
      assert p.status == Ok;
      WalkCached(enabled, filemap, models, elems[..n], fileExists, resizeStatus, readStatus, copyStatus);
      assert elems[..n][0] == elems[0];
    }
  }

  /** A walk that ends with status 0 leaves every station with exactly one
      element type. */
  lemma {:induction false} WalkOneType(status: Status, enabled: bool, filemap: map<string, string>,
                                       models: map<string, Element>, elems: seq<seq<Element>>,
                                       fileExists: string -> bool, resizeStatus: nat -> Status,
                                       readStatus: (nat, string) -> Status, copyStatus: Status)
    requires LoadStations(status, enabled, filemap, models, elems,
                          fileExists, resizeStatus, readStatus, copyStatus).status == Ok
    ensures var w := LoadStations(status, enabled, filemap, models, elems,
                                  fileExists, resizeStatus, readStatus, copyStatus);
            forall j :: 0 <= j < |elems| ==> |w.elements[j]| == 1
    decreases |elems|
  {
    if |elems| > 0 {
      var n := |elems| - 1;
      WalkOneType(status, enabled, filemap, models, elems[..n], fileExists, resizeStatus, readStatus, copyStatus);
    }
  }

  /** What a walk over all the stations leaves: a set status at the start
      changes nothing, a walk ending with status 0 leaves one element type
      per station, and with numerical patterns and a key every station
      holds the cached model. */
  lemma WalkEnds(status: Status, enabled: bool, filemap: map<string, string>,
                 models: map<string, Element>, elems: seq<seq<Element>>,
                 fileExists: string -> bool, resizeStatus: nat -> Status,
                 readStatus: (nat, string) -> Status, copyStatus: Status)
    ensures var w := LoadStations(status, enabled, filemap, models, elems,
                                  fileExists, resizeStatus, readStatus, copyStatus);
      && (status != Ok ==> w == Walk(status, models, elems))
      && (w.status == Ok ==> forall i :: 0 <= i < |elems| ==> |w.elements[i]| == 1)
      && (w.status == Ok && enabled && Key(filemap) != "" && |elems| > 0 ==>
            Key(filemap) in w.models && forall i :: 0 <= i < |elems| ==> w.elements[i][0] == w.models[Key(filemap)])
  {
    var w := LoadStations(status, enabled, filemap, models, elems,
                          fileExists, resizeStatus, readStatus, copyStatus);
    if status != Ok {
      assert elems[..0] == [];
      WalkStops(status, enabled, filemap, models, elems, fileExists, resizeStatus, readStatus, copyStatus, 0);
      assert elems[0..] == elems;
    }
    if w.status == Ok {
      WalkOneType(status, enabled, filemap, models, elems, fileExists, resizeStatus, readStatus, copyStatus);
      if enabled && Key(filemap) != "" && |elems| > 0 {
        assert status == Ok;
        WalkCached(enabled, filemap, models, elems, fileExists, resizeStatus, readStatus, copyStatus);
      }
    }
  }

  /** The file map, passed by reference between directory levels. */
  class FileMap {
    var entries: map<string, string>

    constructor ()
      ensures entries == map[]
    {
      entries := map[];
    }

    /** `update_map`. */
    method UpdateMap(cwd: Dir)
      modifies this
      ensures entries == UpdatedMap(old(entries), cwd)
    {
      if cwd.Exists(SplineNameX) {
        entries := entries[SplineNameX := cwd.AbsoluteFilePath(SplineNameX)];
      }
      if cwd.Exists(SplineNameY) {
        entries := entries[SplineNameY := cwd.AbsoluteFilePath(SplineNameY)];
      }
    }
  }

  /** The loader: the numerical-pattern setting and the cache of element
      models keyed by file pair. */
  class ElementPatternLoader {
    const enableNumericalPatterns: bool
    var models: map<string, Element>

    constructor (enableNumericalPatterns: bool)
      ensures this.enableNumericalPatterns == enableNumericalPatterns && models == map[]
    {
      this.enableNumericalPatterns := enableNumericalPatterns;
      models := map[];
    }

    /** `load_element_patterns` on a station: element 0 and the cache become
      what `LoadPatterns` says; the other element types are untouched. */
    method LoadElementPatterns(station: Station, filemap: map<string, string>, status: Status,
                               fileExists: string -> bool, readStatus: (nat, string) -> Status,
                               copyStatus: Status)
      returns (st: Status)
      requires status == Ok && enableNumericalPatterns && Key(filemap) != "" ==> |station.elements| >= 1
      modifies this, station
      ensures |station.elements| == |old(station.elements)|
      ensures var r := LoadPatterns(status, enableNumericalPatterns, filemap, old(models),
                                    if |old(station.elements)| >= 1 then old(station.elements[0]) else Blank,
                                    fileExists, readStatus, copyStatus);
        && st == r.status && models == r.models
        && (|station.elements| >= 1 ==> station.elements[0] == r.element)
      ensures forall k :: 1 <= k < |station.elements| ==> station.elements[k] == old(station.elements[k])
    {
      if status != Ok {
        return status;
      }
      if !enableNumericalPatterns {
        return status;
      }
      var pathX := PathOf(filemap, SplineNameX);
      var pathY := PathOf(filemap, SplineNameY);
      var files := pathX + pathY;
      if |files| == 0 {
        return status;
      }
      if files in models {
        st := copyStatus;
        if copyStatus == Ok {
          station.elements := station.elements[0 := models[files]];
        }
        return;
      }
      st := status;
      var e := station.elements[0];
      if pathX != "" && fileExists(pathX) {
        st, e := Read(st, e, 1, pathX, readStatus).0, Read(st, e, 1, pathX, readStatus).1;
      }
      if pathY != "" && fileExists(pathY) {
        st, e := Read(st, e, 2, pathY, readStatus).0, Read(st, e, 2, pathY, readStatus).1;
      }
      station.elements := station.elements[0 := e];
      models := models[files := e];
    }

    /** `load` for one station: update the file map, then, at the deepest
        level only, resize to one element type and load its patterns.
        `resizeStatus` is the status the resize reports; a failed resize
        stops the load. */
    method LoadStation(station: Station, cwd: Dir, numSubdirs: int, filemap: FileMap,
                       status: Status, fileExists: string -> bool, resizeStatus: Status,
                       readStatus: (nat, string) -> Status, copyStatus: Status)
      returns (st: Status)
      modifies this, station, filemap
      ensures filemap.entries == UpdatedMap(old(filemap.entries), cwd)
      ensures numSubdirs != 0 ==>
        st == status && station.elements == old(station.elements) && models == old(models)
      ensures numSubdirs == 0 && status == Ok && resizeStatus != Ok ==>
        st == resizeStatus && station.elements == old(station.elements) && models == old(models)
      ensures numSubdirs == 0 && status == Ok && resizeStatus == Ok ==> |station.elements| == 1
      ensures numSubdirs == 0 && status == Ok && resizeStatus == Ok ==>
        var r := LoadPatterns(status, enableNumericalPatterns, filemap.entries, old(models),
                              if |old(station.elements)| >= 1 then old(station.elements[0]) else Blank,
                              fileExists, readStatus, copyStatus);
        st == r.status && models == r.models && station.elements == [r.element]
      ensures status != Ok ==> st == status && station.elements == old(station.elements) && models == old(models)
    {
      filemap.UpdateMap(cwd);
      st := status;
      if numSubdirs == 0 {
        st := ResizeElementTypes(station, st, resizeStatus);
        st := LoadElementPatterns(station, filemap.entries, st, fileExists, readStatus, copyStatus);
      }
    }

    /** One station of the telescope walk: the resize, reporting
        `resizeStatus`, then `load_element_patterns`. The status, the cache
        and the station's element types become those of `LoadOne`. */
    method LoadNext(station: Station, filemap: map<string, string>, status: Status,
                    fileExists: string -> bool, resizeStatus: Status,
                    readStatus: (nat, string) -> Status, copyStatus: Status)
      returns (st: Status)
      modifies this, station
      ensures (st, models, station.elements)
              == LoadOne(status, enableNumericalPatterns, filemap, old(models), old(station.elements),
                         fileExists, resizeStatus, readStatus, copyStatus)
    {
      st := ResizeElementTypes(station, status, resizeStatus);
      ghost var resized := station.elements;
      st := LoadElementPatterns(station, filemap, st, fileExists, readStatus, copyStatus);
      if status == Ok && resizeStatus == Ok {
        assert station.elements == [station.elements[0]];
      } else {
        assert station.elements == resized;
      }
    }

    /** `load` for a telescope: update the file map, then, at the deepest
        level only, resize every station to one element type and load its
        patterns, in station order. `resizeStatus(i)` is the status the
        resize of station `i` reports. The status, the cache and every
        station's element types are those of `LoadStations`: the walk stops
        at the first failure, and after a successful load with numerical
        patterns enabled and a spline file known, every station holds the
        element model cached for the file pair. */
    method LoadTelescope(stations: seq<Station>, cwd: Dir, numSubdirs: int, filemap: FileMap,
                         status: Status, fileExists: string -> bool, resizeStatus: nat -> Status,
                         readStatus: (nat, string) -> Status, copyStatus: Status)
      returns (st: Status)
      requires forall i, j :: 0 <= i < j < |stations| ==> stations[i] != stations[j]
      modifies this, filemap, set s | s in stations
      ensures filemap.entries == UpdatedMap(old(filemap.entries), cwd)
      ensures numSubdirs != 0 ==>
        && st == status && models == old(models)
        && forall i :: 0 <= i < |stations| ==> stations[i].elements == old(stations[i].elements)
      ensures numSubdirs == 0 ==>
        var w := LoadStations(status, enableNumericalPatterns, filemap.entries, old(models),
                              old(ElementsOf(stations)), fileExists, resizeStatus, readStatus, copyStatus);
        && st == w.status && models == w.models
        && forall i :: 0 <= i < |stations| ==> stations[i].elements == w.elements[i]
      ensures numSubdirs == 0 && st == Ok ==>
        forall i :: 0 <= i < |stations| ==> |stations[i].elements| == 1
      ensures numSubdirs == 0 && st == Ok && enableNumericalPatterns && Key(filemap.entries) != ""
              && |stations| > 0 ==>
        && Key(filemap.entries) in models
        && forall i :: 0 <= i < |stations| ==> stations[i].elements[0] == models[Key(filemap.entries)]
      ensures status != Ok ==>
        && st == status && models == old(models)
        && forall i :: 0 <= i < |stations| ==> stations[i].elements == old(stations[i].elements)
    {
      filemap.UpdateMap(cwd);
      st := status;
      if numSubdirs == 0 {
        ghost var olds := ElementsOf(stations);
        ghost var cache := models;
        st := WalkStations(stations, filemap.entries, status, fileExists, resizeStatus, readStatus, copyStatus);
        WalkEnds(status, enableNumericalPatterns, filemap.entries, cache, olds,
                 fileExists, resizeStatus, readStatus, copyStatus);
      }
    }

    /** The station loop of `load` at the deepest level: `LoadNext` on
        every station, in order, threading the status and the cache. */
    method WalkStations(stations: seq<Station>, filemap: map<string, string>, status: Status,
                        fileExists: string -> bool, resizeStatus: nat -> Status,
                        readStatus: (nat, string) -> Status, copyStatus: Status)
      returns (st: Status)
      requires forall i, j :: 0 <= i < j < |stations| ==> stations[i] != stations[j]
      modifies this, set s | s in stations
      ensures var w := LoadStations(status, enableNumericalPatterns, filemap, old(models),
                                    old(ElementsOf(stations)), fileExists, resizeStatus, readStatus, copyStatus);
        && st == w.status && models == w.models
        && forall i :: 0 <= i < |stations| ==> stations[i].elements == w.elements[i]
    {
      ghost var olds := ElementsOf(stations);
      ghost var walk := Walk(status, models, []);
      assert olds[..0] == [];
      st := status;
      var i := 0;
      while i < |stations|
        invariant 0 <= i <= |stations|
        invariant walk == LoadStations(status, enableNumericalPatterns, filemap, old(models),
                                       olds[..i], fileExists, resizeStatus, readStatus, copyStatus)
        invariant st == walk.status && models == walk.models && |walk.elements| == i
        invariant forall j :: 0 <= j < i ==> stations[j].elements == walk.elements[j]
        invariant forall j :: i <= j < |stations| ==> stations[j].elements == olds[j]
      {
        LoadStationsStep(status, enableNumericalPatterns, filemap, old(models), olds, i,
                         fileExists, resizeStatus, readStatus, copyStatus);
        label Top:
        st := LoadNext(stations[i], filemap, st, fileExists, resizeStatus(i), readStatus, copyStatus);
        walk := Walk(st, models, walk.elements + [stations[i].elements]);
        forall j | 0 <= j < |stations| && j != i
          ensures stations[j].elements == old@Top(stations[j].elements)
        {
          assert stations[j] != stations[i];
        }
        i := i + 1;
      }
      assert olds[..i] == olds;
    }
  }
}
