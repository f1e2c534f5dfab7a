/**
  Partial and complete sets of project directories: a map from purpose to
  path, a record with eight mandatory members and two optional ones, and the
  conversions between them.
 */
module ProjDirs {
  import opened Wrappers
  import opened Paths
  import opened Identity

  /** `ProjectDirs`: the purposes a strategy could resolve, each with its path. */
  type ProjectDirs = map<Directory, Path>

  /** `ProjectDirs::empty`. */
  function Empty(): (pd: ProjectDirs)
    ensures forall d: Directory :: d !in pd
  {
    map[]
  }

  /** `ProjectDirs::get`: the path kept for a purpose, if any. */
  function Get(pd: ProjectDirs, d: Directory): (r: Option<Path>)
    ensures r.Some? <==> d in pd
    ensures r.Some? ==> r.value == pd[d]
  {
    if d in pd then Some(pd[d]) else None
  }

  /** `FullProjectDirs`: every mandatory purpose resolved; runtime and project root optional. */
  datatype FullProjectDirs = FullProjectDirs(
    bin: Path,
    cache: Path,
    config: Path,
    data: Path,
    includeDir: Path,
    lib: Path,
    log: Path,
    projectRoot: Option<Path>,
    runtime: Option<Path>,
    state: Path)

  /** The member of a full record that serves a purpose. */
  function Field(f: FullProjectDirs, d: Directory): Option<Path> {
    match d
    case Bin => Some(f.bin)
    case Cache => Some(f.cache)
    case Config => Some(f.config)
    case Data => Some(f.data)
    case Include => Some(f.includeDir)
    case Lib => Some(f.lib)
    case Log => Some(f.log)
    case ProjectRoot => f.projectRoot
    case Runtime => f.runtime
    case State => Some(f.state)
  }

  /**
    `From<FullProjectDirs> for ProjectDirs`: the eight mandatory members,
    then runtime and project root when they are present.
   */
  function FromFull(f: FullProjectDirs): (pd: ProjectDirs)
    ensures forall d: Directory :: d in pd <==> Field(f, d).Some?
    ensures forall d: Directory :: d in pd ==> Field(f, d) == Some(pd[d])
  {
    var mandatory := map[Cache := f.cache, Config := f.config, Data := f.data, State := f.state,
                         Log := f.log, Bin := f.bin, Lib := f.lib, Include := f.includeDir];
    var withRuntime := if f.runtime.Some? then mandatory[Runtime := f.runtime.value] else mandatory;
    if f.projectRoot.Some? then withRuntime[ProjectRoot := f.projectRoot.value] else withRuntime
  }

  /** The purposes the conversion to a full record checks, in the order it checks them. */
  const Checked: seq<Directory> := [Cache, Config, Data, State, Log, Bin, Lib]

  /** The members of `ds` that `pd` lacks, in the order of `ds`. */
  function MissingAmong(ds: seq<Directory>, pd: ProjectDirs): seq<Directory>
    decreases |ds|
  {
    if ds == [] then []
    else MissingAmong(ds[..|ds| - 1], pd) + (if ds[|ds| - 1] in pd then [] else [ds[|ds| - 1]])
  }

  /** The error list of the conversion to a full record. */
  function Missing(pd: ProjectDirs): seq<Directory> {
    MissingAmong(Checked, pd)
  }

  /**
    The conversion unwraps Include once the seven checked purposes are all
    present, so it panics on a map that has those seven but no Include.
   */
  predicate Panics(pd: ProjectDirs) {
    Missing(pd) == [] && Include !in pd
  }

  /** `TryFrom<ProjectDirs> for FullProjectDirs`, on the maps on which it does not panic. */
  function ToFull(pd: ProjectDirs): Result<FullProjectDirs, seq<Directory>>
    requires !Panics(pd)
  {
    if Missing(pd) != [] then Err(Missing(pd))
    else
      MissingAmongExact(Checked, pd);
      Ok(FullProjectDirs(pd[Bin], pd[Cache], pd[Config], pd[Data], pd[Include], pd[Lib], pd[Log],
                         Get(pd, ProjectRoot), Get(pd, Runtime), pd[State]))
  }

  /**
    The conversion as the source runs it: the checking loop collects the
    absent purposes, then each member is taken out of the map.
   */
  method TryIntoFull(pd: ProjectDirs) returns (r: Result<FullProjectDirs, seq<Directory>>)
    requires !Panics(pd)
    ensures r == ToFull(pd)
  {
    var errors: seq<Directory> := [];
    var i := 0;
    while i < |Checked|
      invariant 0 <= i <= |Checked|
      invariant errors == MissingAmong(Checked[..i], pd)
    {
      var dir := Checked[i];
      assert Checked[..i + 1][..i] == Checked[..i];
      if dir !in pd {
        errors := errors + [dir];
      }
      i := i + 1;
    }
    assert Checked[..|Checked|] == Checked;
    if errors == [] {
      MissingAmongExact(Checked, pd);
      // Each `remove(..).unwrap()` takes a distinct key, so it reads the value the map holds.
      r := Ok(FullProjectDirs(pd[Bin], pd[Cache], pd[Config], pd[Data], pd[Include], pd[Lib], pd[Log],
                              Get(pd, ProjectRoot), Get(pd, Runtime), pd[State]));
    } else {
      r := Err(errors);
    }
  }

  // ---------------------------------------------------------------------------
  // The error list

  /** A purpose is reported exactly when it is one of `ds` and absent from the map. */
  lemma {:induction false} MissingAmongExact(ds: seq<Directory>, pd: ProjectDirs)
    ensures forall d: Directory :: d in MissingAmong(ds, pd) <==> d in ds && d !in pd
    decreases |ds|
  {
    if ds != [] {
      var init := ds[..|ds| - 1];
      MissingAmongExact(init, pd);
      assert ds == init + [ds[|ds| - 1]];
      forall d: Directory ensures d in ds <==> d in init || d == ds[|ds| - 1] {
        assert d in ds <==> d in init + [ds[|ds| - 1]];
      }
    }
  }

  /** Position of a purpose in the checking order. */
  function CheckOrder(d: Directory): nat {
    match d
    case Cache => 0
    case Config => 1
    case Data => 2
    case State => 3
    case Log => 4
    case Bin => 5
    case Lib => 6
    case _ => 7
  }

  predicate CheckOrdered(ds: seq<Directory>) {
    forall i, j :: 0 <= i < j < |ds| ==> CheckOrder(ds[i]) < CheckOrder(ds[j])
  }

  /** Taking the absent members of an ordered list keeps the order, so no purpose is reported twice. */
  lemma {:induction false} MissingAmongOrdered(ds: seq<Directory>, pd: ProjectDirs)
    requires CheckOrdered(ds)
    ensures CheckOrdered(MissingAmong(ds, pd))
    ensures forall i :: 0 <= i < |MissingAmong(ds, pd)| ==> MissingAmong(ds, pd)[i] in ds
    decreases |ds|
  {
    if ds != [] {
      var init := ds[..|ds| - 1];
      var last := ds[|ds| - 1];
      assert CheckOrdered(init);
      MissingAmongOrdered(init, pd);
      var m := MissingAmong(init, pd);
      forall i | 0 <= i < |m| ensures CheckOrder(m[i]) < CheckOrder(last) {
        var k :| 0 <= k < |init| && init[k] == m[i];
        assert ds[k] == m[i];
      }
    }
  }

  /**
    The error list holds exactly the absent purposes among Cache, Config,
    Data, State, Log, Bin and Lib, in that order, each once; Include, Runtime
    and ProjectRoot are never reported.
   */
  lemma MissingExact(pd: ProjectDirs)
    ensures forall d: Directory :: d in Missing(pd) <==> d in Checked && d !in pd
    ensures CheckOrdered(Missing(pd))
    ensures forall i, j :: 0 <= i < j < |Missing(pd)| ==> Missing(pd)[i] != Missing(pd)[j]
    ensures Include !in Missing(pd) && Runtime !in Missing(pd) && ProjectRoot !in Missing(pd)
  {
    MissingAmongExact(Checked, pd);
    MissingAmongOrdered(Checked, pd);
  }

  /** Nothing is reported when every member of `ds` is present. */
  lemma {:induction false} MissingAmongNone(ds: seq<Directory>, pd: ProjectDirs)
    requires forall i :: 0 <= i < |ds| ==> ds[i] in pd
    ensures MissingAmong(ds, pd) == []
    decreases |ds|
  {
    if ds != [] {
      MissingAmongNone(ds[..|ds| - 1], pd);
    }
  }

  /** The conversion succeeds exactly when the seven checked purposes are all present. */
  lemma ToFullSucceeds(pd: ProjectDirs)
    requires !Panics(pd)
    ensures ToFull(pd).Ok? <==> forall d: Directory :: d in Checked ==> d in pd
    ensures ToFull(pd).Err? ==> ToFull(pd).error == Missing(pd) && |Missing(pd)| > 0
  {
    MissingAmongExact(Checked, pd);
    if forall d: Directory :: d in Checked ==> d in pd {
      MissingAmongNone(Checked, pd);
    }
  }

  // ---------------------------------------------------------------------------
  // Round trips

  /** A record turned into a map and back is the same record. */
  lemma FullRoundTrip(f: FullProjectDirs)
    ensures !Panics(FromFull(f))
    ensures ToFull(FromFull(f)) == Ok(f)
  {
    var pd := FromFull(f);
    MissingAmongNone(Checked, pd);
    assert Field(f, Runtime) == f.runtime;
    assert Field(f, ProjectRoot) == f.projectRoot;
  }

  /** Two maps that answer every lookup alike are the same map. */
  lemma SameLookups(a: ProjectDirs, b: ProjectDirs)
    requires forall d: Directory :: Get(a, d) == Get(b, d)
    ensures a == b
  {
    forall d: Directory ensures (d in a <==> d in b) && (d in a ==> a[d] == b[d]) {
      assert Get(a, d) == Get(b, d);
    }
  }

  /** A map that agrees with a record on every purpose is the map of that record. */
  lemma FromFullByFields(pd: ProjectDirs, f: FullProjectDirs)
    requires forall d: Directory :: Get(pd, d) == Field(f, d)
    ensures pd == FromFull(f)
  {
    var m := FromFull(f);
    forall d: Directory ensures (d in pd <==> d in m) && (d in pd ==> pd[d] == m[d]) {
      assert Get(pd, d) == Field(f, d);
    }
  }

  /** A map that converts to a record is the map that record turns back into. */
  lemma PartialRoundTrip(pd: ProjectDirs)
    requires !Panics(pd) && ToFull(pd).Ok?
    ensures FromFull(ToFull(pd).value) == pd
  {
    var f := ToFull(pd).value;
    var back := FromFull(f);
    MissingAmongExact(Checked, pd);
    forall d: Directory ensures (d in back <==> d in pd) && (d in pd ==> back[d] == pd[d]) {
      assert Field(f, d).Some? <==> d in pd;
    }
  }

  /** The map holding only Config and Data lacks Cache, State, Log, Bin and Lib, in that order. */
  lemma MissingExample(config: Path, data: Path)
    ensures Missing(map[Config := config, Data := data]) == [Cache, State, Log, Bin, Lib]
    ensures !Panics(map[Config := config, Data := data])
    ensures ToFull(map[Config := config, Data := data]) == Err([Cache, State, Log, Bin, Lib])
    ensures ToFullReportingInclude(map[Config := config, Data := data]) == Err([Cache, State, Log, Bin, Lib])
  {
    var pd := map[Config := config, Data := data];
    assert Checked[..1][..0] == [];
    assert MissingAmong(Checked[..1], pd) == [Cache];
    assert Checked[..2][..1] == Checked[..1];
    assert MissingAmong(Checked[..2], pd) == [Cache];
    assert Checked[..3][..2] == Checked[..2];
    assert MissingAmong(Checked[..3], pd) == [Cache];
    assert Checked[..4][..3] == Checked[..3];
    assert MissingAmong(Checked[..4], pd) == [Cache, State];
    assert Checked[..5][..4] == Checked[..4];
    assert MissingAmong(Checked[..5], pd) == [Cache, State, Log];
    assert Checked[..6][..5] == Checked[..5];
    assert MissingAmong(Checked[..6], pd) == [Cache, State, Log, Bin];
    assert Checked[..7][..6] == Checked[..6];
    assert Checked[..7] == Checked;
  }

  // ---------------------------------------------------------------------------
  // The conversion with Include checked like the other mandatory purposes

  /** Every mandatory purpose, Include last. */
  const Mandatory: seq<Directory> := Checked + [Include]

  /** The absent mandatory purposes are the source's error list, followed by Include when it is absent. */
  lemma MandatoryMissing(pd: ProjectDirs)
    ensures MissingAmong(Mandatory, pd) == Missing(pd) + (if Include in pd then [] else [Include])
  {
    assert Mandatory[..|Mandatory| - 1] == Checked;
  }

  /**
   * The conversion as evidently intended, changed as little as possible: where the source
   * would panic it reports `[Include]`; everywhere else it is the source's conversion.
   */
  function ToFullReportingInclude(pd: ProjectDirs): (r: Result<FullProjectDirs, seq<Directory>>)
    ensures r.Ok? <==> forall d: Directory :: d in Mandatory ==> d in pd
    ensures r.Err? ==> r.error != [] && forall d :: d in r.error ==> d in Mandatory && d !in pd
  {
    MissingAmongExact(Checked, pd);
    if Missing(pd) != [] then
      assert Missing(pd)[0] in Missing(pd);
      Err(Missing(pd))
    else if Include !in pd then
      Err([Include])
    else
      Ok(FullProjectDirs(pd[Bin], pd[Cache], pd[Config], pd[Data], pd[Include], pd[Lib], pd[Log],
                         Get(pd, ProjectRoot), Get(pd, Runtime), pd[State]))
  }

  /** The seven checked purposes present and Include absent: the source's conversion panics. */
  lemma PanicsWithoutInclude(p: Path)
    ensures var pd := map[Cache := p, Config := p, Data := p, State := p, Log := p, Bin := p, Lib := p];
      Panics(pd) && ToFullReportingInclude(pd) == Err([Include])
  {
    var pd := map[Cache := p, Config := p, Data := p, State := p, Log := p, Bin := p, Lib := p];
    MissingAmongNone(Checked, pd);
  }

  /**
   * The corrected conversion returns what the source's returns wherever the source does not
   * panic, and `[Include]` exactly where it does.
   */
  lemma ReportingIncludeAgrees(pd: ProjectDirs)
    ensures !Panics(pd) ==> ToFullReportingInclude(pd) == ToFull(pd)
    ensures Panics(pd) <==> ToFullReportingInclude(pd) == Err([Include]) && Include !in pd
  {
    MissingExact(pd);
  }

  /** The corrected conversion undoes the map built from a record. */
  lemma ReportingIncludeRoundTrip(f: FullProjectDirs)
    ensures ToFullReportingInclude(FromFull(f)) == Ok(f)
  {
    FullRoundTrip(f);
    ReportingIncludeAgrees(FromFull(f));
  }
}
