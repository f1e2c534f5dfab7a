/**
  Post-processing of a directory map: keeping the entries whose path is in a
  given state on the filesystem, and moving every path below a mount point.
  The filesystem is an oracle answering, for each path, what is there.
 */
module DirUtils {
  import opened Wrappers
  import opened Paths
  import opened Identity
  import opened ProjDirs

  /** What the filesystem holds at a path, as far as the checks can tell. */
  datatype FsState =
    | IsDirectory    // a directory
    | OtherEntry     // a file or another entry that is not a directory
    | Absent         // nothing
    | Denied         // the check fails, e.g. no permission to look

  /** The filesystem, a snapshot taken for the whole evaluation. */
  type Fs = Path -> FsState

  /** `Path::is_dir`: false when the entry is missing or cannot be read. */
  predicate IsDir(fs: Fs, p: Path) { fs(p) == IsDirectory }

  /** `Path::exists`: false when the entry is missing or cannot be read. */
  predicate Exists(fs: Fs, p: Path) { fs(p) == IsDirectory || fs(p) == OtherEntry }

  /** `Path::try_exists`: whether something is there, or an error when the check fails. */
  function TryExists(fs: Fs, p: Path): (r: Result<bool, IoError>)
    ensures r.Err? <==> fs(p) == Denied
    ensures r.Ok? ==> (r.value <==> Exists(fs, p))
  {
    match fs(p)
    case Denied => Err(IoError)
    case Absent => Ok(false)
    case _ => Ok(true)
  }

  /** The five filters. */
  datatype FilterKind = FsPresent | FsAbsent | FsNotDir | FsDenied | FsNonValidDir

  /** The test each filter applies to a path. */
  predicate Keeps(kind: FilterKind, fs: Fs, p: Path) {
    match kind
    case FsPresent => IsDir(fs, p)
    case FsNotDir => Exists(fs, p) && !IsDir(fs, p)
    case FsAbsent => TryExists(fs, p) == Ok(false)
    case FsDenied => TryExists(fs, p).Err?
    case FsNonValidDir => !IsDir(fs, p)
  }

  /** The entries whose path passes the filter's test, unchanged. */
  function Filtered(pd: ProjectDirs, kind: FilterKind, fs: Fs): (r: ProjectDirs)
    ensures forall d: Directory :: d in r <==> d in pd && Keeps(kind, fs, pd[d])
    ensures forall d: Directory :: d in r ==> r[d] == pd[d]
  {
    map d: Directory | d in pd && Keeps(kind, fs, pd[d]) :: pd[d]
  }

  /** `filter_existing_dirs`. */
  function FilterExistingDirs(pd: ProjectDirs, fs: Fs): ProjectDirs { Filtered(pd, FsPresent, fs) }

  /** `filter_non_dirs`. */
  function FilterNonDirs(pd: ProjectDirs, fs: Fs): ProjectDirs { Filtered(pd, FsNotDir, fs) }

  /** `filter_absent`. */
  function FilterAbsent(pd: ProjectDirs, fs: Fs): ProjectDirs { Filtered(pd, FsAbsent, fs) }

  /** `filter_denied`. */
  function FilterDenied(pd: ProjectDirs, fs: Fs): ProjectDirs { Filtered(pd, FsDenied, fs) }

  /** `filter_non_valid`. */
  function FilterNonValid(pd: ProjectDirs, fs: Fs): ProjectDirs { Filtered(pd, FsNonValidDir, fs) }

  /** Each filter keeps exactly the entries whose path is in the states it selects. */
  lemma FilterStates(pd: ProjectDirs, fs: Fs)
    ensures forall d: Directory :: d in FilterExistingDirs(pd, fs) <==> d in pd && fs(pd[d]) == IsDirectory
    ensures forall d: Directory :: d in FilterNonDirs(pd, fs) <==> d in pd && fs(pd[d]) == OtherEntry
    ensures forall d: Directory :: d in FilterAbsent(pd, fs) <==> d in pd && fs(pd[d]) == Absent
    ensures forall d: Directory :: d in FilterDenied(pd, fs) <==> d in pd && fs(pd[d]) == Denied
    ensures forall d: Directory :: d in FilterNonValid(pd, fs) <==> d in pd && fs(pd[d]) != IsDirectory
  {
  }

  /** Every filter gives a sub-map of its input, with the kept entries unchanged. */
  lemma FilteredSubmap(pd: ProjectDirs, kind: FilterKind, fs: Fs)
    ensures Filtered(pd, kind, fs).Keys <= pd.Keys
    ensures forall d: Directory :: d in Filtered(pd, kind, fs) ==> Get(Filtered(pd, kind, fs), d) == Get(pd, d)
  {
  }

  /** Existing directories and non-valid entries split the map in two: no entry in both, none in neither. */
  lemma PresentNonValidPartition(pd: ProjectDirs, fs: Fs)
    ensures FilterExistingDirs(pd, fs).Keys !! FilterNonValid(pd, fs).Keys
    ensures FilterExistingDirs(pd, fs).Keys + FilterNonValid(pd, fs).Keys == pd.Keys
  {
  }

  /** Filtering twice with the same filter on the same filesystem filters once. */
  lemma FilteredIdempotent(pd: ProjectDirs, kind: FilterKind, fs: Fs)
    ensures Filtered(Filtered(pd, kind, fs), kind, fs) == Filtered(pd, kind, fs)
  {
  }

  /**
    No entry is both absent and denied, and the absent, denied, non-directory
    and directory entries together are the whole map.
   */
  lemma FiltersCover(pd: ProjectDirs, fs: Fs)
    ensures FilterAbsent(pd, fs).Keys !! FilterDenied(pd, fs).Keys
    ensures FilterExistingDirs(pd, fs).Keys + FilterNonDirs(pd, fs).Keys
            + FilterAbsent(pd, fs).Keys + FilterDenied(pd, fs).Keys == pd.Keys
  {
    FilterStates(pd, fs);
  }

  // ---------------------------------------------------------------------------
  // Mounting

  /** `strip_root_prefix`: a rooted path loses its root; a relative one is left as it is. */
  function StripRoot(p: Path): (r: Path)
    ensures !r.absolute && r.parts == p.parts
    ensures !p.absolute ==> r == p
  {
    if p.absolute then Path(false, p.parts) else p
  }

  /** `Mounted for PathBuf`: the path, without its root, below the mount point. */
  function MountPath(p: Path, mountpoint: Path): (r: Path)
    ensures Within(r, mountpoint)
    ensures r.parts == mountpoint.parts + p.parts
  {
    assert (mountpoint.parts + p.parts)[..|mountpoint.parts|] == mountpoint.parts;
    JoinPath(mountpoint, StripRoot(p))
  }

  /**
    Rooted or not, a path lands at the same place, which is the mount point
    with the path's components joined below it one by one.
   */
  lemma MountIgnoresRoot(p: Path, mountpoint: Path)
    ensures MountPath(p, mountpoint) == MountPath(StripRoot(p), mountpoint)
    ensures [] !in p.parts ==> MountPath(p, mountpoint) == JoinAll(mountpoint, p.parts)
  {
    if [] !in p.parts {
      JoinAllAppends(mountpoint, p.parts);
    }
  }

  /** Joining names that are all non-empty appends them. */
  lemma {:induction false} JoinAllAppends(p: Path, names: seq<string>)
    requires [] !in names
    ensures JoinAll(p, names) == Path(p.absolute, p.parts + names)
    decreases |names|
  {
    if names != [] {
      assert names[0] in names;
      assert forall i :: 1 <= i < |names| ==> names[i] == names[1..][i - 1];
      assert [] !in names[1..];
      JoinAllAppends(Join(p, names[0]), names[1..]);
      assert p.parts + [names[0]] + names[1..] == p.parts + names;
    }
  }

  /** `/var/log/app` mounted at `/mnt` is `/mnt/var/log/app`. */
  lemma MountExample()
    ensures MountPath(Path(true, ["var", "log", "app"]), Path(true, ["mnt"])) == Path(true, ["mnt", "var", "log", "app"])
  {
  }

  /** `Mounted for ProjectDirs`: the same purposes, each path moved below the mount point. */
  function Mounted(pd: ProjectDirs, mountpoint: Path): (r: ProjectDirs)
    ensures r.Keys == pd.Keys
    ensures forall d: Directory :: d in r ==> r[d] == MountPath(pd[d], mountpoint)
  {
    map d: Directory | d in pd :: MountPath(pd[d], mountpoint)
  }

  /** Every mounted path lies below the mount point. */
  lemma MountedWithin(pd: ProjectDirs, mountpoint: Path)
    ensures forall d: Directory :: d in Mounted(pd, mountpoint) ==> Within(Mounted(pd, mountpoint)[d], mountpoint)
  {
  }

  /** The path of an optional member moved below the mount point. */
  function MountOpt(p: Option<Path>, mountpoint: Path): Option<Path> {
    match p
    case Some(q) => Some(MountPath(q, mountpoint))
    case None => None
  }

  /**
    `Mounted for FullProjectDirs`: through the map and back.  Mounting keeps
    the purposes, so the conversion back neither fails nor panics, and each
    member of the result is the member of the input moved below the mount
    point.
   */
  function MountFull(f: FullProjectDirs, mountpoint: Path): (r: FullProjectDirs)
    ensures forall d: Directory :: Field(r, d) == MountOpt(Field(f, d), mountpoint)
  {
    var pd := Mounted(FromFull(f), mountpoint);
    MountedConverts(f, mountpoint);
    ToFull(pd).value
  }

  /** The mounted map of a full record converts back, member by member. */
  lemma MountedConverts(f: FullProjectDirs, mountpoint: Path)
    ensures !Panics(Mounted(FromFull(f), mountpoint))
    ensures ToFull(Mounted(FromFull(f), mountpoint)).Ok?
    ensures forall d: Directory :: Field(ToFull(Mounted(FromFull(f), mountpoint)).value, d) == MountOpt(Field(f, d), mountpoint)
  {
    var pd := Mounted(FromFull(f), mountpoint);
    var g := FullProjectDirs(MountPath(f.bin, mountpoint), MountPath(f.cache, mountpoint),
      MountPath(f.config, mountpoint), MountPath(f.data, mountpoint), MountPath(f.includeDir, mountpoint),
      MountPath(f.lib, mountpoint), MountPath(f.log, mountpoint), MountOpt(f.projectRoot, mountpoint),
      MountOpt(f.runtime, mountpoint), MountPath(f.state, mountpoint));
    forall d: Directory ensures Get(pd, d) == Field(g, d) {
      match d
      case Bin =>
      case Cache =>
      case Config =>
      case Data =>
      case Include =>
      case Lib =>
      case Log =>
      case ProjectRoot =>
      case Runtime =>
      case State =>
    }
    FromFullByFields(pd, g);
    FullRoundTrip(g);
    forall d: Directory ensures Field(g, d) == MountOpt(Field(f, d), mountpoint) {
      match d
      case Bin =>
      case Cache =>
      case Config =>
      case Data =>
      case Include =>
      case Lib =>
      case Log =>
      case ProjectRoot =>
      case Runtime =>
      case State =>
    }
  }
}
