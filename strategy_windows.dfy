/**
  Directories on Windows: the organization and application namespace below
  the known folders (ProgramFiles, ProgramData, RoamingAppData,
  LocalAppData), split between a root for data that stays the same and a
  root for data that changes.
 */
module WindowsStrategy {
  import opened Wrappers
  import opened Paths
  import opened Identity
  import opened ProjDirs
  import opened Overlay

  const ProgramFiles := "%ProgramFiles%"
  const ProgramData := "%ProgramData%"
  const RoamingAppData := "%RoamingAppData%"
  const LocalAppData := "%LocalAppData%"

  /** The known folders a `WindowsEnv` holds. */
  datatype WinVars = WinVars(
    programFiles: Option<Path>,
    programData: Option<Path>,
    roamingAppData: Option<Path>,
    localAppData: Option<Path>)

  /** `WindowsEnv::default()`: no folder known. */
  const NoFolders := WinVars(None, None, None, None)

  /** One pair of `extend_with_env`: the folder the key names follows the overlay rule; other keys change nothing. */
  function ExtendOne(v: WinVars, key: string, value: Option<string>, allowClearing: bool): WinVars {
    if key == ProgramFiles then v.(programFiles := Overlaid(v.programFiles, value, allowClearing))
    else if key == ProgramData then v.(programData := Overlaid(v.programData, value, allowClearing))
    else if key == RoamingAppData then v.(roamingAppData := Overlaid(v.roamingAppData, value, allowClearing))
    else if key == LocalAppData then v.(localAppData := Overlaid(v.localAppData, value, allowClearing))
    else v
  }

  /** The folders after all pairs, taken in order. */
  function Extended(v: WinVars, pairs: seq<(string, Option<string>)>, allowClearing: bool): WinVars
    decreases |pairs|
  {
    if pairs == [] then v
    else
      var last := pairs[|pairs| - 1];
      ExtendOne(Extended(v, pairs[..|pairs| - 1], allowClearing), last.0, last.1, allowClearing)
  }

  /** Each folder ends as the overlay of the values given for its own key, in order; no other key touches it. */
  lemma {:induction false} ExtendedFields(v: WinVars, pairs: seq<(string, Option<string>)>, allowClearing: bool)
    ensures var w := Extended(v, pairs, allowClearing);
      w.programFiles == OverlaidAll(v.programFiles, ValuesFor(pairs, ProgramFiles), allowClearing)
      && w.programData == OverlaidAll(v.programData, ValuesFor(pairs, ProgramData), allowClearing)
      && w.roamingAppData == OverlaidAll(v.roamingAppData, ValuesFor(pairs, RoamingAppData), allowClearing)
      && w.localAppData == OverlaidAll(v.localAppData, ValuesFor(pairs, LocalAppData), allowClearing)
    decreases |pairs|
  {
    if pairs != [] {
      var init := pairs[..|pairs| - 1];
      var last := pairs[|pairs| - 1];
      assert pairs == init + [last];
      ExtendedFields(v, init, allowClearing);
      FieldStep(v.programFiles, init, last, ProgramFiles, allowClearing);
      FieldStep(v.programData, init, last, ProgramData, allowClearing);
      FieldStep(v.roamingAppData, init, last, RoamingAppData, allowClearing);
      FieldStep(v.localAppData, init, last, LocalAppData, allowClearing);
    }
  }

  /** A pair whose key names no folder leaves every folder as it was. */
  lemma ExtendUnknownKey(v: WinVars, key: string, value: Option<string>, allowClearing: bool)
    requires key !in {ProgramFiles, ProgramData, RoamingAppData, LocalAppData}
    ensures ExtendOne(v, key, value, allowClearing) == v
  {
  }

  /** `WindowsEnv`: the known folders, updated in place by `extend_with_env`. */
  class WindowsEnv {
    var programFiles: Option<Path>
    var programData: Option<Path>
    var roamingAppData: Option<Path>
    var localAppData: Option<Path>

    function Vars(): WinVars
      reads this
    {
      WinVars(programFiles, programData, roamingAppData, localAppData)
    }

    constructor (v: WinVars)
      ensures Vars() == v
    {
      programFiles := v.programFiles;
      programData := v.programData;
      roamingAppData := v.roamingAppData;
      localAppData := v.localAppData;
    }

    /** `extend_with_env`: each pair in turn sets, clears or keeps the folder its key names. */
    method ExtendWithEnv(other: seq<(string, Option<string>)>, allowClearing: bool)
      modifies this
      ensures Vars() == Extended(old(Vars()), other, allowClearing)
    {
      var i := 0;
      while i < |other|
        invariant 0 <= i <= |other|
        invariant Vars() == Extended(old(Vars()), other[..i], allowClearing)
      {
        var (k, v) := other[i];
        var value := PathValue(v);
        if allowClearing || value.Some? {
          if k == ProgramFiles {
            programFiles := value;
          } else if k == ProgramData {
            programData := value;
          } else if k == RoamingAppData {
            roamingAppData := value;
          } else if k == LocalAppData {
            localAppData := value;
          }
        }
        assert other[..i + 1][..i] == other[..i];
        i := i + 1;
      }
      assert other[..|other|] == other;
    }
  }

  // ---------------------------------------------------------------------------
  // Layout

  /** `join_win_path`: the organization, then the application, below a folder. */
  function JoinWinPath(path: Path, project: Project): (r: Path)
    ensures Within(r, path)
    ensures r == JoinAll(path, [project.OrganizationName(), project.ApplicationName()])
  {
    JoinWithin(path, project.OrganizationName());
    JoinWithin(Join(path, project.OrganizationName()), project.ApplicationName());
    WithinTrans(Join(Join(path, project.OrganizationName()), project.ApplicationName()),
                Join(path, project.OrganizationName()), path);
    JoinAllShort(path, project.OrganizationName(), project.ApplicationName());
    Join(Join(path, project.OrganizationName()), project.ApplicationName())
  }

  /** Purposes whose data does not change once installed: Bin, Config, Include, Lib. */
  predicate IsStatic(d: Directory) {
    d.Bin? || d.Config? || d.Include? || d.Lib?
  }

  /** Purposes whose data changes while the program runs: Data, Cache, Runtime, State, Log. */
  predicate IsChanging(d: Directory) {
    d.Data? || d.Cache? || d.Runtime? || d.State? || d.Log?
  }

  /** The folder name each purpose gets inside the namespace. */
  function WinSubdir(d: Directory): string {
    match d
    case Bin => "bin"
    case Config => "config"
    case Include => "include"
    case Lib => "lib"
    case Data => "data"
    case Cache => "cache"
    case Runtime => "tmp"
    case State => "state"
    case Log => "logs"
    case ProjectRoot => ""
  }

  /** The path of a purpose below a folder. */
  function WinPath(path: Path, project: Project, d: Directory): Path {
    Join(JoinWinPath(path, project), WinSubdir(d))
  }

  /** The folder a purpose lives under, given the static and the changing folder. */
  function SplitRoot(staticRoot: Option<Path>, changingRoot: Option<Path>, d: Directory): Option<Path> {
    if IsStatic(d) then staticRoot else if IsChanging(d) then changingRoot else None
  }

  /** The layout with static purposes below one folder and changing purposes below another. */
  function SplitLayout(project: Project, staticRoot: Option<Path>, changingRoot: Option<Path>): ProjectDirs {
    map d: Directory | d in AllDirectories && SplitRoot(staticRoot, changingRoot, d).Some?
      :: WinPath(SplitRoot(staticRoot, changingRoot, d).value, project, d)
  }

  /** The layout with every purpose below one folder, and that folder itself as the project root. */
  function WholeLayout(project: Project, root: Option<Path>): ProjectDirs {
    match root
    case None => map[]
    case Some(r) => SplitLayout(project, root, root)[ProjectRoot := r]
  }

  /** What `windows_system_with_env` returns: ProgramFiles for static data, ProgramData for changing data. */
  function WindowsSystem(project: Project, env: WinVars): ProjectDirs {
    SplitLayout(project, env.programFiles, env.programData)
  }

  /** What `windows_user_with_env` returns: RoamingAppData for static data, LocalAppData for changing data. */
  function WindowsUser(project: Project, env: WinVars): ProjectDirs {
    SplitLayout(project, env.roamingAppData, env.localAppData)
  }

  /** What `windows_user_local_with_env` returns: everything below LocalAppData. */
  function WindowsUserLocal(project: Project, env: WinVars): ProjectDirs {
    WholeLayout(project, env.localAppData)
  }

  /** What `windows_user_shared_with_env` returns: everything below RoamingAppData. */
  function WindowsUserShared(project: Project, env: WinVars): ProjectDirs {
    WholeLayout(project, env.roamingAppData)
  }

  // ---------------------------------------------------------------------------
  // The resolvers, inserting step by step

  /** `changing_data`: inserts Data, Cache, Runtime, State and Log below `path`; every other entry is kept. */
  method ChangingData(result: ProjectDirs, path: Path, project: Project) returns (r: ProjectDirs)
    ensures forall d: Directory :: Get(r, d) == if IsChanging(d) then Some(WinPath(path, project, d)) else Get(result, d)
  {
    r := result;
    r := r[Data := Join(JoinWinPath(path, project), "data")];
    r := r[Cache := Join(JoinWinPath(path, project), "cache")];
    r := r[Runtime := Join(JoinWinPath(path, project), "tmp")];
    r := r[State := Join(JoinWinPath(path, project), "state")];
    r := r[Log := Join(JoinWinPath(path, project), "logs")];
  }

  /** `static_data`: inserts Bin, Config, Include and Lib below `path`; every other entry is kept. */
  method StaticData(result: ProjectDirs, path: Path, project: Project) returns (r: ProjectDirs)
    ensures forall d: Directory :: Get(r, d) == if IsStatic(d) then Some(WinPath(path, project, d)) else Get(result, d)
  {
    r := result;
    r := r[Bin := Join(JoinWinPath(path, project), "bin")];
    r := r[Config := Join(JoinWinPath(path, project), "config")];
    r := r[Include := Join(JoinWinPath(path, project), "include")];
    r := r[Lib := Join(JoinWinPath(path, project), "lib")];
  }

  /** A map holding the static entries below one folder and the changing ones below another is the split layout. */
  lemma SplitLookups(project: Project, staticRoot: Option<Path>, changingRoot: Option<Path>, r: ProjectDirs)
    requires forall d: Directory :: Get(r, d) == if IsStatic(d) && staticRoot.Some? then Some(WinPath(staticRoot.value, project, d))
                                             else if IsChanging(d) && changingRoot.Some? then Some(WinPath(changingRoot.value, project, d))
                                             else None
    ensures r == SplitLayout(project, staticRoot, changingRoot)
  {
    var m := SplitLayout(project, staticRoot, changingRoot);
    forall d: Directory ensures Get(r, d) == Get(m, d) {
      assert d in AllDirectories by { DirectoryOrder(); }
    }
    SameLookups(r, m);
  }

  /** `split` static and changing data between two optional folders, as the standard resolvers do. */
  method SplitWithEnv(project: Project, staticRoot: Option<Path>, changingRoot: Option<Path>) returns (r: ProjectDirs)
    ensures r == SplitLayout(project, staticRoot, changingRoot)
  {
    r := map[];
    if staticRoot.Some? {
      r := StaticData(r, staticRoot.value, project);
    }
    if changingRoot.Some? {
      r := ChangingData(r, changingRoot.value, project);
    }
    SplitLookups(project, staticRoot, changingRoot, r);
  }

  /** Everything below one optional folder, and the folder itself as the project root, as the local and shared resolvers do. */
  method WholeWithEnv(project: Project, root: Option<Path>) returns (r: ProjectDirs)
    ensures r == WholeLayout(project, root)
  {
    r := map[];
    if root.Some? {
      var dataDir := root.value;
      r := ChangingData(r, dataDir, project);
      r := StaticData(r, dataDir, project);
      SplitLookups(project, root, root, r);
      r := r[ProjectRoot := dataDir];
    }
  }

  /** `windows_system_with_env`. */
  method WindowsSystemWithEnv(project: Project, env: WinVars) returns (r: ProjectDirs)
    ensures r == WindowsSystem(project, env)
  {
    r := SplitWithEnv(project, env.programFiles, env.programData);
  }

  /** `windows_user_with_env`. */
  method WindowsUserWithEnv(project: Project, env: WinVars) returns (r: ProjectDirs)
    ensures r == WindowsUser(project, env)
  {
    r := SplitWithEnv(project, env.roamingAppData, env.localAppData);
  }

  /** `windows_user_local_with_env`. */
  method WindowsUserLocalWithEnv(project: Project, env: WinVars) returns (r: ProjectDirs)
    ensures r == WindowsUserLocal(project, env)
  {
    r := WholeWithEnv(project, env.localAppData);
  }

  /** `windows_user_shared_with_env`. */
  method WindowsUserSharedWithEnv(project: Project, env: WinVars) returns (r: ProjectDirs)
    ensures r == WindowsUserShared(project, env)
  {
    r := WholeWithEnv(project, env.roamingAppData);
  }

  // ---------------------------------------------------------------------------
  // Properties of the layouts

  /**
    In the split layout a static purpose is present exactly when the static
    folder is known, a changing one exactly when the changing folder is, and
    there is never a project root; each path is the purpose's folder below
    the organization and application inside its root.
   */
  lemma SplitLayoutExact(project: Project, staticRoot: Option<Path>, changingRoot: Option<Path>)
    ensures var pd := SplitLayout(project, staticRoot, changingRoot);
      ProjectRoot !in pd
      && (forall d: Directory :: IsStatic(d) ==> (d in pd <==> staticRoot.Some?))
      && (forall d: Directory :: IsChanging(d) ==> (d in pd <==> changingRoot.Some?))
      && (forall d: Directory :: IsStatic(d) && d in pd ==>
            pd[d] == JoinAll(staticRoot.value, [project.OrganizationName(), project.ApplicationName(), WinSubdir(d)]))
      && (forall d: Directory :: IsChanging(d) && d in pd ==>
            pd[d] == JoinAll(changingRoot.value, [project.OrganizationName(), project.ApplicationName(), WinSubdir(d)]))
  {
    var pd := SplitLayout(project, staticRoot, changingRoot);
    forall d: Directory
      ensures IsStatic(d) ==> (d in pd <==> staticRoot.Some?)
      ensures IsChanging(d) ==> (d in pd <==> changingRoot.Some?)
      ensures d in pd ==> pd[d] == JoinAll(SplitRoot(staticRoot, changingRoot, d).value,
                                           [project.OrganizationName(), project.ApplicationName(), WinSubdir(d)])
    {
      assert d in AllDirectories by { DirectoryOrder(); }
      if d in pd {
        JoinAllThree(SplitRoot(staticRoot, changingRoot, d).value, project.OrganizationName(), project.ApplicationName(), WinSubdir(d));
      }
    }
  }

  /** Joining three names one after another. */
  lemma JoinAllThree(p: Path, a: string, b: string, c: string)
    ensures JoinAll(p, [a, b, c]) == Join(Join(Join(p, a), b), c)
  {
    assert [a, b, c][1..] == [b, c];
    JoinAllShort(Join(p, a), b, c);
  }

  /** Every path of the split layout lies inside the namespace of its folder, so inside that folder. */
  lemma SplitLayoutWithin(project: Project, staticRoot: Option<Path>, changingRoot: Option<Path>)
    ensures var pd := SplitLayout(project, staticRoot, changingRoot);
      (forall d: Directory :: IsStatic(d) && d in pd ==> Within(pd[d], JoinWinPath(staticRoot.value, project)))
      && (forall d: Directory :: IsChanging(d) && d in pd ==> Within(pd[d], JoinWinPath(changingRoot.value, project)))
  {
    var pd := SplitLayout(project, staticRoot, changingRoot);
    forall d: Directory | d in pd
      ensures Within(pd[d], JoinWinPath(SplitRoot(staticRoot, changingRoot, d).value, project))
    {
      JoinWithin(JoinWinPath(SplitRoot(staticRoot, changingRoot, d).value, project), WinSubdir(d));
    }
  }

  /**
    The whole layout: with its folder known every one of the ten purposes is
    present, ProjectRoot is the folder itself (not the namespace) and each
    other purpose is where the split layout on that folder puts it; with the
    folder unknown the map is empty.
   */
  lemma WholeLayoutExact(project: Project, root: Option<Path>)
    ensures root.None? ==> WholeLayout(project, root) == map[]
    ensures root.Some? ==> var pd := WholeLayout(project, root);
      (forall d: Directory :: d in pd)
      && pd[ProjectRoot] == root.value
      && (forall d: Directory :: d != ProjectRoot ==>
            (pd[d] == SplitLayout(project, root, root)[d] && pd[d] == WinPath(root.value, project, d)))
  {
    if root.Some? {
      var pd := WholeLayout(project, root);
      forall d: Directory ensures d in pd && (d != ProjectRoot ==> pd[d] == WinPath(root.value, project, d)) {
        assert d in AllDirectories by { DirectoryOrder(); }
      }
    }
  }

  /** The standard user layout is the system layout with RoamingAppData and LocalAppData in place of ProgramFiles and ProgramData. */
  lemma UserIsSystemOnUserFolders(project: Project, env: WinVars)
    ensures WindowsUser(project, env) == WindowsSystem(project, WinVars(env.roamingAppData, env.localAppData, None, None))
  {
  }

  /** With no folder known every mode gives the empty map; none of them can fail. */
  lemma NoFoldersEmpty(project: Project)
    ensures WindowsSystem(project, NoFolders) == map[]
    ensures WindowsUser(project, NoFolders) == map[]
    ensures WindowsUserLocal(project, NoFolders) == map[]
    ensures WindowsUserShared(project, NoFolders) == map[]
  {
    var pd := SplitLayout(project, None, None);
    forall d: Directory ensures d !in pd {
      assert SplitRoot(None, None, d) == None;
    }
  }

  /**
    The split layout converts to a full record exactly when both folders are
    known: it has no project root to miss and, when the static folder is
    known, always an Include entry, so the checked conversion never panics.
   */
  lemma SplitLayoutToFull(project: Project, staticRoot: Option<Path>, changingRoot: Option<Path>)
    ensures !Panics(SplitLayout(project, staticRoot, changingRoot))
    ensures ToFull(SplitLayout(project, staticRoot, changingRoot)).Ok? <==> staticRoot.Some? && changingRoot.Some?
  {
    var pd := SplitLayout(project, staticRoot, changingRoot);
    SplitLayoutExact(project, staticRoot, changingRoot);
    MissingExact(pd);
    if staticRoot.None? {
      assert Bin in Missing(pd);
    } else {
      assert Include in pd;
    }
    ToFullSucceeds(pd);
  }

  /** The whole layout converts to a full record exactly when its folder is known, with the folder as project root. */
  lemma WholeLayoutToFull(project: Project, root: Option<Path>)
    ensures !Panics(WholeLayout(project, root))
    ensures ToFull(WholeLayout(project, root)).Ok? <==> root.Some?
    ensures root.Some? ==> ToFull(WholeLayout(project, root)).value.projectRoot == root
  {
    var pd := WholeLayout(project, root);
    WholeLayoutExact(project, root);
    MissingExact(pd);
    if root.None? {
      assert Bin in Missing(pd);
    } else {
      assert Include in pd;
    }
    ToFullSucceeds(pd);
  }
}
