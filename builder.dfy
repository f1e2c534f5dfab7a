/**
  The builder: a project triplet and a specification of named entries, each
  naming a strategy and optional post-processing (a filesystem filter, a mount
  point, a subset of purposes), evaluated to one directory map per name.
 */
module Builder {
  import opened Wrappers
  import opened Paths
  import opened Identity
  import opened ProjDirs
  import opened Overlay
  import opened DirUtils
  import opened Scopes
  import UnixStrategy
  import FhsStrategy
  import XdgStrategy
  import WindowsStrategy

  /** The two FHS modes. */
  datatype FhsKind = FhsLocal | FhsShared

  /** Where the unix-style project directory goes. */
  datatype UnixKind = Pwd | Home | Binary | CustomPath(path: Path, prefix: Option<string>)

  /** The four Windows modes. */
  datatype WindowsKind = WinStandard | WinLocal | WinShared | WinSystem

  /** How an entry's directories are resolved. */
  datatype Strategy =
    | CurrentLocal
    | CurrentUser
    | CurrentSystem
    | Fhs(fhs: Option<FhsKind>)
    | Xdg
    | Unix(unix: UnixKind)
    | Windows(windows: WindowsKind)

  /** One named entry of a custom specification. */
  datatype SpecEntry = SpecEntry(
    strategy: Strategy,
    directories: seq<Directory>,
    filter: Option<FilterKind>,
    mountpoint: Option<Path>)

  /** The scopes of the host, or named entries. */
  datatype Spec = SystemDefault | Custom(items: map<string, SpecEntry>)

  /** The variables given to the builder, and how they combine with the process's own. */
  datatype CustomEnv = CustomEnv(
    env: map<string, Option<string>>,
    fallbackToSystem: bool,
    allowVariableClearing: bool)

  /** `CustomEnv::default()`: no variables, falling back to the system, no clearing. */
  const DefaultCustomEnv := CustomEnv(map[], true, false)

  datatype BuilderConfig = BuilderConfig(
    qualifier: string,
    organization: string,
    application: string,
    spec: Spec,
    customEnv: CustomEnv)

  datatype BuilderResult = BuilderResult(applicationName: string, dirs: map<string, ProjectDirs>)

  // ---------------------------------------------------------------------------
  // Iterating over a hash map

  /** `pairs` lists every entry of `m` once, in some order. */
  ghost predicate Lists<V>(pairs: seq<(string, V)>, m: map<string, V>)
    decreases |pairs|
  {
    if pairs == [] then m == map[]
    else
      var last := pairs[|pairs| - 1];
      last.0 in m && m[last.0] == last.1 && Lists(pairs[..|pairs| - 1], m - {last.0})
  }

  /** Iteration over a hash map: every entry once, in an order nothing here relies on. */
  method Iterate<V>(m: map<string, V>) returns (pairs: seq<(string, V)>)
    ensures Lists(pairs, m)
  {
    pairs := [];
    var rest := m.Keys;
    while rest != {}
      invariant rest <= m.Keys
      invariant Lists(pairs, m - rest)
      decreases |rest|
    {
      var k :| k in rest;
      var next := pairs + [(k, m[k])];
      ghost var nextDone := m - (rest - {k});
      assert next[..|pairs|] == pairs;
      assert nextDone - {k} == m - rest;
      pairs := next;
      rest := rest - {k};
    }
    assert m - rest == m;
  }

  /** Since each key comes once, the values for a key are the map's value for it, or none. */
  lemma {:induction false} ValuesForListing(pairs: seq<(string, Option<string>)>, m: map<string, Option<string>>, key: string)
    requires Lists(pairs, m)
    ensures ValuesFor(pairs, key) == if key in m then [m[key]] else []
    decreases |pairs|
  {
    if pairs != [] {
      var last := pairs[|pairs| - 1];
      ValuesForListing(pairs[..|pairs| - 1], m - {last.0}, key);
    }
  }

  /** The XDG variables after the builder's variables, each key taken once. */
  function XdgOverlay(v: XdgStrategy.XdgVars, env: map<string, Option<string>>, allowClearing: bool): XdgStrategy.XdgVars {
    XdgStrategy.XdgVars(
      homeDir := OverlayKey(v.homeDir, env, XdgStrategy.Home, allowClearing),
      dataHome := OverlayKey(v.dataHome, env, XdgStrategy.XdgDataHome, allowClearing),
      configHome := OverlayKey(v.configHome, env, XdgStrategy.XdgConfigHome, allowClearing),
      stateHome := OverlayKey(v.stateHome, env, XdgStrategy.XdgStateHome, allowClearing),
      cacheHome := OverlayKey(v.cacheHome, env, XdgStrategy.XdgCacheHome, allowClearing),
      runtimeDir := OverlayKey(v.runtimeDir, env, XdgStrategy.XdgRuntimeDir, allowClearing))
  }

  /** The Windows folders after the builder's variables, each key taken once. */
  function WinOverlay(v: WindowsStrategy.WinVars, env: map<string, Option<string>>, allowClearing: bool): WindowsStrategy.WinVars {
    WindowsStrategy.WinVars(
      programFiles := OverlayKey(v.programFiles, env, WindowsStrategy.ProgramFiles, allowClearing),
      programData := OverlayKey(v.programData, env, WindowsStrategy.ProgramData, allowClearing),
      roamingAppData := OverlayKey(v.roamingAppData, env, WindowsStrategy.RoamingAppData, allowClearing),
      localAppData := OverlayKey(v.localAppData, env, WindowsStrategy.LocalAppData, allowClearing))
  }

  /** A field after the map's value for its key, when the map has one. */
  function OverlayKey(current: Option<Path>, env: map<string, Option<string>>, key: string, allowClearing: bool): Option<Path> {
    if key in env then Overlaid(current, env[key], allowClearing) else current
  }

  /** A field overlaid with the values for its key, taken from any listing of the map, is overlaid with the map's value. */
  lemma OverlayFieldListing(current: Option<Path>, pairs: seq<(string, Option<string>)>, env: map<string, Option<string>>,
                            key: string, allowClearing: bool)
    requires Lists(pairs, env)
    ensures OverlaidAll(current, ValuesFor(pairs, key), allowClearing) == OverlayKey(current, env, key, allowClearing)
  {
    ValuesForListing(pairs, env, key);
    if key in env {
      assert [env[key]][..0] == [];
    }
  }

  /** Extending the XDG variables from a hash map gives the same result in every iteration order. */
  lemma XdgOrderIrrelevant(v: XdgStrategy.XdgVars, pairs: seq<(string, Option<string>)>, env: map<string, Option<string>>,
                           allowClearing: bool)
    requires Lists(pairs, env)
    ensures XdgStrategy.Extended(v, pairs, allowClearing) == XdgOverlay(v, env, allowClearing)
  {
    XdgStrategy.ExtendedFields(v, pairs, allowClearing);
    OverlayFieldListing(v.homeDir, pairs, env, XdgStrategy.Home, allowClearing);
    OverlayFieldListing(v.dataHome, pairs, env, XdgStrategy.XdgDataHome, allowClearing);
    OverlayFieldListing(v.configHome, pairs, env, XdgStrategy.XdgConfigHome, allowClearing);
    OverlayFieldListing(v.stateHome, pairs, env, XdgStrategy.XdgStateHome, allowClearing);
    OverlayFieldListing(v.cacheHome, pairs, env, XdgStrategy.XdgCacheHome, allowClearing);
    OverlayFieldListing(v.runtimeDir, pairs, env, XdgStrategy.XdgRuntimeDir, allowClearing);
  }

  /** Extending the Windows folders from a hash map gives the same result in every iteration order. */
  lemma WinOrderIrrelevant(v: WindowsStrategy.WinVars, pairs: seq<(string, Option<string>)>, env: map<string, Option<string>>,
                           allowClearing: bool)
    requires Lists(pairs, env)
    ensures WindowsStrategy.Extended(v, pairs, allowClearing) == WinOverlay(v, env, allowClearing)
  {
    WindowsStrategy.ExtendedFields(v, pairs, allowClearing);
    OverlayFieldListing(v.programFiles, pairs, env, WindowsStrategy.ProgramFiles, allowClearing);
    OverlayFieldListing(v.programData, pairs, env, WindowsStrategy.ProgramData, allowClearing);
    OverlayFieldListing(v.roamingAppData, pairs, env, WindowsStrategy.RoamingAppData, allowClearing);
    OverlayFieldListing(v.localAppData, pairs, env, WindowsStrategy.LocalAppData, allowClearing);
  }

  // ---------------------------------------------------------------------------
  // Evaluating an entry

  /** The XDG variables an Xdg entry resolves with. */
  function XdgEnvFor(c: CustomEnv, host: Host): XdgStrategy.XdgVars {
    var start := if c.fallbackToSystem then XdgStrategy.NewSystem(host.env, host.home) else XdgStrategy.NoVars;
    XdgOverlay(start, c.env, c.allowVariableClearing)
  }

  /** The folders a Windows entry resolves with: off Windows there is no system to fall back to. */
  function WinEnvFor(c: CustomEnv): WindowsStrategy.WinVars {
    WinOverlay(WindowsStrategy.NoFolders, c.env, c.allowVariableClearing)
  }

  /** A full record as a map, or the empty map when there is none. */
  function FromFullOr<E>(r: Result<FullProjectDirs, E>): ProjectDirs {
    match r
    case Ok(f) => FromFull(f)
    case Err(_) => Empty()
  }

  /** What the strategy of an entry yields, before any post-processing. */
  function StrategyDirs(c: CustomEnv, project: Project, strategy: Strategy, host: Host): ProjectDirs {
    match strategy
    case CurrentLocal => UnixProjectDirs(project, host).local
    case CurrentUser => UnixProjectDirs(project, host).user
    case CurrentSystem => UnixProjectDirs(project, host).system
    case Fhs(fhs) =>
      if fhs == Some(FhsLocal) then FromFull(FhsStrategy.FhsLocal(project)) else FromFull(FhsStrategy.Fhs(project))
    case Xdg =>
      var env := XdgEnvFor(c, host);
      if c.fallbackToSystem then FromFullOr(XdgStrategy.XdgResolved(project, env))
      else XdgStrategy.ExcludeMissing(project, env)
    case Unix(unix) =>
      match unix {
        case Pwd => FromFullOr(UnixStrategy.UnixPwd(project, host.cwd))
        case Home =>
          match UnixStrategy.UnixHome(project, host.home) {
            case Some(f) => FromFull(f)
            case None => Empty()
          }
        case Binary => FromFullOr(UnixStrategy.UnixBinary(project, host.exe))
        case CustomPath(path, prefix) =>
          match prefix {
            case Some(p) => FromFull(UnixStrategy.UnixPrefixed(project, path, p))
            case None => FromFull(UnixStrategy.UnixDefault(project, path))
          }
      }
    case Windows(windows) =>
      var env := WinEnvFor(c);
      match windows
      case WinStandard => WindowsStrategy.WindowsUser(project, env)
      case WinLocal => WindowsStrategy.WindowsUserLocal(project, env)
      case WinShared => WindowsStrategy.WindowsUserShared(project, env)
      case WinSystem => WindowsStrategy.WindowsSystem(project, env)
  }

  /** The entries of `pd` whose purpose is one of `directories`. */
  function Restricted(pd: ProjectDirs, directories: seq<Directory>): (r: ProjectDirs)
    ensures forall d: Directory :: d in r <==> d in pd && d in directories
    ensures forall d: Directory :: d in r ==> r[d] == pd[d]
  {
    map d: Directory | d in pd && d in directories :: pd[d]
  }

  /** What `process_spec_entry` returns: the strategy's map, filtered, then mounted, then restricted. */
  function EntryDirs(c: CustomEnv, project: Project, entry: SpecEntry, host: Host): ProjectDirs {
    var raw := StrategyDirs(c, project, entry.strategy, host);
    var filtered := if entry.filter.Some? then Filtered(raw, entry.filter.value, host.fs) else raw;
    var mounted := if entry.mountpoint.Some? then Mounted(filtered, entry.mountpoint.value) else filtered;
    if entry.directories != [] then Restricted(mounted, entry.directories) else mounted
  }

  /** The Xdg arm of `process_spec_entry`: the variables, extended in place, then resolved. */
  method XdgEntry(c: CustomEnv, project: Project, host: Host) returns (pd: ProjectDirs)
    ensures pd == StrategyDirs(c, project, Xdg, host)
  {
    var env := new XdgStrategy.XdgEnv(if c.fallbackToSystem then XdgStrategy.NewSystem(host.env, host.home)
                                      else XdgStrategy.NoVars);
    var pairs := Iterate(c.env);
    ghost var start := env.Vars();
    env.ExtendWithEnv(pairs, c.allowVariableClearing);
    XdgOrderIrrelevant(start, pairs, c.env, c.allowVariableClearing);
    if c.fallbackToSystem {
      var r := XdgStrategy.XdgWithEnv(project, env.Vars());
      pd := FromFullOr(r);
    } else {
      pd := XdgStrategy.ExcludeMissing(project, env.Vars());
    }
  }

  /** The Windows arm of `process_spec_entry`: the folders, extended in place, then resolved in the entry's mode. */
  method WindowsEntry(c: CustomEnv, project: Project, windows: WindowsKind) returns (pd: ProjectDirs)
    ensures forall host: Host :: pd == StrategyDirs(c, project, Windows(windows), host)
  {
    var env := new WindowsStrategy.WindowsEnv(WindowsStrategy.NoFolders);
    var pairs := Iterate(c.env);
    env.ExtendWithEnv(pairs, c.allowVariableClearing);
    WinOrderIrrelevant(WindowsStrategy.NoFolders, pairs, c.env, c.allowVariableClearing);
    match windows {
      case WinStandard => pd := WindowsStrategy.WindowsUserWithEnv(project, env.Vars());
      case WinLocal => pd := WindowsStrategy.WindowsUserLocalWithEnv(project, env.Vars());
      case WinShared => pd := WindowsStrategy.WindowsUserSharedWithEnv(project, env.Vars());
      case WinSystem => pd := WindowsStrategy.WindowsSystemWithEnv(project, env.Vars());
    }
  }

  /** The `match` on the strategy at the head of `process_spec_entry`. */
  method StrategyEntry(c: CustomEnv, project: Project, strategy: Strategy, host: Host) returns (pd: ProjectDirs)
    ensures pd == StrategyDirs(c, project, strategy, host)
  {
    match strategy {
      case Xdg =>
        pd := XdgEntry(c, project, host);
      case Windows(windows) =>
        pd := WindowsEntry(c, project, windows);
      case _ =>
        pd := StrategyDirs(c, project, strategy, host);
    }
  }

  /** `process_spec_entry`: the strategy's map, then each post-processing step the entry asks for, in turn. */
  method ProcessSpecEntry(c: CustomEnv, project: Project, entry: SpecEntry, host: Host) returns (pd: ProjectDirs)
    ensures pd == EntryDirs(c, project, entry, host)
  {
    pd := StrategyEntry(c, project, entry.strategy, host);
    if entry.filter.Some? {
      match entry.filter.value {
        case FsPresent => pd := FilterExistingDirs(pd, host.fs);
        case FsAbsent => pd := FilterAbsent(pd, host.fs);
        case FsNotDir => pd := FilterNonDirs(pd, host.fs);
        case FsDenied => pd := FilterDenied(pd, host.fs);
        case FsNonValidDir => pd := FilterNonValid(pd, host.fs);
      }
    }
    if entry.mountpoint.Some? {
      pd := Mounted(pd, entry.mountpoint.value);
    }
    if entry.directories != [] {
      pd := Restricted(pd, entry.directories);
    }
  }

  // ---------------------------------------------------------------------------
  // Building

  /** `system_default`: the host's three scopes under the names local, user and system. */
  function SystemDefaultDirs(project: Project, host: Host): map<string, ProjectDirs> {
    ScopeNames(UnixProjectDirs(project, host))
  }

  /** The three scopes under their names. */
  function ScopeNames(s: Scoped): map<string, ProjectDirs> {
    map["local" := s.local, "user" := s.user, "system" := s.system]
  }

  /** What `build` returns. */
  function BuildResult(b: BuilderConfig, host: Host): BuilderResult {
    var project := NewProject(b.qualifier, b.organization, b.application);
    BuilderResult(
      applicationName := project.ApplicationName(),
      dirs := match b.spec
        case SystemDefault => SystemDefaultDirs(project, host)
        case Custom(items) => map name | name in items :: EntryDirs(b.customEnv, project, items[name], host))
  }

  /** `build`: every named entry evaluated on its own and collected, in the hash map's order. */
  method Build(b: BuilderConfig, host: Host) returns (r: BuilderResult)
    ensures r == BuildResult(b, host)
  {
    var project := NewProject(b.qualifier, b.organization, b.application);
    var applicationName := project.ApplicationName();
    match b.spec {
      case SystemDefault =>
        r := BuilderResult(applicationName, SystemDefaultDirs(project, host));
      case Custom(items) =>
        var acc: map<string, ProjectDirs> := map[];
        var rest := items.Keys;
        while rest != {}
          invariant rest <= items.Keys
          invariant acc.Keys == items.Keys - rest
          invariant forall name :: name in acc ==> acc[name] == EntryDirs(b.customEnv, project, items[name], host)
          decreases |rest|
        {
          var name :| name in rest;
          var pd := ProcessSpecEntry(b.customEnv, project, items[name], host);
          acc := acc[name := pd];
          rest := rest - {name};
        }
        r := BuilderResult(applicationName, acc);
    }
  }

  // ---------------------------------------------------------------------------
  // Properties

  /**
    The application name of the result is the project's, whatever the
    specification; the host defaults give exactly the names local, user and
    system; a custom specification gives exactly its own names, each with its
    own entry's map.
   */
  lemma BuildShape(b: BuilderConfig, host: Host)
    ensures var r := BuildResult(b, host);
      r.applicationName == NewProject(b.qualifier, b.organization, b.application).ApplicationName()
      && (b.spec.SystemDefault? ==> r.dirs.Keys == {"local", "user", "system"})
      && (b.spec.Custom? ==>
            (r.dirs.Keys == b.spec.items.Keys
             && forall name :: name in b.spec.items ==>
                  r.dirs[name] == EntryDirs(b.customEnv, NewProject(b.qualifier, b.organization, b.application),
                                            b.spec.items[name], host)))
  {
  }

  /** The three current-scope entries, with no filter, mount point or subset. */
  const CurrentEntries: map<string, SpecEntry> := map[
    "local" := SpecEntry(CurrentLocal, [], None, None),
    "user" := SpecEntry(CurrentUser, [], None, None),
    "system" := SpecEntry(CurrentSystem, [], None, None)]

  /** The host defaults are the custom specification of the three current scopes, whatever the builder's variables. */
  lemma SystemDefaultIsCustom(b: BuilderConfig, host: Host)
    requires b.spec == SystemDefault
    ensures BuildResult(b, host) == BuildResult(b.(spec := Custom(CurrentEntries)), host)
  {
    CurrentEntriesDirs(b.customEnv, NewProject(b.qualifier, b.organization, b.application), host);
  }

  /** Each current-scope entry evaluates to its scope. */
  lemma CurrentEntriesDirs(c: CustomEnv, project: Project, host: Host)
    ensures (map name | name in CurrentEntries :: EntryDirs(c, project, CurrentEntries[name], host))
            == SystemDefaultDirs(project, host)
  {
    CurrentEntryEach(c, project, host);
  }

  /** The three current-scope entries are named local, user and system, and each evaluates to its scope. */
  lemma CurrentEntryEach(c: CustomEnv, project: Project, host: Host)
    ensures CurrentEntries.Keys == {"local", "user", "system"}
    ensures EntryDirs(c, project, CurrentEntries["local"], host) == UnixProjectDirs(project, host).local
    ensures EntryDirs(c, project, CurrentEntries["user"], host) == UnixProjectDirs(project, host).user
    ensures EntryDirs(c, project, CurrentEntries["system"], host) == UnixProjectDirs(project, host).system
  {
  }

  /**
    The order of the post-processing: the filter tests the path the strategy
    gave, before it is mounted; a purpose survives when it passes the filter
    (if any) and is listed (or the list is empty); its path is then the mounted
    one (if there is a mount point).
   */
  lemma EntryDirsExact(c: CustomEnv, project: Project, entry: SpecEntry, host: Host)
    ensures var raw := StrategyDirs(c, project, entry.strategy, host);
      var pd := EntryDirs(c, project, entry, host);
      (forall d: Directory :: d in pd <==>
         d in raw
         && (entry.filter.None? || Keeps(entry.filter.value, host.fs, raw[d]))
         && (entry.directories == [] || d in entry.directories))
      && (forall d: Directory :: d in pd ==>
            pd[d] == if entry.mountpoint.Some? then MountPath(raw[d], entry.mountpoint.value) else raw[d])
  {
  }

  /**
    With fallback the Xdg entry resolves strictly over the process's
    variables overlaid with the builder's, and is empty when no $HOME results;
    without fallback it starts from nothing and leaves out missing purposes,
    so Bin is there only when the builder itself sets HOME, and there is no
    default below $HOME.
   */
  lemma XdgEntryModes(c: CustomEnv, project: Project, host: Host)
    ensures c.fallbackToSystem && XdgEnvFor(c, host).homeDir.None? ==> StrategyDirs(c, project, Xdg, host) == map[]
    ensures c.fallbackToSystem && XdgEnvFor(c, host).homeDir.Some? ==>
      StrategyDirs(c, project, Xdg, host) == FromFull(XdgStrategy.XdgResolved(project, XdgEnvFor(c, host)).value)
    ensures !c.fallbackToSystem ==>
      var pd := StrategyDirs(c, project, Xdg, host);
      var v := XdgOverlay(XdgStrategy.NoVars, c.env, c.allowVariableClearing);
      pd == XdgStrategy.ExcludeMissing(project, v)
      && (Bin in pd <==> XdgStrategy.Home in c.env && PathValue(c.env[XdgStrategy.Home]).Some?)
      && (forall d: Directory :: d in pd <==> XdgStrategy.Backing(v, d).Some?)
  {
    XdgStrategy.XdgResolvedFails(project, XdgEnvFor(c, host));
    if !c.fallbackToSystem {
      var v := XdgOverlay(XdgStrategy.NoVars, c.env, c.allowVariableClearing);
      XdgStrategy.ExcludeMissingExact(project, v);
    }
  }

  /**
    Off Windows the Windows entries ignore the host: they start from no
    folders, so with the default builder variables every mode is empty.
   */
  lemma WindowsEntryFromBuilderOnly(c: CustomEnv, project: Project, windows: WindowsKind, host: Host, other: Host)
    ensures StrategyDirs(c, project, Windows(windows), host) == StrategyDirs(c, project, Windows(windows), other)
    ensures StrategyDirs(DefaultCustomEnv, project, Windows(windows), host) == map[]
  {
    assert WinEnvFor(DefaultCustomEnv) == WindowsStrategy.NoFolders;
    WindowsStrategy.NoFoldersEmpty(project);
  }

  /**
    The defaults of the entry fields: FHS without a mode is the shared one,
    a custom unix directory without a prefix has the empty prefix, and a
    failed host lookup gives an empty map.
   */
  lemma StrategyDefaults(c: CustomEnv, project: Project, host: Host, path: Path)
    ensures StrategyDirs(c, project, Fhs(None), host) == StrategyDirs(c, project, Fhs(Some(FhsShared)), host)
    ensures StrategyDirs(c, project, Unix(CustomPath(path, None)), host) == StrategyDirs(c, project, Unix(CustomPath(path, Some(""))), host)
    ensures host.cwd.Err? ==> StrategyDirs(c, project, Unix(Pwd), host) == map[]
    ensures host.home.None? ==> StrategyDirs(c, project, Unix(Home), host) == map[]
    ensures host.exe.Err? ==> StrategyDirs(c, project, Unix(Binary), host) == map[]
  {
  }
}
