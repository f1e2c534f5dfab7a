/**
  Directories after the "Environment variables" section of the XDG Base
  Directory Specification: each purpose below its XDG variable, falling back
  to the specification's defaults under $HOME.
 */
module XdgStrategy {
  import opened Wrappers
  import opened Paths
  import opened Identity
  import opened ProjDirs
  import opened Overlay

  const Home := "HOME"
  const XdgDataHome := "XDG_DATA_HOME"
  const XdgConfigHome := "XDG_CONFIG_HOME"
  const XdgStateHome := "XDG_STATE_HOME"
  const XdgCacheHome := "XDG_CACHE_HOME"
  const XdgRuntimeDir := "XDG_RUNTIME_DIR"
  const XdgDataDirs := "XDG_DATA_DIRS"
  const XdgConfigDirs := "XDG_CONFIG_DIRS"

  /** The values of the variables an `XdgEnv` holds. */
  datatype XdgVars = XdgVars(
    homeDir: Option<Path>,
    dataHome: Option<Path>,
    configHome: Option<Path>,
    stateHome: Option<Path>,
    cacheHome: Option<Path>,
    runtimeDir: Option<Path>)

  /** `XdgEnv::default()`: nothing set. */
  const NoVars := XdgVars(None, None, None, None, None, None)

  /** `xdg_variable`: a variable that is unset or empty counts as unset. */
  function XdgVariable(env: map<string, string>, name: string): (r: Option<Path>)
    ensures r.Some? <==> name in env && env[name] != []
  {
    if name in env && env[name] != [] then Some(ParsePath(env[name])) else None
  }

  /** `XdgEnv::new_system`, the process environment and the home directory lookup given. */
  function NewSystem(env: map<string, string>, home: Option<Path>): XdgVars {
    XdgVars(home, XdgVariable(env, XdgDataHome), XdgVariable(env, XdgConfigHome),
            XdgVariable(env, XdgStateHome), XdgVariable(env, XdgCacheHome), XdgVariable(env, XdgRuntimeDir))
  }

  /** One pair of `extend_with_env`: the field the key names follows the overlay rule; other keys change nothing. */
  function ExtendOne(v: XdgVars, key: string, value: Option<string>, allowClearing: bool): XdgVars {
    if key == XdgDataHome then v.(dataHome := Overlaid(v.dataHome, value, allowClearing))
    else if key == XdgConfigHome then v.(configHome := Overlaid(v.configHome, value, allowClearing))
    else if key == XdgStateHome then v.(stateHome := Overlaid(v.stateHome, value, allowClearing))
    else if key == XdgCacheHome then v.(cacheHome := Overlaid(v.cacheHome, value, allowClearing))
    else if key == XdgRuntimeDir then v.(runtimeDir := Overlaid(v.runtimeDir, value, allowClearing))
    else if key == Home then v.(homeDir := Overlaid(v.homeDir, value, allowClearing))
    else v
  }

  /** The variables after all pairs, taken in order. */
  function Extended(v: XdgVars, pairs: seq<(string, Option<string>)>, allowClearing: bool): XdgVars
    decreases |pairs|
  {
    if pairs == [] then v
    else
      var last := pairs[|pairs| - 1];
      ExtendOne(Extended(v, pairs[..|pairs| - 1], allowClearing), last.0, last.1, allowClearing)
  }

  /** Each variable ends as the overlay of the values given for its own key, in order; no other key touches it. */
  lemma {:induction false} ExtendedFields(v: XdgVars, pairs: seq<(string, Option<string>)>, allowClearing: bool)
    ensures var w := Extended(v, pairs, allowClearing);
      w.dataHome == OverlaidAll(v.dataHome, ValuesFor(pairs, XdgDataHome), allowClearing)
      && w.configHome == OverlaidAll(v.configHome, ValuesFor(pairs, XdgConfigHome), allowClearing)
      && w.stateHome == OverlaidAll(v.stateHome, ValuesFor(pairs, XdgStateHome), allowClearing)
      && w.cacheHome == OverlaidAll(v.cacheHome, ValuesFor(pairs, XdgCacheHome), allowClearing)
      && w.runtimeDir == OverlaidAll(v.runtimeDir, ValuesFor(pairs, XdgRuntimeDir), allowClearing)
      && w.homeDir == OverlaidAll(v.homeDir, ValuesFor(pairs, Home), allowClearing)
    decreases |pairs|
  {
    if pairs != [] {
      var init := pairs[..|pairs| - 1];
      var last := pairs[|pairs| - 1];
      assert pairs == init + [last];
      ExtendedFields(v, init, allowClearing);
      FieldStep(v.dataHome, init, last, XdgDataHome, allowClearing);
      FieldStep(v.configHome, init, last, XdgConfigHome, allowClearing);
      FieldStep(v.stateHome, init, last, XdgStateHome, allowClearing);
      FieldStep(v.cacheHome, init, last, XdgCacheHome, allowClearing);
      FieldStep(v.runtimeDir, init, last, XdgRuntimeDir, allowClearing);
      FieldStep(v.homeDir, init, last, Home, allowClearing);
    }
  }

  /** A pair whose key names no variable leaves every variable as it was. */
  lemma ExtendUnknownKey(v: XdgVars, key: string, value: Option<string>, allowClearing: bool)
    requires key !in {XdgDataHome, XdgConfigHome, XdgStateHome, XdgCacheHome, XdgRuntimeDir, Home}
    ensures ExtendOne(v, key, value, allowClearing) == v
  {
  }

  /** `XdgEnv`: the variables, updated in place by `extend_with_env`. */
  class XdgEnv {
    var homeDir: Option<Path>
    var dataHome: Option<Path>
    var configHome: Option<Path>
    var stateHome: Option<Path>
    var cacheHome: Option<Path>
    var runtimeDir: Option<Path>

    function Vars(): XdgVars
      reads this
    {
      XdgVars(homeDir, dataHome, configHome, stateHome, cacheHome, runtimeDir)
    }

    constructor (v: XdgVars)
      ensures Vars() == v
    {
      homeDir := v.homeDir;
      dataHome := v.dataHome;
      configHome := v.configHome;
      stateHome := v.stateHome;
      cacheHome := v.cacheHome;
      runtimeDir := v.runtimeDir;
    }

    /** `extend_with_env`: each pair in turn sets, clears or keeps the variable its key names. */
    method ExtendWithEnv(other: seq<(string, Option<string>)>, allowClearing: bool)
      modifies this
      ensures Vars() == Extended(old(Vars()), other, allowClearing)
    {
      var i := 0;
      while i < |other|
        invariant 0 <= i <= |other|
        invariant Vars() == Extended(old(Vars()), other[..i], allowClearing)
      {
        var (k, v) := other[i];
        var value := PathValue(v);
        if allowClearing || value.Some? {
          if k == XdgDataHome {
            dataHome := value;
          } else if k == XdgConfigHome {
            configHome := value;
          } else if k == XdgStateHome {
            stateHome := value;
          } else if k == XdgCacheHome {
            cacheHome := value;
          } else if k == XdgRuntimeDir {
            runtimeDir := value;
          } else if k == Home {
            homeDir := value;
          }
        }
        assert other[..i + 1][..i] == other[..i];
        i := i + 1;
      }
      assert other[..|other|] == other;
    }

    /** `is_ok`. */
    function IsOk(): bool
      reads this
    {
      VarsOk(Vars())
    }
  }

  /** `is_ok`: home is known, or the four base variables are all set. */
  predicate VarsOk(v: XdgVars) {
    v.homeDir.Some? || (v.dataHome.Some? && v.configHome.Some? && v.stateHome.Some? && v.cacheHome.Some?)
  }

  /** The checks of the test suite: runtime does not matter, and home alone suffices. */
  lemma VarsOkExamples(p: Path)
    ensures VarsOk(XdgVars(None, Some(p), Some(p), Some(p), Some(p), None))
    ensures !VarsOk(XdgVars(None, None, Some(p), Some(p), Some(p), None))
    ensures !VarsOk(XdgVars(None, None, Some(p), Some(p), Some(p), Some(p)))
    ensures VarsOk(XdgVars(Some(p), None, Some(p), Some(p), Some(p), Some(p)))
    ensures !VarsOk(XdgVars(None, None, None, None, None, Some(p)))
  {
  }

  // ---------------------------------------------------------------------------
  // Resolution

  /** The path joined with `name`, when there is a path. */
  function JoinOpt(p: Option<Path>, name: string): Option<Path> {
    match p
    case Some(q) => Some(Join(q, name))
    case None => None
  }

  /** Each purpose as `xdg_with_env_exclude_missing` computes it, absent when its variable is. */
  function XdgEntry(project: Project, env: XdgVars, d: Directory): Option<Path> {
    var app := project.ApplicationName();
    match d
    case Bin => JoinOpt(JoinOpt(env.homeDir, ".local"), "bin")
    case Cache => JoinOpt(env.cacheHome, app)
    case Config => JoinOpt(env.configHome, app)
    case Data => JoinOpt(env.dataHome, app)
    case Include => JoinOpt(JoinOpt(env.dataHome, app), "include")
    case Lib => JoinOpt(JoinOpt(env.dataHome, app), "lib")
    case Log => JoinOpt(JoinOpt(env.stateHome, app), "log")
    case ProjectRoot => None
    case Runtime => JoinOpt(env.runtimeDir, app)
    case State => JoinOpt(env.stateHome, app)
  }

  /** `xdg_with_env_exclude_missing`: the entries whose variable is set. */
  function ExcludeMissing(project: Project, env: XdgVars): ProjectDirs {
    map d: Directory | d in [Bin, Cache, Config, Data, Include, Lib, Log, Runtime, State] && XdgEntry(project, env, d).Some?
      :: XdgEntry(project, env, d).value
  }

  /** The variable each purpose is resolved from. */
  function Backing(env: XdgVars, d: Directory): Option<Path> {
    match d
    case Bin => env.homeDir
    case Cache => env.cacheHome
    case Config => env.configHome
    case Data => env.dataHome
    case Include => env.dataHome
    case Lib => env.dataHome
    case Log => env.stateHome
    case ProjectRoot => None
    case Runtime => env.runtimeDir
    case State => env.stateHome
  }

  /** The names joined below the backing directory. */
  function XdgSuffix(app: string, d: Directory): seq<string> {
    match d
    case Bin => [".local", "bin"]
    case Include => [app, "include"]
    case Lib => [app, "lib"]
    case Log => [app, "log"]
    case ProjectRoot => []
    case _ => [app]
  }

  /**
    Without fallbacks a purpose is present exactly when its variable is set,
    ProjectRoot never is, and each path is the variable's directory with the
    purpose's names joined below it.
   */
  lemma ExcludeMissingExact(project: Project, env: XdgVars)
    ensures var pd := ExcludeMissing(project, env);
      ProjectRoot !in pd
      && (forall d: Directory :: d in pd <==> Backing(env, d).Some?)
      && (forall d: Directory :: d in pd ==>
            pd[d] == JoinAll(Backing(env, d).value, XdgSuffix(project.ApplicationName(), d)))
  {
    var pd := ExcludeMissing(project, env);
    var app := project.ApplicationName();
    forall d: Directory
      ensures (d in pd <==> Backing(env, d).Some?)
      ensures d in pd ==> pd[d] == JoinAll(Backing(env, d).value, XdgSuffix(app, d))
    {
      ExcludeMissingGet(project, env, d);
      if Backing(env, d).Some? {
        JoinAllShort(Backing(env, d).value, XdgSuffix(app, d)[0], if d in {Bin, Include, Lib, Log} then XdgSuffix(app, d)[1] else "");
      }
    }
  }

  /** Looking a purpose up without fallbacks gives its entry. */
  lemma ExcludeMissingGet(project: Project, env: XdgVars, d: Directory)
    ensures Get(ExcludeMissing(project, env), d) == XdgEntry(project, env, d)
  {
  }

  /** `XdgError`. */
  datatype XdgError = UnresolvedHomeDir

  /** The directory under $HOME that stands in for each purpose's variable. */
  function HomeDefault(home: Path, d: Directory): Path {
    match d
    case Cache => Join(home, ".cache")
    case Config => Join(home, ".config")
    case Data => JoinAll(home, [".local", "share"])
    case Include => JoinAll(home, [".local", "share"])
    case Lib => JoinAll(home, [".local", "share"])
    case Log => JoinAll(home, [".local", "state"])
    case State => JoinAll(home, [".local", "state"])
    case _ => home
  }

  /** What `xdg_with_env` returns. */
  function XdgResolved(project: Project, env: XdgVars): Result<FullProjectDirs, XdgError> {
    match env.homeDir
    case None => Err(UnresolvedHomeDir)
    case Some(home) =>
      var app := project.ApplicationName();
      var share := Join(Join(home, ".local"), "share");
      var state := Join(Join(home, ".local"), "state");
      var dataDir := JoinOpt(env.dataHome, app).GetOr(Join(share, app));
      Ok(FullProjectDirs(
        bin := Join(Join(home, ".local"), "bin"),
        cache := JoinOpt(env.cacheHome, app).GetOr(Join(Join(home, ".cache"), app)),
        config := JoinOpt(env.configHome, app).GetOr(Join(Join(home, ".config"), app)),
        data := dataDir,
        includeDir := JoinOpt(JoinOpt(env.dataHome, app), "include").GetOr(Join(Join(share, app), "include")),
        lib := JoinOpt(JoinOpt(env.dataHome, app), "lib").GetOr(Join(Join(share, app), "lib")),
        log := JoinOpt(JoinOpt(env.stateHome, app), "log").GetOr(Join(Join(state, app), "log")),
        projectRoot := None,
        runtime := JoinOpt(env.runtimeDir, app),
        state := JoinOpt(env.stateHome, app).GetOr(Join(state, app))))
  }

  /** `pd.entry(d).or_insert(p)`: `p` goes in only where `d` has no path yet. */
  function OrInsert(pd: ProjectDirs, d: Directory, p: Path): (r: ProjectDirs)
    ensures Get(r, d) == Some(Get(pd, d).GetOr(p))
  {
    pd[d := Get(pd, d).GetOr(p)]
  }

  /**
    `xdg_with_env`: the entries found without fallbacks, each missing one
    filled from $HOME, then the checked conversion to a full record, which
    cannot fail once $HOME is known.
   */
  method XdgWithEnv(project: Project, env: XdgVars) returns (r: Result<FullProjectDirs, XdgError>)
    ensures r == XdgResolved(project, env)
  {
    var homeDir := env.homeDir;
    var pd := ExcludeMissing(project, env);
    if homeDir.Some? {
      var home := homeDir.value;
      var app := project.ApplicationName();
      var shareDir := Join(Join(home, ".local"), "share");
      var stateDir := Join(Join(home, ".local"), "state");
      var filled := FillDefaults(pd, Join(Join(home, ".cache"), app), Join(Join(home, ".config"), app),
        Join(Join(shareDir, app), "include"), Join(Join(shareDir, app), "lib"), Join(Join(stateDir, app), "log"),
        Join(stateDir, app), Join(shareDir, app));
      FilledIsResolved(project, env, pd, filled);
      var full := TryIntoFull(filled);
      if full.Ok? {
        r := Ok(full.value);
      } else {
        assert false;
      }
    } else {
      r := Err(UnresolvedHomeDir);
    }
  }

  /** The `or_insert` steps of `xdg_with_env`: each purpose but Bin, Runtime and ProjectRoot gets its default when missing. */
  method FillDefaults(pd: ProjectDirs, cache: Path, config: Path, includeDir: Path, lib: Path, log: Path, state: Path, data: Path)
    returns (r: ProjectDirs)
    ensures Get(r, Cache) == Some(Get(pd, Cache).GetOr(cache))
    ensures Get(r, Config) == Some(Get(pd, Config).GetOr(config))
    ensures Get(r, Include) == Some(Get(pd, Include).GetOr(includeDir))
    ensures Get(r, Lib) == Some(Get(pd, Lib).GetOr(lib))
    ensures Get(r, Log) == Some(Get(pd, Log).GetOr(log))
    ensures Get(r, State) == Some(Get(pd, State).GetOr(state))
    ensures Get(r, Data) == Some(Get(pd, Data).GetOr(data))
    ensures Get(r, Bin) == Get(pd, Bin) && Get(r, Runtime) == Get(pd, Runtime)
    ensures Get(r, ProjectRoot) == Get(pd, ProjectRoot)
  {
    r := OrInsert(pd, Cache, cache);
    r := OrInsert(r, Config, config);
    r := OrInsert(r, Include, includeDir);
    r := OrInsert(r, Lib, lib);
    r := OrInsert(r, Log, log);
    r := OrInsert(r, State, state);
    r := OrInsert(r, Data, data);
  }

  /** The map the fallbacks fill in is the map of the resolved record, so its conversion succeeds with that record. */
  lemma FilledIsResolved(project: Project, env: XdgVars, found: ProjectDirs, pd: ProjectDirs)
    requires env.homeDir.Some? && found == ExcludeMissing(project, env)
    requires var home := env.homeDir.value;
      var app := project.ApplicationName();
      var share := Join(Join(home, ".local"), "share");
      var state := Join(Join(home, ".local"), "state");
      Get(pd, Cache) == Some(Get(found, Cache).GetOr(Join(Join(home, ".cache"), app)))
      && Get(pd, Config) == Some(Get(found, Config).GetOr(Join(Join(home, ".config"), app)))
      && Get(pd, Include) == Some(Get(found, Include).GetOr(Join(Join(share, app), "include")))
      && Get(pd, Lib) == Some(Get(found, Lib).GetOr(Join(Join(share, app), "lib")))
      && Get(pd, Log) == Some(Get(found, Log).GetOr(Join(Join(state, app), "log")))
      && Get(pd, State) == Some(Get(found, State).GetOr(Join(state, app)))
      && Get(pd, Data) == Some(Get(found, Data).GetOr(Join(share, app)))
      && Get(pd, Bin) == Get(found, Bin) && Get(pd, Runtime) == Get(found, Runtime)
      && Get(pd, ProjectRoot) == Get(found, ProjectRoot)
    ensures !Panics(pd) && ToFull(pd) == Ok(XdgResolved(project, env).value)
  {
    var f := XdgResolved(project, env).value;
    forall d: Directory ensures Get(pd, d) == Field(f, d) {
      ExcludeMissingGet(project, env, d);
      match d
      case Bin =>
      case Cache =>
      case Config =>
      case Data =>
      case Include =>
      case Lib =>
      case Log =>
      case ProjectRoot =>
      case Runtime =>
      case State =>
    }
    FromFullByFields(pd, f);
    FullRoundTrip(f);
  }

  // ---------------------------------------------------------------------------
  // Properties of the resolution

  /** The strict resolution fails exactly when $HOME is unknown, even if the four variables alone would do. */
  lemma XdgResolvedFails(project: Project, env: XdgVars)
    ensures XdgResolved(project, env).Err? <==> env.homeDir.None?
    ensures VarsOk(env) && env.homeDir.None? ==> XdgResolved(project, env) == Err(UnresolvedHomeDir)
  {
  }

  /**
    With $HOME known, every purpose but ProjectRoot and Runtime is resolved:
    below its variable when that is set, below its $HOME default otherwise;
    runtime is present only when its variable is set; there is no project root.
   */
  lemma XdgResolvedLayout(project: Project, env: XdgVars)
    requires env.homeDir.Some?
    ensures var f := XdgResolved(project, env).value;
      var app := project.ApplicationName();
      f.projectRoot == None
      && (f.runtime.Some? <==> env.runtimeDir.Some?)
      && forall d: Directory :: d != ProjectRoot && d != Runtime ==>
           Field(f, d) == Some(JoinAll(Backing(env, d).GetOr(HomeDefault(env.homeDir.value, d)), XdgSuffix(app, d)))
  {
    var home := env.homeDir.value;
    var f := XdgResolved(project, env).value;
    var app := project.ApplicationName();
    JoinAllShort(home, ".local", "share");
    JoinAllShort(home, ".local", "state");
    JoinAllShort(home, ".local", "bin");
    JoinAllShort(home, ".cache", app);
    JoinAllShort(home, ".config", app);
    JoinAllShort(JoinAll(home, [".local", "state"]), app, "log");
    forall d: Directory | d != ProjectRoot && d != Runtime
      ensures Field(f, d) == Some(JoinAll(Backing(env, d).GetOr(HomeDefault(home, d)), XdgSuffix(app, d)))
    {
      var base := Backing(env, d).GetOr(HomeDefault(home, d));
      JoinAllShort(base, XdgSuffix(app, d)[0], if d in {Bin, Include, Lib, Log} then XdgSuffix(app, d)[1] else "");
    }
  }

  /** The fallbacks only fill gaps: every entry found without them is kept as it is. */
  lemma XdgResolvedExtendsExcludeMissing(project: Project, env: XdgVars)
    requires env.homeDir.Some?
    ensures var pd := FromFull(XdgResolved(project, env).value);
      var partial := ExcludeMissing(project, env);
      (forall d: Directory :: d in partial ==> d in pd && pd[d] == partial[d])
      && (forall d: Directory :: d in pd <==> d in partial || d in Checked || d == Include)
  {
    XdgResolvedLayout(project, env);
    ExcludeMissingExact(project, env);
  }

  // ---------------------------------------------------------------------------
  // Search paths

  /** `xdg_data_dirs`: the variable split on ':', or /usr/local/share and /usr/share when unset. */
  function DataDirs(env: map<string, string>): (dirs: seq<Path>)
    ensures |dirs| >= 1
  {
    if XdgDataDirs in env then SplitPaths(env[XdgDataDirs])
    else [Path(true, ["usr", "local", "share"]), Path(true, ["usr", "share"])]
  }

  /** `xdg_config_dirs`: the variable split on ':', or /etc/xdg when unset. */
  function ConfigDirs(env: map<string, string>): (dirs: seq<Path>)
    ensures |dirs| >= 1
  {
    if XdgConfigDirs in env then SplitPaths(env[XdgConfigDirs])
    else [Path(true, ["etc", "xdg"])]
  }

  /** The ':'-separated entries of a search path, each read as a path. */
  function SplitPaths(s: string): (dirs: seq<Path>)
    ensures |dirs| == |Split(s, ':')|
    ensures forall i :: 0 <= i < |dirs| ==> dirs[i] == ParsePath(Split(s, ':')[i])
  {
    seq(|Split(s, ':')|, i requires 0 <= i < |Split(s, ':')| => ParsePath(Split(s, ':')[i]))
  }

  /**
    The entries keep their order and lose nothing: gluing the split text back
    with ':' gives the variable; a set but empty variable is one empty path,
    not the defaults.
   */
  lemma SearchPathsSplit(env: map<string, string>)
    ensures XdgDataDirs in env ==> JoinWith(Split(env[XdgDataDirs], ':'), ':') == env[XdgDataDirs]
    ensures XdgDataDirs in env && env[XdgDataDirs] == [] ==> DataDirs(env) == [Path(false, [])]
    ensures XdgConfigDirs in env ==> JoinWith(Split(env[XdgConfigDirs], ':'), ':') == env[XdgConfigDirs]
    ensures XdgConfigDirs in env && env[XdgConfigDirs] == [] ==> ConfigDirs(env) == [Path(false, [])]
  {
    if XdgDataDirs in env {
      JoinSplit(env[XdgDataDirs], ':');
    }
    if XdgConfigDirs in env {
      JoinSplit(env[XdgConfigDirs], ':');
    }
  }
  /**
    What `is_ok` reports, read off the resolution without fallbacks: it finds
    bin, or it finds all of cache, config, data and state.
   */
  lemma VarsOkFinds(project: Project, env: XdgVars)
    ensures var pd := ExcludeMissing(project, env);
      VarsOk(env) <==> Bin in pd || (Cache in pd && Config in pd && Data in pd && State in pd)
  {
    var pd := ExcludeMissing(project, env);
    assert Bin in pd <==> env.homeDir.Some? by { ExcludeMissingGet(project, env, Bin); }
    assert Cache in pd <==> env.cacheHome.Some? by { ExcludeMissingGet(project, env, Cache); }
    assert Config in pd <==> env.configHome.Some? by { ExcludeMissingGet(project, env, Config); }
    assert Data in pd <==> env.dataHome.Some? by { ExcludeMissingGet(project, env, Data); }
    assert State in pd <==> env.stateHome.Some? by { ExcludeMissingGet(project, env, State); }
  }

  /** Two paths written out and glued with ':' are read back as those two paths. */
  lemma SplitPathsPair(a: Path, b: Path)
    requires Normal(a) && Normal(b) && ':' !in Display(a) && ':' !in Display(b)
    ensures SplitPaths(Display(a) + [':'] + Display(b)) == [a, b]
  {
    SplitJoin([Display(a), Display(b)], ':');
    assert JoinWith([Display(a), Display(b)], ':') == Display(a) + [':'] + Display(b);
    ParseDisplay(a);
    ParseDisplay(b);
  }

  /** The search paths of the test suite: "/x/y:/z" gives /x/y and /z; unset gives /etc/xdg. */
  lemma ConfigDirsExample()
    ensures ConfigDirs(map[XdgConfigDirs := "/x/y:/z"]) == [Path(true, ["x", "y"]), Path(true, ["z"])]
    ensures ConfigDirs(map[]) == [Path(true, ["etc", "xdg"])]
  {
    var xy, z := Path(true, ["x", "y"]), Path(true, ["z"]);
    assert Display(xy) == "/x/y";
    assert Display(z) == "/z";
    SplitPathsPair(xy, z);
    assert "/x/y:/z" == Display(xy) + [':'] + Display(z);
  }

  /** The search paths of the test suite: "/a/b:/e/f" gives /a/b and /e/f; unset gives the two defaults. */
  lemma DataDirsExample()
    ensures DataDirs(map[XdgDataDirs := "/a/b:/e/f"]) == [Path(true, ["a", "b"]), Path(true, ["e", "f"])]
    ensures DataDirs(map[]) == [Path(true, ["usr", "local", "share"]), Path(true, ["usr", "share"])]
  {
    var ab, ef := Path(true, ["a", "b"]), Path(true, ["e", "f"]);
    assert Display(ab) == "/a/b";
    assert Display(ef) == "/e/f";
    SplitPathsPair(ab, ef);
    assert "/a/b:/e/f" == Display(ab) + [':'] + Display(ef);
  }
}
