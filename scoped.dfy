/**
  The directories of a project gathered by scope on a unix-family host (not
  macOS): the user's, the system's and the current directory's.  What the
  process would read from the operating system is given as a `Host`.
 */
module Scopes {
  import opened Wrappers
  import opened Paths
  import opened Identity
  import opened ProjDirs
  import opened DirUtils
  import opened UnixStrategy
  import opened FhsStrategy
  import opened XdgStrategy

  /**
    What the process reads from its host: the environment variables, the
    home directory lookup, the current directory and the executable's path
    (each of which can fail) and the filesystem.
   */
  datatype Host = Host(
    env: map<string, string>,
    home: Option<Path>,
    cwd: Result<Path, IoError>,
    exe: Result<Path, IoError>,
    fs: Fs)

  /** `Scoped`: one directory map per scope. */
  datatype Scoped = Scoped(user: ProjectDirs, system: ProjectDirs, local: ProjectDirs)

  /** The user scope: strict XDG resolution on the process environment, or nothing when it fails. */
  function UserDirs(project: Project, host: Host): ProjectDirs {
    match XdgResolved(project, NewSystem(host.env, host.home))
    case Ok(f) => FromFull(f)
    case Err(_) => Empty()
  }

  /** The local scope: the hidden project directory in the current directory, or nothing when that cannot be read. */
  function LocalDirs(project: Project, host: Host): ProjectDirs {
    match UnixPwd(project, host.cwd)
    case Ok(f) => FromFull(f)
    case Err(_) => Empty()
  }

  /** `unix_project_dirs`. */
  function UnixProjectDirs(project: Project, host: Host): Scoped {
    Scoped(user := UserDirs(project, host), system := FromFull(Fhs(project)), local := LocalDirs(project, host))
  }

  /** The system scope is the shared FHS layout: every purpose but the project root. */
  lemma SystemScope(project: Project, host: Host)
    ensures var system := UnixProjectDirs(project, host).system;
      (forall d: Directory :: d in system <==> d != ProjectRoot)
      && forall d: Directory :: d in system ==> Some(system[d]) == Field(Fhs(project), d)
  {
  }

  /**
    The user scope is empty exactly when $HOME is unknown; otherwise it has
    the eight mandatory purposes and no project root.
   */
  lemma UserScope(project: Project, host: Host)
    ensures var user := UnixProjectDirs(project, host).user;
      (user == map[] <==> host.home.None?)
      && (host.home.Some? ==> ProjectRoot !in user && forall d :: d in Mandatory ==> d in user)
  {
    var v := NewSystem(host.env, host.home);
    XdgResolvedFails(project, v);
    if host.home.Some? {
      XdgResolvedLayout(project, v);
      assert Bin in UserDirs(project, host);
    }
  }

  /**
    The local scope is empty exactly when the current directory cannot be
    read; otherwise it has all ten purposes, the project root being the
    hidden directory `<cwd>/.<application name>`.
   */
  lemma LocalScope(project: Project, host: Host)
    ensures var local := UnixProjectDirs(project, host).local;
      (local == map[] <==> host.cwd.Err?)
      && (host.cwd.Ok? ==> (forall d: Directory :: d in local)
                           && local[ProjectRoot] == Join(host.cwd.value, "." + project.ApplicationName()))
  {
    if host.cwd.Ok? {
      assert Bin in LocalDirs(project, host);
    }
  }

  /** The user scope is the strict XDG layout converted, with the process environment's values preferred over $HOME. */
  lemma UserDirsAreXdg(project: Project, host: Host)
    requires host.home.Some?
    ensures var v := NewSystem(host.env, host.home);
      UserDirs(project, host) == FromFull(XdgResolved(project, v).value)
      && forall d: Directory :: d in ExcludeMissing(project, v) ==>
           (d in UserDirs(project, host) && UserDirs(project, host)[d] == ExcludeMissing(project, v)[d])
  {
    XdgResolvedExtendsExcludeMissing(project, NewSystem(host.env, host.home));
  }
}
