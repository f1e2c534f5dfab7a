/**
  Unix-style project directories: everything lives in one project directory,
  named after the application, below some parent directory.
 */
module UnixStrategy {
  import opened Wrappers
  import opened Paths
  import opened Identity
  import opened ProjDirs
  import ProjectTriplet

  /**
    Where each purpose sits inside the project directory: the name of its
    sub-directory, or None for the project directory itself.
   */
  function UnixSubdir(d: Directory): Option<string> {
    match d
    case Bin => Some("bin")
    case Cache => Some("cache")
    case Config => None
    case Data => Some("data")
    case Include => Some("include")
    case Lib => Some("lib")
    case Log => Some("log")
    case ProjectRoot => None
    case Runtime => Some("tmp")
    case State => Some("state")
  }

  /** The free function `unix`: the layout of one project directory. */
  function Unix(full: Path): FullProjectDirs {
    FullProjectDirs(
      bin := Join(full, "bin"),
      cache := Join(full, "cache"),
      config := full,
      data := Join(full, "data"),
      includeDir := Join(full, "include"),
      lib := Join(full, "lib"),
      log := Join(full, "log"),
      projectRoot := Some(full),
      runtime := Some(Join(full, "tmp")),
      state := Join(full, "state"))
  }

  /**
    Every purpose is resolved: config and the project root are the project
    directory, every other purpose its own sub-directory, runtime being "tmp".
   */
  lemma UnixLayout(full: Path)
    ensures forall d: Directory :: Field(Unix(full), d).Some?
    ensures forall d: Directory ::
      Field(Unix(full), d) == Some(if UnixSubdir(d).Some? then Join(full, UnixSubdir(d).value) else full)
    ensures Unix(full).config == full && Unix(full).projectRoot == Some(full)
  {
  }

  /** Every path of the layout lies within the project directory. */
  lemma UnixWithin(full: Path)
    ensures forall d: Directory :: Field(Unix(full), d).Some? && Within(Field(Unix(full), d).value, full)
  {
    forall d: Directory ensures Field(Unix(full), d).Some? && Within(Field(Unix(full), d).value, full) {
      if UnixSubdir(d).Some? {
        JoinWithin(full, UnixSubdir(d).value);
      } else {
        JoinWithin(full, "");
      }
    }
  }

  /** The project directory: `parent/<prefix><application name>`. */
  function Namespace(project: Project, parent: Path, prefix: string): Path {
    Join(parent, prefix + project.ApplicationName())
  }

  /** `unix_prefixed`. */
  function UnixPrefixed(project: Project, parent: Path, prefix: string): FullProjectDirs {
    Unix(Namespace(project, parent, prefix))
  }

  /** `Unix::unix`: the empty prefix. */
  function UnixDefault(project: Project, parent: Path): FullProjectDirs {
    UnixPrefixed(project, parent, "")
  }

  /** `unix_pwd`, the current directory given; its lookup error is passed on. */
  function UnixPwd(project: Project, cwd: Result<Path, IoError>): Result<FullProjectDirs, IoError> {
    match cwd
    case Ok(path) => Ok(UnixPrefixed(project, path, "."))
    case Err(e) => Err(e)
  }

  /** `unix_home`, the home directory given. */
  function UnixHome(project: Project, home: Option<Path>): Option<FullProjectDirs> {
    match home
    case Some(path) => Some(UnixPrefixed(project, path, "."))
    case None => None
  }

  /** `unix_binary`, the executable's path given: that path itself is the parent. */
  function UnixBinary(project: Project, exe: Result<Path, IoError>): Result<FullProjectDirs, IoError> {
    match exe
    case Ok(path) => Ok(UnixPrefixed(project, path, "."))
    case Err(e) => Err(e)
  }

  /**
    The prefixed layout sits in one directory below the parent, named by the
    prefix and the application name; every path lies within it and so within
    the parent.
   */
  lemma UnixPrefixedWithin(project: Project, parent: Path, prefix: string)
    ensures var ns := Namespace(project, parent, prefix);
      Within(ns, parent)
      && (prefix + project.ApplicationName() != [] ==> ns.parts == parent.parts + [prefix + project.ApplicationName()])
      && forall d: Directory :: Field(UnixPrefixed(project, parent, prefix), d).Some?
           && Within(Field(UnixPrefixed(project, parent, prefix), d).value, ns)
           && Within(Field(UnixPrefixed(project, parent, prefix), d).value, parent)
  {
    var ns := Namespace(project, parent, prefix);
    JoinWithin(parent, prefix + project.ApplicationName());
    UnixWithin(ns);
    forall d: Directory ensures Within(Field(UnixPrefixed(project, parent, prefix), d).value, parent) {
      WithinTrans(Field(UnixPrefixed(project, parent, prefix), d).value, ns, parent);
    }
  }

  /**
    The lookups succeed exactly when the host lookup does, pass its error
    on unchanged, and on success put every path below the looked-up directory.
   */
  lemma UnixLookups(project: Project, cwd: Result<Path, IoError>, home: Option<Path>, exe: Result<Path, IoError>)
    ensures UnixPwd(project, cwd).Ok? <==> cwd.Ok?
    ensures cwd.Err? ==> UnixPwd(project, cwd) == Err(cwd.error)
    ensures cwd.Ok? ==> forall d: Directory :: Within(Field(UnixPwd(project, cwd).value, d).value, cwd.value)
    ensures UnixHome(project, home).Some? <==> home.Some?
    ensures home.Some? ==> forall d: Directory :: Within(Field(UnixHome(project, home).value, d).value, home.value)
    ensures UnixBinary(project, exe).Ok? <==> exe.Ok?
    ensures exe.Err? ==> UnixBinary(project, exe) == Err(exe.error)
    ensures exe.Ok? ==> forall d: Directory :: Within(Field(UnixBinary(project, exe).value, d).value, exe.value)
  {
    if cwd.Ok? {
      UnixPrefixedWithin(project, cwd.value, ".");
    }
    if home.Some? {
      UnixPrefixedWithin(project, home.value, ".");
    }
    if exe.Ok? {
      UnixPrefixedWithin(project, exe.value, ".");
    }
  }

  /**
    The example application "My Magic Super/App" under /opt/my_dir logs to
    /opt/my_dir/.my-magic-super-app/log with the "." prefix, and to
    /opt/my_dir/my-magic-super-app/log with the default, empty, prefix.
   */
  lemma UnixExample(qualifier: string, organization: string, application: string)
    requires application == "My Magic Super/App"
    ensures var project := NewProject(qualifier, organization, application);
      var parent := Path(true, ["opt", "my_dir"]);
      UnixPrefixed(project, parent, ".").log == Path(true, ["opt", "my_dir", ".my-magic-super-app", "log"])
      && UnixDefault(project, parent).log == Path(true, ["opt", "my_dir", "my-magic-super-app", "log"])
  {
    ProjectTriplet.UnixNameOfExampleApplication(application);
    var name := NewProject(qualifier, organization, application).ApplicationName();
    assert name == "my-magic-super-app";
    assert "." + name == ".my-magic-super-app";
    assert "" + name == name;
  }
}
