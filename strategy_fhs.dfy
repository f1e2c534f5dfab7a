/**
  Directories laid out after the Filesystem Hierarchy Standard 3.0: the
  host-wide roots of chapter 3 (/etc, /run), chapter 4 (/usr, /usr/local)
  and chapter 5 (/var), each joined with the application name.
 */
module FhsStrategy {
  import opened Wrappers
  import opened Paths
  import opened Identity
  import opened ProjDirs
  import ProjectTriplet

  /** A rooted path given by its components. */
  function Rooted(parts: seq<string>): Path { Path(true, parts) }

  /** `fhs`: files may be shared across hosts, so programs live under /usr. */
  function Fhs(project: Project): FullProjectDirs {
    var app := project.ApplicationName();
    FullProjectDirs(
      bin := Rooted(["usr", "bin"]),
      cache := Join(Rooted(["var", "cache"]), app),
      config := Join(Rooted(["etc"]), app),
      data := Join(Rooted(["var", "lib"]), app),
      includeDir := Join(Rooted(["usr", "include"]), app),
      lib := Join(Rooted(["usr", "lib"]), app),
      log := Join(Rooted(["var", "log"]), app),
      projectRoot := None,
      runtime := Some(Join(Rooted(["run"]), app)),
      state := Join(Rooted(["var", "lib"]), app))
  }

  /** `fhs_local`: files stay on this host, so programs live under /usr/local. */
  function FhsLocal(project: Project): FullProjectDirs {
    var app := project.ApplicationName();
    FullProjectDirs(
      bin := Rooted(["usr", "local", "bin"]),
      cache := Join(Rooted(["var", "cache"]), app),
      config := Join(Rooted(["usr", "local", "etc"]), app),
      data := Join(Rooted(["var", "lib"]), app),
      includeDir := Join(Rooted(["usr", "local", "include"]), app),
      lib := Join(Rooted(["usr", "local", "lib"]), app),
      log := Join(Rooted(["var", "log"]), app),
      projectRoot := None,
      runtime := Some(Join(Rooted(["run"]), app)),
      state := Join(Rooted(["var", "lib"]), app))
  }

  /**
    The root each purpose hangs from: the standard's directory for it, with
    /usr replaced by /usr/local and /etc by /usr/local/etc in local mode.
   */
  function FhsRoot(local: bool, d: Directory): seq<string> {
    match d
    case Bin => if local then ["usr", "local", "bin"] else ["usr", "bin"]
    case Cache => ["var", "cache"]
    case Config => if local then ["usr", "local", "etc"] else ["etc"]
    case Data => ["var", "lib"]
    case Include => if local then ["usr", "local", "include"] else ["usr", "include"]
    case Lib => if local then ["usr", "local", "lib"] else ["usr", "lib"]
    case Log => ["var", "log"]
    case ProjectRoot => []
    case Runtime => ["run"]
    case State => ["var", "lib"]
  }

  /**
    Both modes resolve every purpose but the project root, always to a
    rooted path; bin is the bare root and every other purpose is its root
    joined with the application name.
   */
  lemma FhsLayout(project: Project, local: bool)
    ensures var f := if local then FhsLocal(project) else Fhs(project);
      f.projectRoot == None && f.runtime.Some?
      && (forall d: Directory :: d != ProjectRoot ==> Field(f, d).Some? && Field(f, d).value.absolute)
      && Field(f, Bin) == Some(Rooted(FhsRoot(local, Bin)))
      && (forall d: Directory :: d != ProjectRoot && d != Bin ==>
            Field(f, d) == Some(Join(Rooted(FhsRoot(local, d)), project.ApplicationName())))
  {
  }

  /** Cache, data, log, runtime and state do not depend on the mode. */
  lemma FhsModesAgree(project: Project)
    ensures forall d: Directory :: d in {Cache, Data, Log, Runtime, State, ProjectRoot} ==>
      Field(Fhs(project), d) == Field(FhsLocal(project), d)
  {
  }

  /** Data and state are one directory in both modes. */
  lemma FhsDataIsState(project: Project)
    ensures Fhs(project).data == Fhs(project).state
    ensures FhsLocal(project).data == FhsLocal(project).state
  {
  }

  /** Bin is shared by every application; the other resolved purposes tell applications apart. */
  lemma FhsApplicationName(p: Project, q: Project)
    ensures Fhs(p).bin == Fhs(q).bin && FhsLocal(p).bin == FhsLocal(q).bin
    ensures p.ApplicationName() != [] && q.ApplicationName() != [] && p.ApplicationName() != q.ApplicationName() ==>
      forall d: Directory :: d != ProjectRoot && d != Bin ==>
        Field(Fhs(p), d) != Field(Fhs(q), d) && Field(FhsLocal(p), d) != Field(FhsLocal(q), d)
  {
    if p.ApplicationName() != [] && q.ApplicationName() != [] && p.ApplicationName() != q.ApplicationName() {
      FhsModeApplicationName(p, q, false);
      FhsModeApplicationName(p, q, true);
    }
  }

  /** In one mode, two applications with different non-empty names share no path but Bin. */
  lemma FhsModeApplicationName(p: Project, q: Project, local: bool)
    requires p.ApplicationName() != [] && q.ApplicationName() != [] && p.ApplicationName() != q.ApplicationName()
    ensures var fp := if local then FhsLocal(p) else Fhs(p);
      var fq := if local then FhsLocal(q) else Fhs(q);
      forall d: Directory :: d != ProjectRoot && d != Bin ==> Field(fp, d) != Field(fq, d)
  {
    var fp := if local then FhsLocal(p) else Fhs(p);
    var fq := if local then FhsLocal(q) else Fhs(q);
    FhsLayout(p, local);
    FhsLayout(q, local);
    forall d: Directory | d != ProjectRoot && d != Bin
      ensures Field(fp, d) != Field(fq, d)
    {
      var root := Rooted(FhsRoot(local, d));
      assert Field(fp, d) == Some(Join(root, p.ApplicationName()));
      assert Field(fq, d) == Some(Join(root, q.ApplicationName()));
      assert Join(root, p.ApplicationName()).parts[|root.parts|] == p.ApplicationName();
      assert Join(root, q.ApplicationName()).parts[|root.parts|] == q.ApplicationName();
    }
  }

  /** "My Magic Super/App" logs to /var/log/my-magic-super-app. */
  lemma FhsExample(qualifier: string, organization: string, application: string)
    requires application == "My Magic Super/App"
    ensures Fhs(NewProject(qualifier, organization, application)).log == Rooted(["var", "log", "my-magic-super-app"])
  {
    ProjectTriplet.UnixNameOfExampleApplication(application);
  }
}
