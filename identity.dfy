/**
  The application identity (qualifier, organization, application) and the
  purposes a project directory can serve.
 */
module Identity {
  import opened ProjectTriplet

  /** Purpose of a directory.  The declaration order is the derived ordering. */
  datatype Directory = Bin | Cache | Config | Data | Include | Lib | Log | ProjectRoot | Runtime | State

  /** Every purpose, in the derived order. */
  const AllDirectories: seq<Directory> := [Bin, Cache, Config, Data, Include, Lib, Log, ProjectRoot, Runtime, State]

  /** Position of a purpose in the declaration order (the derived `Ord`). */
  function Rank(d: Directory): (r: nat)
    ensures r < |AllDirectories| && AllDirectories[r] == d
  {
    match d
    case Bin => 0
    case Cache => 1
    case Config => 2
    case Data => 3
    case Include => 4
    case Lib => 5
    case Log => 6
    case ProjectRoot => 7
    case Runtime => 8
    case State => 9
  }

  predicate Less(a: Directory, b: Directory) { Rank(a) < Rank(b) }

  /** Exactly ten purposes, listed once each, and the order is a strict total order. */
  lemma DirectoryOrder()
    ensures |AllDirectories| == 10
    ensures forall d: Directory :: d in AllDirectories
    ensures forall i, j :: 0 <= i < j < |AllDirectories| ==> Less(AllDirectories[i], AllDirectories[j])
    ensures forall a: Directory, b: Directory :: a == b || Less(a, b) || Less(b, a)
    ensures forall a: Directory :: !Less(a, a)
    ensures forall a: Directory, b: Directory, c: Directory :: Less(a, b) && Less(b, c) ==> Less(a, c)
  {
    forall d: Directory ensures d in AllDirectories {
      assert AllDirectories[Rank(d)] == d;
    }
    forall a: Directory, b: Directory ensures a == b || Less(a, b) || Less(b, a) {
      assert AllDirectories[Rank(a)] == a && AllDirectories[Rank(b)] == b;
    }
  }

  /**
    A project: the raw strings as given and the names normalised for the
    host.  The host modelled here is a unix-family one (not macOS).
   */
  datatype Project = Project(
    origQualifier: string,
    origOrganization: string,
    origApplication: string,
    qualifierValue: string,
    organizationName: string,
    applicationName: string)
  {
    /** The application name for unix-like systems. */
    function ApplicationNameUnix(): string { UnixNameCleanup(origApplication) }

    /** The application name for Windows, from the raw application string. */
    function ApplicationNameWindows(): string { WindowsNameCleanup(origApplication) }

    /** The application name for macOS: the unix cleaner as well. */
    function ApplicationNameMacos(): string { UnixNameCleanup(origApplication) }

    /** The organization name for Windows, from the raw organization string. */
    function OrganizationNameWindows(): string { WindowsNameCleanup(origOrganization) }

    function OrganizationName(): string { organizationName }

    function ApplicationName(): string { applicationName }

    function Qualifier(): string { qualifierValue }
  }

  /** `Project::new`: keeps the raw strings and stores their host-normalised forms. */
  function NewProject(qualifier: string, organization: string, application: string): (p: Project)
    ensures p.origQualifier == qualifier && p.origOrganization == organization && p.origApplication == application
    ensures p.Qualifier() == QualifierCleanup(qualifier)
    ensures p.OrganizationName() == NameCleanup(organization)
    ensures p.ApplicationName() == NameCleanup(application)
    ensures p.ApplicationName() == p.ApplicationNameUnix() == p.ApplicationNameMacos()
    ensures p.ApplicationNameWindows() == WindowsNameCleanup(application)
    ensures p.OrganizationNameWindows() == WindowsNameCleanup(organization)
  {
    Project(qualifier, organization, application,
            QualifierCleanup(qualifier), NameCleanup(organization), NameCleanup(application))
  }

  /**
    The normalised names of a new project are made of the unix alphabet and
    are never longer than the raw names; the qualifier keeps only its allowed
    characters.
   */
  lemma NewProjectNames(qualifier: string, organization: string, application: string)
    ensures var p := NewProject(qualifier, organization, application);
      |p.ApplicationName()| <= |application| && |p.OrganizationName()| <= |organization|
      && (forall i :: 0 <= i < |p.ApplicationName()| ==> InUnixAlphabet(p.ApplicationName()[i]))
      && (forall i :: 0 <= i < |p.OrganizationName()| ==> InUnixAlphabet(p.OrganizationName()[i]))
      && (forall i :: 0 <= i < |p.Qualifier()| ==> KeptInQualifier(p.Qualifier()[i]))
  {
    UnixNameCleanupShape(application);
    UnixNameCleanupShape(organization);
    QualifierCleanupShape(qualifier);
  }

  /** Building a project from a project's normalised names gives the same normalised names. */
  lemma NewProjectRenormalise(qualifier: string, organization: string, application: string)
    ensures var p := NewProject(qualifier, organization, application);
      var q := NewProject(p.Qualifier(), p.OrganizationName(), p.ApplicationName());
      q.Qualifier() == p.Qualifier() && q.OrganizationName() == p.OrganizationName()
      && q.ApplicationName() == p.ApplicationName()
  {
    QualifierCleanupIdempotent(qualifier);
    UnixNameCleanupIdempotent(organization);
    UnixNameCleanupIdempotent(application);
  }

  /** The test suite's triplet: the qualifier, organization and application it checks. */
  lemma TripletExample(qualifier: string, organization: string, application: string)
    requires qualifier == "123asd_&&-.supoer.com\U{0105}"
    requires organization == "my-org Corp" && application == "funny-bunny v.2137_0"
    ensures var p := NewProject(qualifier, organization, application);
      p.Qualifier() == "123asd-.supoer.com"
      && p.OrganizationName() == "my-org-corp"
      && p.OrganizationNameWindows() == organization
      && p.ApplicationName() == "funny-bunny-v-2137-0"
      && p.ApplicationNameMacos() == "funny-bunny-v-2137-0"
      && p.ApplicationNameWindows() == application
  {
    QualifierExample(qualifier);
    UnixNameOfTestOrganization(organization);
    UnixNameOfTestApplication(application);
    WindowsNamesKeptAsIs(application, "123-my_proj", organization);
  }
}
