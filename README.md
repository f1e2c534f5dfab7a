# project-dirs, modelled in Dafny

`project-dirs` works out where an application keeps its files. The application is named by a
triplet: qualifier, organization and application. The library answers with one path per
*purpose*: bin, cache, config, data, include, lib, log, project root, runtime and state. It
offers several strategies:

- FHS: `/usr`, `/var`, `/etc`, `/run`.
- XDG base directories: environment variables with fallbacks under `$HOME`.
- Unix style: one hidden directory below a parent.
- Windows: organization and application below the known folders.

It gathers the user, system and local scopes of the host. `project-dirs-builder` evaluates a
specification of named entries. Each entry names a strategy, an optional filesystem filter, an
optional mount point and an optional subset of purposes.

This project models that core, one Dafny module per source file:

- `ProjectTriplet` (`project_triplet.dfy`): name cleaners
- `Identity` (`identity.dfy`): `Directory`, `Project` (from `lib.rs`)
- `ProjDirs` (`proj_dirs.dfy`): `ProjectDirs`, `FullProjectDirs` and their conversions
- `Paths` (`paths.dfy`): paths as component sequences; text splitting
- `Overlay` (`overlay.dfy`): the set/clear/keep rule shared by both `extend_with_env` loops
- `UnixStrategy` (`strategy_unix.dfy`): `strategy/unix.rs`
- `FhsStrategy` (`strategy_fhs.dfy`): `strategy/fhs.rs`
- `XdgStrategy` (`strategy_xdg.dfy`): `strategy/xdg.rs`
- `WindowsStrategy` (`strategy_windows.dfy`): `strategy/windows.rs`
- `DirUtils` (`dir_utils.dfy`): filters and mounting
- `Scopes` (`scoped.dfy`): `Scoped` and `unix_project_dirs`
- `Builder` (`builder.dfy`): `project-dirs-builder`
- `Wrappers` (`wrappers.dfy`): `Option` and `Result`

Modelling choices:

- Pure code is modelled as functions.
- Code that mutates is modelled imperatively:
  - `XdgEnv` and `WindowsEnv` are classes whose `ExtendWithEnv` loops update fields in place.
  - The conversion to a full record, the `or_insert` fill-in, `changing_data`/`static_data` and
    the builder's fold are methods over maps.
  - Each method is proved equal to a specification function. Properties are then proved about
    that function.
- What the process reads from its host is passed in as a `Host` value: environment variables,
  the home directory, the current directory, the executable path and the filesystem. The
  filesystem is modelled as an oracle from a path to its state.
- Iterating a `HashMap` picks keys in an arbitrary order. The model then proves that the result
  does not depend on that order.
- The host is a unix-family, non-macOS system built without the `windows` cfg.

Where the code and its doc comments disagree, the model follows the code:

- `Unix::unix` uses the empty prefix; its doc comment says ".".
- `process_spec_entry` filters first, then mounts, then restricts to the listed purposes.

## Model

| member | source | states |
|---|---|---|
| `ProjectTriplet.UnixCleanupCharwise` | project-dirs/src/project_triplet.rs:12-24 | the lower-case, seven-replace and filter chain of `unix_name_cleanup` equals a character-by-character map (dash, lower-cased character, or nothing) |
| `ProjectTriplet.UnixNameCleanupShape` | project-dirs/src/project_triplet.rs:12-24 | a unix name is never longer than its input and holds only lower-case ASCII letters, digits and '-' |
| `ProjectTriplet.UnixNameCleanupIdempotent` | project-dirs/src/project_triplet.rs:12-24 | cleaning a cleaned unix name changes nothing |
| `ProjectTriplet.UnixNameCleanupFixes` | project-dirs/src/project_triplet.rs:12-24 | a name already in the unix alphabet is its own unix name |
| `ProjectTriplet.WindowsCleanupCharwise` | project-dirs/src/project_triplet.rs:26-42 | the four replaces and the filter of `windows_name_cleanup` equal a character-by-character map |
| `ProjectTriplet.WindowsNameCleanupShape` | project-dirs/src/project_triplet.rs:26-42 | a Windows name is never longer than its input, holds only kept characters and none of '\\', '/', '@', '#' |
| `ProjectTriplet.WindowsNameCleanupPreserves` | project-dirs/src/project_triplet.rs:32-40 | case, whitespace and kept punctuation survive: a name of kept characters is unchanged |
| `ProjectTriplet.WindowsNameCleanupIdempotent` | project-dirs/src/project_triplet.rs:26-42 | cleaning a cleaned Windows name changes nothing |
| `ProjectTriplet.QualifierCleanupShape` | project-dirs/src/project_triplet.rs:44-50 | a cleaned qualifier holds only kept characters and no upper-case ASCII letter |
| `ProjectTriplet.QualifierCleanupIdempotent` | project-dirs/src/project_triplet.rs:44-50 | cleaning a cleaned qualifier changes nothing |
| `ProjectTriplet.FilterShape` | project-dirs/src/project_triplet.rs:21-23 | the character filter keeps only characters of its input that pass the test, never lengthening it |
| `ProjectTriplet.UnixNameCleanup` | project-dirs/src/project_triplet.rs:12-24 | `unix_name_cleanup`: ASCII lower case, seven replaces by '-', then the filter; its meaning is stated by `UnixCleanupCharwise`, `UnixNameCleanupShape`, `UnixNameCleanupIdempotent` and `UnixNameCleanupFixes` |
| `ProjectTriplet.WindowsNameCleanup` | project-dirs/src/project_triplet.rs:26-42 | `windows_name_cleanup`: four replaces by '-', then the filter; stated by `WindowsCleanupCharwise`, `WindowsNameCleanupShape`, `WindowsNameCleanupPreserves` and `WindowsNameCleanupIdempotent` |
| `ProjectTriplet.QualifierCleanup` | project-dirs/src/project_triplet.rs:44-50 | `qualifier_cleanup`: lower case, then the filter; stated by `QualifierCleanupShape` and `QualifierCleanupIdempotent` |
| `ProjectTriplet.NameCleanup` | project-dirs/src/project_triplet.rs:1-10 | `name_cleanup` on a unix-family build is the unix cleaner |
| `ProjectTriplet.UnixNameOfTestApplication` | test_suite/src/lib.rs:22-32 | "funny-bunny v.2137_0" becomes "funny-bunny-v-2137-0" |
| `ProjectTriplet.UnixNameDropsNonAscii` | test_suite/src/lib.rs:22-32 | "żołądź project" becomes "od-project" |
| `ProjectTriplet.UnixNameOfUnderscoredName` | test_suite/src/lib.rs:22-32 | "123-my_proj" becomes "123-my-proj" |
| `ProjectTriplet.UnixNameOfExampleApplication` | project-dirs/examples/unix-style.rs:11-14 | "My Magic Super/App" becomes "my-magic-super-app" |
| `ProjectTriplet.UnixNameOfTestOrganization` | test_suite/src/lib.rs:203-214 | "my-org Corp" becomes "my-org-corp" |
| `ProjectTriplet.WindowsNameDropsNonAscii` | test_suite/src/lib.rs:34-47 | the Windows cleaner makes "żołądź project" into "od project" |
| `ProjectTriplet.WindowsNamesKeptAsIs` | test_suite/src/lib.rs:34-47 | the Windows cleaner leaves "funny-bunny v.2137_0", "123-my_proj" and "my-org Corp" unchanged |
| `ProjectTriplet.QualifierExample` | test_suite/src/lib.rs:203-208 | "123asd_&&-.supoer.comą" becomes "123asd-.supoer.com" |
| `Identity.Rank` | project-dirs/src/lib.rs:26-53 | every purpose has a position in the declaration order, which the derived ordering follows |
| `Identity.DirectoryOrder` | project-dirs/src/lib.rs:26-53 | there are exactly ten purposes; the derived order is a strict total order listing them in declaration order |
| `Identity.NewProject` | project-dirs/src/lib.rs:64-104 | `Project::new` keeps the raw strings and stores the cleaned qualifier, organization and application; on this host `application_name` is `application_name_unix` and `application_name_macos`, and the Windows names are cleaned from the raw strings |
| `Identity.NewProjectNames` | project-dirs/src/lib.rs:64-74 | the stored names are in the unix alphabet and no longer than the raw ones; the qualifier keeps only allowed characters |
| `Identity.NewProjectRenormalise` | project-dirs/src/lib.rs:64-74 | building a project from a project's cleaned names gives the same cleaned names |
| `Identity.Project.ApplicationNameUnix` | project-dirs/src/lib.rs:77-79 | the unix cleaner on the raw application string; equal to `ApplicationName` (see `NewProject`) |
| `Identity.Project.ApplicationNameWindows` | project-dirs/src/lib.rs:82-84 | the Windows cleaner on the raw application string (see `NewProject`) |
| `Identity.Project.ApplicationNameMacos` | project-dirs/src/lib.rs:87-89 | the unix cleaner on the raw application string (see `NewProject`) |
| `Identity.Project.OrganizationNameWindows` | project-dirs/src/lib.rs:92-94 | the Windows cleaner on the raw organization string (see `NewProject`) |
| `Identity.Project.OrganizationName` | project-dirs/src/lib.rs:97-99 | the stored, cleaned organization name (see `NewProject`, `NewProjectNames`) |
| `Identity.Project.ApplicationName` | project-dirs/src/lib.rs:102-104 | the stored, cleaned application name (see `NewProject`, `NewProjectNames`) |
| `Identity.Project.Qualifier` | project-dirs/src/lib.rs:107-109 | the stored, cleaned qualifier (see `NewProject`, `NewProjectNames`) |
| `Identity.TripletExample` | test_suite/src/lib.rs:203-214 | the test triplet's qualifier, organization and application names, unix and Windows |
| `ProjDirs.Empty` | project-dirs/src/proj_dirs.rs:53-55 | the empty map holds no purpose |
| `ProjDirs.Get` | project-dirs/src/proj_dirs.rs:15-17 | a lookup answers exactly for the purposes present, with their paths |
| `ProjDirs.FromFull` | project-dirs/src/proj_dirs.rs:58-81 | the map has a purpose exactly when the record's member for it is present, with the same path |
| `ProjDirs.TryIntoFull` | project-dirs/src/proj_dirs.rs:86-119 | the checking loop and the removals compute the conversion specified by `ToFull` |
| `ProjDirs.MissingExact` | project-dirs/src/proj_dirs.rs:89-101 | the error list holds exactly the absent purposes among cache, config, data, state, log, bin, lib, in that order, without repeats; include, runtime and project root are never reported |
| `ProjDirs.ToFullSucceeds` | project-dirs/src/proj_dirs.rs:103-118 | the conversion succeeds exactly when the seven checked purposes are present, and otherwise returns the non-empty error list |
| `ProjDirs.FullRoundTrip` | test_suite/src/lib.rs:154-171 | a record turned into a map converts back to the same record, without panicking |
| `ProjDirs.PartialRoundTrip` | project-dirs/src/proj_dirs.rs:58-119 | a map that converts gives a record whose map is the original map |
| `ProjDirs.FromFullByFields` | project-dirs/src/proj_dirs.rs:58-81 | a map agreeing with a record on every purpose is that record's map |
| `ProjDirs.SameLookups` | project-dirs/src/proj_dirs.rs:15-17 | two maps that answer every lookup alike are equal |
| `ProjDirs.MissingExample` | test_suite/src/lib.rs:173-192 | the map of config and data lacks cache, state, log, bin and lib; both the source's and the corrected conversion report exactly that list, as the test expects |
| `ProjDirs.MandatoryMissing` | project-dirs/src/proj_dirs.rs:89-111 | the absent mandatory purposes are the source's error list followed by include when include is absent |
| `ProjDirs.PanicsWithoutInclude` | project-dirs/src/proj_dirs.rs:111 | with the seven checked purposes present and no include, the source unwraps a missing entry; the corrected conversion reports `[Include]` |
| `ProjDirs.ToFullReportingInclude` | project-dirs/src/proj_dirs.rs:86-119 | corrected conversion: it succeeds exactly when every mandatory purpose, include included, is present; every error list is non-empty and names only absent mandatory purposes |
| `ProjDirs.ReportingIncludeAgrees` | project-dirs/src/proj_dirs.rs:86-119 | wherever the source's conversion does not panic, the corrected one returns the same result; it returns `Err([Include])` with include absent exactly where the source panics |
| `ProjDirs.ReportingIncludeRoundTrip` | project-dirs/src/proj_dirs.rs:58-119 | the corrected conversion undoes the map built from a record |
| `Paths.JoinWithin` | project-dirs/src/strategy/unix.rs:45 | a joined path lies below the path it extends |
| `Paths.WithinTrans` | project-dirs/src/strategy/unix.rs:44-47 | lying below is transitive |
| `Paths.JoinAllShort` | project-dirs/src/strategy/xdg.rs:165-166 | joining one or two names in a row is joining them one after the other |
| `Paths.JoinSplit` | project-dirs/src/strategy/xdg.rs:88-102 | splitting a text on a separator loses nothing: gluing the pieces back gives the text |
| `Paths.SplitPiecesFree` | project-dirs/src/strategy/xdg.rs:88-102 | no piece of a split contains the separator |
| `Paths.SplitJoin` | project-dirs/src/strategy/xdg.rs:88-102 | gluing separator-free pieces and splitting again gives the pieces back |
| `Paths.NonEmpty` | project-dirs/src/strategy/xdg.rs:57 | the components kept when reading a path are all non-empty |
| `Paths.ParseDisplay` | project-dirs/src/strategy/xdg.rs:55-61 | reading the text of a path whose components are names gives the path back |
| `Overlay.PathValue` | project-dirs/src/strategy/xdg.rs:55-61 | a value yields a path exactly when it is present and non-empty |
| `Overlay.OverlaidRules` | project-dirs/src/strategy/xdg.rs:64-74 | a non-empty value sets the field; an empty or missing one clears it when clearing is allowed and keeps it otherwise |
| `Overlay.OverlaidAllClearing` | project-dirs/src/strategy/xdg.rs:54-76 | with clearing allowed the last value for a key decides alone |
| `Overlay.OverlaidAllKeeps` | project-dirs/src/strategy/xdg.rs:54-76 | without clearing, missing or empty values leave the field as it was |
| `Overlay.OverlaidAllLastSet` | project-dirs/src/strategy/xdg.rs:54-76 | without clearing, the field ends at the last non-empty value |
| `Overlay.FieldStep` | project-dirs/src/strategy/xdg.rs:65-73 | a pair changes only the field its key names |
| `UnixStrategy.UnixLayout` | project-dirs/src/strategy/unix.rs:6-19 | every purpose is resolved: config and project root are the project directory, each other purpose its own sub-directory (runtime is "tmp") |
| `UnixStrategy.Unix` | project-dirs/src/strategy/unix.rs:6-19 | the free function `unix`; its layout is stated by `UnixLayout` and `UnixWithin` |
| `UnixStrategy.UnixPrefixed` | project-dirs/src/strategy/unix.rs:43-48 | `unix_prefixed`; stated by `UnixPrefixedWithin` |
| `UnixStrategy.UnixDefault` | project-dirs/src/strategy/unix.rs:27-29 | `Unix::unix`: the empty prefix; stated by `UnixExample` and `Builder.StrategyDefaults` |
| `UnixStrategy.UnixPwd` | project-dirs/src/strategy/unix.rs:50-52 | `unix_pwd` with the current directory given; stated by `UnixLookups` |
| `UnixStrategy.UnixHome` | project-dirs/src/strategy/unix.rs:54-56 | `unix_home` with the home directory given; stated by `UnixLookups` |
| `UnixStrategy.UnixBinary` | project-dirs/src/strategy/unix.rs:58-60 | `unix_binary` with the executable path given; stated by `UnixLookups` |
| `UnixStrategy.UnixWithin` | project-dirs/src/strategy/unix.rs:6-19 | every path of the layout lies within the project directory |
| `UnixStrategy.UnixPrefixedWithin` | project-dirs/src/strategy/unix.rs:43-48 | the layout sits in `parent/<prefix><application name>`; every path lies within it and within the parent |
| `UnixStrategy.UnixLookups` | project-dirs/src/strategy/unix.rs:50-60 | `unix_pwd`, `unix_home` and `unix_binary` succeed exactly when their host lookup does, pass its error on, and put every path below the looked-up directory with the "." prefix |
| `UnixStrategy.UnixExample` | project-dirs/examples/unix-style.rs:16-27 | "My Magic Super/App" under /opt/my_dir logs to `.my-magic-super-app/log` with ".", and to `my-magic-super-app/log` with `unix` |
| `FhsStrategy.FhsLayout` | project-dirs/src/strategy/fhs.rs:32-77 | both modes resolve every purpose but the project root to rooted paths; bin is the bare root and every other purpose is its root joined with the application name |
| `FhsStrategy.Fhs` | project-dirs/src/strategy/fhs.rs:32-54 | `fhs`; stated by `FhsLayout`, `FhsModesAgree`, `FhsDataIsState` and `FhsApplicationName` |
| `FhsStrategy.FhsLocal` | project-dirs/src/strategy/fhs.rs:55-77 | `fhs_local`; stated by the same lemmas |
| `FhsStrategy.FhsModesAgree` | project-dirs/src/strategy/fhs.rs:32-77 | cache, data, log, runtime and state do not depend on the mode |
| `FhsStrategy.FhsDataIsState` | project-dirs/src/strategy/fhs.rs:39-76 | data and state are the same directory in both modes |
| `FhsStrategy.FhsApplicationName` | project-dirs/src/strategy/fhs.rs:32-77 | bin is shared by all applications; two different non-empty application names share no other path |
| `FhsStrategy.FhsModeApplicationName` | project-dirs/src/strategy/fhs.rs:32-77 | within one mode, different non-empty application names give different paths for every purpose but bin |
| `FhsStrategy.FhsExample` | project-dirs/examples/fhs-style.rs:11-19 | "My Magic Super/App" logs to /var/log/my-magic-super-app |
| `XdgStrategy.XdgVariable` | project-dirs/src/strategy/xdg.rs:16-26 | a variable yields a path exactly when it is set and non-empty |
| `XdgStrategy.NewSystem` | project-dirs/src/strategy/xdg.rs:38-47 | `XdgEnv::new_system` with the environment and the home lookup given: each base variable through `xdg_variable` |
| `XdgStrategy.VarsOk` | project-dirs/src/strategy/xdg.rs:78-84 | `is_ok`; stated by `VarsOkFinds` and `VarsOkExamples` |
| `XdgStrategy.XdgEnv.IsOk` | project-dirs/src/strategy/xdg.rs:78-84 | `is_ok` on the environment's current fields |
| `XdgStrategy.ExtendedFields` | project-dirs/src/strategy/xdg.rs:49-76 | after the pairs, each variable is its own key's values overlaid in order; no other key touches it |
| `XdgStrategy.ExtendUnknownKey` | project-dirs/src/strategy/xdg.rs:72 | a pair with an unknown key changes nothing |
| `XdgStrategy.XdgEnv.ExtendWithEnv` | project-dirs/src/strategy/xdg.rs:49-76 | the loop leaves the fields equal to the old variables extended by the pairs in order |
| `XdgStrategy.XdgEnv.constructor` | project-dirs/src/strategy/xdg.rs:7-14 | a new environment holds the given variables |
| `XdgStrategy.VarsOkExamples` | test_suite/src/lib.rs:79-110 | `is_ok` holds with home or all four base variables set, whatever the runtime directory |
| `XdgStrategy.VarsOkFinds` | project-dirs/src/strategy/xdg.rs:78-84 | `is_ok` holds exactly when the resolution without fallbacks finds bin, or finds all of cache, config, data and state |
| `XdgStrategy.ExcludeMissingExact` | project-dirs/src/strategy/xdg.rs:128-158 | without fallbacks a purpose is present exactly when its variable is set, there is no project root, and each path is that variable with the purpose's names joined below |
| `XdgStrategy.ExcludeMissingGet` | project-dirs/src/strategy/xdg.rs:128-158 | looking a purpose up gives the entry computed from its variable |
| `XdgStrategy.ExcludeMissing` | project-dirs/src/strategy/xdg.rs:128-158 | `xdg_with_env_exclude_missing`; stated by `ExcludeMissingExact` and `ExcludeMissingGet` |
| `XdgStrategy.OrInsert` | project-dirs/src/strategy/xdg.rs:168-187 | `entry(d).or_insert(p)` leaves an existing path for `d` and inserts `p` otherwise |
| `XdgStrategy.FillDefaults` | project-dirs/src/strategy/xdg.rs:168-187 | the seven fill-ins give each of cache, config, include, lib, log, state and data its default only where missing; bin, runtime and project root are untouched |
| `XdgStrategy.FilledIsResolved` | project-dirs/src/strategy/xdg.rs:162-194 | the filled map converts without error or panic, to the resolved record |
| `XdgStrategy.XdgWithEnv` | project-dirs/src/strategy/xdg.rs:160-199 | `xdg_with_env` computes the resolution specified by `XdgResolved`; its unreachable branch is indeed unreachable |
| `XdgStrategy.XdgResolvedFails` | project-dirs/src/strategy/xdg.rs:164-198 | the resolution fails exactly when $HOME is unknown, even when the four base variables are set |
| `XdgStrategy.XdgResolved` | project-dirs/src/strategy/xdg.rs:160-199 | what `xdg_with_env` returns; stated by `XdgResolvedFails`, `XdgResolvedLayout` and `XdgResolvedExtendsExcludeMissing`, and computed by the method `XdgWithEnv` |
| `XdgStrategy.XdgResolvedLayout` | project-dirs/src/strategy/xdg.rs:160-199 | with $HOME known every purpose but project root and runtime is below its variable, or below its $HOME default; runtime is present exactly when its variable is |
| `XdgStrategy.XdgResolvedExtendsExcludeMissing` | project-dirs/src/strategy/xdg.rs:160-199 | the fallbacks only fill gaps: every entry found without them is kept as it is |
| `XdgStrategy.DataDirs` | project-dirs/src/strategy/xdg.rs:88-95 | `xdg_data_dirs` never returns an empty list (its values: `DataDirsExample`, `SearchPathsSplit`) |
| `XdgStrategy.ConfigDirs` | project-dirs/src/strategy/xdg.rs:98-102 | `xdg_config_dirs` never returns an empty list (its values: `ConfigDirsExample`, `SearchPathsSplit`) |
| `XdgStrategy.SplitPaths` | project-dirs/src/strategy/xdg.rs:90 | one path per ':'-separated piece, in order |
| `XdgStrategy.SearchPathsSplit` | project-dirs/src/strategy/xdg.rs:88-102 | splitting either variable loses nothing: the pieces glued with ':' give the variable back; a set but empty variable gives one empty path, not the defaults |
| `XdgStrategy.SplitPathsPair` | project-dirs/src/strategy/xdg.rs:90 | two paths written out and joined with ':' are read back as exactly those two paths |
| `XdgStrategy.ConfigDirsExample` | test_suite/src/lib.rs:248-291 | "/x/y:/z" gives /x/y and /z; an unset variable gives /etc/xdg |
| `XdgStrategy.DataDirsExample` | test_suite/src/lib.rs:248-291 | "/a/b:/e/f" gives /a/b and /e/f; an unset variable gives /usr/local/share and /usr/share |
| `WindowsStrategy.ExtendedFields` | project-dirs/src/strategy/windows.rs:92-117 | after the pairs, each folder is its own key's values overlaid in order; no other key touches it |
| `WindowsStrategy.ExtendUnknownKey` | project-dirs/src/strategy/windows.rs:113 | a pair with an unknown key changes nothing |
| `WindowsStrategy.WindowsEnv.ExtendWithEnv` | project-dirs/src/strategy/windows.rs:92-117 | the loop leaves the fields equal to the old folders extended by the pairs in order |
| `WindowsStrategy.WindowsEnv.constructor` | project-dirs/src/strategy/windows.rs:79-84 | a new environment holds the given folders |
| `WindowsStrategy.JoinWinPath` | project-dirs/src/strategy/windows.rs:51-54 | the namespace is the folder joined with the organization, then the application, and lies below the folder |
| `WindowsStrategy.ChangingData` | project-dirs/src/strategy/windows.rs:56-62 | data, cache, runtime ("tmp"), state and log ("logs") are set below the folder; every other entry is kept |
| `WindowsStrategy.StaticData` | project-dirs/src/strategy/windows.rs:64-75 | bin, config, include and lib are set below the folder; every other entry is kept |
| `WindowsStrategy.SplitLookups` | project-dirs/src/strategy/windows.rs:173-199 | a map with static entries below one folder and changing ones below another is the split layout |
| `WindowsStrategy.SplitWithEnv` | project-dirs/src/strategy/windows.rs:173-199 | inserting static then changing data computes the split layout |
| `WindowsStrategy.WholeWithEnv` | project-dirs/src/strategy/windows.rs:201-219 | inserting changing data, static data and the project root below one folder computes the whole layout |
| `WindowsStrategy.WindowsSystemWithEnv` | project-dirs/src/strategy/windows.rs:173-185 | `windows_system_with_env` is the split layout on ProgramFiles and ProgramData |
| `WindowsStrategy.WindowsUserWithEnv` | project-dirs/src/strategy/windows.rs:187-199 | `windows_user_with_env` is the split layout on RoamingAppData and LocalAppData |
| `WindowsStrategy.WindowsUserLocalWithEnv` | project-dirs/src/strategy/windows.rs:201-209 | `windows_user_local_with_env` is the whole layout on LocalAppData |
| `WindowsStrategy.WindowsUserSharedWithEnv` | project-dirs/src/strategy/windows.rs:211-219 | `windows_user_shared_with_env` is the whole layout on RoamingAppData |
| `WindowsStrategy.WindowsSystem` | project-dirs/src/strategy/windows.rs:173-185 | what `windows_system_with_env` returns; computed by `WindowsSystemWithEnv`, stated by `SplitLayoutExact` |
| `WindowsStrategy.WindowsUser` | project-dirs/src/strategy/windows.rs:187-199 | what `windows_user_with_env` returns; computed by `WindowsUserWithEnv`, stated by `UserIsSystemOnUserFolders` |
| `WindowsStrategy.WindowsUserLocal` | project-dirs/src/strategy/windows.rs:201-209 | what `windows_user_local_with_env` returns; stated by `WholeLayoutExact` |
| `WindowsStrategy.WindowsUserShared` | project-dirs/src/strategy/windows.rs:211-219 | what `windows_user_shared_with_env` returns; stated by `WholeLayoutExact` |
| `WindowsStrategy.SplitLayoutExact` | project-dirs/src/strategy/windows.rs:56-75 | static purposes are present exactly when the static folder is known, changing ones exactly when the changing folder is, never a project root; each path is folder/organization/application/subfolder |
| `WindowsStrategy.SplitLayoutWithin` | project-dirs/src/strategy/windows.rs:51-75 | every split-layout path lies in the namespace of its folder |
| `WindowsStrategy.WholeLayoutExact` | project-dirs/src/strategy/windows.rs:201-219 | with the folder known all ten purposes are present and the project root is the folder itself; otherwise the map is empty |
| `WindowsStrategy.UserIsSystemOnUserFolders` | project-dirs/src/strategy/windows.rs:173-199 | the user layout is the system layout with RoamingAppData and LocalAppData in place of ProgramFiles and ProgramData |
| `WindowsStrategy.NoFoldersEmpty` | project-dirs/src/strategy/windows.rs:173-219 | with no folder known every mode gives the empty map |
| `WindowsStrategy.SplitLayoutToFull` | project-dirs/src/strategy/windows.rs:124-137 | the split layout never makes the conversion panic, and converts exactly when both folders are known |
| `WindowsStrategy.WholeLayoutToFull` | project-dirs/src/strategy/windows.rs:142-155 | the whole layout never makes the conversion panic, converts exactly when its folder is known, and keeps the folder as project root |
| `DirUtils.TryExists` | project-dirs/src/dir_utils.rs:47-65 | `try_exists` errs exactly when the check is denied, and otherwise says whether something is there |
| `DirUtils.IsDir` | project-dirs/src/dir_utils.rs:31 | `Path::is_dir` on the filesystem snapshot: false when missing or unreadable |
| `DirUtils.Exists` | project-dirs/src/dir_utils.rs:41 | `Path::exists` on the filesystem snapshot |
| `DirUtils.FilterExistingDirs` | project-dirs/src/dir_utils.rs:27-35 | `filter_existing_dirs`; stated by `FilterStates` and `FilteredSubmap` |
| `DirUtils.FilterNonDirs` | project-dirs/src/dir_utils.rs:37-45 | `filter_non_dirs`; stated by `FilterStates` |
| `DirUtils.FilterAbsent` | project-dirs/src/dir_utils.rs:47-55 | `filter_absent`; stated by `FilterStates` |
| `DirUtils.FilterDenied` | project-dirs/src/dir_utils.rs:57-65 | `filter_denied`; stated by `FilterStates` |
| `DirUtils.FilterNonValid` | project-dirs/src/dir_utils.rs:67-75 | `filter_non_valid`; stated by `FilterStates` and `PresentNonValidPartition` |
| `DirUtils.Filtered` | project-dirs/src/dir_utils.rs:26-76 | a filter keeps exactly the entries whose path passes its test, unchanged |
| `DirUtils.FilterStates` | project-dirs/src/dir_utils.rs:26-76 | each of the five filters keeps exactly the entries whose path is in the states it selects |
| `DirUtils.FilteredSubmap` | project-dirs/src/dir_utils.rs:26-76 | every filter returns a sub-map of its input |
| `DirUtils.PresentNonValidPartition` | project-dirs/src/dir_utils.rs:22-23 | existing directories and non-valid entries partition the map |
| `DirUtils.FilteredIdempotent` | project-dirs/src/dir_utils.rs:26-76 | filtering twice is filtering once |
| `DirUtils.FiltersCover` | project-dirs/src/dir_utils.rs:5-24 | absent and denied are disjoint; present, non-directory, absent and denied together cover the map |
| `DirUtils.StripRoot` | project-dirs/src/dir_utils.rs:83-91 | the stripped path is relative with the same components; a relative path is unchanged |
| `DirUtils.MountPath` | project-dirs/src/dir_utils.rs:93-97 | a mounted path lies below the mount point, its components those of the mount point followed by the path's |
| `DirUtils.MountIgnoresRoot` | project-dirs/src/dir_utils.rs:83-97 | rooted or not, a path lands at the same place below the mount point |
| `DirUtils.MountExample` | project-dirs/src/dir_utils.rs:93-97 | /var/log/app mounted at /mnt is /mnt/var/log/app |
| `DirUtils.Mounted` | project-dirs/src/dir_utils.rs:99-108 | mounting a map keeps its purposes and moves each path below the mount point |
| `DirUtils.MountedWithin` | project-dirs/src/dir_utils.rs:99-108 | every mounted path lies below the mount point |
| `DirUtils.MountFull` | project-dirs/src/dir_utils.rs:110-115 | mounting a record moves each present member below the mount point, absent ones stay absent, and the `unwrap` never panics |
| `DirUtils.MountedConverts` | project-dirs/src/dir_utils.rs:110-115 | the mounted map of a record converts back without error or panic |
| `Scopes.SystemScope` | project-dirs/src/lib.rs:122 | the system scope is the shared FHS layout: every purpose but the project root |
| `Scopes.UnixProjectDirs` | project-dirs/src/lib.rs:111-128 | `unix_project_dirs`; stated by `SystemScope`, `UserScope`, `LocalScope` and `UserDirsAreXdg` |
| `Scopes.UserDirs` | project-dirs/src/lib.rs:118-121 | the user scope; stated by `UserScope` and `UserDirsAreXdg` |
| `Scopes.LocalDirs` | project-dirs/src/lib.rs:123-126 | the local scope; stated by `LocalScope` |
| `Scopes.UserScope` | project-dirs/src/lib.rs:118-121 | the user scope is empty exactly when $HOME is unknown; otherwise it has the eight mandatory purposes and no project root |
| `Scopes.LocalScope` | project-dirs/src/lib.rs:123-126 | the local scope is empty exactly when the current directory cannot be read; otherwise all ten purposes are present, the project root being `<cwd>/.<application>` |
| `Scopes.UserDirsAreXdg` | test_suite/src/lib.rs:231-246 | the user scope is the strict XDG resolution over the process environment, keeping every variable-based entry |
| `Builder.Iterate` | project-dirs-builder/src/lib.rs:203-249 | iterating a hash map lists every entry once, in some order |
| `Builder.ValuesForListing` | project-dirs-builder/src/lib.rs:203-206 | in any listing of a map, a key's values are just the map's value for it |
| `Builder.OverlayFieldListing` | project-dirs-builder/src/lib.rs:203-206 | a field overlaid from any listing of the builder's variables is overlaid with the map's value for its key |
| `Builder.XdgOrderIrrelevant` | project-dirs-builder/src/lib.rs:203-206 | extending the XDG variables from the builder's hash map gives the same result in every iteration order |
| `Builder.WinOrderIrrelevant` | project-dirs-builder/src/lib.rs:246-249 | extending the Windows folders from the builder's hash map gives the same result in every iteration order |
| `Builder.Restricted` | project-dirs-builder/src/lib.rs:274-280 | restriction keeps exactly the listed purposes present in the map, unchanged |
| `Builder.StrategyDirs` | project-dirs-builder/src/lib.rs:188-258 | what the strategy match yields; computed by `StrategyEntry`, stated by `XdgEntryModes`, `WindowsEntryFromBuilderOnly` and `StrategyDefaults` |
| `Builder.EntryDirs` | project-dirs-builder/src/lib.rs:177-283 | what `process_spec_entry` returns; computed by `ProcessSpecEntry`, stated by `EntryDirsExact` |
| `Builder.SystemDefaultDirs` | project-dirs-builder/src/lib.rs:168-175 | `system_default`; stated by `CurrentEntriesDirs` and `SystemDefaultIsCustom` |
| `Builder.BuildResult` | project-dirs-builder/src/lib.rs:285-301 | what `build` returns; computed by `Build`, stated by `BuildShape` |
| `Builder.XdgEntry` | project-dirs-builder/src/lib.rs:196-216 | the Xdg arm, with its in-place extension, computes the strategy's specified map |
| `Builder.WindowsEntry` | project-dirs-builder/src/lib.rs:235-257 | the Windows arm computes the specified map for every host |
| `Builder.StrategyEntry` | project-dirs-builder/src/lib.rs:188-258 | the strategy match computes the specified map |
| `Builder.ProcessSpecEntry` | project-dirs-builder/src/lib.rs:177-283 | `process_spec_entry` computes the entry's specified map: strategy, then filter, mount and subset |
| `Builder.Build` | project-dirs-builder/src/lib.rs:285-301 | the fold over the entries, in hash-map order, computes the specified result |
| `Builder.BuildShape` | project-dirs-builder/src/lib.rs:285-301 | the result names the project's application; the defaults give exactly local, user and system; a custom spec gives exactly its own names, each with its own entry's map |
| `Builder.SystemDefaultIsCustom` | test_suite/src/lib.rs:293-349 | the host defaults equal the custom spec of the three current-scope entries |
| `Builder.CurrentEntriesDirs` | project-dirs-builder/src/lib.rs:168-191 | the three current-scope entries evaluate to the host defaults |
| `Builder.CurrentEntryEach` | project-dirs-builder/src/lib.rs:189-191 | each current-scope entry evaluates to its scope |
| `Builder.EntryDirsExact` | project-dirs-builder/src/lib.rs:260-282 | a purpose survives when its unmounted path passes the filter and it is listed (or the list is empty); its path is then the mounted one |
| `Builder.XdgEntryModes` | project-dirs-builder/src/lib.rs:196-216 | with fallback: strict resolution over the system variables overlaid with the builder's, empty without $HOME; without fallback: missing purposes are left out, and bin appears only when the builder sets HOME |
| `Builder.WindowsEntryFromBuilderOnly` | project-dirs-builder/src/lib.rs:243-244 | off Windows the Windows entries ignore the host, and with default builder variables every mode is empty |
| `Builder.StrategyDefaults` | project-dirs-builder/src/lib.rs:192-233 | FHS without a mode is shared; a custom unix path without a prefix uses the empty prefix; failed host lookups give empty maps |

## Left out

- Host lookups are inputs rather than calls: `std::env::var`, `home_dir`, `current_dir`,
  `current_exe`, the Windows known-folder lookup (`known_folder` / `SHGetKnownFolderPath`) and
  the filesystem checks (`is_dir`, `exists`, `try_exists`). The filesystem is one snapshot for
  a whole evaluation, so races between checks are not modelled.
- Paths are modelled as a rooted flag plus a list of components, not as OS strings:
  - A name containing '/' stays one component.
  - `join("")` adds nothing; in Rust it adds a trailing separator, which compares equal.
  - "." and ".." are not normalised.
  - An environment value is read by splitting on '/' and dropping empty pieces.
- Non-UTF-8 values are not modelled. Reading a non-UTF-8 variable fails in `std::env::var`.
- `ProjectTriplet.Lowercase`: only ASCII upper-case letters and two characters (U+212A, U+0130)
  are lowered. These are the only characters whose lower case the qualifier filter can observe.
  Other non-ASCII letters are kept as they are; the filter drops them anyway.
- `ProjDirs.ToFull`: the model requires that the conversion does not panic. The panic itself is
  under "Findings".
- `ProjDirs.TryIntoFull`: each `remove(..).unwrap()` is modelled as a lookup. The keys are
  distinct and the map is dropped afterwards, so the result is the same.
- `ProjectDirs::new` is the identity on a map, so it has no member.
- The macOS branch of `project_dirs` is `todo!()` and is left out.
- The Windows-only code is left out:
  - `windows_project_dirs`;
  - `WindowsEnv::new_system`;
  - the `windows_*` wrappers that call `try_into`;
  - the Windows `fhs_normalize_path`;
  - the builder's `fallback_to_system` for Windows entries.
  - The model is a non-Windows build, so FHS paths are not normalised, and Windows entries
    start from an empty `WindowsEnv` (see `Builder.WindowsEntryFromBuilderOnly`).
- `xdg_with_env` prints to stderr before its `unreachable!`. The model proves that branch
  cannot be reached and does not model the output.
- The following are outside this model: serde/schemars derives, the JSON shapes, the CLI, the C
  and Python bindings, and the xtask tools.

## Findings

| source | as written | input that shows it | evidently intended | confidence | as-written member | corrected member |
|---|---|---|---|---|---|---|
| project-dirs/src/proj_dirs.rs:111 | `TryFrom<ProjectDirs>` checks only cache, config, data, state, log, bin and lib, then unwraps include | a map holding those seven purposes and no include | include is mandatory in `FullProjectDirs` and should be reported as missing (`Err([Include])`) instead of panicking; every other result stays as it is | not executed | `ProjDirs.PanicsWithoutInclude` | `ProjDirs.ToFullReportingInclude` |

The rest of the model keeps the source's conversion (`ProjDirs.ToFull`) wherever the source
calls it. The correction changes only the panicking case: `ReportingIncludeAgrees` shows that
the two conversions return the same result wherever the source does not panic, and that the
corrected one returns `Err([Include])` exactly where it does. Every map the library itself
builds (XDG, Windows, mounting) is proved never to reach the panic: see `XdgStrategy.FilledIsResolved`, `WindowsStrategy.SplitLayoutToFull`,
`WindowsStrategy.WholeLayoutToFull` and `DirUtils.MountedConverts`.
