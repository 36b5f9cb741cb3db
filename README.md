# swift-vcpkg-plugin in Dafny

A verified model of the core of swift-vcpkg-plugin. The plugin is a SwiftPM/Xcode build-tool
plugin that makes vcpkg install a package's C/C++ dependencies before a build.
Its test helper bootstraps vcpkg itself: it downloads a registry archive and
the vcpkg tool binary into a workspace. The model covers four pieces:

- **Commands** (`commands.dfy`): the `Command` record (display name, executable, ordered
  arguments, environment, declared output directory) and the `CommandBuilder` class. The class
  prepares the unzip, curl, `vcpkg --version`, `vcpkg install`, chmod and rm invocations.
- **Plugin** (`plugin.dfy`):
  - finding the folder on `PATH` that holds `vcpkg` (`GetVcpkgTool`);
  - guessing the vcpkg root (`GuessVcpkgRoot`);
  - the two descriptors `VcpkgVersionCheck` and `VcpkgInstall`;
  - the Swift-package and Xcode entry points.
- **Test helper** (`filesystem.dfy`, `helper_steps.dfy`, `helper.dfy`, `helper_properties.dfy`):
  - the file system is a map from paths to entries, held by a `FileManager` object;
  - each helper step (`createFolders`, `createFile`, `overwrite`, both `downloadFile`s,
    `extractWithUnzip`, and the `VcpkgHelper` methods) is a method proved to produce exactly
    the result and state that a function in `HelperSteps` specifies;
  - `HelperProperties` proves what those functions guarantee:
    - which entries each step creates or keeps;
    - which error each step reports;
    - that a failed step stops every later one;
    - what a successful bootstrap leaves behind.
- **Triplet** (`triplet.dfy`): the host triplet `<arch>-<system>` and its unsupported-system error.

Supporting modules:

- `Wrappers`: `Option` and `Result`.
- `Paths`: path strings, joining, parent, and file URLs with `path` and `absoluteString`.
- `Release`: the GitHub release URLs of the vcpkg registry and tool.

The source defines the URL builders twice, at `Plugins/CommandBuilder.swift:11-17` and
`Tests/VcpkgHelper.swift:3-9`. It defines the arch/system functions twice, at
`Tests/BuildMacroTest.swift:5-21` and `Tests/VcpkgHelper.swift:11-27`. The copies are
identical, so each is defined once here.

Environment and I/O become parameters:

- the process environment is a `map<string, string>`;
- file existence is a predicate;
- an HTTP download is a `Session`, which gives the reply for each URL and the temporary file
  URLSession saves into;
- a curl or unzip run is a `Run`: either it could not launch, or it exited with a status;
- what the run writes is supplied as the downloaded bytes or the archive's entries.

The `VcpkgHelper` methods take their registry and tool tags last, with the source's default
values `2025.04.09` and `2025-04-16`.

`installUpstream` and `installTool` have no skip-if-present check: they always download
(`Tests/VcpkgHelper.swift:147-203`), and so does the model.

## Model

| member | source | states |
|---|---|---|
| Release.MakeRegistryURL | Plugins/CommandBuilder.swift:11-13 | the registry URL is the fixed `.../vcpkg/archive/refs/tags/` prefix, then the tag, then `.zip` |
| Release.MakeToolURL | Plugins/CommandBuilder.swift:15-17 | the tool URL is the fixed `.../vcpkg-tool/releases/download/` prefix, then the tag, then `/vcpkg-macos` |
| Release.RegistryTagRoundTrip | Plugins/CommandBuilder.swift:11-13 | the tag can be read back from the registry URL |
| Release.ToolTagRoundTrip | Plugins/CommandBuilder.swift:15-17 | the tag can be read back from the tool URL |
| Release.RegistryURLInjective | Tests/VcpkgHelper.swift:3-5 | different registry tags give different URLs |
| Release.ToolURLInjective | Tests/VcpkgHelper.swift:7-9 | different tool tags give different URLs |
| Release.RegistryAndToolURLsDiffer | Tests/VcpkgHelper.swift:3-9 | no registry URL equals any tool URL |
| Commands.NatToString | Plugins/CommandBuilder.swift:88 | the target count is rendered as a non-empty string of decimal digits with no leading zero (a positive count never starts with `0`) |
| Commands.NatToStringRoundTrip | Plugins/CommandBuilder.swift:88 | the rendered count reads back as the same number |
| Commands.CommandBuilder.constructor | Plugins/CommandBuilder.swift:7-9 | the builder keeps the workspace it is given |
| Commands.CommandBuilder.BuildExtract | Plugins/CommandBuilder.swift:19-27 | runs unzip with `-o zip -d dest`; the directory it extracts into is the declared output |
| Commands.CommandBuilder.BuildDownload | Plugins/CommandBuilder.swift:29-37 | runs curl with `-L source --output dest`; the file it writes is the declared output |
| Commands.CommandBuilder.BuildVersionCheck | Plugins/CommandBuilder.swift:39-47 | runs the tool with exactly `--version` and the ambient environment, named "Run: vcpkg version"; the output is the workspace |
| Commands.CommandBuilder.BuildInstall | Plugins/CommandBuilder.swift:49-70 | the 10 fixed arguments in order; `--triplet t` appended exactly when a triplet is given, so 12 or 10 arguments; the install root argument is the declared output; VCPKG_ROOT is absent from the environment and every other key keeps its value |
| Commands.CommandBuilder.BuildChangeFileMode | Plugins/CommandBuilder.swift:72-80 | arguments are exactly `[mode, target]`; the output is the target's parent folder |
| Commands.ChangeFileModeOutputHoldsTarget | Plugins/CommandBuilder.swift:72-80 | for a target `dir/name`, the declared output is `dir`, and the chmod target is the entry `name` inside it |
| Commands.CommandBuilder.BuildClean | Plugins/CommandBuilder.swift:82-94 | `-f -R`, then every target path in input order (2 + n arguments); the display name reports n; the output is the workspace |
| Plugin.Split | Plugins/swift-vcpkg-plugin.swift:7 | PATH folders are non-empty and contain no `:` |
| Plugin.SplitAppend | Plugins/swift-vcpkg-plugin.swift:7 | splitting `a:b` gives the folders of `a` followed by those of `b` |
| Plugin.SplitJoinWith | Plugins/swift-vcpkg-plugin.swift:7 | folders joined with `:` split back into the same folders |
| Plugin.FirstWithVcpkg | Plugins/swift-vcpkg-plugin.swift:9-11 | finds the first folder holding `vcpkg`: that folder has it and no earlier one does; None only when none has it |
| Plugin.GetVcpkgTool | Plugins/swift-vcpkg-plugin.swift:6-16 | nil when PATH is unset; otherwise the first PATH folder (the folder, not the executable) whose `/vcpkg` exists; nil exactly when no folder has one |
| Plugin.GuessVcpkgRoot | Plugins/swift-vcpkg-plugin.swift:19-33 | precedence: VCPKG_ROOT as a directory; else the base URL of the PATH hit (None when that unwrap traps); else `<cwd>/vcpkg` |
| Plugin.GuessIgnoresPathWhenRootSet | Plugins/swift-vcpkg-plugin.swift:20-23 | when VCPKG_ROOT is set, PATH, the cwd and file existence do not affect the guess |
| Plugin.VcpkgVersionCheck | Plugins/swift-vcpkg-plugin.swift:36-45 | runs the tool with exactly `--version` and the ambient environment, named "Run: vcpkg version"; the declared output is `/tmp` |
| Plugin.VcpkgInstall | Plugins/swift-vcpkg-plugin.swift:48-65 | the guess is used only when no install root is given; arguments are `install --x-manifest-root m --x-install-root r` as absolute URL strings, plus `--triplet t` exactly when a triplet is given; named "Run: vcpkg install", with the host environment; the output is `<root>/vcpkg/info` |
| Plugin.CreateBuildCommands | Plugins/swift-vcpkg-plugin.swift:70-78 | exactly two commands, the version check first and then the install; the manifest root is the package directory and the install root is `<package>/vcpkg/info`; both run with the host environment under their display names; fails only when the tool is missing |
| Plugin.CreateXcodeBuildCommands | Plugins/swift-vcpkg-plugin.swift:86-93 | the same two commands in the same order; the project directory is both the manifest root and the install root; both run with the host environment under their display names |
| Paths.AbsoluteString | Plugins/swift-vcpkg-plugin.swift:52-53 | a file URL's absolute string is `file://`, then its path, then a `/` exactly when it is a directory URL whose path does not already end in `/` |
| Triplet.GetProcessArch | Tests/BuildMacroTest.swift:5-11 | `arm64` exactly on arm64; `x64` on every other architecture |
| Triplet.GetSystemName | Tests/BuildMacroTest.swift:13-21 | `osx` on macOS and `ios` on iOS; every other OS fails with "Unsupported target system" |
| Triplet.MakeTriplet | Tests/BuildMacroTest.swift:23-25 | succeeds exactly when the system name does; the error propagates unchanged; the result is one of the four `arch-system` triplets |
| Triplet.TripletRoundTrip | Tests/BuildMacroTest.swift:23-25 | splitting the triplet at `-` gives back the arch name and the system name |
| Triplet.TripletInjective | Tests/BuildMacroTest.swift:23-25 | equal triplets come from the same arch name and the same OS |
| Triplet.HostTriplet | Tests/BuildMacroTest.swift:27-33 | on macOS the triplet is `arm64-osx` on arm64 and `x64-osx` otherwise |
| Helper.CreateFolders | Tests/VcpkgHelper.swift:46-56 | result and new state are those of `CreateFoldersStep`: the destination when it is a directory URL, otherwise its parent; created only when absent |
| Helper.CreateFile | Tests/VcpkgHelper.swift:58-68 | result and new state are those of `CreateFileStep`: any existing entry is removed, then an empty file is created; EntryNotFound when creation fails |
| Helper.Overwrite | Tests/VcpkgHelper.swift:70-76 | result and new state are those of `OverwriteStep`: dest is removed when present, then src is copied there |
| Helper.DownloadFile | Tests/VcpkgHelper.swift:79-95 | result and new state are those of `DownloadFileStep`: folder, fetch, DownloadFailed unless 200, then overwrite from the temporary file |
| Helper.DownloadFileWithCurl | Tests/VcpkgHelper.swift:97-115 | result and new state are those of `DownloadFileWithCurlStep`: folder, `download.log`, run; true exactly on exit status 0 |
| Helper.ExtractWithUnzip | Tests/VcpkgHelper.swift:118-135 | result and new state are those of `ExtractWithUnzipStep`: folder, `extract.log`, run; true exactly on exit status 0 |
| Helper.VcpkgHelper.constructor | Tests/VcpkgHelper.swift:141-145 | the helper keeps the workspace it is given |
| Helper.VcpkgHelper.InstallUpstream | Tests/VcpkgHelper.swift:147-161 | result and new state are those of `InstallUpstreamStep` for the given registry tag (default `2025.04.09`): download the archive, unzip it into the workspace, ExtractFailed on a non-zero unzip |
| Helper.VcpkgHelper.InstallUpstreamWithCurl | Tests/VcpkgHelper.swift:163-179 | result and new state are those of `InstallUpstreamWithCurlStep` for the given registry tag (default `2025.04.09`): DownloadFailed on a non-zero curl, ExtractFailed on a non-zero unzip |
| Helper.VcpkgHelper.InstallTool | Tests/VcpkgHelper.swift:181-188 | result and new state are those of `InstallToolStep` for the given tool tag (default `2025-04-16`): the binary is downloaded to `<root>/vcpkg` |
| Helper.VcpkgHelper.InstallToolWithCurl | Tests/VcpkgHelper.swift:190-203 | result and new state are those of `InstallToolWithCurlStep` for the given tool tag (default `2025-04-16`): DownloadFailed on a non-zero curl; otherwise mode 0o755 |
| Helper.VcpkgHelper.Install | Tests/VcpkgHelper.swift:205-217 | result and new state are those of `InstallStep` for the given tags (defaults `2025.04.09` and `2025-04-16`): upstream, root check, tool, tool check, 0o755; returns the root |
| FileSystem.CreatingDirectoryResult | Tests/VcpkgHelper.swift:52-54 | creating a directory with its intermediate directories leaves it a directory, keeps every existing entry, adds nothing longer than it, and fails only with CannotCreateDirectory |
| FileSystem.CreatingDirectoryInParent | Tests/VcpkgHelper.swift:52-54 | a directory that exists, or is absent inside an existing directory, is created successfully with nothing but itself added |
| HelperProperties.CreateFoldersResult | Tests/VcpkgHelper.swift:46-56 | returns the destination (or its parent), which then exists; a present folder means no change; only adds entries; a failure leaves the state as it was |
| HelperProperties.CreateFoldersIdempotent | Tests/VcpkgHelper.swift:52-54 | a second call changes nothing and returns the same folder |
| HelperProperties.CreateFoldersKeepsLonger | Tests/VcpkgHelper.swift:46-56 | no path longer than the created folder is touched |
| HelperProperties.CreateFileResult | Tests/VcpkgHelper.swift:58-68 | on success `folder/name` is an empty file with default permissions; on failure the error is EntryNotFound; nothing outside that path changes |
| HelperProperties.OverwriteResult | Tests/VcpkgHelper.swift:70-76 | on success `dest` holds the entry `src` had; the only failure is CannotCopy; entries outside `dest` and its subtree are untouched |
| HelperProperties.DownloadRejectsNon200 | Tests/VcpkgHelper.swift:89-94 | a non-200 reply fails with DownloadFailed once the folder exists, and the destination is not overwritten |
| HelperProperties.DownloadStoresBody | Tests/VcpkgHelper.swift:89-94 | a successful download was answered with 200 and its body now sits at the destination |
| HelperProperties.DownloadWithCurlResult | Tests/VcpkgHelper.swift:97-115 | `download.log` is in the destination's folder; the result is true exactly on exit status 0, and then the destination is a file holding curl's output; no other entry is lost |
| HelperProperties.ExtractWithUnzipResult | Tests/VcpkgHelper.swift:118-135 | `extract.log` is in the destination folder; the result is true exactly on exit status 0; no other entry is lost |
| HelperProperties.CreateFoldersSucceeds | Tests/VcpkgHelper.swift:46-56 | when the folder exists or its parent is a directory, createFolders returns it and adds at most that folder |
| HelperProperties.CreateFileSucceeds | Tests/VcpkgHelper.swift:58-68 | in an existing directory, createFile returns `folder/name` and the directory stays |
| HelperProperties.SessionDownloadSucceeds | Tests/VcpkgHelper.swift:79-95 | with the folder ready, a 200 reply and a temporary file outside the folder, the URLSession download succeeds |
| HelperProperties.CurlDownloadSucceeds | Tests/VcpkgHelper.swift:97-115 | with the folder ready and curl exiting 0, the curl download returns true and the destination is a file |
| HelperProperties.ExtractSucceeds | Tests/VcpkgHelper.swift:118-135 | with the destination ready and unzip exiting 0, extraction returns true and every archive entry is at its path under the destination |
| HelperProperties.WorkspaceLayout | Tests/VcpkgHelper.swift:150-154 | the archive `vcpkg-<tag>.zip` lies directly in the workspace; the folder names are single components; the two logs are distinct, non-nested entries |
| HelperProperties.DefaultReleases | Tests/VcpkgHelper.swift:138-139 | with the default tags the registry folder is `vcpkg-2025.04.09` (archive `vcpkg-2025.04.09.zip`), and the release URLs carry `2025.04.09` and `2025-04-16` |
| HelperProperties.UpstreamSuccess | Tests/VcpkgHelper.swift:147-161 | success means a 200 reply and unzip exit 0; the result is `<workspace>/vcpkg-<tag>` |
| HelperProperties.UpstreamRejectsNon200 | Tests/VcpkgHelper.swift:147-161 | a non-200 reply fails with DownloadFailed (once the folder exists), never ExtractFailed; no `extract.log` is written |
| HelperProperties.UpstreamExtractFailed | Tests/VcpkgHelper.swift:155-159 | the URLSession bootstrap fails with ExtractFailed exactly when the download succeeded and unzip ran but did not exit with 0 |
| HelperProperties.UpstreamWithCurlExtractFailed | Tests/VcpkgHelper.swift:171-177 | the curl bootstrap fails with ExtractFailed exactly when curl exited with 0 and unzip ran but did not exit with 0 |
| HelperProperties.UpstreamWithCurlStopsOnDownloadFailure | Tests/VcpkgHelper.swift:163-173 | a non-zero curl fails the bootstrap (DownloadFailed once curl ran); the state is the download's; extraction never runs and `extract.log` is untouched |
| HelperProperties.UpstreamWithCurlSuccess | Tests/VcpkgHelper.swift:163-179 | success means curl and unzip both exited 0, the result is `<workspace>/vcpkg-<tag>`, and both logs are in the workspace |
| HelperProperties.ToolSuccess | Tests/VcpkgHelper.swift:181-188 | success means a 200 reply; the result is `<root>/vcpkg`, which holds the downloaded body |
| HelperProperties.ToolWithCurlSuccess | Tests/VcpkgHelper.swift:190-203 | success means curl exited 0 and `<root>/vcpkg` holds the binary with mode 0o755, with `download.log` in the root |
| HelperProperties.ToolLayout | Tests/VcpkgHelper.swift:185 | `<root>/vcpkg` lies directly in the root and is neither `<root>/download.log` nor inside it |
| HelperProperties.ToolWithCurlFailure | Tests/VcpkgHelper.swift:195-197 | a non-zero curl fails the step (with DownloadFailed once curl ran after the folder and log were created) and leaves the binary's entry untouched, so mode 0o755 is set only after a successful download |
| HelperProperties.InstallStopsAtFirstFailure | Tests/VcpkgHelper.swift:205-214 | a failed upstream step is the final outcome; a missing root gives EntryNotFound; a failed tool step is the final outcome |
| HelperProperties.InstallSuccess | Tests/VcpkgHelper.swift:205-217 | success means both downloads were answered with 200 and unzip exited 0; the result is `<workspace>/vcpkg-<tag>`, whose `vcpkg` entry is the tool binary with mode 0o755 |
| HelperProperties.UpstreamSucceeds | Tests/VcpkgHelper.swift:147-161 | with the workspace ready, a 200 reply, the temporary file outside the workspace and unzip exiting 0, the bootstrap returns `<workspace>/vcpkg-<tag>`, which holds the archive's `vcpkg-<tag>` entry |
| HelperProperties.UpstreamWithCurlSucceeds | Tests/VcpkgHelper.swift:163-179 | with the workspace ready and curl and unzip exiting 0, the bootstrap returns `<workspace>/vcpkg-<tag>`, which holds the archive's `vcpkg-<tag>` entry |
| HelperProperties.ToolSucceeds | Tests/VcpkgHelper.swift:181-188 | with the root ready (also when only its parent exists), a 200 reply and the temporary file outside the root, the result is `<root>/vcpkg`, which is a file |
| HelperProperties.ToolWithCurlSucceeds | Tests/VcpkgHelper.swift:190-203 | with the root ready (also when only its parent exists) and curl exiting 0, the result is `<root>/vcpkg`, which exists |
| HelperProperties.InstallSucceeds | Tests/VcpkgHelper.swift:205-217 | with the workspace ready, both replies 200, the temporary file outside the workspace, unzip exiting 0 and the archive holding the `vcpkg-<tag>` directory, the bootstrap returns `<workspace>/vcpkg-<tag>` |

## Left out

- **Network and processes.** A URLSession download, and a curl or unzip `Process` with its
  `waitUntilExit` and log-file piping, appear only through their outcome: a `Session` reply or
  a `Run` exit status. Curl's bytes and the archive's entries are parameters.
- **Partial runs.** What a failed curl or unzip run leaves behind is not modelled.
- **Log contents.** The contents of `download.log` and `extract.log` are not modelled; the
  files are created empty.
- **`print` calls.** The warning and progress messages are left out.
- **PackagePlugin host.** `Command.prebuildCommand`, `PluginContext` and `XcodePluginContext`
  become the `Command` datatype. `context.tool(named:)` becomes an `Option` parameter.
- **Ambient process state.** `ProcessInfo.processInfo.environment`, the current directory and
  `FileManager.default.fileExists` are fields of `Host` or parameters.
- **Compile-time conditionals.** `#if arch(...)`, `#if os(...)` and `canImport(XcodeProjectPlugin)`
  are explicit inputs: the `Arch` and `Os` values, and a separate Xcode entry point.
- **Foundation URLs.**
  - Percent-encoding, relative-path resolution and standardisation are not modelled.
  - A file URL is its path plus a directory flag. `absoluteString` is `file://` + path, with a
    trailing `/` for directories.
  - `baseURL` is an oracle of `Host`.
  - Remote URLs are plain strings. `URL(string:)!` is assumed to succeed, which holds when
    the tag contains only URL-safe characters; a tag that makes `URL(string:)` return nil (a
    space, on older Foundation) traps in the source and is not modelled.
- **Optional tags.** The `VcpkgHelper` methods take their tags as plain strings with the
  source's defaults (`2025.04.09` for the registry, `2025-04-16` for the tool); an explicit
  `nil`, which traps at `registry!` or `tool!`, is not modelled.
- **URLSession temporary files.** A `Session` has one temporary path for every download, so in
  `install` the tool download overwrites the registry archive's temporary file. URLSession
  gives each download a fresh file; no property here depends on the difference.
- **`Accept` header.** The header added by the URLSession `downloadFile` does not influence
  the modelled outcome.
- **Executable URLs.** The `unzip` and `curl` parameters of `VcpkgHelper` are dropped from its
  methods, because the `Run` oracles stand for their runs.
- **FileManager errors.**
  - `copyItem` copies a single entry, not a directory subtree.
  - `removeItem` fails only when the entry is absent.
  - Permission and I/O failures of FileManager beyond these are not modelled.
- **Triplet.MakeTriplet:** its contract states the four possible triplets and leaves the exact
  `arch-system` composition to `TripletRoundTrip`, which reads both halves back.
- **Other files.** `Package.swift` is a declarative manifest. `Tests/EnvironmentTest.swift`
  holds network integration tests. Neither is part of this model.
