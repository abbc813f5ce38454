# Sentry symbol-upload build support, modelled in Dafny

The SentryTower game module's build rules call
`SentryBuildSupport.AddSentryPostBuildSteps` for every build target. When
four gates pass, the call appends one post-build command to the target's
list: `sentry-cli debug-files upload`, which uploads debug symbols to Sentry.
The gates are:

- the target is not an editor build;
- the Sentry plugin directory exists;
- symbol upload is enabled, either by the environment variable
  `SENTRY_UPLOAD_SYMBOLS_AUTOMATICALLY` or, when that is unset or empty, by an
  `UploadSymbolsAutomatically=True` line in `Config/DefaultEngine.ini`;
- credentials (project, org, auth token) are found, either in
  `sentry.properties` or, only when that file does not exist, in
  `SENTRY_PROJECT`, `SENTRY_ORG` and `SENTRY_AUTH_TOKEN`.

The model is pure and functional:

- **The machine is a value.** A `Host.World` holds the environment
  variables, the set of existing directories and the existing files with
  their lines. Every environment, directory and file lookup reads from it.
- **`null` is `None`.** A missing string or configuration is `Option.None`.
- **The root is a parameter.** The project root (`PluginDirectory` in the
  source) is passed in as `root`.
- **Targets are minimal.** A target is its `TargetType` and its platform.
  A platform is identified by its name, which is also what its `ToString()`
  gives.
- **Paths.** `Path.Combine` joins segments with `/`.
- **Module layout.** The modules follow the source's structure:
  - `Config`: `SentryConfig`, the two credential sources and their choice.
  - `UploadGate`: the plugin and upload-enabled gates.
  - `CliPath`: the CLI binary table.
  - `Command`: the command builder.
  - `BuildSupport`: the entry point.

Two behaviours of the code that a reader might not expect:

- **An existing properties file is the only credential source.** If the
  file exists but lacks a field, or a field is empty, the result is `null`
  and the environment variables are not consulted. There is no field-wise
  merging and no fallback. See `Config.PropertiesFileShadowsEnvironment`
  and `Config.IncompleteFileDoesNotFallBack`.
- **An unsupported platform still gets a command.** `GetSentryCliPath`
  returns `null`, `AppendFormat` renders that as nothing, and the command is
  still appended with `""` as its program. See
  `BuildSupport.UnsupportedPlatformStillAppends`.

## Model

Some members carry no contract of their own and are described by the rows
of the members that state their behaviour:

- `UploadGate.IsSentryPluginAvailable` is described by
  `UploadGate.PluginGateReadsOnlyPluginDirectory` and
  `BuildSupport.MissingPluginNeverAppends`.
- `Config.SentryConfig.IsValid` is described by
  `Config.ValidMeansEveryFieldSet`.
- `Config.ApplyLine`, one iteration of the properties loop, is described
  by `Config.ApplyLineSets` and `Config.ApplyLineKeeps`.
- `Config.ParseLines`, the whole loop, is described by
  `Config.ParseLinesStep`, `Config.NoMatchKeeps` and
  `Config.LastMatchWins`.
- `Command.Format` is described by `Command.FormatOnePlaceholder`.

| member | source | states |
|---|---|---|
| BuildSupport.AddSentryPostBuildSteps | Source/SentryTower/SentryBuildSupport.cs:19-53 | The step list only grows, keeping every existing step. It grows by exactly one command iff all four hold: the target is not Editor, the plugin directory exists, upload is enabled and a configuration was found. The command added is the one built from that configuration. |
| BuildSupport.EditorTargetNeverAppends | Source/SentryTower/SentryBuildSupport.cs:21-25 | An Editor target's step list comes back unchanged, whatever the environment and files. |
| BuildSupport.MissingPluginNeverAppends | Source/SentryTower/SentryBuildSupport.cs:27-31 | Without the plugin directory the step list comes back unchanged, whatever the target, INI file and credentials. |
| BuildSupport.AppendedCommandArguments | Source/SentryTower/SentryBuildSupport.cs:48-50 | When the gates pass and no value contains a double quote, the appended command's quoted arguments are exactly, in order: the CLI path, org, project, token, binaries directory and plugin binaries directory. |
| BuildSupport.UnsupportedPlatformStillAppends | Source/SentryTower/SentryBuildSupport.cs:169-191 | For a platform with no CLI binary, a passing gate still appends the upload command, with an empty CLI path in quotes. |
| BuildSupport.Win64BuildWithEnvironmentCredentials | Source/SentryTower/SentryBuildSupport.cs:19-53 | In this scenario exactly one command is appended, using the Windows CLI binary and the environment's credentials verbatim. The scenario: a Win64 game target, the plugin present, the override set to "true", no properties file, and all three credential variables set. |
| Strings.Trim | Source/SentryTower/SentryBuildSupport.cs:109 | The trimmed value is a contiguous slice of the input with only white space outside it, and it neither starts nor ends with white space. |
| Strings.TrimBothEnds | Source/SentryTower/SentryBuildSupport.cs:109 | Trimming the start and then the end keeps exactly the slice after the leading white space, minus the trailing white space. |
| Strings.ToLower | Source/SentryTower/SentryBuildSupport.cs:67 | Lower-casing keeps the length and maps each character to its lower-case form. |
| Strings.Contains | Source/SentryTower/SentryBuildSupport.cs:77 | A substring test is true iff the needle occurs in the line at some position. |
| UploadGate.PluginGateReadsOnlyPluginDirectory | Source/SentryTower/SentryBuildSupport.cs:55-59 | `IsSentryPluginAvailable` is decided by whether `<root>/Plugins/Sentry` is an existing directory and by nothing else. |
| UploadGate.AnyLineContains | Source/SentryTower/SentryBuildSupport.cs:74-81 | The INI scan is true iff some line contains the flag at some position. |
| UploadGate.IsSymbolUploadEnabled | Source/SentryTower/SentryBuildSupport.cs:61-85 | A set, non-empty override decides alone: enabled iff it lower-cases to "true". Otherwise upload is enabled iff the INI file exists and some line contains `UploadSymbolsAutomatically=True`. |
| UploadGate.OverrideEnablesExactlyTrue | Source/SentryTower/SentryBuildSupport.cs:63-68 | With an override set, upload is enabled iff the value is "true" in any mix of letter case, and nothing else. |
| UploadGate.OverrideIgnoresIni | Source/SentryTower/SentryBuildSupport.cs:63-68 | Two machines with the same non-empty override agree on the verdict, whatever their INI files say. |
| UploadGate.NonTrueOverrideDisables | Source/SentryTower/SentryBuildSupport.cs:63-68 | The overrides "false", "1", "yes" and "TRUE " disable upload even when the INI file carries the flag. |
| UploadGate.MissingIniDisables | Source/SentryTower/SentryBuildSupport.cs:70-84 | With no override and no INI file, upload is disabled. |
| Config.ValidMeansEveryFieldSet | Source/SentryTower/SentryBuildSupport.cs:205 | `IsValid` holds iff every one of the three fields is set to a non-empty string; a freshly constructed configuration is not valid. |
| Config.ParsePropertiesFile | Source/SentryTower/SentryBuildSupport.cs:100-122 | A configuration results iff each of the three keys starts some line whose last such line has a non-empty trimmed value. That configuration is valid, and each field holds the trimmed rest of the last line assigning it. |
| Config.ApplyLineSets | Source/SentryTower/SentryBuildSupport.cs:105-119 | A line starting with a field's key sets that field to the line's trimmed rest after the key. |
| Config.ApplyLineKeeps | Source/SentryTower/SentryBuildSupport.cs:105-119 | A line not starting with a field's key leaves that field unchanged. |
| Config.ParseLinesStep | Source/SentryTower/SentryBuildSupport.cs:103-119 | The scan visits the lines top to bottom: scanning one more line applies that line to the result of scanning the ones before it. |
| Config.KeysExclusive | Source/SentryTower/SentryBuildSupport.cs:107-118 | No line starts with two different keys, so the else-if order never matters. |
| Config.NoMatchKeeps | Source/SentryTower/SentryBuildSupport.cs:105-119 | A field that no line assigns keeps its initial value through the scan. |
| Config.LastMatchWins | Source/SentryTower/SentryBuildSupport.cs:105-119 | After the scan, a field holds the value of the last line assigning it. |
| Config.LastMatchExists | Source/SentryTower/SentryBuildSupport.cs:105-119 | If any line assigns a field, some line is the last to assign it. |
| Config.ScanField | Source/SentryTower/SentryBuildSupport.cs:102-121 | After the scan, a field is non-empty iff its last assignment has a non-empty value, and it then holds that value. |
| Config.ScanAllFields | Source/SentryTower/SentryBuildSupport.cs:102-121 | The scanned configuration is valid iff all three fields are assigned non-empty values by their last lines. |
| Config.LastAssignmentWinsExample | Source/SentryTower/SentryBuildSupport.cs:105-121 | Here the second org line replaces the first: lines assigning project A, org B, org C and token D give (A, C, D). |
| Config.ParseEnvironmentVariables | Source/SentryTower/SentryBuildSupport.cs:124-134 | A configuration results iff all three variables are set and non-empty. Its fields are then the variables' values, untrimmed. |
| Config.GetSentryConfiguration | Source/SentryTower/SentryBuildSupport.cs:87-98 | Any configuration returned is valid. Without a properties file, a configuration is found iff the three environment variables are set and non-empty, and it then holds their values verbatim. |
| Config.PropertiesFileShadowsEnvironment | Source/SentryTower/SentryBuildSupport.cs:89-94 | When the properties file exists, the result is that file's parse, even when the parse is null. Two machines with the same files agree whatever their environments. |
| Config.EnvironmentUsedOnlyWithoutFile | Source/SentryTower/SentryBuildSupport.cs:96-97 | Without a properties file the result is the environment parse: found iff all three variables are set and non-empty, and then their values verbatim. |
| Config.MissingTokenDoesNotFallBack | Source/SentryTower/SentryBuildSupport.cs:89-94 | An existing properties file with no token line yields no configuration, whatever the environment holds. |
| Config.IncompleteFileDoesNotFallBack | Source/SentryTower/SentryBuildSupport.cs:87-122 | A properties file with only project and org yields no configuration, even with all three environment variables set. |
| CliPath.GetSentryCliPath | Source/SentryTower/SentryBuildSupport.cs:169-191 | A CLI path exists iff the platform is Win64, Mac, Linux or LinuxArm64. |
| CliPath.CliPathTable | Source/SentryTower/SentryBuildSupport.cs:171-187 | Win64 gets the Windows binary of `Plugins/Sentry/Source/ThirdParty/CLI`. Linux and LinuxArm64 share the Linux x86_64 binary. Mac gets one of the two Darwin binaries. |
| CliPath.MacPrefersUniversal | Source/SentryTower/SentryBuildSupport.cs:177-184 | Mac gets the universal binary when that file exists. Otherwise it gets the x86_64 binary, whose existence is not checked. |
| CliPath.CliPathObservesOnlyUniversal | Source/SentryTower/SentryBuildSupport.cs:169-191 | The table looks at the file system only for the Mac universal binary: machines agreeing on that one file get the same path. |
| Command.CreatePostBuildCommand | Source/SentryTower/SentryBuildSupport.cs:136-167 | The built command is one fixed template for every platform: the quoted CLI path (empty when null), `debug-files upload`, `--org`, `--project` and `--auth-token` with their quoted values, `--include-sources`, and the quoted binaries and plugin binaries directories. |
| Command.FormatOnePlaceholder | Source/SentryTower/SentryBuildSupport.cs:147-163 | A format string with one `{0}` and no other braces yields the text around the placeholder with the argument in its place. |
| Command.UploadCommandArguments | Source/SentryTower/SentryBuildSupport.cs:147-163 | When no value contains a double quote, splitting the command at its quotes gives back the six values in order. |
| Command.UnescapedQuoteShiftsArguments | Source/SentryTower/SentryBuildSupport.cs:147-150 | Values are quoted without escaping. Split at its quotes, a command whose org is `x"y` (no other quotes anywhere) reads back as seven arguments. The org slot holds `x`; the project and token slots hold the literal words ` --project ` and ` --auth-token `. |

## Left out

- `PluginDirectory` (line 193) derives the project root from the build
  assembly's location four directories up. The model takes the root as the
  parameter `root`.
- Real I/O is a lookup in the `World` value. Unreadable files, I/O
  exceptions, races between `File.Exists` and `File.ReadAllLines`, and
  encodings are not modelled.
- The `Log.TraceInformation` and `Log.TraceWarning` calls have no effect
  on the result and are left out.
- `Path.Combine` is modelled as joining with `/`. Platform separators,
  doubled separators and rooted segments are not modelled, so every path
  equality is about this abstract join.
- Strings.Trim: removes ASCII white space only, while .NET `Trim` also
  removes the other Unicode white-space characters.
- Strings.ToLower: lower-cases ASCII letters only, while .NET `ToLower` is
  culture-sensitive and also maps non-ASCII letters.
- Strings.StartsWith: modelled as an ordinal, character-by-character
  prefix test. .NET `StartsWith(string)` compares under the current culture,
  which can also match a prefix that differs only in characters the culture
  ignores; that case is not modelled.
- Command.Format: modelled for the `{0}` placeholder, which is all the
  source's format strings use. Escaped braces, further placeholders,
  alignment and format specifiers of composite formatting are not modelled.
- `SentryTowerGameInstance.cpp` is runtime game code, not build support, and
  is not part of this model.
- `SentryTower.Build.cs`, `SentryTower.Target.cs` and
  `SentryTowerEditor.Target.cs` only declare targets and call the entry point.
