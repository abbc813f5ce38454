/**
  `AddSentryPostBuildSteps`: the entry point the target rules call. It
  appends one `sentry-cli debug-files upload` command to the target's
  post-build steps when every gate passes, and otherwise leaves the list
  as it was.
 */
module BuildSupport {
  import opened Strings
  import opened Host
  import opened Targets
  import opened Config
  import opened UploadGate
  import opened CliPath
  import opened Command

  /** All four gates in the order the source checks them. */
  predicate UploadWanted(w: World, root: string, target: Target) {
    && target.targetType != Editor
    && IsSentryPluginAvailable(w, root)
    && IsSymbolUploadEnabled(w, root)
    && GetSentryConfiguration(w, root).Some?
  }

  /**
    `AddSentryPostBuildSteps`. The list only grows, by at most one command,
    and it grows exactly when the target is not an editor, the plugin is
    present, upload is enabled and credentials were found; the command is
    then the one built from those credentials.
   */
  function AddSentryPostBuildSteps(w: World, root: string, target: Target, steps: seq<string>): (r: seq<string>)
    ensures |steps| <= |r| <= |steps| + 1 && r[..|steps|] == steps
    ensures |r| == |steps| + 1 <==>
      && target.targetType != Editor
      && IsSentryPluginAvailable(w, root)
      && IsSymbolUploadEnabled(w, root)
      && GetSentryConfiguration(w, root).Some?
    ensures |r| == |steps| + 1 ==>
      r[|steps|] == CreatePostBuildCommand(w, root, target, GetSentryConfiguration(w, root).value)
  {
    if target.targetType == Editor then steps
    else if !IsSentryPluginAvailable(w, root) then steps
    else if !IsSymbolUploadEnabled(w, root) then steps
    else
      var config := GetSentryConfiguration(w, root);
      if config.None? then steps
      else steps + [CreatePostBuildCommand(w, root, target, config.value)]
  }

  /** Editor targets never get the upload step, whatever the machine looks like. */
  lemma EditorTargetNeverAppends(w: World, root: string, target: Target, steps: seq<string>)
    requires target.targetType == Editor
    ensures AddSentryPostBuildSteps(w, root, target, steps) == steps
  {
  }

  /** Without the plugin directory nothing is appended, whatever the target, the INI file and the credentials. */
  lemma MissingPluginNeverAppends(w: World, root: string, target: Target, steps: seq<string>)
    requires PluginPath(root) !in w.dirs
    ensures AddSentryPostBuildSteps(w, root, target, steps) == steps
  {
  }

  /**
    Once the gates pass, the appended command is the upload template filled
    with the CLI path and the credentials, so its quoted arguments are those
    values in order when none of them holds a double quote.
   */
  lemma AppendedCommandArguments(w: World, root: string, target: Target, steps: seq<string>)
    requires UploadWanted(w, root, target)
    requires var c := GetSentryConfiguration(w, root).value;
      && '"' !in Render(GetSentryCliPath(w, root, target.platform))
      && '"' !in c.org.value && '"' !in c.project.value && '"' !in c.authToken.value
    requires '"' !in BinariesDir(root, target.platform) && '"' !in PluginBinariesDir(root, target.platform)
    ensures var r := AddSentryPostBuildSteps(w, root, target, steps);
      var c := GetSentryConfiguration(w, root).value;
      && |r| == |steps| + 1
      && QuotedArguments(r[|steps|]) == [
           Render(GetSentryCliPath(w, root, target.platform)),
           c.org.value, c.project.value, c.authToken.value,
           BinariesDir(root, target.platform), PluginBinariesDir(root, target.platform)]
  {
    var c := GetSentryConfiguration(w, root).value;
    UploadCommandArguments(Render(GetSentryCliPath(w, root, target.platform)),
      c.org.value, c.project.value, c.authToken.value,
      BinariesDir(root, target.platform), PluginBinariesDir(root, target.platform));
  }

  /**
    A platform with no CLI binary in the table is not skipped: the command is
    still appended, with an empty pair of quotes where the CLI path belongs.
   */
  lemma UnsupportedPlatformStillAppends(w: World, root: string, target: Target, steps: seq<string>)
    requires UploadWanted(w, root, target)
    requires !IsSupported(target.platform)
    ensures var r := AddSentryPostBuildSteps(w, root, target, steps);
      var c := GetSentryConfiguration(w, root).value;
      r == steps + [UploadCommand("", c.org.value, c.project.value, c.authToken.value,
                                  BinariesDir(root, target.platform), PluginBinariesDir(root, target.platform))]
  {
  }

  /**
    A Win64 game build with the plugin present, the override set to "true",
    no properties file and all three credential variables set appends the
    Windows CLI command carrying the environment's credentials verbatim.
   */
  lemma Win64BuildWithEnvironmentCredentials(w: World, root: string, target: Target, steps: seq<string>,
                                             org: string, project: string, token: string)
    requires target == Target(Game, Win64)
    requires PluginPath(root) in w.dirs
    requires UploadOverrideVar in w.env && w.env[UploadOverrideVar] == "true"
    requires PropertiesPath(root) !in w.files
    requires OrgVar in w.env && w.env[OrgVar] == org && org != []
    requires ProjectVar in w.env && w.env[ProjectVar] == project && project != []
    requires TokenVar in w.env && w.env[TokenVar] == token && token != []
    ensures AddSentryPostBuildSteps(w, root, target, steps) ==
      steps + [UploadCommand(CliBinaryPath(root, WindowsBinary), org, project, token,
                             BinariesDir(root, Win64), PluginBinariesDir(root, Win64))]
  {
    assert ToLower("true") == "true";
    CliPathTable(w, root, Win64);
  }
}
