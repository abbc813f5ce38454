/**
  `GetSentryCliPath`: which `sentry-cli` binary under the plugin's
  `Source/ThirdParty/CLI` directory serves a target platform.
 */
module CliPath {
  import opened Wrappers
  import opened Paths
  import opened Host
  import opened Targets

  const WindowsBinary := "sentry-cli-Windows-x86_64.exe"
  const MacUniversalBinary := "sentry-cli-Darwin-universal"
  const MacIntelBinary := "sentry-cli-Darwin-x86_64"
  const LinuxBinary := "sentry-cli-Linux-x86_64"

  /** The CLI directory, relative to the project root. */
  const CliDir := ["Plugins", "Sentry", "Source", "ThirdParty", "CLI"]

  /** The platforms the table has an entry for. */
  predicate IsSupported(p: Platform) {
    p == Win64 || p == Mac || p == Linux || p == LinuxArm64
  }

  /**
    `GetSentryCliPath`: `null` (None) for an unsupported platform, otherwise a
    path in the CLI directory. Mac takes the universal binary when that file
    exists.
   */
  function GetSentryCliPath(w: World, root: string, p: Platform): (r: Option<string>)
    ensures r.Some? <==> IsSupported(p)
  {
    var pluginDir := Combine(root, ["Plugins", "Sentry"]);
    if p == Win64 then
      Some(Combine(pluginDir, ["Source", "ThirdParty", "CLI", WindowsBinary]))
    else if p == Mac then
      var universalPath := Combine(pluginDir, ["Source", "ThirdParty", "CLI", MacUniversalBinary]);
      if w.FileExists(universalPath) then Some(universalPath)
      else Some(Combine(pluginDir, ["Source", "ThirdParty", "CLI", MacIntelBinary]))
    else if p == Linux || p == LinuxArm64 then
      Some(Combine(pluginDir, ["Source", "ThirdParty", "CLI", LinuxBinary]))
    else
      None
  }

  /** The full path of a binary in the CLI directory. */
  function CliBinaryPath(root: string, binary: string): string {
    Combine(root, CliDir + [binary])
  }

  /** A binary named relative to the plugin directory is that binary of the CLI directory. */
  lemma {:induction false} PluginRelativeBinary(root: string, binary: string)
    ensures Combine(Combine(root, ["Plugins", "Sentry"]), ["Source", "ThirdParty", "CLI", binary]) == CliBinaryPath(root, binary)
  {
    CombineTwice(root, ["Plugins", "Sentry"], ["Source", "ThirdParty", "CLI", binary]);
    assert ["Plugins", "Sentry"] + ["Source", "ThirdParty", "CLI", binary] == CliDir + [binary];
  }

  /** Every supported platform gets a binary of the CLI directory; which one is the table's row. */
  lemma CliPathTable(w: World, root: string, p: Platform)
    ensures p == Win64 ==> GetSentryCliPath(w, root, p) == Some(CliBinaryPath(root, WindowsBinary))
    ensures p == Linux || p == LinuxArm64 ==> GetSentryCliPath(w, root, p) == Some(CliBinaryPath(root, LinuxBinary))
    ensures p == Mac ==> GetSentryCliPath(w, root, p) in {Some(CliBinaryPath(root, MacUniversalBinary)), Some(CliBinaryPath(root, MacIntelBinary))}
  {
    PluginRelativeBinary(root, WindowsBinary);
    PluginRelativeBinary(root, LinuxBinary);
    PluginRelativeBinary(root, MacUniversalBinary);
    PluginRelativeBinary(root, MacIntelBinary);
  }

  /**
    Mac prefers the universal binary when it exists; otherwise it falls back
    to the x86_64 binary without checking that it exists.
   */
  lemma MacPrefersUniversal(w: World, root: string)
    ensures CliBinaryPath(root, MacUniversalBinary) in w.files ==>
      GetSentryCliPath(w, root, Mac) == Some(CliBinaryPath(root, MacUniversalBinary))
    ensures CliBinaryPath(root, MacUniversalBinary) !in w.files ==>
      GetSentryCliPath(w, root, Mac) == Some(CliBinaryPath(root, MacIntelBinary))
  {
    PluginRelativeBinary(root, MacUniversalBinary);
    PluginRelativeBinary(root, MacIntelBinary);
  }

  /** Only the Mac entry looks at the file system, and only at the universal binary. */
  lemma CliPathObservesOnlyUniversal(w1: World, w2: World, root: string, p: Platform)
    requires (CliBinaryPath(root, MacUniversalBinary) in w1.files) == (CliBinaryPath(root, MacUniversalBinary) in w2.files)
    ensures GetSentryCliPath(w1, root, p) == GetSentryCliPath(w2, root, p)
  {
    MacPrefersUniversal(w1, root);
    MacPrefersUniversal(w2, root);
  }
}
