/**
  The gates in front of symbol upload: the Sentry plugin directory must exist,
  and upload must be enabled, by an environment override or, failing that,
  by a flag line in the project's `DefaultEngine.ini`.
 */
module UploadGate {
  import opened Strings
  import opened Paths
  import opened Host

  const UploadOverrideVar := "SENTRY_UPLOAD_SYMBOLS_AUTOMATICALLY"
  const IniFlag := "UploadSymbolsAutomatically=True"

  function PluginPath(root: string): string {
    Combine(root, ["Plugins", "Sentry"])
  }

  function IniPath(root: string): string {
    Combine(root, ["Config", "DefaultEngine.ini"])
  }

  /** `IsSentryPluginAvailable`: `<root>/Plugins/Sentry` is an existing directory. */
  predicate IsSentryPluginAvailable(w: World, root: string) {
    w.DirectoryExists(PluginPath(root))
  }

  /** The plugin gate reads nothing but the plugin directory: machines that agree on it agree on the gate. */
  lemma PluginGateReadsOnlyPluginDirectory(w1: World, w2: World, root: string)
    requires (PluginPath(root) in w1.dirs) == (PluginPath(root) in w2.dirs)
    ensures IsSentryPluginAvailable(w1, root) == IsSentryPluginAvailable(w2, root)
  {
  }

  /** The scan of the INI file: some line contains `needle`. */
  function AnyLineContains(lines: seq<string>, needle: string): (b: bool)
    ensures b <==> exists i, k :: 0 <= i < |lines| && OccursAt(lines[i], needle, k)
    decreases |lines|
  {
    if lines == [] then false
    else if Contains(lines[0], needle) then true
    else
      var b := AnyLineContains(lines[1..], needle);
      assert forall i :: 1 <= i < |lines| ==> lines[1..][i - 1] == lines[i];
      assert b ==> exists i, k :: 0 <= i < |lines| && OccursAt(lines[i], needle, k) by {
        if b {
          var i, k :| 0 <= i < |lines| - 1 && OccursAt(lines[1..][i], needle, k);
          assert OccursAt(lines[i + 1], needle, k);
        }
      }
      b
  }

  /** The override variable is set to a non-empty value. */
  predicate HasOverride(w: World) {
    !IsNullOrEmpty(w.GetEnv(UploadOverrideVar))
  }

  /** The INI file exists and one of its lines contains the flag, case-sensitively. */
  ghost predicate IniEnables(w: World, root: string) {
    && IniPath(root) in w.files
    && exists i, k :: 0 <= i < |w.files[IniPath(root)]| && OccursAt(w.files[IniPath(root)][i], IniFlag, k)
  }

  /**
    `IsSymbolUploadEnabled`. A non-empty override decides alone, and only a
    value that lower-cases to "true" enables; otherwise the INI flag decides,
    and a missing INI file means disabled.
   */
  function IsSymbolUploadEnabled(w: World, root: string): (b: bool)
    ensures HasOverride(w) ==> (b <==> ToLower(w.env[UploadOverrideVar]) == "true")
    ensures !HasOverride(w) ==> (b <==> IniEnables(w, root))
  {
    var envUpload := w.GetEnv(UploadOverrideVar);
    if !IsNullOrEmpty(envUpload) then
      ToLower(envUpload.value) == "true"
    else
      var configPath := IniPath(root);
      w.FileExists(configPath) && AnyLineContains(w.ReadAllLines(configPath), IniFlag)
  }

  /** A character that lower-cases to the given lower-case letter is that letter in either case. */
  lemma LowerCharIs(c: char, lower: char)
    requires 'a' <= lower <= 'z'
    ensures LowerChar(c) == lower <==> c == lower || c as int == lower as int - 32
  {
  }

  /**
    The override enables exactly the sixteen spellings of "true" in any mix
    of upper and lower case, and nothing else.
   */
  lemma OverrideEnablesExactlyTrue(w: World, root: string)
    requires HasOverride(w)
    ensures IsSymbolUploadEnabled(w, root) <==>
      var v := w.env[UploadOverrideVar];
      |v| == 4 && v[0] in "tT" && v[1] in "rR" && v[2] in "uU" && v[3] in "eE"
  {
    var v := w.env[UploadOverrideVar];
    var l := ToLower(v);
    if |v| == 4 {
      LowerCharIs(v[0], 't');
      LowerCharIs(v[1], 'r');
      LowerCharIs(v[2], 'u');
      LowerCharIs(v[3], 'e');
      assert l == "true" <==> l[0] == 't' && l[1] == 'r' && l[2] == 'u' && l[3] == 'e';
    }
  }

  /** A set override makes the INI file irrelevant: two worlds with the same override agree. */
  lemma OverrideIgnoresIni(w1: World, w2: World, root: string)
    requires HasOverride(w1)
    requires w1.GetEnv(UploadOverrideVar) == w2.GetEnv(UploadOverrideVar)
    ensures IsSymbolUploadEnabled(w1, root) == IsSymbolUploadEnabled(w2, root)
  {
  }

  /** Overrides such as "false" or "1" disable upload even when the INI file carries the flag. */
  lemma NonTrueOverrideDisables(w: World, root: string)
    requires UploadOverrideVar in w.env && w.env[UploadOverrideVar] in ["false", "1", "yes", "TRUE "]
    requires IniEnables(w, root)
    ensures !IsSymbolUploadEnabled(w, root)
  {
    OverrideEnablesExactlyTrue(w, root);
  }

  /** With no override, a missing INI file means disabled. */
  lemma MissingIniDisables(w: World, root: string)
    requires !HasOverride(w)
    requires IniPath(root) !in w.files
    ensures !IsSymbolUploadEnabled(w, root)
  {
  }
}
