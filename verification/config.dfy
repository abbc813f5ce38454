/**
  The credentials triple (`SentryConfig`) and the two places it is read from:
  a `sentry.properties` file of `key=value` lines, or three environment
  variables. The properties file, when it exists, is the only source.
 */
module Config {
  import opened Wrappers
  import opened Strings
  import opened Paths
  import opened Host

  /** The three credentials; a field is None while it has never been set (`null`). */
  datatype SentryConfig = SentryConfig(project: Option<string>, org: Option<string>, authToken: Option<string>)
  {
    /** Every field is set and non-empty. */
    predicate IsValid() {
      !IsNullOrEmpty(project) && !IsNullOrEmpty(org) && !IsNullOrEmpty(authToken)
    }
  }

  /** A freshly constructed `SentryConfig`, all fields `null`. */
  const Unset := SentryConfig(None, None, None)

  /** Names the three fields, so that properties can be stated once for all of them. */
  datatype Field = Project | Org | AuthToken

  function Get(c: SentryConfig, f: Field): Option<string> {
    match f
    case Project => c.project
    case Org => c.org
    case AuthToken => c.authToken
  }

  /** `IsValid`, field by field: every field is set to a non-empty string. A fresh configuration is not valid. */
  lemma ValidMeansEveryFieldSet(c: SentryConfig)
    ensures c.IsValid() <==> forall f: Field :: Get(c, f).Some? && Get(c, f).value != []
    ensures !Unset.IsValid()
  {
    assert !c.IsValid() ==> exists f: Field :: !(Get(c, f).Some? && Get(c, f).value != []) by {
      if !c.IsValid() {
        if IsNullOrEmpty(c.project) {
          assert !(Get(c, Project).Some? && Get(c, Project).value != []);
        } else if IsNullOrEmpty(c.org) {
          assert !(Get(c, Org).Some? && Get(c, Org).value != []);
        } else {
          assert !(Get(c, AuthToken).Some? && Get(c, AuthToken).value != []);
        }
      }
    }
  }

  const ProjectKey := "defaults.project="
  const OrgKey := "defaults.org="
  const TokenKey := "auth.token="

  /** The line prefix that assigns field `f` in a properties file. */
  function Key(f: Field): string {
    match f
    case Project => ProjectKey
    case Org => OrgKey
    case AuthToken => TokenKey
  }

  /**
    The value a line assigning `f` carries: the rest of the line after the
    key, trimmed. Only lines that start with the key are ever asked.
   */
  function ValueOf(line: string, f: Field): string {
    if |Key(f)| <= |line| then Trim(line[|Key(f)|..]) else []
  }

  /** The characters that tell the three keys apart: the first, and the tenth. */
  lemma KeyCharacters(line: string)
    ensures StartsWith(line, ProjectKey) ==> |line| > 9 && line[0] == 'd' && line[9] == 'p'
    ensures StartsWith(line, OrgKey) ==> |line| > 9 && line[0] == 'd' && line[9] == 'o'
    ensures StartsWith(line, TokenKey) ==> |line| > 9 && line[0] == 'a'
  {
    if StartsWith(line, ProjectKey) {
      assert line[..|ProjectKey|][0] == 'd' && line[..|ProjectKey|][9] == 'p';
    }
    if StartsWith(line, OrgKey) {
      assert line[..|OrgKey|][0] == 'd' && line[..|OrgKey|][9] == 'o';
    }
    if StartsWith(line, TokenKey) {
      assert line[..|TokenKey|][0] == 'a';
    }
  }

  /** No line starts with two different keys. */
  lemma KeysExclusive(line: string, f: Field, g: Field)
    requires StartsWith(line, Key(f)) && StartsWith(line, Key(g))
    ensures f == g
  {
    KeyCharacters(line);
  }

  /** One iteration of the scan over the properties file: the first key the line starts with assigns its field. */
  function ApplyLine(c: SentryConfig, line: string): SentryConfig {
    if StartsWith(line, ProjectKey) then c.(project := Some(ValueOf(line, Project)))
    else if StartsWith(line, OrgKey) then c.(org := Some(ValueOf(line, Org)))
    else if StartsWith(line, TokenKey) then c.(authToken := Some(ValueOf(line, AuthToken)))
    else c
  }

  /** A line that starts with the key of `f` sets `f` to the line's value. */
  lemma ApplyLineSets(c: SentryConfig, line: string, f: Field)
    requires StartsWith(line, Key(f))
    ensures Get(ApplyLine(c, line), f) == Some(ValueOf(line, f))
  {
    KeyCharacters(line);
    match f
    case Project =>
    case Org =>
    case AuthToken =>
  }

  /** A line that does not start with the key of `f` leaves `f` as it was. */
  lemma ApplyLineKeeps(c: SentryConfig, line: string, f: Field)
    requires !StartsWith(line, Key(f))
    ensures Get(ApplyLine(c, line), f) == Get(c, f)
  {
    KeyCharacters(line);
    match f
    case Project =>
    case Org =>
    case AuthToken =>
  }

  /** The scan over the properties file, top to bottom, starting from `c`. */
  function ParseLines(c: SentryConfig, lines: seq<string>): SentryConfig
    decreases |lines|
  {
    if lines == [] then c else ParseLines(ApplyLine(c, lines[0]), lines[1..])
  }

  /** The scan visits the lines in order: one more line is applied to the result of the scan so far. */
  lemma {:induction false} ParseLinesStep(c: SentryConfig, lines: seq<string>, line: string)
    ensures ParseLines(c, lines + [line]) == ApplyLine(ParseLines(c, lines), line)
    decreases |lines|
  {
    if lines == [] {
      assert lines + [line] == [line];
      assert [line][1..] == [];
    } else {
      assert (lines + [line])[0] == lines[0];
      assert (lines + [line])[1..] == lines[1..] + [line];
      ParseLinesStep(ApplyLine(c, lines[0]), lines[1..], line);
    }
  }

  /** Line `i` assigns `f` and no later line does. */
  ghost predicate IsLastMatch(lines: seq<string>, f: Field, i: int) {
    && 0 <= i < |lines|
    && StartsWith(lines[i], Key(f))
    && forall j :: i < j < |lines| ==> !StartsWith(lines[j], Key(f))
  }

  /** A field no line assigns keeps its initial value. */
  lemma {:induction false} NoMatchKeeps(c: SentryConfig, lines: seq<string>, f: Field)
    requires forall i :: 0 <= i < |lines| ==> !StartsWith(lines[i], Key(f))
    ensures Get(ParseLines(c, lines), f) == Get(c, f)
    decreases |lines|
  {
    if lines != [] {
      ApplyLineKeeps(c, lines[0], f);
      assert forall i :: 0 <= i < |lines| - 1 ==> lines[1..][i] == lines[i + 1];
      NoMatchKeeps(ApplyLine(c, lines[0]), lines[1..], f);
    }
  }

  /** Last one wins: a field ends up with the value of the last line that assigns it. */
  lemma {:induction false} LastMatchWins(c: SentryConfig, lines: seq<string>, f: Field, i: int)
    requires IsLastMatch(lines, f, i)
    ensures Get(ParseLines(c, lines), f) == Some(ValueOf(lines[i], f))
    decreases |lines|
  {
    var tail := lines[1..];
    assert forall j :: 0 <= j < |tail| ==> tail[j] == lines[j + 1];
    if i == 0 {
      ApplyLineSets(c, lines[0], f);
      NoMatchKeeps(ApplyLine(c, lines[0]), tail, f);
    } else {
      assert IsLastMatch(tail, f, i - 1);
      LastMatchWins(ApplyLine(c, lines[0]), tail, f, i - 1);
    }
  }

  /** If some line assigns `f`, one of them is the last. */
  lemma {:induction false} LastMatchExists(lines: seq<string>, f: Field, i: int)
    requires 0 <= i < |lines| && StartsWith(lines[i], Key(f))
    ensures exists m :: IsLastMatch(lines, f, m)
    decreases |lines| - i
  {
    if forall j :: i < j < |lines| ==> !StartsWith(lines[j], Key(f)) {
      assert IsLastMatch(lines, f, i);
    } else {
      var j :| i < j < |lines| && StartsWith(lines[j], Key(f));
      LastMatchExists(lines, f, j);
    }
  }

  /** Field `f` is assigned by some line, and its last assignment is non-empty. */
  ghost predicate Assigned(lines: seq<string>, f: Field) {
    exists i :: IsLastMatch(lines, f, i) && ValueOf(lines[i], f) != []
  }

  /** The outcome of a scan from `Unset`, field by field. */
  lemma ScanField(lines: seq<string>, f: Field)
    ensures !IsNullOrEmpty(Get(ParseLines(Unset, lines), f)) <==> Assigned(lines, f)
    ensures forall i :: IsLastMatch(lines, f, i) ==> Get(ParseLines(Unset, lines), f) == Some(ValueOf(lines[i], f))
  {
    forall i | IsLastMatch(lines, f, i) {
      LastMatchWins(Unset, lines, f, i);
    }
    if exists i :: 0 <= i < |lines| && StartsWith(lines[i], Key(f)) {
      var i :| 0 <= i < |lines| && StartsWith(lines[i], Key(f));
      LastMatchExists(lines, f, i);
    } else {
      NoMatchKeeps(Unset, lines, f);
    }
  }

  /** `ScanField` for the three fields at once. */
  lemma ScanAllFields(lines: seq<string>)
    ensures ParseLines(Unset, lines).IsValid() <==> Assigned(lines, Project) && Assigned(lines, Org) && Assigned(lines, AuthToken)
    ensures forall f, i :: IsLastMatch(lines, f, i) ==> Get(ParseLines(Unset, lines), f) == Some(ValueOf(lines[i], f))
  {
    forall f {
      ScanField(lines, f);
    }
  }

  /**
    `ParsePropertiesFile`: the scan's result when it is valid, `null` otherwise.
    A result exists exactly when every field is assigned a non-empty value,
    and then each field holds its last assignment.
   */
  function ParsePropertiesFile(lines: seq<string>): (r: Option<SentryConfig>)
    ensures r.Some? ==> r.value.IsValid()
    ensures r.Some? <==> Assigned(lines, Project) && Assigned(lines, Org) && Assigned(lines, AuthToken)
    ensures r.Some? ==> forall f, i :: IsLastMatch(lines, f, i) ==> Get(r.value, f) == Some(ValueOf(lines[i], f))
  {
    var c := ParseLines(Unset, lines);
    ScanAllFields(lines);
    if c.IsValid() then Some(c) else None
  }

  const ProjectVar := "SENTRY_PROJECT"
  const OrgVar := "SENTRY_ORG"
  const TokenVar := "SENTRY_AUTH_TOKEN"

  /** A variable that is set to a non-empty value. */
  predicate EnvSet(w: World, name: string) {
    name in w.env && w.env[name] != []
  }

  /**
    `ParseEnvironmentVariables`: the three variables, taken verbatim, when
    all three are set and non-empty; `null` otherwise.
   */
  function ParseEnvironmentVariables(w: World): (r: Option<SentryConfig>)
    ensures r.Some? <==> EnvSet(w, ProjectVar) && EnvSet(w, OrgVar) && EnvSet(w, TokenVar)
    ensures r.Some? ==> r.value == SentryConfig(Some(w.env[ProjectVar]), Some(w.env[OrgVar]), Some(w.env[TokenVar]))
  {
    var c := SentryConfig(w.GetEnv(ProjectVar), w.GetEnv(OrgVar), w.GetEnv(TokenVar));
    if c.IsValid() then Some(c) else None
  }

  function PropertiesPath(root: string): string {
    Combine(root, ["sentry.properties"])
  }

  /**
    `GetSentryConfiguration`: the properties file if it exists, otherwise the
    environment. Whatever it returns is valid.
   */
  function GetSentryConfiguration(w: World, root: string): (r: Option<SentryConfig>)
    ensures r.Some? ==> r.value.IsValid()
    ensures PropertiesPath(root) !in w.files ==>
      && (r.Some? <==> EnvSet(w, ProjectVar) && EnvSet(w, OrgVar) && EnvSet(w, TokenVar))
      && (r.Some? ==> r.value == SentryConfig(Some(w.env[ProjectVar]), Some(w.env[OrgVar]), Some(w.env[TokenVar])))
  {
    var path := PropertiesPath(root);
    if w.FileExists(path) then ParsePropertiesFile(w.ReadAllLines(path))
    else ParseEnvironmentVariables(w)
  }

  /**
    An existing properties file is the only source: the environment is never
    consulted, even when the file yields nothing.
   */
  lemma PropertiesFileShadowsEnvironment(w1: World, w2: World, root: string)
    requires PropertiesPath(root) in w1.files
    requires w1.files == w2.files
    ensures GetSentryConfiguration(w1, root) == GetSentryConfiguration(w2, root)
    ensures GetSentryConfiguration(w1, root) == ParsePropertiesFile(w1.files[PropertiesPath(root)])
  {
  }

  /**
    Without a properties file the result is the environment's: found exactly
    when the three variables are set, and then holding their values verbatim.
   */
  lemma EnvironmentUsedOnlyWithoutFile(w: World, root: string)
    requires PropertiesPath(root) !in w.files
    ensures GetSentryConfiguration(w, root) == ParseEnvironmentVariables(w)
    ensures GetSentryConfiguration(w, root).Some? <==> EnvSet(w, ProjectVar) && EnvSet(w, OrgVar) && EnvSet(w, TokenVar)
    ensures GetSentryConfiguration(w, root).Some? ==>
      GetSentryConfiguration(w, root).value == SentryConfig(Some(w.env[ProjectVar]), Some(w.env[OrgVar]), Some(w.env[TokenVar]))
  {
  }

  /** Later lines overwrite earlier ones: org `B` is replaced by `C`. */
  lemma LastAssignmentWinsExample(lines: seq<string>)
    requires lines == [ProjectKey + "A", OrgKey + "B", OrgKey + "C", TokenKey + "D"]
    ensures ParsePropertiesFile(lines) == Some(SentryConfig(Some("A"), Some("C"), Some("D")))
  {
    KeyedLine(ProjectKey, "A");
    KeyedLine(OrgKey, "C");
    KeyedLine(TokenKey, "D");
    KeyCharacters(lines[3]);
    assert lines[3][0] == 'a';
    assert IsLastMatch(lines, Project, 0) by {
      KeyCharacters(lines[1]);
      KeyCharacters(lines[2]);
    }
    assert IsLastMatch(lines, Org, 2);
    assert IsLastMatch(lines, AuthToken, 3);
    TrimSingleLetter('A');
    TrimSingleLetter('C');
    TrimSingleLetter('D');
    assert Assigned(lines, Project) && Assigned(lines, Org) && Assigned(lines, AuthToken);
  }

  /** A line made of a key and a value starts with the key and carries the value. */
  lemma KeyedLine(key: string, v: string)
    ensures StartsWith(key + v, key)
    ensures (key + v)[|key|..] == v
  {
    assert (key + v)[..|key|] == key;
  }

  /** A one-letter value is its own trim. */
  lemma TrimSingleLetter(c: char)
    requires !IsWhiteSpace(c)
    ensures Trim([c]) == [c]
  {
  }

  /**
    No field-wise merging: when the properties file exists but no line
    assigns the token, there is no configuration, whatever the environment
    holds.
   */
  lemma MissingTokenDoesNotFallBack(w: World, root: string)
    requires PropertiesPath(root) in w.files
    requires forall i :: 0 <= i < |w.files[PropertiesPath(root)]| ==> !StartsWith(w.files[PropertiesPath(root)][i], TokenKey)
    ensures GetSentryConfiguration(w, root) == None
  {
  }

  /**
    A properties file with project and org but no token yields nothing, even
    when all three environment variables are set.
   */
  lemma IncompleteFileDoesNotFallBack(w: World, root: string, project: string, org: string)
    requires w.files == map[PropertiesPath(root) := [ProjectKey + project, OrgKey + org]]
    requires w.env == map[ProjectVar := "P2", OrgVar := "O2", TokenVar := "T2"]
    ensures GetSentryConfiguration(w, root) == None
  {
    var lines := w.files[PropertiesPath(root)];
    KeyCharacters(lines[0]);
    KeyedLine(ProjectKey, project);
    KeyCharacters(lines[1]);
    KeyedLine(OrgKey, org);
    MissingTokenDoesNotFallBack(w, root);
  }
}
