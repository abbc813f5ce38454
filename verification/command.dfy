/**
  `CreatePostBuildCommand`: the `sentry-cli debug-files upload` command line
  for a target, built with `StringBuilder.AppendFormat`. Every argument is
  wrapped in double quotes and nothing inside is escaped.
 */
module Command {
  import opened Wrappers
  import opened Strings
  import opened Paths
  import opened Host
  import opened Targets
  import opened Config
  import opened CliPath

  /** How composite formatting renders an argument: `null` becomes the empty string. */
  function Render(arg: Option<string>): string {
    arg.GetOr("")
  }

  /** `fmt` starts with the placeholder "{0}". */
  predicate IsPlaceholderAt(fmt: string) {
    |fmt| >= 3 && fmt[0] == '{' && fmt[1] == '0' && fmt[2] == '}'
  }

  /**
    Composite formatting with one argument: each "{0}" in `fmt` is replaced by
    `arg` and every other character is copied. The formats used here contain
    no other braces.
   */
  function Format(fmt: string, arg: string): string
    decreases |fmt|
  {
    if IsPlaceholderAt(fmt) then arg + Format(fmt[3..], arg)
    else if fmt == [] then []
    else [fmt[0]] + Format(fmt[1..], arg)
  }

  /** A format without braces is copied unchanged. */
  lemma {:induction false} FormatVerbatim(s: string, arg: string)
    requires '{' !in s
    ensures Format(s, arg) == s
    decreases |s|
  {
    if s != [] {
      assert s[0] != '{';
      FormatVerbatim(s[1..], arg);
      assert [s[0]] + s[1..] == s;
    }
  }

  /** A format with a single placeholder between brace-free text puts the argument in its place. */
  lemma {:induction false} FormatOnePlaceholder(fmt: string, before: string, after: string, arg: string)
    requires fmt == before + "{0}" + after
    requires '{' !in before && '{' !in after
    ensures Format(fmt, arg) == before + arg + after
    decreases |before|
  {
    if before == [] {
      assert fmt == "{0}" + after;
      assert IsPlaceholderAt(fmt) && fmt[3..] == after;
      FormatVerbatim(after, arg);
    } else {
      assert fmt[0] == before[0];
      assert !IsPlaceholderAt(fmt);
      assert fmt[1..] == before[1..] + "{0}" + after;
      FormatOnePlaceholder(fmt[1..], before[1..], after, arg);
      assert [before[0]] + before[1..] == before;
    }
  }

  /** A format ending in a quoted placeholder renders its text and then the quoted argument. */
  lemma QuotedArgumentFormat(fmt: string, lead: string, arg: string)
    requires fmt == lead + "\"{0}\""
    requires '{' !in lead
    ensures Format(fmt, arg) == lead + Quote(arg)
  {
    assert fmt == (lead + "\"") + "{0}" + "\"";
    FormatOnePlaceholder(fmt, lead + "\"", "\"", arg);
  }

  /** A format starting with a quoted placeholder renders the quoted argument and then its text. */
  lemma LeadingQuotedFormat(fmt: string, trail: string, arg: string)
    requires fmt == "\"{0}\"" + trail
    requires '{' !in trail
    ensures Format(fmt, arg) == Quote(arg) + trail
  {
    assert fmt == "\"" + "{0}" + ("\"" + trail);
    FormatOnePlaceholder(fmt, "\"", "\"" + trail, arg);
  }

  /** The format strings of the command's pieces. */
  const CliFormat := "\"{0}\" debug-files upload"
  const OrgFormat := " --org \"{0}\""
  const ProjectFormat := " --project \"{0}\""
  const TokenFormat := " --auth-token \"{0}\""
  const PathFormat := " \"{0}\""

  /**
    The upload command's template, six quoted arguments between fixed words:
    `"<cli>" debug-files upload --org "<org>" --project "<project>"
    --auth-token "<token>" --include-sources "<binaries>" "<plugin binaries>"`.
   */
  function UploadCommand(cli: string, org: string, project: string, token: string, binariesDir: string, pluginBinariesDir: string): string {
    Quote(cli) + " debug-files upload --org " + Quote(org) + " --project " + Quote(project)
    + " --auth-token " + Quote(token) + " --include-sources " + Quote(binariesDir) + " " + Quote(pluginBinariesDir)
  }

  /** How each format string splits around its placeholder. */
  lemma FormatStringsSplit()
    ensures CliFormat == "\"{0}\"" + " debug-files upload" && '{' !in " debug-files upload"
    ensures OrgFormat == " --org " + "\"{0}\"" && '{' !in " --org "
    ensures ProjectFormat == " --project " + "\"{0}\"" && '{' !in " --project "
    ensures TokenFormat == " --auth-token " + "\"{0}\"" && '{' !in " --auth-token "
    ensures PathFormat == " " + "\"{0}\"" && '{' !in " "
    ensures " debug-files upload" + " --org " == " debug-files upload --org "
    ensures " --include-sources" + " " == " --include-sources "
  {
  }

  /** The `AppendFormat` calls of the command builder produce the upload template. */
  lemma BuilderMatchesTemplate(cli: string, org: string, project: string, token: string, binariesDir: string, pluginBinariesDir: string)
    ensures Format(CliFormat, cli) + Format(OrgFormat, org) + Format(ProjectFormat, project) + Format(TokenFormat, token)
      + " --include-sources" + Format(PathFormat, binariesDir) + Format(PathFormat, pluginBinariesDir)
      == UploadCommand(cli, org, project, token, binariesDir, pluginBinariesDir)
  {
    FormatStringsSplit();
    LeadingQuotedFormat(CliFormat, " debug-files upload", cli);
    QuotedArgumentFormat(OrgFormat, " --org ", org);
    QuotedArgumentFormat(ProjectFormat, " --project ", project);
    QuotedArgumentFormat(TokenFormat, " --auth-token ", token);
    QuotedArgumentFormat(PathFormat, " ", binariesDir);
    QuotedArgumentFormat(PathFormat, " ", pluginBinariesDir);
    Regroup(Quote(cli), " debug-files upload", " --org ", Quote(org), " --project ", Quote(project),
      " --auth-token ", Quote(token), " --include-sources", " ", Quote(binariesDir), " ", Quote(pluginBinariesDir),
      " debug-files upload --org ", " --include-sources ");
  }

  /** Concatenation regrouped: the builder's pieces pair up, and two pairs of words merge. */
  lemma Regroup(a: string, b: string, c: string, d: string, e: string, f: string, g: string,
                h: string, i: string, j: string, k: string, l: string, m: string, bc: string, ij: string)
    requires bc == b + c && ij == i + j
    ensures (a + b) + (c + d) + (e + f) + (g + h) + i + (j + k) + (l + m)
         == a + bc + d + e + f + g + h + ij + k + l + m
  {
  }

  /** `<root>/Binaries/<platform>`. */
  function BinariesDir(root: string, p: Platform): string {
    Combine(root, ["Binaries", p.name])
  }

  /** `<root>/Plugins/Sentry/Source/ThirdParty/<platform>`. */
  function PluginBinariesDir(root: string, p: Platform): string {
    Combine(root, ["Plugins", "Sentry", "Source", "ThirdParty", p.name])
  }

  /**
    `CreatePostBuildCommand`. The source has a Win64 branch and an other-platform
    branch whose statements are identical, so one path models both. The result
    is the upload template whatever the platform; a missing CLI path (an
    unsupported platform) and missing credentials render as empty quotes.
   */
  function CreatePostBuildCommand(w: World, root: string, target: Target, config: SentryConfig): (cmd: string)
    ensures cmd == UploadCommand(
      Render(GetSentryCliPath(w, root, target.platform)),
      Render(config.org), Render(config.project), Render(config.authToken),
      BinariesDir(root, target.platform), PluginBinariesDir(root, target.platform))
  {
    var sentryCliPath := GetSentryCliPath(w, root, target.platform);
    var binariesDir := BinariesDir(root, target.platform);
    var pluginBinariesDir := PluginBinariesDir(root, target.platform);
    var cli := Render(sentryCliPath);
    var org := Render(config.org);
    var project := Render(config.project);
    var token := Render(config.authToken);
    BuilderMatchesTemplate(cli, org, project, token, binariesDir, pluginBinariesDir);
    Format(CliFormat, cli)
    + Format(OrgFormat, org)
    + Format(ProjectFormat, project)
    + Format(TokenFormat, token)
    + " --include-sources"
    + Format(PathFormat, binariesDir)
    + Format(PathFormat, pluginBinariesDir)
  }

  /** Text `m`, then a quoted `a`, then `rest`, splits into `m`, `a` and the pieces of `rest`. */
  lemma QuotedStep(m: string, a: string, rest: string)
    requires '"' !in m && '"' !in a
    ensures SplitOn(m + Quote(a) + rest, '"') == [m, a] + SplitOn(rest, '"')
  {
    assert m + Quote(a) + rest == m + ['"'] + (a + ['"'] + rest);
    SplitOnFirst(m, '"', a + ['"'] + rest);
    SplitOnFirst(a, '"', rest);
  }

  /**
    Six quoted arguments separated by quote-free words, then `rest`: the split
    yields an empty leading piece, the arguments and words in turn, and the
    pieces of `rest`.
   */
  lemma SplitSixQuoted(a1: string, m1: string, a2: string, m2: string, a3: string, m3: string,
                       a4: string, m4: string, a5: string, m5: string, a6: string, rest: string)
    requires '"' !in a1 && '"' !in a2 && '"' !in a3 && '"' !in a4 && '"' !in a5 && '"' !in a6
    requires '"' !in m1 && '"' !in m2 && '"' !in m3 && '"' !in m4 && '"' !in m5
    ensures SplitOn(Quote(a1) + m1 + Quote(a2) + m2 + Quote(a3) + m3 + Quote(a4) + m4 + Quote(a5) + m5 + Quote(a6) + rest, '"')
         == ["", a1, m1, a2, m2, a3, m3, a4, m4, a5, m5, a6] + SplitOn(rest, '"')
  {
    var t5 := m5 + Quote(a6) + rest;
    var t4 := m4 + Quote(a5) + t5;
    var t3 := m3 + Quote(a4) + t4;
    var t2 := m2 + Quote(a3) + t3;
    var t1 := m1 + Quote(a2) + t2;
    Nest(Quote(a1), m1, Quote(a2), m2, Quote(a3), m3, Quote(a4), m4, Quote(a5), m5, Quote(a6), rest);
    assert Quote(a1) + t1 == "" + Quote(a1) + t1;
    QuotedStep("", a1, t1);
    QuotedStep(m1, a2, t2);
    QuotedStep(m2, a3, t3);
    QuotedStep(m3, a4, t4);
    QuotedStep(m4, a5, t5);
    QuotedStep(m5, a6, rest);
  }

  /** Left-grouped concatenation, regrouped to the right one word-and-argument pair at a time. */
  lemma Nest(q1: string, m1: string, q2: string, m2: string, q3: string, m3: string,
             q4: string, m4: string, q5: string, m5: string, q6: string, rest: string)
    ensures q1 + m1 + q2 + m2 + q3 + m3 + q4 + m4 + q5 + m5 + q6 + rest
         == q1 + (m1 + q2 + (m2 + q3 + (m3 + q4 + (m4 + q5 + (m5 + q6 + rest)))))
  {
  }

  /** Taking odd pieces commutes with appending after an even number of pieces. */
  lemma {:induction false} OddPiecesAppend(p: seq<string>, q: seq<string>)
    requires |p| % 2 == 0
    ensures OddPieces(p + q) == OddPieces(p) + OddPieces(q)
    decreases |p|
  {
    if p != [] {
      assert (p + q)[2..] == p[2..] + q;
      assert (p + q)[1] == p[1];
      OddPiecesAppend(p[2..], q);
    } else {
      assert p + q == q;
    }
  }

  /** The odd pieces of twelve pieces. */
  lemma OddPiecesOfTwelve(p: seq<string>)
    requires |p| == 12
    ensures OddPieces(p) == [p[1], p[3], p[5], p[7], p[9], p[11]]
  {
    assert OddPieces(p[12..]) == [];
    assert OddPieces(p[10..]) == [p[11]];
    assert OddPieces(p[8..]) == [p[9], p[11]];
    assert OddPieces(p[6..]) == [p[7], p[9], p[11]];
    assert OddPieces(p[4..]) == [p[5], p[7], p[9], p[11]];
    assert OddPieces(p[2..]) == [p[3], p[5], p[7], p[9], p[11]];
  }

  /** The fixed words of the template contain no double quote. */
  lemma TemplateWordsQuoteFree()
    ensures '"' !in " debug-files upload --org " && '"' !in " --project " && '"' !in " --auth-token "
    ensures '"' !in " --include-sources " && '"' !in " "
  {
  }

  /**
    Round trip: when no argument contains a double quote, the quoted
    arguments read back out of the command are exactly the six arguments, in
    order.
   */
  lemma UploadCommandArguments(cli: string, org: string, project: string, token: string, binariesDir: string, pluginBinariesDir: string)
    requires '"' !in cli && '"' !in org && '"' !in project && '"' !in token
    requires '"' !in binariesDir && '"' !in pluginBinariesDir
    ensures QuotedArguments(UploadCommand(cli, org, project, token, binariesDir, pluginBinariesDir))
         == [cli, org, project, token, binariesDir, pluginBinariesDir]
  {
    TemplateWordsQuoteFree();
    var cmd := UploadCommand(cli, org, project, token, binariesDir, pluginBinariesDir);
    assert cmd == cmd + "";
    SplitSixQuoted(cli, " debug-files upload --org ", org, " --project ", project, " --auth-token ", token,
      " --include-sources ", binariesDir, " ", pluginBinariesDir, "");
    var front := ["", cli, " debug-files upload --org ", org, " --project ", project, " --auth-token ", token,
      " --include-sources ", binariesDir, " ", pluginBinariesDir];
    OddPiecesAppend(front, [""]);
    OddPiecesOfTwelve(front);
  }

  /** An argument `x"y` closes its quotes after `x`, and `y` becomes text between quoted pieces. */
  lemma QuoteInsideArgument(cli: string, x: string, y: string, project: string, token: string, binariesDir: string,
                            pluginBinariesDir: string, m1: string, m2: string, m3: string, m4: string, m5: string)
    ensures Quote(cli) + m1 + Quote(x + "\"" + y) + m2 + Quote(project) + m3 + Quote(token) + m4 + Quote(binariesDir) + m5 + Quote(pluginBinariesDir)
         == Quote(cli) + m1 + Quote(x) + y + Quote(m2) + project + Quote(m3) + token + Quote(m4) + binariesDir + Quote(m5) + (pluginBinariesDir + "\"")
  {
  }

  /**
    Quotes are not escaped: with an organisation `x"y` the command reads back
    seven arguments, `x` as the organisation and the literal words
    ` --project ` and ` --auth-token ` in the places of project and token.
   */
  lemma UnescapedQuoteShiftsArguments(cli: string, x: string, y: string, project: string, token: string,
                                      binariesDir: string, pluginBinariesDir: string)
    requires '"' !in cli && '"' !in x && '"' !in y && '"' !in project && '"' !in token
    requires '"' !in binariesDir && '"' !in pluginBinariesDir
    ensures var args := QuotedArguments(UploadCommand(cli, x + "\"" + y, project, token, binariesDir, pluginBinariesDir));
      |args| == 7 && args[0] == cli && args[1] == x && args[2] == " --project " && args[3] == " --auth-token "
  {
    TemplateWordsQuoteFree();
    var cmd := UploadCommand(cli, x + "\"" + y, project, token, binariesDir, pluginBinariesDir);
    QuoteInsideArgument(cli, x, y, project, token, binariesDir, pluginBinariesDir,
      " debug-files upload --org ", " --project ", " --auth-token ", " --include-sources ", " ");
    SplitSixQuoted(cli, " debug-files upload --org ", x, y, " --project ", project, " --auth-token ", token,
      " --include-sources ", binariesDir, " ", pluginBinariesDir + "\"");
    var front := ["", cli, " debug-files upload --org ", x, y, " --project ", project, " --auth-token ", token,
      " --include-sources ", binariesDir, " "];
    assert pluginBinariesDir + "\"" == pluginBinariesDir + ['"'] + "";
    SplitOnFirst(pluginBinariesDir, '"', "");
    assert SplitOn(pluginBinariesDir + "\"", '"') == [pluginBinariesDir, ""];
    assert SplitOn(cmd, '"') == front + [pluginBinariesDir, ""];
    OddPiecesAppend(front, [pluginBinariesDir, ""]);
    OddPiecesOfTwelve(front);
    assert OddPieces([pluginBinariesDir, ""]) == [""];
  }
}
