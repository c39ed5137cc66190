/**
 * The command builder of the Better PHPUnit extension: from the active
 * editor, the workspace and the `better-phpunit` settings it assembles one
 * shell command that runs PHPUnit (or Codeception) on the whole suite, on the
 * open file, or on the test method around the cursor.
 *
 * Everything the builder reads from its host is an explicit input here: the
 * settings, the file name, the workspace root, the cursor line, the lines of
 * the document, the platform, and the result of the upward search for
 * `phpunit.xml`/`phpunit.xml.dist`.
 */
module BetterPhpUnit {
  import opened Wrappers
  import NodePath
  import DeclarationPattern

  // ---------------------------------------------------------------------
  // Inputs

  /**
   * The `better-phpunit` settings the builder reads.  An unset string
   * setting is None; `xmlConfigFilepath` is None exactly when it is null.
   */
  datatype Settings = Settings(
    suiteSuffix: Option<string>,
    commandSuffix: Option<string>,
    xmlConfigFilepath: Option<string>,
    useCodeception: bool,
    phpunitBinary: Option<string>)

  /** JavaScript truthiness of an optional string: set and not empty. */
  predicate Truthy(o: Option<string>) {
    o.Some? && o.value != ""
  }

  /**
   * What the builder reads from the editor and the file system.
   * `phpunitXml` is the path the upward search for the configuration file
   * found, starting at the open file, or None when it found nothing.
   */
  datatype Environment = Environment(
    fileName: string,
    rootPath: string,
    cursorLine: nat,
    lines: seq<string>,
    isWindows: bool,
    settings: Settings,
    phpunitXml: Option<string>)
  {
    /** The sub-directory can be computed: Codeception skips the search, otherwise it found a file. */
    predicate CanLocateConfig() {
      settings.useCodeception || phpunitXml.Some?
    }

    /** The cursor is on a line of the document. */
    predicate CursorInDocument() {
      cursorLine < |lines|
    }
  }

  /** The options the command is constructed with. */
  datatype RunOptions = RunOptions(runFullSuite: bool, runFile: bool)

  /** What the command runs. */
  datatype RunMode = FullSuite | SingleFile | SingleMethod

  /** The run mode of the two flags; running the full suite takes precedence. */
  function ModeOf(runFullSuite: bool, runFile: bool): (m: RunMode)
    ensures (m == FullSuite) == runFullSuite
    ensures (m == SingleFile) == (!runFullSuite && runFile)
    ensures (m == SingleMethod) == (!runFullSuite && !runFile)
  {
    if runFullSuite then FullSuite else if runFile then SingleFile else SingleMethod
  }

  // ---------------------------------------------------------------------
  // Path normalization

  /** The first pass: every backslash becomes a forward slash. */
  function ForwardSlashes(path: string): (r: string)
    ensures |r| == |path|
  {
    if path == "" then ""
    else [if path[0] == '\\' then '/' else path[0]] + ForwardSlashes(path[1..])
  }

  /** Each character is kept, except that a backslash becomes a slash. */
  lemma {:induction false} ForwardSlashesAt(path: string)
    ensures forall i :: 0 <= i < |path| ==>
      ForwardSlashes(path)[i] == (if path[i] == '\\' then '/' else path[i])
  {
    if path != "" {
      ForwardSlashesAt(path[1..]);
    }
  }

  /** The second pass: every space is preceded by a backslash. */
  function EscapeSpaces(path: string): (r: string)
    ensures |path| <= |r|
  {
    if path == "" then ""
    else (if path[0] == ' ' then "\\ " else [path[0]]) + EscapeSpaces(path[1..])
  }

  /** The second pass adds one character per space. */
  lemma {:induction false} EscapeSpacesLength(path: string)
    ensures |EscapeSpaces(path)| == |path| + multiset(path)[' ']
  {
    if path != "" {
      assert path == [path[0]] + path[1..];
      EscapeSpacesLength(path[1..]);
    }
  }

  /** No raw space is left: every space is escaped and every backslash escapes a space. */
  predicate Escaped(s: string) {
    forall i :: 0 <= i < |s| ==> EscapedAt(s, i)
  }

  /** A space at `i` is preceded by a backslash; a backslash at `i` is followed by a space. */
  predicate EscapedAt(s: string, i: nat)
    requires i < |s|
  {
    (s[i] == ' ' ==> 0 < i && s[i - 1] == '\\') &&
    (s[i] == '\\' ==> i + 1 < |s| && s[i + 1] == ' ')
  }

  /** `_normalizePath`: backslashes become forward slashes, then spaces are escaped. */
  function NormalizePath(path: string): (r: string)
    ensures |path| <= |r|
  {
    EscapeSpaces(ForwardSlashes(path))
  }

  lemma {:induction false} ForwardSlashesKeepsSpaces(path: string)
    ensures multiset(ForwardSlashes(path))[' '] == multiset(path)[' ']
  {
    if path != "" {
      assert path == [path[0]] + path[1..];
      ForwardSlashesKeepsSpaces(path[1..]);
    }
  }

  /** Normalization grows the path by one character per space. */
  lemma NormalizePathLength(path: string)
    ensures |NormalizePath(path)| == |path| + multiset(path)[' ']
  {
    ForwardSlashesKeepsSpaces(path);
    EscapeSpacesLength(ForwardSlashes(path));
  }

  /** A normalized path has no raw space and no backslash other than an escape. */
  lemma NormalizePathEscaped(path: string)
    ensures Escaped(NormalizePath(path))
  {
    ForwardSlashesAt(path);
    EscapeSpacesEscapes(ForwardSlashes(path));
  }

  /** The escaped form of a string never starts with a raw space. */
  lemma EscapedHead(path: string)
    requires path != ""
    ensures EscapeSpaces(path)[0] != ' '
  {
  }

  /** Escaping a string without backslashes leaves no raw space and no stray backslash. */
  lemma {:induction false} EscapeSpacesEscapes(path: string)
    requires forall i :: 0 <= i < |path| ==> path[i] != '\\'
    ensures Escaped(EscapeSpaces(path))
  {
    if path != "" {
      var head := if path[0] == ' ' then "\\ " else [path[0]];
      var tail := EscapeSpaces(path[1..]);
      EscapeSpacesEscapes(path[1..]);
      if tail != "" { EscapedHead(path[1..]); }
      var r := head + tail;
      assert EscapeSpaces(path) == r;
      forall i | 0 <= i < |r| ensures EscapedAt(r, i) {
        if i >= |head| {
          assert EscapedAt(tail, i - |head|);
          assert r[i] == tail[i - |head|];
        }
      }
    }
  }

  lemma ForwardSlashesAppend(a: string, b: string)
    ensures ForwardSlashes(a + b) == ForwardSlashes(a) + ForwardSlashes(b)
  {
    ForwardSlashesAt(a + b);
    ForwardSlashesAt(a);
    ForwardSlashesAt(b);
    var l, r := ForwardSlashes(a + b), ForwardSlashes(a) + ForwardSlashes(b);
    forall i | 0 <= i < |l| ensures l[i] == r[i] {
      if i < |a| { assert (a + b)[i] == a[i]; } else { assert (a + b)[i] == b[i - |a|]; }
    }
  }

  lemma {:induction false} EscapeSpacesAppend(a: string, b: string)
    ensures EscapeSpaces(a + b) == EscapeSpaces(a) + EscapeSpaces(b)
  {
    if a == "" {
      assert a + b == b;
    } else {
      assert (a + b)[0] == a[0] && (a + b)[1..] == a[1..] + b;
      EscapeSpacesAppend(a[1..], b);
    }
  }

  /** Normalization works piece by piece: it distributes over concatenation. */
  lemma NormalizePathAppend(a: string, b: string)
    ensures NormalizePath(a + b) == NormalizePath(a) + NormalizePath(b)
  {
    ForwardSlashesAppend(a, b);
    EscapeSpacesAppend(ForwardSlashes(a), ForwardSlashes(b));
  }

  /** One character, normalized. */
  lemma NormalizeCharacter(c: char)
    ensures NormalizePath([c]) == (if c == ' ' then "\\ " else if c == '\\' then "/" else [c])
  {
    var d := if c == '\\' then '/' else c;
    assert ForwardSlashes([c]) == [d] + ForwardSlashes([c][1..]);
    assert ForwardSlashes([c]) == [d];
    assert EscapeSpaces([d]) == (if d == ' ' then "\\ " else [d]) + EscapeSpaces([d][1..]);
  }

  /**
   * Where each character of the input lands: character i moves right by the
   * number of spaces before it; a space becomes backslash-space, a backslash
   * becomes a slash, and every other character is kept.
   */
  lemma NormalizedCharacter(path: string, i: nat)
    requires i < |path|
    ensures var r := NormalizePath(path);
      var p := i + multiset(path[..i])[' '];
      p < |r| &&
      (path[i] == ' ' ==> p + 1 < |r| && r[p] == '\\' && r[p + 1] == ' ') &&
      (path[i] == '\\' ==> r[p] == '/') &&
      (path[i] != ' ' && path[i] != '\\' ==> r[p] == path[i])
  {
    var before, c, after := path[..i], path[i], path[i + 1..];
    assert path == before + ([c] + after);
    NormalizePathAppend(before, [c] + after);
    NormalizePathAppend([c], after);
    NormalizePathLength(before);
    NormalizeCharacter(c);
  }

  /** A path with neither spaces nor backslashes is left as it is. */
  lemma {:induction false} NormalizePlainPath(path: string)
    requires ' ' !in path && '\\' !in path
    ensures NormalizePath(path) == path
    decreases |path|
  {
    if path != "" {
      var c, rest := path[0], path[1..];
      assert path == [c] + rest;
      assert c in path;
      NormalizePathAppend([c], rest);
      NormalizeCharacter(c);
      NormalizePlainPath(rest);
    }
  }

  /** A string without spaces is left as it is by the second pass. */
  lemma {:induction false} EscapeSpacesNoSpace(s: string)
    requires ' ' !in s
    ensures EscapeSpaces(s) == s
  {
    if s != "" {
      assert s[0] in s;
      assert forall c :: c in s[1..] ==> c in s;
      EscapeSpacesNoSpace(s[1..]);
    }
  }

  /** Without spaces, normalization only turns backslashes into slashes. */
  lemma NormalizeWithoutSpaces(path: string)
    requires ' ' !in path
    ensures NormalizePath(path) == ForwardSlashes(path)
    ensures ' ' !in NormalizePath(path) && '\\' !in NormalizePath(path)
  {
    var slashed := ForwardSlashes(path);
    ForwardSlashesAt(path);
    assert forall i :: 0 <= i < |slashed| ==> slashed[i] != ' ' && slashed[i] != '\\' by {
      forall i | 0 <= i < |slashed| ensures slashed[i] != ' ' && slashed[i] != '\\' {
        assert path[i] in path;
      }
    }
    EscapeSpacesNoSpace(slashed);
  }

  /**
   * Normalization is idempotent on a path exactly when the path holds no
   * space: a second pass turns each escaping backslash into a slash and
   * escapes the space again.
   */
  lemma NormalizePathIdempotentIff(path: string)
    ensures NormalizePath(NormalizePath(path)) == NormalizePath(path) <==> ' ' !in path
  {
    var once := NormalizePath(path);
    if ' ' in path {
      var i :| 0 <= i < |path| && path[i] == ' ';
      NormalizedCharacter(path, i);
      var p := i + multiset(path[..i])[' '];
      assert once[p + 1] == ' ';
      assert ' ' in once;
      NormalizePathLength(once);
      assert |NormalizePath(once)| > |once|;
    } else {
      NormalizeWithoutSpaces(path);
      NormalizePlainPath(once);
    }
  }

  // ---------------------------------------------------------------------
  // Fragments of the command

  /** `file`: the open file, normalized. */
  function File(env: Environment): (r: string)
    ensures |env.fileName| <= |r|
  {
    NormalizePath(env.fileName)
  }

  /** The file fragment is the escaped form of the file name, one character longer per space. */
  lemma FileEscaped(env: Environment)
    ensures Escaped(File(env))
    ensures |File(env)| == |env.fileName| + multiset(env.fileName)[' ']
  {
    NormalizePathEscaped(env.fileName);
    NormalizePathLength(env.fileName);
  }

  /**
   * `subDirectory`: the directory of the configuration file found, or None
   * when that is the workspace root.  Under Codeception the configuration
   * is taken to be at the root.
   */
  function SubDirectory(env: Environment): (r: Option<string>)
    requires env.CanLocateConfig()
    ensures r.Some? ==> r.value != env.rootPath && r.value != ""
  {
    var phpunitDotXml :=
      if env.settings.useCodeception then env.rootPath + "/phpunit.xml" else env.phpunitXml.value;
    var dir := NodePath.Dirname(env.isWindows, phpunitDotXml);
    if dir != env.rootPath then Some(dir) else None
  }

  /** Under Codeception there is never a sub-directory, for any non-empty root. */
  lemma CodeceptionHasNoSubDirectory(env: Environment)
    requires env.settings.useCodeception && env.rootPath != ""
    ensures SubDirectory(env) == None
  {
    var name := "phpunit.xml";
    assert env.rootPath + "/phpunit.xml" == env.rootPath + "/" + name;
    NodePath.DirnameOfChild(env.isWindows, env.rootPath, name);
  }

  /** Otherwise the sub-directory is the found file's directory unless that is the root. */
  lemma SubDirectoryOfSearch(env: Environment)
    requires !env.settings.useCodeception && env.phpunitXml.Some?
    ensures var dir := NodePath.Dirname(env.isWindows, env.phpunitXml.value);
      SubDirectory(env) == (if dir == env.rootPath then None else Some(dir))
  {
  }

  /** " run" exactly when Codeception is used. */
  function RunOption(settings: Settings): (r: string)
    ensures r == "" || r == " run"
    ensures r == " run" <==> settings.useCodeception
  {
    if settings.useCodeception then " run" else ""
  }

  /** The runner's name. */
  function Runner(settings: Settings): (r: string)
    ensures r != "" && ' ' !in r && '\\' !in r
  {
    if settings.useCodeception then "codecept" else "phpunit"
  }

  /** The runner's path below the directory holding `vendor`. */
  function CommandStub(env: Environment): (r: string)
    ensures r != ""
  {
    var w := env.isWindows;
    NodePath.Join(w, NodePath.Join(w, "vendor", "bin"), Runner(env.settings)) + (if w then ".bat" else "")
  }

  predicate CanBuildBinary(env: Environment) {
    Truthy(env.settings.phpunitBinary) || env.CanLocateConfig()
  }

  /** The directory the runner is looked for in: the sub-directory, else the workspace root. */
  function BaseDirectory(env: Environment): (r: string)
    requires env.CanLocateConfig()
    ensures SubDirectory(env) == (if r == env.rootPath then None else Some(r))
  {
    match SubDirectory(env)
    case Some(dir) => dir
    case None => env.rootPath
  }

  /**
   * `binary`: the configured binary verbatim, or the runner below the
   * sub-directory (the workspace root when there is none), normalized;
   * followed by " run" under Codeception.
   */
  function Binary(env: Environment): (r: string)
    requires CanBuildBinary(env)
    ensures r != ""
  {
    var configured := env.settings.phpunitBinary;
    if Truthy(configured) then configured.value + RunOption(env.settings)
    else NormalizePath(NodePath.Join(env.isWindows, BaseDirectory(env), CommandStub(env))) + RunOption(env.settings)
  }

  /** A configured binary is used verbatim, followed by " run" under Codeception. */
  lemma BinaryConfigured(env: Environment)
    requires Truthy(env.settings.phpunitBinary)
    ensures Binary(env) == env.settings.phpunitBinary.value + (if env.settings.useCodeception then " run" else "")
  {
  }

  /**
   * Without a configured binary the runner path is the normalized directory
   * followed by `vendor/bin/phpunit` or `vendor/bin/codecept` with forward
   * slashes on every platform, `.bat` on Windows, and " run" under Codeception.
   */
  lemma BinaryFromVendor(env: Environment)
    requires !Truthy(env.settings.phpunitBinary) && env.CanLocateConfig()
    ensures Binary(env) ==
      NormalizePath(NodePath.Join(env.isWindows, BaseDirectory(env), "")) +
      "vendor/bin/" + (if env.settings.useCodeception then "codecept" else "phpunit") +
      (if env.isWindows then ".bat" else "") +
      (if env.settings.useCodeception then " run" else "")
  {
    var dir, stub := BaseDirectory(env), CommandStub(env);
    var ext := if env.isWindows then ".bat" else "";
    assert Binary(env) == NormalizePath(NodePath.Join(env.isWindows, dir, stub)) + RunOption(env.settings);
    NormalizeJoined(env.isWindows, dir, stub);
    StubNormalized(env);
    Regroup(NormalizePath(NodePath.Join(env.isWindows, dir, "")), "vendor/bin/", Runner(env.settings), ext,
      RunOption(env.settings));
  }

  lemma Regroup(a: string, b: string, c: string, d: string, e: string)
    ensures a + (b + c + d) + e == a + b + c + d + e
  {
  }

  /** Normalizing a joined path normalizes the directory part and the rest separately. */
  lemma NormalizeJoined(windows: bool, dir: string, rest: string)
    ensures NormalizePath(NodePath.Join(windows, dir, rest)) ==
      NormalizePath(NodePath.Join(windows, dir, "")) + NormalizePath(rest)
  {
    NodePath.JoinSplits(windows, dir, rest);
    NormalizePathAppend(NodePath.Join(windows, dir, ""), rest);
  }

  /** The runner stub is `vendor`, `bin` and the runner, joined with the platform's separator. */
  lemma StubPath(env: Environment)
    ensures var s := NodePath.Separator(env.isWindows);
      CommandStub(env) ==
        "vendor" + [s] + ("bin" + [s] + (Runner(env.settings) + (if env.isWindows then ".bat" else "")))
  {
    var w := env.isWindows;
    var s := NodePath.Separator(w);
    var vendorBin := NodePath.Join(w, "vendor", "bin");
    assert vendorBin == "vendor" + [s] + "bin";
    assert vendorBin[|vendorBin| - 1] == 'n';
    assert NodePath.Join(w, vendorBin, Runner(env.settings)) == vendorBin + [s] + Runner(env.settings);
  }

  /** A plain segment and a separator of either kind normalize to the segment and a slash. */
  lemma NormalizeSegment(a: string, c: char, b: string)
    requires ' ' !in a && '\\' !in a
    requires c == '/' || c == '\\'
    ensures NormalizePath(a + [c] + b) == a + "/" + NormalizePath(b)
  {
    assert a + [c] + b == a + ([c] + b);
    NormalizePathAppend(a, [c] + b);
    NormalizePathAppend([c], b);
    NormalizeCharacter(c);
    NormalizePlainPath(a);
  }

  /** Three plain segments joined by separators of either kind normalize to a slash-separated path. */
  lemma NormalizeSegments(a: string, b: string, c: string, sep: char)
    requires ' ' !in a && '\\' !in a && ' ' !in b && '\\' !in b && ' ' !in c && '\\' !in c
    requires sep == '/' || sep == '\\'
    ensures NormalizePath(a + [sep] + (b + [sep] + c)) == a + "/" + (b + "/" + c)
  {
    NormalizeSegment(a, sep, b + [sep] + c);
    NormalizeSegment(b, sep, c);
    NormalizePlainPath(c);
  }

  /** The runner stub, once normalized, uses forward slashes on both platforms. */
  lemma StubNormalized(env: Environment)
    ensures NormalizePath(CommandStub(env)) ==
      "vendor/bin/" + Runner(env.settings) + (if env.isWindows then ".bat" else "")
  {
    var s := NodePath.Separator(env.isWindows);
    var file := Runner(env.settings) + (if env.isWindows then ".bat" else "");
    StubPath(env);
    assert ' ' !in file && '\\' !in file;
    NormalizeSegments("vendor", "bin", file, s);
    VendorBin(file);
  }

  lemma VendorBin(file: string)
    ensures "vendor" + "/" + ("bin" + "/" + file) == "vendor/bin/" + file
  {
  }

  predicate CanBuildConfiguration(env: Environment) {
    env.settings.xmlConfigFilepath.Some? || env.CanLocateConfig()
  }

  /**
   * `configuration`: the configured file verbatim when the setting is not
   * null; else the sub-directory's `phpunit.xml`, normalized; else nothing.
   */
  function Configuration(env: Environment): (r: string)
    requires CanBuildConfiguration(env)
    ensures r == "" || " --configuration " <= r
    ensures r == "" ==> env.settings.xmlConfigFilepath.None?
  {
    if env.settings.xmlConfigFilepath.Some? then " --configuration " + env.settings.xmlConfigFilepath.value
    else match SubDirectory(env)
      case Some(dir) => " --configuration " + NormalizePath(NodePath.Join(env.isWindows, dir, "phpunit.xml"))
      case None => ""
  }

  /** A plain file name joined to a directory passes through normalization unchanged. */
  lemma NormalizeJoinedName(windows: bool, dir: string, name: string)
    requires ' ' !in name && '\\' !in name
    ensures NormalizePath(NodePath.Join(windows, dir, name)) == NormalizePath(NodePath.Join(windows, dir, "")) + name
  {
    NormalizeJoined(windows, dir, name);
    NormalizePlainPath(name);
  }

  /**
   * A sub-directory's `phpunit.xml` is the normalized directory followed by
   * the file name, and its path holds no raw space.
   */
  lemma SubDirectoryConfigFile(windows: bool, dir: string)
    ensures var file := NormalizePath(NodePath.Join(windows, dir, "phpunit.xml"));
      file == NormalizePath(NodePath.Join(windows, dir, "")) + "phpunit.xml" && Escaped(file)
  {
    NormalizeJoinedName(windows, dir, "phpunit.xml");
    NormalizePathEscaped(NodePath.Join(windows, dir, "phpunit.xml"));
  }

  /**
   * A configured file wins over any sub-directory and is not normalized;
   * otherwise the sub-directory's file is used, and without one there is
   * no configuration clause.
   */
  lemma ConfigurationCases(env: Environment)
    requires CanBuildConfiguration(env)
    ensures env.settings.xmlConfigFilepath.Some? ==>
      Configuration(env) == " --configuration " + env.settings.xmlConfigFilepath.value
    ensures env.settings.xmlConfigFilepath.None? && SubDirectory(env).Some? ==>
      Configuration(env) ==
        " --configuration " + NormalizePath(NodePath.Join(env.isWindows, SubDirectory(env).value, "")) + "phpunit.xml"
    ensures env.settings.xmlConfigFilepath.None? && SubDirectory(env).None? ==> Configuration(env) == ""
  {
    if env.settings.xmlConfigFilepath.None? && SubDirectory(env).Some? {
      SubDirectoryConfigFile(env.isWindows, SubDirectory(env).value);
    }
  }

  /** `filter`: the clause selecting the method, empty when none was found. */
  function Filter(env: Environment, name: Option<string>): (r: string)
    ensures r == "" <==> !Truthy(name)
  {
    if !Truthy(name) then ""
    else if env.settings.useCodeception then ":" + name.value
    else if env.isWindows then " --filter '^.*::" + name.value + "'"
    else " --filter '^.*::" + name.value + "( .*)?$'"
  }

  /**
   * The filter names the method: Codeception's `:m` on every platform,
   * otherwise PHPUnit's `--filter`, which tolerates a data-set suffix
   * except on Windows.  The clause is empty exactly when no method was found.
   */
  lemma FilterCases(env: Environment, name: Option<string>)
    requires name.Some? ==> DeclarationPattern.IsIdentifier(name.value)
    ensures (Filter(env, name) == "") <==> name.None?
    ensures name.Some? && env.settings.useCodeception ==> Filter(env, name) == ":" + name.value
    ensures name.Some? && !env.settings.useCodeception && env.isWindows ==>
      Filter(env, name) == " --filter '^.*::" + name.value + "'"
    ensures name.Some? && !env.settings.useCodeception && !env.isWindows ==>
      Filter(env, name) == " --filter '^.*::" + name.value + "( .*)?$'"
  {
  }

  /** A configured suffix, preceded by one space. */
  function Suffix(settings: Settings): (r: string)
    ensures r == "" <==> !Truthy(settings.commandSuffix)
  {
    if Truthy(settings.commandSuffix) then " " + settings.commandSuffix.value else ""
  }

  /** The configured suite suffix, preceded by one space. */
  function SuiteSuffix(settings: Settings): (r: string)
    ensures r == "" <==> !Truthy(settings.suiteSuffix)
  {
    if Truthy(settings.suiteSuffix) then " " + settings.suiteSuffix.value else ""
  }

  /** The command suffix is empty when unset and a space plus the setting otherwise. */
  lemma SuffixCases(settings: Settings)
    ensures Truthy(settings.commandSuffix) ==> Suffix(settings) == " " + settings.commandSuffix.value
  {
  }

  /** The suite suffix is empty when unset and a space plus the setting otherwise. */
  lemma SuiteSuffixCases(settings: Settings)
    ensures Truthy(settings.suiteSuffix) ==> SuiteSuffix(settings) == " " + settings.suiteSuffix.value
  {
  }

  // ---------------------------------------------------------------------
  // The method around the cursor

  /**
   * The upward scan as a specification, for any test `matcher` of one line:
   * the result of the nearest line at or above `line` that the test
   * accepts, never looking at line 0.
   */
  function Nearest(matcher: string -> Option<string>, lines: seq<string>, line: nat): (r: Option<string>)
    requires line < |lines|
    ensures r.Some? ==> 0 < line
    ensures 0 < line && matcher(lines[line]).Some? ==> r == matcher(lines[line])
    decreases line
  {
    if line == 0 then None
    else if matcher(lines[line]).Some? then matcher(lines[line])
    else Nearest(matcher, lines, line - 1)
  }

  /** Nothing is found exactly when no line from 1 to the cursor is accepted. */
  lemma {:induction false} NearestNone(matcher: string -> Option<string>, lines: seq<string>, cursor: nat)
    requires cursor < |lines|
    ensures Nearest(matcher, lines, cursor).None? <==> forall j :: 1 <= j <= cursor ==> matcher(lines[j]).None?
  {
    if cursor > 0 {
      NearestNone(matcher, lines, cursor - 1);
    }
  }

  /** Line `k`, between 1 and the cursor, is the nearest line at or above the cursor that is accepted. */
  predicate NearestAccepted(matcher: string -> Option<string>, lines: seq<string>, cursor: nat, k: nat) {
    1 <= k <= cursor < |lines| &&
    matcher(lines[k]).Some? &&
    forall j :: k < j <= cursor ==> matcher(lines[j]).None?
  }

  /** What is found is the result of the nearest accepted line. */
  lemma {:induction false} NearestFinds(matcher: string -> Option<string>, lines: seq<string>, cursor: nat, k: nat)
    requires NearestAccepted(matcher, lines, cursor, k)
    ensures Nearest(matcher, lines, cursor) == matcher(lines[k])
  {
    if cursor > k {
      NearestFinds(matcher, lines, cursor - 1, k);
    }
  }

  /** When something is found, it comes from the nearest accepted line. */
  lemma {:induction false} NearestFound(matcher: string -> Option<string>, lines: seq<string>, cursor: nat)
    requires cursor < |lines| && Nearest(matcher, lines, cursor).Some?
    ensures exists k: nat :: NearestAccepted(matcher, lines, cursor, k) && Nearest(matcher, lines, cursor) == matcher(lines[k])
  {
    if matcher(lines[cursor]).Some? {
      assert NearestAccepted(matcher, lines, cursor, cursor);
    } else {
      NearestFound(matcher, lines, cursor - 1);
      var k: nat :| NearestAccepted(matcher, lines, cursor - 1, k) && Nearest(matcher, lines, cursor - 1) == matcher(lines[k]);
      assert NearestAccepted(matcher, lines, cursor, k);
    }
  }

  /** The scan reads only lines 1 to the cursor: line 0 and the lines below never matter. */
  lemma {:induction false} NearestReads(matcher: string -> Option<string>, lines: seq<string>, other: seq<string>, cursor: nat)
    requires cursor < |lines| && cursor < |other|
    requires forall j :: 1 <= j <= cursor ==> lines[j] == other[j]
    ensures Nearest(matcher, lines, cursor) == Nearest(matcher, other, cursor)
  {
    if cursor > 0 {
      NearestReads(matcher, lines, other, cursor - 1);
    }
  }

  /** `method`, as a specification: the scan with the declaration pattern. */
  function EnclosingMethod(lines: seq<string>, line: nat): (r: Option<string>)
    requires line < |lines|
    ensures r.Some? ==> DeclarationPattern.IsIdentifier(r.value)
  {
    var r := Nearest(DeclarationPattern.MatchDeclaration, lines, line);
    if r.Some? then
      NearestFound(DeclarationPattern.MatchDeclaration, lines, line);
      r
    else r
  }

  /** Nothing is found exactly when no line from 1 to the cursor matches the pattern. */
  lemma EnclosingMethodNone(lines: seq<string>, cursor: nat)
    requires cursor < |lines|
    ensures EnclosingMethod(lines, cursor).None? <==>
      forall j :: 1 <= j <= cursor ==> !DeclarationPattern.IsDeclaration(lines[j])
  {
    NearestNone(DeclarationPattern.MatchDeclaration, lines, cursor);
    forall j | 1 <= j <= cursor {
      DeclarationPattern.DeclarationMatched(lines[j]);
    }
  }

  /**
   * A method found is the name the pattern captures on some line k from 1
   * to the cursor, and no line after k up to the cursor matches the pattern.
   */
  lemma EnclosingMethodFound(lines: seq<string>, cursor: nat)
    requires cursor < |lines| && EnclosingMethod(lines, cursor).Some?
    ensures exists k: nat ::
              1 <= k <= cursor &&
              DeclarationPattern.Declares(lines[k], EnclosingMethod(lines, cursor).value) &&
              forall j :: k < j <= cursor ==> !DeclarationPattern.IsDeclaration(lines[j])
  {
    var matcher := DeclarationPattern.MatchDeclaration;
    NearestFound(matcher, lines, cursor);
    var k: nat :| NearestAccepted(matcher, lines, cursor, k) && Nearest(matcher, lines, cursor) == matcher(lines[k]);
    DeclarationPattern.MatchSound(lines[k]);
    forall j | k < j <= cursor {
      DeclarationPattern.DeclarationMatched(lines[j]);
    }
  }

  /**
   * The upward scan of `method`: from the cursor line down to line 1, stop
   * at the first line matching the declaration pattern.
   */
  method ScanForMethod(lines: seq<string>, cursor: nat) returns (m: Option<string>)
    requires cursor < |lines|
    ensures m == EnclosingMethod(lines, cursor)
  {
    var line: nat := cursor;
    m := None;
    while line > 0
      invariant line <= cursor
      invariant m == None
      invariant Nearest(DeclarationPattern.MatchDeclaration, lines, cursor) ==
        Nearest(DeclarationPattern.MatchDeclaration, lines, line)
      decreases line
    {
      var found := DeclarationPattern.MatchDeclaration(lines[line]);
      if found.Some? {
        m := found;
        break;
      }
      line := line - 1;
    }
  }

  // ---------------------------------------------------------------------
  // Assembly

  /** Everything the fragments of `mode` need of the environment. */
  predicate CanAssemble(mode: RunMode, env: Environment) {
    CanBuildBinary(env) &&
    (mode != FullSuite ==> CanBuildConfiguration(env)) &&
    (mode == SingleMethod ==> env.CursorInDocument())
  }

  /** The method name the filter uses. */
  function MethodName(env: Environment): (r: Option<string>)
    requires env.CursorInDocument()
  {
    EnclosingMethod(env.lines, env.cursorLine)
  }

  /** The command of one method, for the method name the scan found. */
  function MethodCommand(env: Environment, name: Option<string>): (r: string)
    requires CanBuildBinary(env) && CanBuildConfiguration(env)
    ensures r != ""
  {
    FileHead(env) + Filter(env, name) + FileTail(env)
  }

  /** The binary and the file, with a space between them. */
  function FileHead(env: Environment): string
    requires CanBuildBinary(env)
  {
    Binary(env) + " " + File(env)
  }

  /** The configuration clause and the command suffix. */
  function FileTail(env: Environment): string
    requires CanBuildConfiguration(env)
  {
    Configuration(env) + Suffix(env.settings)
  }

  /** `output` before caching: the fragments of the run mode, in order. */
  function Assemble(mode: RunMode, env: Environment): (r: string)
    requires CanAssemble(mode, env)
    ensures r != ""
  {
    match mode
    case FullSuite => Binary(env) + SuiteSuffix(env.settings) + Suffix(env.settings)
    case SingleFile => FileHead(env) + FileTail(env)
    case SingleMethod => MethodCommand(env, MethodName(env))
  }

  /** Every command starts with the binary. */
  lemma AssembleStartsWithBinary(mode: RunMode, env: Environment)
    requires CanAssemble(mode, env)
    ensures Binary(env) <= Assemble(mode, env)
  {
  }

  /** Every command ends with the command suffix. */
  lemma AssembleEndsWithSuffix(mode: RunMode, env: Environment)
    requires CanAssemble(mode, env)
    ensures var r, s := Assemble(mode, env), Suffix(env.settings);
      |s| <= |r| && r[|r| - |s|..] == s
  {
    var s := Suffix(env.settings);
    match mode
    case FullSuite => EndsWithTail(Binary(env), SuiteSuffix(env.settings), s);
    case SingleFile => EndsWithTail(FileHead(env), Configuration(env), s);
    case SingleMethod => EndsWithTail(FileHead(env) + Filter(env, MethodName(env)), Configuration(env), s);
  }

  /** `h + m + s` and `h + (m + s)` both end with `s`. */
  lemma EndsWithTail(h: string, m: string, s: string)
    ensures var r := h + m + s; |s| <= |r| && r[|r| - |s|..] == s
    ensures var r := h + (m + s); |s| <= |r| && r[|r| - |s|..] == s
  {
    var r := h + (m + s);
    assert r[|r| - |s|..] == s;
  }

  /**
   * The full-suite command depends on neither the open file, nor the
   * cursor, nor the document: only the search result the file led to.
   */
  lemma FullSuiteIgnoresFile(env: Environment, other: Environment)
    requires CanAssemble(FullSuite, env)
    requires other == env.(fileName := other.fileName, cursorLine := other.cursorLine, lines := other.lines)
    ensures CanAssemble(FullSuite, other)
    ensures Assemble(FullSuite, other) == Assemble(FullSuite, env)
  {
  }

  /** The file command has no filter: it depends on neither the cursor nor the document. */
  lemma SingleFileIgnoresCursor(env: Environment, other: Environment)
    requires CanAssemble(SingleFile, env)
    requires other == env.(cursorLine := other.cursorLine, lines := other.lines)
    ensures CanAssemble(SingleFile, other)
    ensures Assemble(SingleFile, other) == Assemble(SingleFile, env)
  {
    if env.CanLocateConfig() {
      assert SubDirectory(other) == SubDirectory(env);
    }
    assert Binary(other) == Binary(env);
  }

  /**
   * `with` is `without` with `inserted` placed at position `at`: the two
   * agree before `at`, `inserted` follows, and then the rest of `without`.
   */
  predicate InsertedAt(with: string, without: string, at: nat, inserted: string) {
    at <= |without| && |with| == |without| + |inserted| &&
    with[..at] == without[..at] &&
    with[at..at + |inserted|] == inserted &&
    with[at + |inserted|..] == without[at..]
  }

  /**
   * The method command is the file command with the filter inserted right
   * after the file; without a method the two are the same.
   */
  lemma MethodCommandInsertsFilter(env: Environment, name: Option<string>)
    requires CanAssemble(SingleFile, env)
    ensures InsertedAt(MethodCommand(env, name), Assemble(SingleFile, env),
                       |FileHead(env)|, Filter(env, name))
    ensures name.None? ==> MethodCommand(env, name) == Assemble(SingleFile, env)
  {
    Insertion(FileHead(env), Filter(env, name), FileTail(env));
  }

  /**
   * The method run is the file run with the filter of the method the scan
   * finds around the cursor inserted right after the file.
   */
  lemma SingleMethodCommand(env: Environment)
    requires CanAssemble(SingleMethod, env)
    ensures CanAssemble(SingleFile, env)
    ensures InsertedAt(Assemble(SingleMethod, env), Assemble(SingleFile, env),
                       |FileHead(env)|, Filter(env, EnclosingMethod(env.lines, env.cursorLine)))
  {
    MethodCommandInsertsFilter(env, MethodName(env));
  }

  /** Inserting `inserted` between `head` and the rest, stated by position. */
  lemma Insertion(head: string, inserted: string, tail: string)
    ensures InsertedAt(head + inserted + tail, head + tail, |head|, inserted)
    ensures inserted == "" ==> head + inserted + tail == head + tail
  {
    var without, with := head + tail, head + inserted + tail;
    assert with[..|head|] == head == without[..|head|];
    assert with[|head|..|head| + |inserted|] == inserted;
    assert with[|head| + |inserted|..] == tail == without[|head|..];
  }

  // ---------------------------------------------------------------------
  // The command object

  /**
   * `PhpUnitCommand`: the run flags it was constructed with and the command
   * cached by the first read of `output`.  An empty `lastOutput` stands for
   * the field not being set yet; the ghost field records the environment of
   * that first read.
   */
  class PhpUnitCommand {
    const runFullSuite: bool
    const runFile: bool
    var lastOutput: string
    ghost var cachedFor: Option<Environment>

    function Mode(): RunMode {
      ModeOf(runFullSuite, runFile)
    }

    /** The cache is empty or holds the command of the environment it was read in. */
    ghost predicate Valid()
      reads this
    {
      (lastOutput == "" <==> cachedFor.None?) &&
      (cachedFor.Some? ==> CanAssemble(Mode(), cachedFor.value) && lastOutput == Assemble(Mode(), cachedFor.value))
    }

    /** Missing options or flags run neither the suite nor the file. */
    constructor (options: Option<RunOptions>)
      ensures Valid() && lastOutput == ""
      ensures runFullSuite == (options.Some? && options.value.runFullSuite)
      ensures runFile == (options.Some? && options.value.runFile)
    {
      runFullSuite := options.Some? && options.value.runFullSuite;
      runFile := options.Some? && options.value.runFile;
      lastOutput := "";
      cachedFor := None;
    }

    /**
     * `output`: the first read assembles the command for the current
     * environment and caches it; every later read returns the cached
     * command, whatever the environment is then.  The command is never
     * empty, so the cache is always set after the first read.
     */
    method Output(env: Environment) returns (r: string)
      requires Valid()
      requires lastOutput == "" ==> CanAssemble(Mode(), env)
      modifies this
      ensures Valid()
      ensures r == lastOutput && r != ""
      ensures old(lastOutput) != "" ==> lastOutput == old(lastOutput) && cachedFor == old(cachedFor)
      ensures old(lastOutput) == "" ==> lastOutput == Assemble(Mode(), env) && cachedFor == Some(env)
    {
      if lastOutput != "" {
        return lastOutput;
      }
      var suiteSuffix := SuiteSuffix(env.settings);
      if runFullSuite {
        lastOutput := Binary(env) + suiteSuffix + Suffix(env.settings);
      } else if runFile {
        lastOutput := FileHead(env) + FileTail(env);
      } else {
        var name := ScanForMethod(env.lines, env.cursorLine);
        lastOutput := FileHead(env) + Filter(env, name) + FileTail(env);
      }
      cachedFor := Some(env);
      r := lastOutput;
    }
  }

  /** Two reads of one command give the same string, even in different environments. */
  method ReadTwice(command: PhpUnitCommand, first: Environment, second: Environment) returns (a: string, b: string)
    requires command.Valid()
    requires command.lastOutput == "" ==> CanAssemble(command.Mode(), first)
    modifies command
    ensures command.Valid()
    ensures a == b && a != ""
    ensures old(command.lastOutput) == "" ==> a == Assemble(command.Mode(), first)
    ensures old(command.lastOutput) != "" ==> a == old(command.lastOutput)
  {
    a := command.Output(first);
    b := command.Output(second);
  }
}
