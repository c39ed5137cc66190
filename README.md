# Better PHPUnit command builder, modelled in Dafny

Better PHPUnit is a Visual Studio Code extension that runs PHPUnit, or
Codeception, from the editor. Its core is the `PhpUnitCommand` class, which
turns the editor state and the `better-phpunit` settings into one shell
command. The command has three run modes:

- the whole suite;
- the open file;
- the test method around the cursor.

The command is built from these fragments:

- `binary`: the configured binary, or the runner below `vendor/bin`;
- `file`: the open file;
- `filter`: selects the method;
- `configuration`: the `--configuration` clause;
- `suffix`: the settings' suffixes.

Paths are passed through `_normalizePath`, which turns backslashes into
slashes and escapes spaces. The method name comes from an upward scan of the
document for a PHP function declaration. The first read of `output` caches
the command in `lastOutput`.

## Layout

- `wrappers.dfy` (`Wrappers`): `Option`, which stands for JavaScript's
  `null`/`undefined` and for a search that found nothing.
- `node_path.dfy` (`NodePath`): the two Node `path` functions the builder
  calls, `join` and `dirname`, reduced to separator handling. Windows
  uses `\` and accepts both separators.
- `declaration_pattern.dfy` (`DeclarationPattern`): the declaration regular
  expression of the scan. It comes in two forms:
  - a hand-written matcher, `MatchDeclaration`;
  - a declarative statement of the pattern's language and capture,
    `Declares`.

  `MatchDeclarationCorrect` proves that the two forms agree.
- `phpunit_command.dfy` (`BetterPhpUnit`): the rest of the model.
  - The inputs: the `Settings` and `Environment` datatypes.
  - The normalizer, proved by character position.
  - The fragment builders, each with a lemma stating its cases.
  - The method scan: a `while` loop (`ScanForMethod`) proved against the
    specification function `EnclosingMethod`.
  - The assembly by run mode (`Assemble`).
  - The class `PhpUnitCommand`, whose `Output` method fills the
    `lastOutput` cache once.

Everything the class reads from its host is an explicit input, in the
`Environment` datatype:

- the file name;
- the workspace root;
- the cursor line;
- the document lines;
- the platform;
- the settings;
- the result of the upward search for `phpunit.xml`/`phpunit.xml.dist`.

The source throws in some cases, and the model makes those cases
preconditions:

- `path.dirname` of a search that found nothing (`CanLocateConfig`);
- `lineAt` past the end of the document (`CursorInDocument`).

## Model

| member | source | states |
|---|---|---|
| BetterPhpUnit.Truthy | src/phpunit-command.js:24-70 | JavaScript truthiness of an optional string, as tested at lines 24, 46, 62 and 70: the value is set and not empty. |
| BetterPhpUnit.ModeOf | src/phpunit-command.js:26-32 | The full suite runs exactly when `runFullSuite` is set. The file runs exactly when only `runFile` is set. The method runs when neither is set, so running the suite takes precedence. |
| BetterPhpUnit.PhpUnitCommand.constructor | src/phpunit-command.js:6-16 | With no options both flags are false. Otherwise they are the options' flags. The cache starts empty. |
| BetterPhpUnit.PhpUnitCommand.Output | src/phpunit-command.js:18-35 | A set cache is returned unchanged, whatever the environment. Otherwise the mode's command is assembled, stored and returned. The result is never empty, so the cache is set after the first read. |
| BetterPhpUnit.ReadTwice | src/phpunit-command.js:18-21 | Two reads in different environments return the same string. When the cache was empty, that string is the command of the first read's environment. When it was set, it is the string already stored. |
| BetterPhpUnit.Assemble | src/phpunit-command.js:26-32 | The command of a run mode is never empty. |
| BetterPhpUnit.AssembleStartsWithBinary | src/phpunit-command.js:27-31 | Every command starts with the binary. |
| BetterPhpUnit.AssembleEndsWithSuffix | src/phpunit-command.js:27-31 | Every command ends with the command suffix. |
| BetterPhpUnit.FullSuiteIgnoresFile | src/phpunit-command.js:27 | For the same result of the configuration search, the full-suite command does not depend on the open file, the cursor or the document. The open file still matters through that search, which starts from it. |
| BetterPhpUnit.SingleFileIgnoresCursor | src/phpunit-command.js:29 | The file command does not depend on the cursor or the document, so it carries no filter. |
| BetterPhpUnit.MethodCommand | src/phpunit-command.js:31 | The method command is never empty. |
| BetterPhpUnit.MethodCommandInsertsFilter | src/phpunit-command.js:29-31 | The method command is the file command with the filter inserted right after the binary, a space and the file. Without a method name the method command equals the file command. |
| BetterPhpUnit.SingleMethodCommand | src/phpunit-command.js:29-31 | A method run needs everything a file run needs. Its command is the file command with the filter for the method the scan finds around the cursor inserted right after the binary, a space and the file. |
| BetterPhpUnit.ForwardSlashes | src/phpunit-command.js:112 | The first pass keeps the length. |
| BetterPhpUnit.ForwardSlashesAt | src/phpunit-command.js:112 | At every index a backslash becomes `/` and every other character is kept. |
| BetterPhpUnit.ForwardSlashesKeepsSpaces | src/phpunit-command.js:112 | The first pass keeps the number of spaces. |
| BetterPhpUnit.EscapeSpaces | src/phpunit-command.js:113 | The second pass never shortens its input. |
| BetterPhpUnit.EscapeSpacesLength | src/phpunit-command.js:113 | The second pass adds exactly one character per space. |
| BetterPhpUnit.EscapedHead | src/phpunit-command.js:113 | An escaped non-empty string never starts with a raw space. |
| BetterPhpUnit.EscapeSpacesEscapes | src/phpunit-command.js:113 | Escaping a string without backslashes leaves every space preceded by a backslash. Every backslash is then followed by a space. |
| BetterPhpUnit.ForwardSlashesAppend | src/phpunit-command.js:112 | The first pass distributes over concatenation. |
| BetterPhpUnit.EscapeSpacesAppend | src/phpunit-command.js:113 | The second pass distributes over concatenation. |
| BetterPhpUnit.EscapeSpacesNoSpace | src/phpunit-command.js:113 | A string without spaces is left as it is by the second pass. |
| BetterPhpUnit.NormalizePath | src/phpunit-command.js:110-114 | Normalization never shortens a path. |
| BetterPhpUnit.NormalizePathLength | src/phpunit-command.js:110-114 | The result is as long as the input plus the number of spaces in the input. |
| BetterPhpUnit.NormalizePathEscaped | src/phpunit-command.js:110-114 | The result has no raw space: every space is preceded by a backslash. Every backslash in the result is followed by a space. |
| BetterPhpUnit.NormalizePathAppend | src/phpunit-command.js:110-114 | Normalization distributes over concatenation. |
| BetterPhpUnit.NormalizeCharacter | src/phpunit-command.js:110-114 | A space becomes backslash-space, a backslash becomes `/`, and any other character is kept. |
| BetterPhpUnit.NormalizedCharacter | src/phpunit-command.js:110-114 | Input character i lands at i plus the number of spaces before it. A space there becomes backslash-space and a backslash becomes `/`. Every other character is unchanged, so the characters keep their order. |
| BetterPhpUnit.NormalizePlainPath | src/phpunit-command.js:110-114 | A path with neither spaces nor backslashes is unchanged. |
| BetterPhpUnit.NormalizeWithoutSpaces | src/phpunit-command.js:110-114 | Without spaces, normalization only turns backslashes into slashes, and the result has neither spaces nor backslashes. |
| BetterPhpUnit.NormalizePathIdempotentIff | src/phpunit-command.js:110-114 | Normalizing twice gives the same path as normalizing once exactly when the path has no space. |
| BetterPhpUnit.File | src/phpunit-command.js:37-39 | The file fragment is at least as long as the file name. |
| BetterPhpUnit.FileEscaped | src/phpunit-command.js:37-39 | The file fragment has no raw space and is one character longer per space of the file name. |
| BetterPhpUnit.SubDirectory | src/phpunit-command.js:79-91 | A sub-directory, when there is one, is neither the workspace root nor empty. |
| BetterPhpUnit.CodeceptionHasNoSubDirectory | src/phpunit-command.js:83-90 | Under Codeception there is no sub-directory, for any non-empty root of the model's `dirname`. Node's POSIX `dirname` differs for the root `/` (see Left out). |
| BetterPhpUnit.SubDirectoryOfSearch | src/phpunit-command.js:79-91 | Without Codeception the sub-directory is the directory of the file the search found. It is None when that directory is the root. |
| BetterPhpUnit.RunOption | src/phpunit-command.js:68 | The run option is empty or ` run`, and it is ` run` exactly under Codeception. |
| BetterPhpUnit.Runner | src/phpunit-command.js:66 | The runner's name is not empty and holds neither a space nor a backslash, so normalization leaves it unchanged. |
| BetterPhpUnit.BaseDirectory | src/phpunit-command.js:74-76 | The base directory determines the sub-directory: there is none exactly when the base directory is the workspace root, and otherwise the sub-directory is the base directory. |
| BetterPhpUnit.CommandStub | src/phpunit-command.js:66-67 | The runner stub is never empty. |
| BetterPhpUnit.StubPath | src/phpunit-command.js:66-67 | The stub is `vendor`, `bin` and the runner, joined with the platform's separator, plus `.bat` on Windows. |
| BetterPhpUnit.NormalizeSegment | src/phpunit-command.js:110-114 | A plain segment followed by a separator of either kind normalizes to the segment and `/`. |
| BetterPhpUnit.NormalizeSegments | src/phpunit-command.js:110-114 | Three plain segments joined by separators of either kind normalize to a path joined by `/`. |
| BetterPhpUnit.StubNormalized | src/phpunit-command.js:66-76 | The normalized stub is `vendor/bin/phpunit` or `vendor/bin/codecept`, plus `.bat` on Windows, on both platforms. |
| BetterPhpUnit.NormalizeJoined | src/phpunit-command.js:75-76 | Normalizing a joined path normalizes the directory part and the rest separately. |
| BetterPhpUnit.Binary | src/phpunit-command.js:65-77 | The binary fragment is never empty. |
| BetterPhpUnit.BinaryConfigured | src/phpunit-command.js:68-72 | A configured binary is used verbatim, without normalization. It is followed by ` run` exactly under Codeception. |
| BetterPhpUnit.BinaryFromVendor | src/phpunit-command.js:66-76 | Without a configured binary, the binary is built from the sub-directory, or the root when there is none. That directory is normalized and joined with a separator, then followed by `vendor/bin/`, the runner, `.bat` on Windows, and ` run` under Codeception. |
| BetterPhpUnit.NormalizeJoinedName | src/phpunit-command.js:55 | A plain file name joined to a directory passes through normalization unchanged after the directory. |
| BetterPhpUnit.SubDirectoryConfigFile | src/phpunit-command.js:55 | The sub-directory's configuration file is the normalized directory followed by `phpunit.xml`. It has no raw space. |
| BetterPhpUnit.Configuration | src/phpunit-command.js:49-57 | The clause is empty or starts with ` --configuration `. It is empty only when no configuration file is set. |
| BetterPhpUnit.ConfigurationCases | src/phpunit-command.js:49-57 | A non-null configured file wins and is emitted verbatim. Otherwise a sub-directory gives ` --configuration ` and its normalized `phpunit.xml`. Otherwise there is no clause. |
| BetterPhpUnit.Filter | src/phpunit-command.js:41-47 | The filter is empty exactly when no method name was found, or the name is empty. |
| BetterPhpUnit.FilterCases | src/phpunit-command.js:41-47 | The filter is empty exactly when no method was found. Under Codeception it is `:m` on every platform. Otherwise it is ` --filter '^.*::m'` on Windows and ` --filter '^.*::m( .*)?$'` elsewhere. |
| BetterPhpUnit.Suffix | src/phpunit-command.js:59-63 | The command suffix is empty exactly when its setting is unset or empty. |
| BetterPhpUnit.SuiteSuffix | src/phpunit-command.js:23-24 | The suite suffix is empty exactly when its setting is unset or empty. |
| BetterPhpUnit.SuffixCases | src/phpunit-command.js:59-63 | A set, non-empty command suffix is emitted as a space and the setting. |
| BetterPhpUnit.SuiteSuffixCases | src/phpunit-command.js:23-24 | A set, non-empty suite suffix is emitted as a space and the setting. |
| BetterPhpUnit.Nearest | src/phpunit-command.js:97-107 | The scan, for any line test, finds nothing at line 0. When the test accepts the starting line, that line's result is returned. |
| BetterPhpUnit.NearestNone | src/phpunit-command.js:97-107 | For any line test, the scan finds nothing exactly when no line from 1 to the cursor is accepted. |
| BetterPhpUnit.NearestFinds | src/phpunit-command.js:97-105 | When line k is accepted and no line after it up to the cursor is, the scan returns line k's result. |
| BetterPhpUnit.NearestFound | src/phpunit-command.js:97-105 | A result comes from the nearest accepted line k, with 1 <= k <= the cursor. |
| BetterPhpUnit.NearestReads | src/phpunit-command.js:97-98 | The scan reads only lines 1 to the cursor: line 0 and the lines below the cursor never matter. |
| BetterPhpUnit.EnclosingMethod | src/phpunit-command.js:93-108 | A method found is an identifier (one or more word characters). |
| BetterPhpUnit.EnclosingMethodNone | src/phpunit-command.js:93-108 | No method is found exactly when no line from 1 to the cursor matches the declaration pattern. |
| BetterPhpUnit.EnclosingMethodFound | src/phpunit-command.js:93-108 | A method found is the pattern's capture on some line k, with 1 <= k <= the cursor. No line after k up to the cursor matches the pattern. |
| BetterPhpUnit.ScanForMethod | src/phpunit-command.js:93-108 | The `while (line > 0)` loop with its `break` returns what `EnclosingMethod` specifies. |
| DeclarationPattern.IsWhitespace | src/phpunit-command.js:99 | JavaScript's `\s`: the WhiteSpace and LineTerminator characters, including the Unicode space separators and the byte-order mark. |
| DeclarationPattern.IsLineTerminator | src/phpunit-command.js:99 | The characters `.` does not match: line feed, carriage return, line separator and paragraph separator. Each of them is also whitespace. |
| DeclarationPattern.IsWordChar | src/phpunit-command.js:99 | JavaScript's `\w`: ASCII letters, digits and underscore. A word character is neither whitespace nor a line terminator. |
| DeclarationPattern.SkipWhitespace | src/phpunit-command.js:99 | A `\s*` ends at or after its start, within the line. |
| DeclarationPattern.SkipWhitespaceRun | src/phpunit-command.js:99 | The skipped run is all whitespace and cannot be extended. |
| DeclarationPattern.SkipWhitespaceIs | src/phpunit-command.js:99 | Any maximal run of whitespace from i is the one skipped. |
| DeclarationPattern.SkipWord | src/phpunit-command.js:99 | A `\w+` candidate ends at or after its start, within the line. |
| DeclarationPattern.SkipWordRun | src/phpunit-command.js:99 | The skipped run is all word characters and cannot be extended. |
| DeclarationPattern.SkipWordIs | src/phpunit-command.js:99 | Any maximal run of word characters from i is the one skipped. |
| DeclarationPattern.SkipVisibility | src/phpunit-command.js:99 | The optional visibility group ends at or after its start, within the line. |
| DeclarationPattern.SkipVisibilitySkips | src/phpunit-command.js:99 | What is skipped is `public`, `private`, `protected` or nothing. |
| DeclarationPattern.KeywordStart | src/phpunit-command.js:99 | The place where `function` must start lies within the line. |
| DeclarationPattern.NotAt | src/phpunit-command.js:99 | A literal is not at i when one of its characters differs. |
| DeclarationPattern.MatchName | src/phpunit-command.js:99 | A captured name is an identifier. |
| DeclarationPattern.MatchDeclaration | src/phpunit-command.js:99-101 | A captured name is an identifier. |
| DeclarationPattern.PrefixSound | src/phpunit-command.js:99 | When `function` is found, the leading whitespace, the keyword and the whitespace before it are where the pattern allows. |
| DeclarationPattern.NameSound | src/phpunit-command.js:99 | A name found comes with the rest of the pattern: whitespace, the name, whitespace, `(` and a rest without line terminators. |
| DeclarationPattern.MatchSound | src/phpunit-command.js:99-101 | Every match exhibits the decomposition the pattern describes, with the captured name. |
| DeclarationPattern.PrefixEndsAt | src/phpunit-command.js:99 | Wherever the pattern's prefix puts `function`, the matcher looks for it there. |
| DeclarationPattern.ScanWithoutKeyword | src/phpunit-command.js:99 | Without a keyword, the leading whitespace runs up to the `f` of `function`. |
| DeclarationPattern.ScanWithKeyword | src/phpunit-command.js:99 | A visibility keyword between whitespace runs is skipped whole. |
| DeclarationPattern.KeywordFound | src/phpunit-command.js:99 | Wherever the pattern puts `function`, the matcher finds it. |
| DeclarationPattern.NameEndsAt | src/phpunit-command.js:99 | The matcher captures exactly the name the pattern's pieces delimit. |
| DeclarationPattern.NameFound | src/phpunit-command.js:99 | Whatever name the rest of the pattern captures, the matcher captures it. |
| DeclarationPattern.MatchComplete | src/phpunit-command.js:99-101 | Every line the pattern describes is matched, with the described capture. |
| DeclarationPattern.Declares | src/phpunit-command.js:99 | The pattern's language with its capture: the line splits into whitespace, an optional `public`/`private`/`protected`, whitespace, `function`, whitespace, the captured word characters, whitespace, `(`, and a rest without line terminators. |
| DeclarationPattern.IsDeclaration | src/phpunit-command.js:99-100 | The line matches the pattern, whatever it captures (the test at line 100). |
| DeclarationPattern.MatchDeclarationCorrect | src/phpunit-command.js:99-101 | The matcher returns `name` exactly when the line matches the pattern with `name` as its first capture group. |
| DeclarationPattern.DeclarationMatched | src/phpunit-command.js:99-100 | The matcher finds something exactly on the lines the pattern matches. |
| NodePath.Separator | src/phpunit-command.js:66 | The separator `path.join` inserts is a separator of its platform. |
| NodePath.Join | src/phpunit-command.js:66 | `path.join` adds at most one character. |
| NodePath.JoinShape | src/phpunit-command.js:75-76 | The joined path starts with the first part and ends with the second. A separator lies where they meet. |
| NodePath.JoinSplits | src/phpunit-command.js:75-76 | Joining equals joining with the empty name and appending the second part. |
| NodePath.LastSeparator | src/phpunit-command.js:88-89 | The last separator's index is within the path, or -1. |
| NodePath.LastSeparatorIsLast | src/phpunit-command.js:88-89 | The index found holds a separator and no separator follows it. |
| NodePath.Dirname | src/phpunit-command.js:88-89 | `path.dirname` is never empty. |
| NodePath.DirnameOfName | src/phpunit-command.js:88-89 | A path without separators has `.` as its directory. |
| NodePath.DirnameOfRootChild | src/phpunit-command.js:88-89 | A path whose only separator leads has the root as its directory. |
| NodePath.DirnameStripsLastSegment | src/phpunit-command.js:88-89 | Otherwise the directory strips exactly the last separator and the segment after it. |
| NodePath.DirnameOfChild | src/phpunit-command.js:85-88 | The directory of `a/n`, for a name n without separators, is a. |
| NodePath.LastSeparatorOfSuffix | src/phpunit-command.js:85-88 | Appending a name without separators keeps the last separator. |

## Left out

- The host API (`vscode.workspace.getConfiguration`, `activeTextEditor`,
  `rootPath`, `lineAt`) is replaced by the `Environment` inputs. A document
  line is its text without the line terminator.
- The `find-up` search is not modelled: its result is the input
  `phpunitXml`. When it finds nothing and Codeception is off, the source
  throws in `path.dirname`. That case is the precondition
  `CanLocateConfig`, not modelled behaviour.
- `process.platform === "win32"` is the boolean `isWindows`.
- `NodePath.Join`: does not model Node's normalization of the joined path
  (`.` and `..` segments, repeated separators, an empty result becoming
  `.`). It only inserts one separator when the first part does not already
  end in one.
- `NodePath.Dirname`: does not model trailing separators, Windows drive
  letters, UNC roots or POSIX's `//` root. It cuts at the last separator.
  So for `//phpunit.xml` (Codeception with the workspace root `/`) Node
  gives `//` and the source emits a sub-directory and a
  ` --configuration /phpunit.xml` clause, where the model gives the root
  `/` and no sub-directory.
- The JavaScript regular-expression engine is not modelled. The one pattern
  the scan uses is written by hand (`DeclarationPattern`), with the full
  `\s` and `\w` classes and `.` excluding line terminators. It is proved
  equal to a declarative statement of that pattern.
- `xmlConfigFilepath` unset (`undefined`): the source tests only `!== null`,
  so `undefined` would print ` --configuration undefined`. The model has
  one absent value and treats it as `null`.
- Settings are read afresh on every getter call in the source. The model
  reads one `Settings` value per command, so a settings change between two
  getters of one read is not modelled.
- `lastOutput` unset is the empty string. This matches the source's
  truthiness test, because a command is never empty.
- The run flags are `bool`. The source copies whatever `options` holds, so
  a missing flag inside a present `options` object is `undefined`, which
  behaves as false.
- Running the command in a terminal, and everything else that consumes the
  string, is outside the class and not modelled.
