# toolbox-starter-node-cli: the command dispatcher, in Dafny

The program is a small command-line entry point. `run(args, io)` handles one
invocation. It takes the command-line tokens, writes lines to standard output
or to standard error, and returns an exit code. The first matching rule below
decides the result:

1. No tokens, or `--help` / `-h` anywhere: the help text goes to standard output. Exit code 0.
2. `--version` / `-v` anywhere: `"<name> v<version>"` goes to standard output. Exit code 0.
3. First token `greet`: `"Hello, <name>."` goes to standard output. Exit code 0.
   The name is the second token, or `"friend"` if that token is missing or empty.
4. First token `doctor`: three lines go to standard output. They give the runtime version, the platform and the working directory. Exit code 0.
5. Anything else: two lines go to standard error, `"Unknown command: <command>"` and `"Run '<name> --help' for usage."`. Exit code 1.

Each line goes to the stream as one write, with `"\n"` added at the end. The
help text is a single write: its ten lines are joined with `"\n"`.

The project has two modules:

- `Text` (`text.dfy`) models JavaScript's `join("\n")` (`Join`) and the same text split back at each newline (`Split`). `Terminate` is one line-writer call. `Transcript` and `ReadLines` give what a reader of a stream sees after a run of writes. Lemmas show that `Split` undoes `Join` for one or more lines none of which holds a newline, and that `Join` undoes `Split` for every text.
- `Cli` (`cli.dfy`) holds the metadata record `Package`, the runtime facts `Runtime` and the result `Outcome(code, out, err)`. `out` and `err` are the chunks passed to each stream's `write`, in order. `HelpText` and the dispatcher `Run` are written as functions, like the source's `if … return` chain. The lemmas state the routing rules and what a reader finds on each stream.

The test file (test/smoke.test.js) expects more than `src/index.js` does. It
expects a `--upper` greeting, rejection of unknown flags, `doctor --json`,
a `ci` diagnostic (with runtime data passed as a third argument that `run` does
not take), `doctor [--json]` in the help text, a `help`
subcommand, an "Available commands" line and a check that rejects non-array
arguments. The code
implements none of these. The model follows the code: `HelpWordIsUnknownCommand`
shows that `help` is rejected, and `GreetTakesFlagAsName` shows that a token like
`--invalid` becomes the greeted name.

## Model

| member | source | states |
|---|---|---|
| Cli.Run | src/index.js:27-59 | The exit code is always 0 or 1. It is 1 exactly when standard error was written. Standard output and standard error are never both written, and at least one of them always is. Every write ends with a newline. |
| Cli.VersionLine | src/index.js:14 | `"<name> v<version>"`, the line written by `--version` (line 37) and the first help line: its length is the two lengths plus 2, the name comes first, then `" v"`, then the version (both recoverable), and it holds no newline when they hold none. |
| Cli.HelpLines | src/index.js:13-23 | The ten help lines: the first is the version line, `"Usage:"` and `"Commands:"` are among them, and none holds a newline when the name and version hold none. |
| Cli.HelpText | src/index.js:12-25 | `helpText()`, the help lines joined with `"\n"`: the text starts with the version line followed by a newline, so it is strictly longer than the version line. |
| Text.Join | src/index.js:24 | `.join("\n")`: no lines give the empty text; otherwise the length is the lines' total length plus one newline between each pair of neighbours, and with two or more lines the text starts with the first line and a newline. Its partners are `SplitJoin` and `JoinSplit`. |
| Cli.AsksForHelp | src/index.js:31 | The help condition of line 31 as sequence membership: no tokens, or `--help` or `-h` is an element. That any position counts is stated by `HelpFlagAtAnyPosition`. |
| Cli.AsksForVersion | src/index.js:36 | The version condition of line 36 as sequence membership: `--version` or `-v` is an element. That any position counts is stated by `VersionFlagAtAnyPosition`. |
| Cli.Greeting | src/index.js:45 | `"Hello, <name>."`: length `|name| + 8`, the prefix `"Hello, "`, then the name unchanged, then a period. |
| Cli.DoctorLines | src/index.js:50-52 | Three lines, `node: `, `platform: ` and `cwd: ` each followed by its runtime fact unchanged; none holds a newline when the facts hold none. |
| Cli.UnknownCommandLines | src/index.js:56-57 | Two lines: `"Unknown command: "` followed by the command unchanged, then `"Run '"`, the package name and `" --help' for usage."`; none holds a newline when the command and name hold none. |
| Cli.HelpRule | src/index.js:31-34 | No tokens, or a help flag anywhere: the outcome is exit code 0, the help text written once to standard output, and nothing on standard error. |
| Cli.HelpFlagAtAnyPosition | src/index.js:31 | `--help` or `-h` inserted at any position of any token sequence gives the help outcome. |
| Cli.HelpWinsOverVersion | src/index.js:31-39 | With a help flag and a version flag, standard output gets the help text. That is never the version line, because the help text is strictly longer. |
| Cli.VersionRule | src/index.js:36-39 | With no help flag and a version flag anywhere, the outcome is exactly the version line on standard output with exit code 0. |
| Cli.VersionFlagAtAnyPosition | src/index.js:36-39 | With no help flag among the tokens, `--version` or `-v` inserted at any position gives exactly the version line on standard output and exit code 0. |
| Cli.VersionBeatsUnknownCommand | src/index.js:36-41 | `["bogus", "-v"]` writes the version line and succeeds. The unknown first token is never looked at. |
| Cli.GreetName | src/index.js:44 | The greeted name is never empty. It is the first remaining token when that token exists and is non-empty, and `"friend"` otherwise. |
| Cli.GreetRule | src/index.js:43-47 | `greet` writes exactly one standard-output line, `"Hello, <GreetName(rest)>."`, and returns 0. |
| Cli.GreetTakesFlagAsName | src/index.js:44-45 | `["greet", "--invalid"]` writes `"Hello, --invalid.\n"` and returns 0. A token that looks like a flag is used as the name, verbatim. |
| Cli.GreetDefaultsToFriend | src/index.js:44 | `["greet"]` and `["greet", ""]` both greet `"friend"`. |
| Cli.GreetIgnoresTail | src/index.js:44-46 | Tokens after the name do not change the outcome of `greet`, as long as none of them is a help or version flag. |
| Cli.DoctorRule | src/index.js:49-54 | `doctor` writes exactly three standard-output lines: node version, platform, cwd, in that order. It returns 0. |
| Cli.DoctorIgnoresTail | src/index.js:49-54 | Tokens after `doctor` do not change its outcome, as long as none of them is a help or version flag. |
| Cli.UnknownCommandRule | src/index.js:41-58 | Any other first token writes exactly two standard-error lines, `"Unknown command: <command>"` then `"Run '<name> --help' for usage."`. Nothing goes to standard output, and the exit code is 1. |
| Cli.HelpWordIsUnknownCommand | src/index.js:41-58 | `["help"]` is an unknown command: exit code 1 and the two error lines. |
| Cli.SucceedsIff | src/index.js:31-58 | The exit code is 0 exactly when help or the version is asked for, or the first token is `greet` or `doctor`. |
| Cli.HelpTextLines | src/index.js:12-25 | If the package name and version hold no newline, splitting the help text at newlines gives back its ten lines. The first is the version line, and the lines include `"Usage:"` and `"Commands:"`. |
| Cli.HelpReadBack | src/index.js:28-34 | A reader of standard output after a help invocation finds exactly the help lines, then the empty piece after the final newline. Standard error is empty. |
| Cli.DoctorReadBack | src/index.js:49-54 | If the runtime facts hold no newline, a reader of standard output after `doctor` finds exactly its three lines. |
| Cli.UnknownCommandReadBack | src/index.js:56-58 | If the command and the package name hold no newline, a reader of standard error after an unknown command finds exactly its two lines. |
| Text.SplitJoin | src/index.js:13-24 | Splitting the text made by `join("\n")` gives back the joined lines, for one or more lines none of which holds a newline. (For no lines at all, `join` gives the empty text, which splits into one empty piece.) |
| Text.JoinSplit | src/index.js:24 | Joining the pieces of a split with `"\n"` gives back the original text, for every text. |
| Text.SplitAtNewline | src/index.js:24 | Splitting `a + "\n" + b` gives the pieces of `a` followed by the pieces of `b`. A step towards `SplitJoin` and the read-back lemmas: `Split` is the reader's side and models no source line; the newline it cuts at is the separator `join` inserts. |
| Text.SplitSingleLine | src/index.js:24 | Text without a newline splits into itself alone. A step towards `SplitJoin`; it models no source line itself. |
| Text.Terminate | src/index.js:28-29 | A line writer's chunk ends with a newline, and dropping that newline gives back the line. |
| Text.TerminateAll | src/index.js:28-29 | Writing lines one after another gives one chunk per line, in order, each being that line with its newline. |
| Text.TranscriptOfLines | src/index.js:28-29 | The stream text after writing lines one by one is those lines joined with `"\n"`, followed by a final newline. |
| Text.ReadLinesOfLines | src/index.js:28-29 | A reader of a stream written line by line gets the lines back, followed by the empty piece after the last newline. |

## Left out

- Reading and parsing `package.json` at module load (src/index.js:3-10) is file I/O. The name and version come in as the `Package` parameter.
- `process.version`, `process.platform` and `process.cwd()` (src/index.js:50-52) are process globals. They come in as the `Runtime` parameter.
- Cli.Run: the `Runtime` abstraction gives the working directory as a string, so the run where `process.cwd()` throws is not modelled. That happens when the directory has been removed. The `node:` and `platform:` lines are already written when it throws, and `run` then returns no exit code. `Run`'s guarantees (exit code 0 or 1, stdout and stderr never both written) do not cover that run.
- The default `io = process` (src/index.js:27), the entry-point check and the `process.exitCode` wiring (src/index.js:61-63) are process plumbing.
- Arguments that are not an array are not modelled. The tokens are a `seq<string>`, so `includes` means element membership. For a JavaScript string, `includes` would instead test for a substring and destructuring would yield characters.
- Cli.HelpTextLines, Cli.HelpReadBack, Cli.DoctorReadBack, Cli.UnknownCommandReadBack: these read-back lemmas assume the strings written hold no newline. Otherwise one write would read back as several lines.
- The test file's extra expectations are not modelled, because `src/index.js` does not implement them: `doctor [--json]` in the help text (test/smoke.test.js:37), upper-casing, unknown-option errors, JSON diagnostics, a `ci` line (its runtime data is passed as a third argument that `run` does not take), "Available commands:", a `help` alias and the non-array error.
