/**
  The command dispatcher of the command-line entry point: a token sequence is
  routed to the help text, the version line, the `greet` command, the `doctor`
  command or an unknown-command error, and the result is an exit code plus
  the writes made to standard output and to standard error.
 */
module Cli {
  import opened Text

  /** The package metadata the program reads at start-up. */
  datatype Package = Package(name: string, version: string)

  /** The runtime facts `doctor` reports: the runtime's version, the platform and the
      current working directory. */
  datatype Runtime = Runtime(nodeVersion: string, platform: string, cwd: string)

  /** What one invocation does: its exit code and, in order, the chunks it wrote to
      standard output and to standard error. */
  datatype Outcome = Outcome(code: int, out: seq<string>, err: seq<string>)

  /** `"<name> v<version>"`: the name and the version can be read back from it. */
  function VersionLine(p: Package): (s: string)
    ensures |s| == |p.name| + 2 + |p.version|
    ensures s[..|p.name|] == p.name && s[|p.name|..|p.name| + 2] == " v"
    ensures s[|p.name| + 2..] == p.version
    ensures SingleLine(p.name) && SingleLine(p.version) ==> SingleLine(s)
  {
    p.name + " v" + p.version
  }

  /** The ten lines of the usage text, the version line first. */
  function HelpLines(p: Package): (lines: seq<string>)
    ensures |lines| == 10 && lines[0] == VersionLine(p)
    ensures "Usage:" in lines && "Commands:" in lines
    ensures SingleLine(p.name) && SingleLine(p.version) ==> AllSingleLine(lines)
  {
    var lines := [ VersionLine(p),
      "",
      "Usage:",
      "  " + p.name + " <command> [args]",
      "  " + p.name + " --help",
      "  " + p.name + " --version",
      "",
      "Commands:",
      "  greet <name>   Print a greeting",
      "  doctor         Print runtime diagnostics" ];
    assert lines[2] == "Usage:" && lines[7] == "Commands:";
    assert SingleLine(p.name) && SingleLine(p.version) ==> AllSingleLine(lines) by {
      if SingleLine(p.name) && SingleLine(p.version) {
        forall i | 0 <= i < |lines| ensures SingleLine(lines[i]) {
          if i == 3 || i == 4 || i == 5 {
            SingleLineConcat("  ", p.name);
          }
        }
      }
    }
    lines
  }

  /** The usage text: the help lines joined with newlines. It begins with the version
      line and a newline, so it is strictly longer than the version line. */
  function HelpText(p: Package): (s: string)
    ensures |s| > |VersionLine(p)| + 1
    ensures s[..|VersionLine(p)| + 1] == VersionLine(p) + [Newline]
  {
    Join(HelpLines(p))
  }

  /** Help is asked for by giving no tokens, or `--help` or `-h` at any position. */
  predicate AsksForHelp(args: seq<string>) {
    |args| == 0 || "--help" in args || "-h" in args
  }

  /** The version is asked for by `--version` or `-v` at any position. */
  predicate AsksForVersion(args: seq<string>) {
    "--version" in args || "-v" in args
  }

  /** The name `greet` greets: the first remaining token unless it is missing or empty. */
  function GreetName(rest: seq<string>): (name: string)
    ensures name != ""
    ensures name == "friend" || (|rest| > 0 && name == rest[0])
    ensures |rest| > 0 && rest[0] != "" ==> name == rest[0]
  {
    if |rest| > 0 && rest[0] != "" then rest[0] else "friend"
  }

  /** `"Hello, <name>."`: the name stands between the fixed prefix and the period. */
  function Greeting(name: string): (g: string)
    ensures |g| == |name| + 8
    ensures g[..7] == "Hello, " && g[7..|g| - 1] == name && g[|g| - 1] == '.'
  {
    "Hello, " + name + "."
  }

  /** The three diagnostics lines, each a label followed by one runtime fact. */
  function DoctorLines(rt: Runtime): (lines: seq<string>)
    ensures |lines| == 3
    ensures |lines[0]| == 6 + |rt.nodeVersion| && |lines[1]| == 10 + |rt.platform|
    ensures |lines[2]| == 5 + |rt.cwd|
    ensures lines[0][..6] == "node: " && lines[0][6..] == rt.nodeVersion
    ensures lines[1][..10] == "platform: " && lines[1][10..] == rt.platform
    ensures lines[2][..5] == "cwd: " && lines[2][5..] == rt.cwd
    ensures SingleLine(rt.nodeVersion) && SingleLine(rt.platform) && SingleLine(rt.cwd)
        ==> AllSingleLine(lines)
  {
    [ "node: " + rt.nodeVersion,
      "platform: " + rt.platform,
      "cwd: " + rt.cwd ]
  }

  /** The two error lines: the rejected command, then where to find the usage. */
  function UnknownCommandLines(command: string, p: Package): (lines: seq<string>)
    ensures |lines| == 2
    ensures |lines[0]| == 17 + |command| && |lines[1]| == 24 + |p.name|
    ensures lines[0][..17] == "Unknown command: " && lines[0][17..] == command
    ensures lines[1][..5] == "Run '" && lines[1][5..5 + |p.name|] == p.name
    ensures lines[1][5 + |p.name|..] == " --help' for usage."
    ensures SingleLine(command) && SingleLine(p.name) ==> AllSingleLine(lines)
  {
    [ "Unknown command: " + command,
      "Run '" + p.name + " --help' for usage." ]
  }

  /** One invocation on the tokens `args`. */
  function Run(args: seq<string>, p: Package, rt: Runtime): (r: Outcome)
    ensures r.code == 0 || r.code == 1
    ensures r.code == 1 <==> r.err != []
    ensures r.out == [] || r.err == []
    ensures r.out != [] || r.err != []
    ensures AllEndLines(r.out) && AllEndLines(r.err)
  {
    if AsksForHelp(args) then
      Outcome(0, [Terminate(HelpText(p))], [])
    else if AsksForVersion(args) then
      Outcome(0, [Terminate(VersionLine(p))], [])
    else
      var command, rest := args[0], args[1..];
      if command == "greet" then
        Outcome(0, [Terminate(Greeting(GreetName(rest)))], [])
      else if command == "doctor" then
        var lines := DoctorLines(rt);
        Outcome(0, [Terminate(lines[0]), Terminate(lines[1]), Terminate(lines[2])], [])
      else
        var lines := UnknownCommandLines(command, p);
        Outcome(1, [], [Terminate(lines[0]), Terminate(lines[1])])
  }

  // Routing

  /** With a help flag anywhere, or no tokens at all, the help text is written once to
      standard output, nothing to standard error, and the exit code is 0. */
  lemma HelpRule(args: seq<string>, p: Package, rt: Runtime)
    requires AsksForHelp(args)
    ensures Run(args, p, rt) == Outcome(0, [Terminate(HelpText(p))], [])
  {
  }

  /** A help flag counts wherever it is placed among the other tokens. */
  lemma HelpFlagAtAnyPosition(args: seq<string>, i: nat, flag: string, p: Package, rt: Runtime)
    requires i <= |args|
    requires flag == "--help" || flag == "-h"
    ensures Run(args[..i] + [flag] + args[i..], p, rt) == Outcome(0, [Terminate(HelpText(p))], [])
  {
  }

  /** Help wins over version: with both kinds of flag the help text is written, which
      is never the version line. */
  lemma HelpWinsOverVersion(args: seq<string>, p: Package, rt: Runtime)
    requires AsksForHelp(args) && AsksForVersion(args)
    ensures Run(args, p, rt).out == [Terminate(HelpText(p))]
    ensures Run(args, p, rt).out != [Terminate(VersionLine(p))]
  {
  }

  /** Without a help flag, a version flag anywhere writes exactly the version line,
      whatever the first token is. */
  lemma VersionRule(args: seq<string>, p: Package, rt: Runtime)
    requires !AsksForHelp(args) && AsksForVersion(args)
    ensures Run(args, p, rt) == Outcome(0, [Terminate(VersionLine(p))], [])
  {
  }

  /** Without a help flag, a version flag counts wherever it is placed among the other
      tokens. */
  lemma VersionFlagAtAnyPosition(args: seq<string>, i: nat, flag: string, p: Package, rt: Runtime)
    requires "--help" !in args && "-h" !in args
    requires i <= |args|
    requires flag == "--version" || flag == "-v"
    ensures Run(args[..i] + [flag] + args[i..], p, rt) == Outcome(0, [Terminate(VersionLine(p))], [])
  {
  }

  /** Version wins over an unknown command placed before it. */
  lemma VersionBeatsUnknownCommand(p: Package, rt: Runtime)
    ensures Run(["bogus", "-v"], p, rt) == Outcome(0, [Terminate(VersionLine(p))], [])
  {
  }

  /** `greet` writes one greeting line to standard output and succeeds. */
  lemma GreetRule(args: seq<string>, p: Package, rt: Runtime)
    requires !AsksForHelp(args) && !AsksForVersion(args) && args[0] == "greet"
    ensures Run(args, p, rt) == Outcome(0, [Terminate(Greeting(GreetName(args[1..])))], [])
  {
  }

  /** The token after `greet` is used as it is, even when it looks like a flag. */
  lemma GreetTakesFlagAsName(p: Package, rt: Runtime)
    ensures Run(["greet", "--invalid"], p, rt) == Outcome(0, ["Hello, --invalid.\n"], [])
  {
    var args := ["greet", "--invalid"];
    assert args[1..] == ["--invalid"];
    assert Terminate(Greeting("--invalid")) == "Hello, --invalid.\n";
  }

  /** `greet` with no name, or an empty one, greets "friend". */
  lemma GreetDefaultsToFriend(p: Package, rt: Runtime)
    ensures Run(["greet"], p, rt).out == ["Hello, friend.\n"]
    ensures Run(["greet", ""], p, rt).out == ["Hello, friend.\n"]
  {
    assert ["greet", ""][1..] == [""];
    assert Terminate(Greeting("friend")) == "Hello, friend.\n";
  }

  /** Tokens after the name do not change what `greet` writes. */
  lemma GreetIgnoresTail(name: string, tail: seq<string>, p: Package, rt: Runtime)
    requires !AsksForHelp(["greet", name] + tail) && !AsksForVersion(["greet", name] + tail)
    ensures Run(["greet", name] + tail, p, rt) == Run(["greet", name], p, rt)
    ensures Run(["greet", name] + tail, p, rt).out == [Terminate(Greeting(GreetName([name])))]
  {
  }

  /** `doctor` writes the runtime's version, the platform and the working directory, in
      that order, on three lines of standard output, and succeeds. */
  lemma DoctorRule(args: seq<string>, p: Package, rt: Runtime)
    requires !AsksForHelp(args) && !AsksForVersion(args) && args[0] == "doctor"
    ensures Run(args, p, rt) == Outcome(0, TerminateAll(DoctorLines(rt)), [])
  {
  }

  /** Tokens after `doctor` do not change what it writes. */
  lemma DoctorIgnoresTail(tail: seq<string>, p: Package, rt: Runtime)
    requires !AsksForHelp(["doctor"] + tail) && !AsksForVersion(["doctor"] + tail)
    ensures Run(["doctor"] + tail, p, rt) == Run(["doctor"], p, rt)
  {
  }

  /** Any other first token writes the two error lines to standard error, nothing to
      standard output, and fails. */
  lemma UnknownCommandRule(args: seq<string>, p: Package, rt: Runtime)
    requires !AsksForHelp(args) && !AsksForVersion(args)
    requires args[0] != "greet" && args[0] != "doctor"
    ensures Run(args, p, rt) == Outcome(1, [], TerminateAll(UnknownCommandLines(args[0], p)))
  {
  }

  /** `help` is not a command: it is reported as unknown. */
  lemma HelpWordIsUnknownCommand(p: Package, rt: Runtime)
    ensures Run(["help"], p, rt)
         == Outcome(1, [], ["Unknown command: help\n", "Run '" + p.name + " --help' for usage.\n"])
  {
    var lines := UnknownCommandLines("help", p);
    assert Terminate(lines[0]) == "Unknown command: help\n";
    assert Terminate(lines[1]) == "Run '" + p.name + " --help' for usage.\n";
  }

  /** The exit code is 0 exactly when help or the version is asked for or the first
      token names one of the two commands. */
  lemma SucceedsIff(args: seq<string>, p: Package, rt: Runtime)
    ensures Run(args, p, rt).code == 0
        <==> AsksForHelp(args) || AsksForVersion(args) || args[0] == "greet" || args[0] == "doctor"
  {
  }

  // What a reader of the streams sees

  /** The help text read back line by line: the version line first, the usage and the
      command sections, provided the package name and version hold no newline. */
  lemma HelpTextLines(p: Package)
    requires SingleLine(p.name) && SingleLine(p.version)
    ensures Split(HelpText(p)) == HelpLines(p)
    ensures Split(HelpText(p))[0] == VersionLine(p)
    ensures "Usage:" in Split(HelpText(p)) && "Commands:" in Split(HelpText(p))
  {
    SplitJoin(HelpLines(p));
  }

  /** A help invocation leaves on standard output exactly the help lines, each ended by
      a newline. */
  lemma HelpReadBack(args: seq<string>, p: Package, rt: Runtime)
    requires AsksForHelp(args)
    requires SingleLine(p.name) && SingleLine(p.version)
    ensures ReadLines(Run(args, p, rt).out) == HelpLines(p) + [""]
    ensures ReadLines(Run(args, p, rt).err) == [""]
  {
    var text := HelpText(p);
    assert Transcript([Terminate(text)]) == text + [Newline] + "";
    SplitAtNewline(text, "");
    HelpTextLines(p);
  }

  /** A `doctor` invocation leaves on standard output exactly its three lines, provided
      the runtime facts hold no newline. */
  lemma DoctorReadBack(args: seq<string>, p: Package, rt: Runtime)
    requires !AsksForHelp(args) && !AsksForVersion(args) && args[0] == "doctor"
    requires SingleLine(rt.nodeVersion) && SingleLine(rt.platform) && SingleLine(rt.cwd)
    ensures ReadLines(Run(args, p, rt).out)
         == ["node: " + rt.nodeVersion, "platform: " + rt.platform, "cwd: " + rt.cwd, ""]
  {
    DoctorRule(args, p, rt);
    ReadLinesOfLines(DoctorLines(rt));
  }

  /** An unknown command leaves on standard error exactly its two lines, provided the
      command and the package name hold no newline. */
  lemma UnknownCommandReadBack(args: seq<string>, p: Package, rt: Runtime)
    requires !AsksForHelp(args) && !AsksForVersion(args)
    requires args[0] != "greet" && args[0] != "doctor"
    requires SingleLine(args[0]) && SingleLine(p.name)
    ensures ReadLines(Run(args, p, rt).err)
         == ["Unknown command: " + args[0], "Run '" + p.name + " --help' for usage.", ""]
  {
    var lines := UnknownCommandLines(args[0], p);
    UnknownCommandRule(args, p, rt);
    ReadLinesOfLines(lines);
  }
}
