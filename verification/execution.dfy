/**
 * The execution service: splitting a command into a program and its
 * arguments, running a list of commands on the host with fail-fast
 * semantics, and running them as one shell script inside a docker container.
 *
 * Processes are not spawned here. What a started process does is given as an
 * outcome value (its exit code or a timeout, with the lines it printed), and
 * every call reports, besides its result, the process starts it attempted.
 */
module Execution {
  import opened Wrappers
  import opened Text

  /** The service's result record; a new one has exit code 0 and empty output. */
  datatype ExecutionResult = ExecutionResult(exitCode: int, stdOut: string, stdErr: string)

  const DefaultResult := ExecutionResult(0, "", "")

  /**
   * One attempt to start an external process: the program, its argument
   * string, and the working directory it is given (None: the service's own).
   */
  datatype Invocation = Invocation(program: string, arguments: string, directory: Option<string>)

  /** What a call returns, together with every process start it attempted, in order. */
  datatype Report = Report(result: ExecutionResult, started: seq<Invocation>)

  // ---------------------------------------------------------------------------
  // Tokenising a command
  // ---------------------------------------------------------------------------

  /** A piece of a split command: non-empty and free of spaces (tabs are ordinary characters). */
  predicate IsToken(t: string)
  {
    |t| > 0 && ' ' !in t
  }

  /** The characters of `s` other than ' ', in order. */
  function WithoutSpaces(s: string): (squeezed: string)
  {
    if |s| == 0 then "" else (if s[0] == ' ' then "" else [s[0]]) + WithoutSpaces(s[1..])
  }

  /**
   * cmd.Split(' ', RemoveEmptyEntries): only the space character separates,
   * and empty pieces are dropped.
   */
  function SplitCommand(cmd: string): (parts: seq<string>)
    ensures forall k :: 0 <= k < |parts| ==> IsToken(parts[k])
    ensures Concat(parts) == WithoutSpaces(cmd)
  {
    SplitFrom(cmd, "")
  }

  /** Splits `rest`, where `current` is the token read so far. */
  function SplitFrom(rest: string, current: string): (parts: seq<string>)
    requires ' ' !in current
    ensures forall k :: 0 <= k < |parts| ==> IsToken(parts[k])
    ensures Concat(parts) == current + WithoutSpaces(rest)
    decreases |rest|
  {
    if |rest| == 0 then
      (if |current| == 0 then [] else [current])
    else if rest[0] == ' ' then
      var tail := SplitFrom(rest[1..], "");
      SkipSpace(rest);
      if |current| == 0 then tail
      else
        ConcatCons(current, tail);
        [current] + tail
    else
      var tail := SplitFrom(rest[1..], current + [rest[0]]);
      KeepChar(rest, current);
      tail
  }

  lemma ConcatCons(x: string, xs: seq<string>)
    ensures Concat([x] + xs) == x + Concat(xs)
  {
    assert ([x] + xs)[1..] == xs;
  }

  lemma SkipSpace(rest: string)
    requires |rest| > 0 && rest[0] == ' '
    ensures WithoutSpaces(rest) == WithoutSpaces(rest[1..])
  {
  }

  lemma KeepChar(rest: string, current: string)
    requires |rest| > 0 && rest[0] != ' '
    ensures current + [rest[0]] + WithoutSpaces(rest[1..]) == current + WithoutSpaces(rest)
  {
  }

  /** Reading a run of non-space characters extends the current token. */
  lemma {:induction false} SplitFromToken(t: string, rest: string, current: string)
    requires ' ' !in t && ' ' !in current
    ensures SplitFrom(t + rest, current) == SplitFrom(rest, current + t)
    decreases |t|
  {
    if |t| > 0 {
      assert (t + rest)[0] == t[0];
      assert (t + rest)[1..] == t[1..] + rest;
      SplitFromToken(t[1..], rest, current + [t[0]]);
      assert current + [t[0]] + t[1..] == current + t;
    } else {
      assert t + rest == rest;
      assert current + t == current;
    }
  }

  lemma {:induction false} SplitFromJoin(tokens: seq<string>, current: string)
    requires |tokens| > 0
    requires forall k :: 0 <= k < |tokens| ==> IsToken(tokens[k])
    requires ' ' !in current
    ensures SplitFrom(Join(tokens, " "), current) == [current + tokens[0]] + tokens[1..]
    decreases |tokens|
  {
    if |tokens| == 1 {
      SplitFromToken(tokens[0], "", current);
      assert tokens[0] + "" == tokens[0];
    } else {
      var rest := Join(tokens[1..], " ");
      assert Join(tokens, " ") == tokens[0] + (" " + rest);
      SplitFromToken(tokens[0], " " + rest, current);
      assert (" " + rest)[1..] == rest;
      SplitFromJoin(tokens[1..], "");
      assert "" + tokens[1] == tokens[1];
      assert [tokens[1]] + tokens[1..][1..] == tokens[1..];
    }
  }

  /** Tokens joined with single spaces split back into the same tokens. */
  lemma {:induction false} SplitCommandJoin(tokens: seq<string>)
    requires forall k :: 0 <= k < |tokens| ==> IsToken(tokens[k])
    ensures SplitCommand(Join(tokens, " ")) == tokens
  {
    if |tokens| > 0 {
      SplitFromJoin(tokens, "");
      assert "" + tokens[0] == tokens[0];
    }
  }

  /**
   * A non-empty command without the space character is one token, whatever
   * else it contains: a tab, for instance, does not separate.
   */
  lemma SplitCommandOneToken(cmd: string)
    requires IsToken(cmd)
    ensures SplitCommand(cmd) == [cmd]
  {
    SplitFromToken(cmd, "", "");
    assert cmd + "" == cmd && "" + cmd == cmd;
  }

  /** A space ends the token being built; what follows it is split afresh. */
  lemma {:induction false} SplitFromAtSpace(a: string, b: string, current: string)
    requires ' ' !in current
    ensures SplitFrom(a + " " + b, current) == SplitFrom(a, current) + SplitFrom(b, "")
    decreases |a|
  {
    var s := a + " " + b;
    if |a| == 0 {
      assert s[0] == ' ' && s[1..] == b;
      assert [] + SplitFrom(b, "") == SplitFrom(b, "");
    } else {
      assert s[0] == a[0] && s[1..] == a[1..] + " " + b;
      if a[0] == ' ' {
        SplitFromAtSpace(a[1..], b, "");
        Assoc([current], SplitFrom(a[1..], ""), SplitFrom(b, ""));
      } else {
        SplitFromAtSpace(a[1..], b, current + [a[0]]);
      }
    }
  }

  /**
   * Every space is a token boundary: a command split at any one of its spaces
   * gives the tokens of the part before it followed by those of the part
   * after it. With SplitCommandOneToken and SplitCommandBlank this fixes the
   * split of every command.
   */
  lemma SplitCommandAtSpace(a: string, b: string)
    ensures SplitCommand(a + " " + b) == SplitCommand(a) + SplitCommand(b)
  {
    SplitFromAtSpace(a, b, "");
  }

  lemma {:induction false} WithoutSpacesEmpty(s: string)
    ensures WithoutSpaces(s) == "" <==> forall k :: 0 <= k < |s| ==> s[k] == ' '
  {
    if |s| > 0 {
      WithoutSpacesEmpty(s[1..]);
      assert forall k :: 1 <= k < |s| ==> s[k] == s[1..][k - 1];
    }
  }

  /** A command splits into nothing exactly when it consists of spaces only. */
  lemma SplitCommandBlank(cmd: string)
    ensures SplitCommand(cmd) == [] <==> forall k :: 0 <= k < |cmd| ==> cmd[k] == ' '
  {
    var parts := SplitCommand(cmd);
    WithoutSpacesEmpty(cmd);
    if parts != [] {
      assert IsToken(parts[0]);
      assert Concat(parts) == parts[0] + Concat(parts[1..]);
    }
  }

  /** The process started for a non-blank command: its first token, and the other tokens joined by spaces. */
  function InvocationOf(directory: string, parts: seq<string>): (inv: Invocation)
    requires |parts| > 0
  {
    Invocation(parts[0], Join(parts[1..], " "), Some(directory))
  }

  /** The started program and its arguments re-split give back exactly the command's tokens. */
  lemma InvocationKeepsTokens(directory: string, cmd: string)
    requires SplitCommand(cmd) != []
    ensures var inv := InvocationOf(directory, SplitCommand(cmd));
      [inv.program] + SplitCommand(inv.arguments) == SplitCommand(cmd)
  {
    var parts := SplitCommand(cmd);
    SplitCommandJoin(parts[1..]);
  }

  // ---------------------------------------------------------------------------
  // Running commands on the host
  // ---------------------------------------------------------------------------

  /** How one started process ended, with the lines it wrote to each stream before that. */
  datatype Outcome =
    | Exited(code: int, outLines: seq<string>, errLines: seq<string>)
    | TimedOut(outLines: seq<string>, errLines: seq<string>)

  /**
   * Runs `commands` in order on the host, starting each process in
   * `directory`. `outcomes[k]` is how the process of `commands[k]` ends if it
   * is started; a command that splits into nothing is skipped and its outcome
   * is never consulted.
   */
  function Run(directory: string, commands: seq<string>, outcomes: seq<Outcome>): (report: Report)
    requires |outcomes| == |commands|
  {
    RunFrom(directory, commands, outcomes, [], [], [])
  }

  /** The loop of Run, with the output lines and process starts accumulated so far. */
  function RunFrom(directory: string, commands: seq<string>, outcomes: seq<Outcome>,
                   out: seq<string>, err: seq<string>, started: seq<Invocation>): (report: Report)
    requires |outcomes| == |commands|
    decreases |commands|
  {
    if |commands| == 0 then
      Report(ExecutionResult(0, Unlines(out), Unlines(err)), started)
    else
      var parts := SplitCommand(commands[0]);
      if |parts| == 0 then
        RunFrom(directory, commands[1..], outcomes[1..], out, err, started)
      else
        var started' := started + [InvocationOf(directory, parts)];
        match outcomes[0]
        case TimedOut(o, e) =>
          Report(ExecutionResult(-1, Unlines(out + o), Unlines(err + e + [TimeoutLine(commands[0])])), started')
        case Exited(code, o, e) =>
          if code != 0 then Report(ExecutionResult(code, Unlines(out + o), Unlines(err + e)), started')
          else RunFrom(directory, commands[1..], outcomes[1..], out + o, err + e, started')
  }

  function TimeoutLine(cmd: string): (line: string)
  {
    "Command timed out: " + cmd
  }

  // The reference description of Run's result, independent of its loop.

  /** A command is started when it splits into at least one token. */
  predicate Starts(cmd: string)
  {
    SplitCommand(cmd) != []
  }

  predicate Fails(outcome: Outcome)
  {
    outcome.TimedOut? || outcome.code != 0
  }

  /** Running stops at command `i`: it is started and its process fails. */
  predicate StopsAt(commands: seq<string>, outcomes: seq<Outcome>, i: nat)
    requires |outcomes| == |commands|
  {
    i < |commands| && Starts(commands[i]) && Fails(outcomes[i])
  }

  predicate IsFirstStop(commands: seq<string>, outcomes: seq<Outcome>, i: nat)
    requires |outcomes| == |commands|
  {
    StopsAt(commands, outcomes, i) && forall j: nat :: j < i ==> !StopsAt(commands, outcomes, j)
  }

  predicate NeverStops(commands: seq<string>, outcomes: seq<Outcome>)
    requires |outcomes| == |commands|
  {
    forall j: nat :: j < |commands| ==> !StopsAt(commands, outcomes, j)
  }

  /** The stdout lines one command contributes: its process's, if it is started. */
  function OutOf(cmd: string, outcome: Outcome): (lines: seq<string>)
  {
    if Starts(cmd) then outcome.outLines else []
  }

  function ErrOf(cmd: string, outcome: Outcome): (lines: seq<string>)
  {
    if Starts(cmd) then outcome.errLines else []
  }

  /** The process one command becomes, if it is started. */
  function InvocationsOf(directory: string, cmd: string): (starts: seq<Invocation>)
  {
    if Starts(cmd) then [InvocationOf(directory, SplitCommand(cmd))] else []
  }

  /** The stdout lines of the started commands, in order. */
  function StartedOut(commands: seq<string>, outcomes: seq<Outcome>): (lines: seq<string>)
    requires |outcomes| == |commands|
  {
    if |commands| == 0 then [] else OutOf(commands[0], outcomes[0]) + StartedOut(commands[1..], outcomes[1..])
  }

  /** The stderr lines of the started commands, in order. */
  function StartedErr(commands: seq<string>, outcomes: seq<Outcome>): (lines: seq<string>)
    requires |outcomes| == |commands|
  {
    if |commands| == 0 then [] else ErrOf(commands[0], outcomes[0]) + StartedErr(commands[1..], outcomes[1..])
  }

  /** The processes the started commands become, in order. */
  function Invocations(directory: string, commands: seq<string>): (starts: seq<Invocation>)
  {
    if |commands| == 0 then [] else InvocationsOf(directory, commands[0]) + Invocations(directory, commands[1..])
  }

  /** The exit code reported for the command that stopped the run. */
  function StopCode(outcome: Outcome): (code: int)
  {
    if outcome.TimedOut? then -1 else outcome.code
  }

  /** The diagnostic line appended to stderr when the command that stopped the run timed out. */
  function StopNote(cmd: string, outcome: Outcome): (note: seq<string>)
  {
    if outcome.TimedOut? then [TimeoutLine(cmd)] else []
  }

  /** The first command at which running stops, or |commands| when it never stops. */
  function FirstStop(commands: seq<string>, outcomes: seq<Outcome>): (i: nat)
    requires |outcomes| == |commands|
    ensures i <= |commands|
    ensures i < |commands| ==> IsFirstStop(commands, outcomes, i)
    ensures i == |commands| ==> NeverStops(commands, outcomes)
  {
    FirstStopFrom(commands, outcomes, 0)
  }

  function FirstStopFrom(commands: seq<string>, outcomes: seq<Outcome>, from: nat): (i: nat)
    requires |outcomes| == |commands|
    requires from <= |commands|
    requires forall j: nat :: j < from ==> !StopsAt(commands, outcomes, j)
    ensures from <= i <= |commands|
    ensures forall j: nat :: j < i ==> !StopsAt(commands, outcomes, j)
    ensures i < |commands| ==> StopsAt(commands, outcomes, i)
    decreases |commands| - from
  {
    if from == |commands| || StopsAt(commands, outcomes, from) then from
    else FirstStopFrom(commands, outcomes, from + 1)
  }

  lemma StopsAtTail(commands: seq<string>, outcomes: seq<Outcome>, j: nat)
    requires |outcomes| == |commands| && |commands| > 0
    ensures StopsAt(commands[1..], outcomes[1..], j) == StopsAt(commands, outcomes, j + 1)
  {
  }

  /** A command that does not stop the run adds its own output and process start, then the loop goes on. */
  lemma RunFromContinues(directory: string, commands: seq<string>, outcomes: seq<Outcome>,
                         out: seq<string>, err: seq<string>, started: seq<Invocation>)
    requires |outcomes| == |commands| && |commands| > 0
    requires !StopsAt(commands, outcomes, 0)
    ensures RunFrom(directory, commands, outcomes, out, err, started) ==
      RunFrom(directory, commands[1..], outcomes[1..], out + OutOf(commands[0], outcomes[0]),
              err + ErrOf(commands[0], outcomes[0]), started + InvocationsOf(directory, commands[0]))
  {
    if !Starts(commands[0]) {
      assert out + [] == out && err + [] == err && started + [] == started;
    }
  }

  /** The command that stops the run decides its result. */
  lemma RunFromStopsHere(directory: string, commands: seq<string>, outcomes: seq<Outcome>,
                         out: seq<string>, err: seq<string>, started: seq<Invocation>)
    requires |outcomes| == |commands|
    requires StopsAt(commands, outcomes, 0)
    ensures RunFrom(directory, commands, outcomes, out, err, started) == Report(
      ExecutionResult(StopCode(outcomes[0]),
                      Unlines(out + outcomes[0].outLines),
                      Unlines(err + outcomes[0].errLines + StopNote(commands[0], outcomes[0]))),
      started + InvocationsOf(directory, commands[0]))
  {
    if outcomes[0].Exited? {
      assert StopNote(commands[0], outcomes[0]) == [];
      assert err + outcomes[0].errLines + [] == err + outcomes[0].errLines;
    }
  }

  /** The started output and processes of a non-empty list: those of its first command, then the rest. */
  lemma StartedSplit(directory: string, commands: seq<string>, outcomes: seq<Outcome>)
    requires |outcomes| == |commands| && |commands| > 0
    ensures StartedOut(commands, outcomes) == OutOf(commands[0], outcomes[0]) + StartedOut(commands[1..], outcomes[1..])
    ensures StartedErr(commands, outcomes) == ErrOf(commands[0], outcomes[0]) + StartedErr(commands[1..], outcomes[1..])
    ensures Invocations(directory, commands) == InvocationsOf(directory, commands[0]) + Invocations(directory, commands[1..])
  {
  }

  /** Run's loop, from any accumulated state, when some command stops it. */
  lemma {:induction false} RunFromStops(directory: string, commands: seq<string>, outcomes: seq<Outcome>,
                                        out: seq<string>, err: seq<string>, started: seq<Invocation>, i: nat)
    requires |outcomes| == |commands|
    requires IsFirstStop(commands, outcomes, i)
    ensures RunFrom(directory, commands, outcomes, out, err, started) == Report(
      ExecutionResult(StopCode(outcomes[i]),
                      Unlines(out + StartedOut(commands[..i + 1], outcomes[..i + 1])),
                      Unlines(err + StartedErr(commands[..i + 1], outcomes[..i + 1]) + StopNote(commands[i], outcomes[i]))),
      started + Invocations(directory, commands[..i + 1]))
    decreases i, 1
  {
    var c, o := commands[..i + 1], outcomes[..i + 1];
    if i == 0 {
      assert c == [commands[0]] && o == [outcomes[0]];
      StartedSplit(directory, c, o);
      RunFromStopsHere(directory, commands, outcomes, out, err, started);
      assert StartedOut(c, o) == outcomes[0].outLines;
      assert StartedErr(c, o) == outcomes[0].errLines;
    } else {
      RunFromStopsLater(directory, commands, outcomes, out, err, started, i);
    }
  }

  /** The step of RunFromStops when the stop is past the first command: the first command's share comes first. */
  lemma {:induction false} RunFromStopsLater(directory: string, commands: seq<string>, outcomes: seq<Outcome>,
                                             out: seq<string>, err: seq<string>, started: seq<Invocation>, i: nat)
    requires |outcomes| == |commands|
    requires IsFirstStop(commands, outcomes, i) && i > 0
    ensures RunFrom(directory, commands, outcomes, out, err, started) == Report(
      ExecutionResult(StopCode(outcomes[i]),
                      Unlines(out + StartedOut(commands[..i + 1], outcomes[..i + 1])),
                      Unlines(err + StartedErr(commands[..i + 1], outcomes[..i + 1]) + StopNote(commands[i], outcomes[i]))),
      started + Invocations(directory, commands[..i + 1]))
    decreases i, 0
  {
    var tc, to := commands[1..], outcomes[1..];
    var headOut, headErr := OutOf(commands[0], outcomes[0]), ErrOf(commands[0], outcomes[0]);
    var headStarted := InvocationsOf(directory, commands[0]);
    PrefixSplit(directory, commands, outcomes, i);
    FirstStopTail(commands, outcomes, i);
    RunFromContinues(directory, commands, outcomes, out, err, started);
    assert tc[i - 1] == commands[i] && to[i - 1] == outcomes[i];
    RunFromStops(directory, tc, to, out + headOut, err + headErr, started + headStarted, i - 1);
    Assoc(out, headOut, StartedOut(tc[..i], to[..i]));
    Assoc(err, headErr, StartedErr(tc[..i], to[..i]));
    Assoc(started, headStarted, Invocations(directory, tc[..i]));
  }

  /** The started output and processes of the first i + 1 commands: the first command's, then those of the next i. */
  lemma PrefixSplit(directory: string, commands: seq<string>, outcomes: seq<Outcome>, i: nat)
    requires |outcomes| == |commands| && i < |commands|
    ensures var c, o := commands[..i + 1], outcomes[..i + 1];
      var tc, to := commands[1..][..i], outcomes[1..][..i];
      && StartedOut(c, o) == OutOf(commands[0], outcomes[0]) + StartedOut(tc, to)
      && StartedErr(c, o) == ErrOf(commands[0], outcomes[0]) + StartedErr(tc, to)
      && Invocations(directory, c) == InvocationsOf(directory, commands[0]) + Invocations(directory, tc)
  {
    var c, o := commands[..i + 1], outcomes[..i + 1];
    assert c[0] == commands[0] && o[0] == outcomes[0];
    assert c[1..] == commands[1..][..i] && o[1..] == outcomes[1..][..i];
    StartedSplit(directory, c, o);
  }

  /** A first stop past the first command is, one place earlier, the first stop of the rest. */
  lemma FirstStopTail(commands: seq<string>, outcomes: seq<Outcome>, i: nat)
    requires |outcomes| == |commands|
    requires IsFirstStop(commands, outcomes, i) && i > 0
    ensures !StopsAt(commands, outcomes, 0)
    ensures IsFirstStop(commands[1..], outcomes[1..], i - 1)
  {
    forall j: nat | j < i
      ensures StopsAt(commands[1..], outcomes[1..], j) == StopsAt(commands, outcomes, j + 1)
    {
      StopsAtTail(commands, outcomes, j);
    }
  }

  lemma NeverStopsTail(commands: seq<string>, outcomes: seq<Outcome>)
    requires |outcomes| == |commands| && |commands| > 0
    requires NeverStops(commands, outcomes)
    ensures NeverStops(commands[1..], outcomes[1..])
  {
    forall j: nat | j < |commands| - 1
      ensures !StopsAt(commands[1..], outcomes[1..], j)
    {
      StopsAtTail(commands, outcomes, j);
    }
  }

  /** Run's loop, from any accumulated state, when no command stops it. */
  lemma {:induction false} RunFromCompletes(directory: string, commands: seq<string>, outcomes: seq<Outcome>,
                                            out: seq<string>, err: seq<string>, started: seq<Invocation>)
    requires |outcomes| == |commands|
    requires NeverStops(commands, outcomes)
    ensures RunFrom(directory, commands, outcomes, out, err, started) == Report(
      ExecutionResult(0, Unlines(out + StartedOut(commands, outcomes)), Unlines(err + StartedErr(commands, outcomes))),
      started + Invocations(directory, commands))
    decreases |commands|
  {
    if |commands| == 0 {
      assert out + [] == out && err + [] == err && started + [] == started;
    } else {
      var headOut, headErr := OutOf(commands[0], outcomes[0]), ErrOf(commands[0], outcomes[0]);
      var headStarted := InvocationsOf(directory, commands[0]);
      assert !StopsAt(commands, outcomes, 0);
      RunFromContinues(directory, commands, outcomes, out, err, started);
      NeverStopsTail(commands, outcomes);
      RunFromCompletes(directory, commands[1..], outcomes[1..], out + headOut, err + headErr, started + headStarted);
      assert StartedOut(commands, outcomes) == headOut + StartedOut(commands[1..], outcomes[1..]);
      assert StartedErr(commands, outcomes) == headErr + StartedErr(commands[1..], outcomes[1..]);
      assert Invocations(directory, commands) == headStarted + Invocations(directory, commands[1..]);
      Assoc(out, headOut, StartedOut(commands[1..], outcomes[1..]));
      Assoc(err, headErr, StartedErr(commands[1..], outcomes[1..]));
      Assoc(started, headStarted, Invocations(directory, commands[1..]));
    }
  }

  /**
   * Fail-fast: at the first started command whose process times out or exits
   * non-zero, Run returns that command's code (-1 for a timeout), the output of
   * the commands started up to it, and no later command is started.
   */
  lemma RunStopsAtFirstFailure(directory: string, commands: seq<string>, outcomes: seq<Outcome>, i: nat)
    requires |outcomes| == |commands|
    requires IsFirstStop(commands, outcomes, i)
    ensures Run(directory, commands, outcomes) == Report(
      ExecutionResult(StopCode(outcomes[i]),
                      Unlines(StartedOut(commands[..i + 1], outcomes[..i + 1])),
                      Unlines(StartedErr(commands[..i + 1], outcomes[..i + 1]) + StopNote(commands[i], outcomes[i]))),
      Invocations(directory, commands[..i + 1]))
  {
    var out, err, started := StartedOut(commands[..i + 1], outcomes[..i + 1]),
                             StartedErr(commands[..i + 1], outcomes[..i + 1]),
                             Invocations(directory, commands[..i + 1]);
    RunFromStops(directory, commands, outcomes, [], [], [], i);
    assert [] + out == out && [] + err == err && [] + started == started;
  }

  /**
   * When every started command exits 0, Run returns 0 with the output of all
   * started commands in order, and starts every non-blank command.
   */
  lemma RunCompletes(directory: string, commands: seq<string>, outcomes: seq<Outcome>)
    requires |outcomes| == |commands|
    requires NeverStops(commands, outcomes)
    ensures Run(directory, commands, outcomes) == Report(
      ExecutionResult(0, Unlines(StartedOut(commands, outcomes)), Unlines(StartedErr(commands, outcomes))),
      Invocations(directory, commands))
  {
    RunFromCompletes(directory, commands, outcomes, [], [], []);
    assert [] + StartedOut(commands, outcomes) == StartedOut(commands, outcomes);
    assert [] + StartedErr(commands, outcomes) == StartedErr(commands, outcomes);
    assert [] + Invocations(directory, commands) == Invocations(directory, commands);
  }

  /** A process's captured lines as the output handlers deliver them: none holds a newline. */
  predicate Captured(outcome: Outcome)
  {
    NewlineFree(outcome.outLines) && NewlineFree(outcome.errLines)
  }

  lemma {:induction false} StartedCaptured(commands: seq<string>, outcomes: seq<Outcome>)
    requires |outcomes| == |commands|
    requires forall k :: 0 <= k < |outcomes| ==> Captured(outcomes[k])
    ensures NewlineFree(StartedOut(commands, outcomes)) && NewlineFree(StartedErr(commands, outcomes))
  {
    if |commands| > 0 {
      assert Captured(outcomes[0]);
      StartedCaptured(commands[1..], outcomes[1..]);
      NewlineFreeAppend(OutOf(commands[0], outcomes[0]), StartedOut(commands[1..], outcomes[1..]));
      NewlineFreeAppend(ErrOf(commands[0], outcomes[0]), StartedErr(commands[1..], outcomes[1..]));
    }
  }

  /**
   * When no command stops the run, reading stdout and stderr back line by
   * line gives exactly the captured lines of the started processes, in order.
   */
  lemma RunCompletesLines(directory: string, commands: seq<string>, outcomes: seq<Outcome>)
    requires |outcomes| == |commands|
    requires NeverStops(commands, outcomes)
    requires forall k :: 0 <= k < |outcomes| ==> Captured(outcomes[k])
    ensures var r := Run(directory, commands, outcomes).result;
      && LinesOf(r.stdOut) == StartedOut(commands, outcomes)
      && LinesOf(r.stdErr) == StartedErr(commands, outcomes)
  {
    RunCompletes(directory, commands, outcomes);
    StartedCaptured(commands, outcomes);
    LinesOfUnlines(StartedOut(commands, outcomes));
    LinesOfUnlines(StartedErr(commands, outcomes));
  }

  /**
   * When the run stops at command `i`, reading stdout back line by line gives
   * exactly the captured lines of the processes started up to and including it.
   */
  lemma RunStopsLines(directory: string, commands: seq<string>, outcomes: seq<Outcome>, i: nat)
    requires |outcomes| == |commands|
    requires IsFirstStop(commands, outcomes, i)
    requires forall k :: 0 <= k < |outcomes| ==> Captured(outcomes[k])
    ensures LinesOf(Run(directory, commands, outcomes).result.stdOut) == StartedOut(commands[..i + 1], outcomes[..i + 1])
  {
    RunStopsAtFirstFailure(directory, commands, outcomes, i);
    var o := outcomes[..i + 1];
    assert forall k :: 0 <= k < |o| ==> o[k] == outcomes[k];
    StartedCaptured(commands[..i + 1], o);
    LinesOfUnlines(StartedOut(commands[..i + 1], o));
  }

  /** Run reports exit code 0 exactly when no started command times out or exits non-zero. */
  lemma RunSucceedsIff(directory: string, commands: seq<string>, outcomes: seq<Outcome>)
    requires |outcomes| == |commands|
    ensures Run(directory, commands, outcomes).result.exitCode == 0 <==> NeverStops(commands, outcomes)
  {
    var i := FirstStop(commands, outcomes);
    if i < |commands| {
      RunStopsAtFirstFailure(directory, commands, outcomes, i);
    } else {
      RunCompletes(directory, commands, outcomes);
    }
  }

  /**
   * Nothing after the first failing command is started or looked at: any
   * later commands and outcomes give the same report.
   */
  lemma RunIgnoresLaterCommands(directory: string, commands: seq<string>, outcomes: seq<Outcome>, i: nat,
                                moreCommands: seq<string>, moreOutcomes: seq<Outcome>)
    requires |outcomes| == |commands| && |moreOutcomes| == |moreCommands|
    requires IsFirstStop(commands, outcomes, i)
    ensures Run(directory, commands[..i + 1] + moreCommands, outcomes[..i + 1] + moreOutcomes) == Run(directory, commands, outcomes)
  {
    var c, o := commands[..i + 1] + moreCommands, outcomes[..i + 1] + moreOutcomes;
    assert c[..i + 1] == commands[..i + 1] && o[..i + 1] == outcomes[..i + 1];
    forall j: nat | j <= i
      ensures StopsAt(c, o, j) == StopsAt(commands, outcomes, j)
    {
      assert c[j] == commands[j] && o[j] == outcomes[j];
    }
    assert IsFirstStop(c, o, i);
    RunStopsAtFirstFailure(directory, c, o, i);
    RunStopsAtFirstFailure(directory, commands, outcomes, i);
  }

  /** A timeout stops the run with -1, and stderr ends with the line naming the command. */
  lemma RunTimeoutDiagnostic(directory: string, commands: seq<string>, outcomes: seq<Outcome>, i: nat)
    requires |outcomes| == |commands|
    requires IsFirstStop(commands, outcomes, i) && outcomes[i].TimedOut?
    ensures var r := Run(directory, commands, outcomes).result;
      var note := "Command timed out: " + commands[i] + "\n";
      r.exitCode == -1 && |note| <= |r.stdErr| && r.stdErr[|r.stdErr| - |note|..] == note
  {
    RunStopsAtFirstFailure(directory, commands, outcomes, i);
    var before := StartedErr(commands[..i + 1], outcomes[..i + 1]);
    UnlinesAppend(before, [TimeoutLine(commands[i])]);
  }

  lemma {:induction false} NothingStarted(directory: string, commands: seq<string>, outcomes: seq<Outcome>)
    requires |outcomes| == |commands|
    requires forall k :: 0 <= k < |commands| ==> !Starts(commands[k])
    ensures NeverStops(commands, outcomes)
    ensures StartedOut(commands, outcomes) == [] && StartedErr(commands, outcomes) == []
    ensures Invocations(directory, commands) == []
  {
    if |commands| > 0 {
      assert !Starts(commands[0]);
      NothingStarted(directory, commands[1..], outcomes[1..]);
    }
  }

  /** A list that is empty or all blank starts nothing and yields exit code 0 with empty output. */
  lemma RunBlankCommands(directory: string, commands: seq<string>, outcomes: seq<Outcome>)
    requires |outcomes| == |commands|
    requires forall k, m :: 0 <= k < |commands| && 0 <= m < |commands[k]| ==> commands[k][m] == ' '
    ensures Run(directory, commands, outcomes) == Report(DefaultResult, [])
  {
    forall k | 0 <= k < |commands|
      ensures !Starts(commands[k])
    {
      SplitCommandBlank(commands[k]);
    }
    NothingStarted(directory, commands, outcomes);
    RunCompletes(directory, commands, outcomes);
  }

  /** Every process in `started` is given `directory` as its working directory. */
  predicate AllIn(started: seq<Invocation>, directory: string)
  {
    forall k :: 0 <= k < |started| ==> started[k].directory == Some(directory)
  }

  lemma AllInAppend(a: seq<Invocation>, b: seq<Invocation>, directory: string)
    requires AllIn(a, directory) && AllIn(b, directory)
    ensures AllIn(a + b, directory)
  {
    forall k | |a| <= k < |a + b|
      ensures (a + b)[k].directory == Some(directory)
    {
      assert (a + b)[k] == b[k - |a|];
    }
  }

  lemma {:induction false} InvocationsInDirectory(directory: string, commands: seq<string>)
    ensures AllIn(Invocations(directory, commands), directory)
  {
    if |commands| > 0 {
      var head, tail := InvocationsOf(directory, commands[0]), Invocations(directory, commands[1..]);
      InvocationsInDirectory(directory, commands[1..]);
      assert AllIn(head, directory);
      AllInAppend(head, tail, directory);
    }
  }

  /** Every process Run starts is given Run's working directory. */
  lemma RunStartsInDirectory(directory: string, commands: seq<string>, outcomes: seq<Outcome>)
    requires |outcomes| == |commands|
    ensures AllIn(Run(directory, commands, outcomes).started, directory)
  {
    var i := FirstStop(commands, outcomes);
    if i < |commands| {
      RunStopsAtFirstFailure(directory, commands, outcomes, i);
      InvocationsInDirectory(directory, commands[..i + 1]);
    } else {
      RunCompletes(directory, commands, outcomes);
      InvocationsInDirectory(directory, commands);
    }
  }

  // ---------------------------------------------------------------------------
  // Running commands inside a container
  // ---------------------------------------------------------------------------

  /** command.Replace("\"", "\\\""): every double quote gets a backslash in front. */
  function EscapeQuotes(s: string): (e: string)
    ensures QuotesEscaped(e)
  {
    if |s| == 0 then ""
    else
      var rest := EscapeQuotes(s[1..]);
      QuotesEscapedAppend(EscapeChar(s[0]), rest);
      EscapeChar(s[0]) + rest
  }

  function EscapeChar(c: char): (e: string)
    ensures QuotesEscaped(e)
  {
    if c == '"' then "\\\"" else [c]
  }

  /** Every double quote in `s` is preceded by a backslash (so, in particular, `s` does not start with one). */
  predicate QuotesEscaped(s: string)
  {
    forall k :: 0 <= k < |s| && s[k] == '"' ==> 0 < k && s[k - 1] == '\\'
  }

  lemma QuotesEscapedAppend(a: string, b: string)
    requires QuotesEscaped(a) && QuotesEscaped(b)
    ensures QuotesEscaped(a + b)
  {
    forall k | 0 <= k < |a + b| && (a + b)[k] == '"'
      ensures 0 < k && (a + b)[k - 1] == '\\'
    {
      if k >= |a| {
        assert b[k - |a|] == '"';
      }
    }
  }

  /** The inverse of EscapeQuotes: a backslash followed by a double quote becomes the quote alone. */
  function UnescapeQuotes(s: string): (plain: string)
  {
    if |s| == 0 then ""
    else if |s| >= 2 && s[0] == '\\' && s[1] == '"' then "\"" + UnescapeQuotes(s[2..])
    else [s[0]] + UnescapeQuotes(s[1..])
  }

  lemma {:induction false} UnescapeEscapeQuotes(s: string, tail: string)
    requires |tail| == 0 || tail[0] != '"'
    ensures UnescapeQuotes(EscapeQuotes(s) + tail) == s + UnescapeQuotes(tail)
    decreases |s|
  {
    if |s| == 0 {
      assert EscapeQuotes(s) + tail == tail;
    } else {
      var rest := EscapeQuotes(s[1..]);
      var next := rest + tail;
      UnescapeEscapeQuotes(s[1..], tail);
      Assoc(EscapeChar(s[0]), rest, tail);
      EscapedStartsPlain(s[1..], tail);
      UnescapeCharOf(s[0], next);
      Assoc([s[0]], s[1..], UnescapeQuotes(tail));
      assert s == [s[0]] + s[1..];
    }
  }

  /** Escaped text followed by a tail that does not open with a quote does not open with a quote. */
  lemma EscapedStartsPlain(s: string, tail: string)
    requires |tail| == 0 || tail[0] != '"'
    ensures var next := EscapeQuotes(s) + tail; |next| == 0 || next[0] != '"'
  {
    if |s| > 0 {
      assert (EscapeQuotes(s) + tail)[0] == EscapeChar(s[0])[0];
    }
  }

  /** Undoing the escape of one character, whatever unquoted text follows. */
  lemma UnescapeCharOf(c: char, next: string)
    requires |next| == 0 || next[0] != '"'
    ensures UnescapeQuotes(EscapeChar(c) + next) == [c] + UnescapeQuotes(next)
  {
    if c == '"' {
      UnescapeQuoteStep(next);
    } else {
      UnescapeCharStep(c, next);
    }
  }

  lemma UnescapeQuoteStep(next: string)
    ensures UnescapeQuotes("\\\"" + next) == "\"" + UnescapeQuotes(next)
  {
    assert ("\\\"" + next)[2..] == next;
  }

  lemma UnescapeCharStep(c: char, next: string)
    requires |next| == 0 || next[0] != '"'
    ensures UnescapeQuotes([c] + next) == [c] + UnescapeQuotes(next)
  {
    assert ([c] + next)[1..] == next;
  }

  lemma {:induction false} UnescapePlain(p: string, tail: string)
    requires '\\' !in p
    ensures UnescapeQuotes(p + tail) == p + UnescapeQuotes(tail)
    decreases |p|
  {
    if |p| == 0 {
      assert p + tail == tail;
    } else {
      assert (p + tail)[1..] == p[1..] + tail;
      UnescapePlain(p[1..], tail);
    }
  }

  /** Every command with its double quotes escaped. */
  function EscapeEach(commands: seq<string>): (escaped: seq<string>)
    ensures |escaped| == |commands|
  {
    if |commands| == 0 then [] else [EscapeQuotes(commands[0])] + EscapeEach(commands[1..])
  }

  const AndThen := " && "

  /** The script the container's shell runs: the escaped commands chained with " && ", in order. */
  function ContainerScript(commands: seq<string>): (script: string)
  {
    Join(EscapeEach(commands), AndThen)
  }

  lemma {:induction false} JoinQuotesEscaped(parts: seq<string>)
    requires forall k :: 0 <= k < |parts| ==> QuotesEscaped(parts[k])
    ensures QuotesEscaped(Join(parts, AndThen))
  {
    if |parts| > 1 {
      JoinQuotesEscaped(parts[1..]);
      QuotesEscapedAppend(AndThen, Join(parts[1..], AndThen));
      QuotesEscapedAppend(parts[0], AndThen + Join(parts[1..], AndThen));
      assert parts[0] + AndThen + Join(parts[1..], AndThen) == parts[0] + (AndThen + Join(parts[1..], AndThen));
    }
  }

  lemma {:induction false} EscapeEachEscaped(commands: seq<string>)
    ensures forall k :: 0 <= k < |commands| ==> QuotesEscaped(EscapeEach(commands)[k])
  {
    if |commands| > 0 {
      EscapeEachEscaped(commands[1..]);
      assert forall k :: 1 <= k < |commands| ==> EscapeEach(commands)[k] == EscapeEach(commands[1..])[k - 1];
    }
  }

  /** Every double quote in the container script is preceded by a backslash. */
  lemma ContainerScriptQuotesEscaped(commands: seq<string>)
    ensures QuotesEscaped(ContainerScript(commands))
  {
    EscapeEachEscaped(commands);
    JoinQuotesEscaped(EscapeEach(commands));
  }

  /** Undoing the escaping recovers exactly the commands joined by " && ", in order. */
  lemma {:induction false} ContainerScriptRoundTrip(commands: seq<string>)
    ensures UnescapeQuotes(ContainerScript(commands)) == Join(commands, AndThen)
  {
    if |commands| == 1 {
      UnescapeEscapeQuotes(commands[0], "");
      assert EscapeQuotes(commands[0]) + "" == EscapeQuotes(commands[0]);
      assert commands[0] + "" == commands[0];
    } else if |commands| > 1 {
      var rest := ContainerScript(commands[1..]);
      ContainerScriptCons(commands);
      UnescapeEscapeQuotes(commands[0], AndThen + rest);
      UnescapePlain(AndThen, rest);
      ContainerScriptRoundTrip(commands[1..]);
      Assoc(commands[0], AndThen, Join(commands[1..], AndThen));
    }
  }

  /** The script of two or more commands: the first one escaped, the separator, then the script of the rest. */
  lemma ContainerScriptCons(commands: seq<string>)
    requires |commands| > 1
    ensures ContainerScript(commands) == EscapeQuotes(commands[0]) + (AndThen + ContainerScript(commands[1..]))
  {
    var escaped := EscapeEach(commands);
    assert escaped[0] == EscapeQuotes(commands[0]) && escaped[1..] == EscapeEach(commands[1..]);
    Assoc(escaped[0], AndThen, Join(escaped[1..], AndThen));
  }

  /** How the docker availability probe went. */
  datatype ProbeOutcome =
      /** Process.Start returned no process. */
    | ProbeNotStarted
      /** The probe exited with `code`; `errText` is what it wrote to stderr. */
    | ProbeExited(code: int, errText: string)
      /**
       * Starting or reading the probe threw; this includes a probe still running
       * after its 2000 ms wait, whose exit code cannot be read.
       */
    | ProbeThrew(message: string)

  /** How the `docker run` process went. */
  datatype ContainerOutcome =
    | StartFailed(message: string)
    | ContainerTimedOut(outLines: seq<string>, errLines: seq<string>)
    | ContainerExited(code: int, outLines: seq<string>, errLines: seq<string>)

  const ProbeInvocation := Invocation("docker", "version --format '{{.Client.Version}}'", None)

  predicate ProbeSucceeded(probe: ProbeOutcome)
  {
    probe.ProbeExited? && probe.code == 0
  }

  /** The diagnostic a failed probe leaves in stderr. */
  function ProbeDiagnostic(probe: ProbeOutcome): (message: string)
  {
    match probe
    case ProbeNotStarted => "Docker not available (Process start failed)"
    case ProbeExited(_, errText) => errText
    case ProbeThrew(message) => message
  }

  /** The `docker run` argument string: mount the working directory at /work, run the script with /bin/sh -c. */
  function DockerRunArguments(workingDirectory: string, image: string, script: string): (args: string)
  {
    "run --rm -v \"" + workingDirectory + ":/work\" -w /work " + image + " /bin/sh -c \"" + script + "\""
  }

  /**
   * Runs all commands as one script in a container of `image`, after probing
   * for docker. `probe` and `outcome` say how the two docker processes go.
   */
  function RunInContainer(workingDirectory: string, commands: seq<string>, image: string,
                          probe: ProbeOutcome, outcome: ContainerOutcome): (report: Report)
  {
    match probe
    case ProbeNotStarted =>
      Report(DefaultResult.(exitCode := -2, stdErr := "Docker not available (Process start failed)"), [ProbeInvocation])
    case ProbeThrew(message) =>
      Report(DefaultResult.(exitCode := -2, stdErr := message), [ProbeInvocation])
    case ProbeExited(code, errText) =>
      if code != 0 then
        Report(DefaultResult.(exitCode := -2, stdErr := errText), [ProbeInvocation])
      else
        var run := Invocation("docker", DockerRunArguments(workingDirectory, image, ContainerScript(commands)), None);
        var started := [ProbeInvocation, run];
        match outcome
        case StartFailed(message) =>
          Report(DefaultResult.(exitCode := -1, stdErr := message), started)
        case ContainerTimedOut(o, e) =>
          Report(ExecutionResult(-1, Unlines(o), Unlines(e + ["Container command timed out"])), started)
        case ContainerExited(exitCode, o, e) =>
          Report(ExecutionResult(exitCode, Unlines(o), Unlines(e)), started)
  }

  /**
   * A probe that does not start, exits non-zero or throws gives exit code -2
   * with empty stdout and the probe's diagnostic, and `docker run` is never
   * attempted: the run outcome does not matter.
   */
  lemma ContainerProbeFailure(workingDirectory: string, commands: seq<string>, image: string,
                              probe: ProbeOutcome, outcome: ContainerOutcome, otherOutcome: ContainerOutcome)
    requires !ProbeSucceeded(probe)
    ensures var report := RunInContainer(workingDirectory, commands, image, probe, outcome);
      && report.result == ExecutionResult(-2, "", ProbeDiagnostic(probe))
      && report.started == [ProbeInvocation]
      && report == RunInContainer(workingDirectory, commands, image, probe, otherOutcome)
  {
  }

  /**
   * After a successful probe, exactly one `docker run` is attempted, with the
   * working directory mounted at /work and the escaped script; a start failure
   * gives -1 with the exception message, a timeout gives -1 with the timeout
   * line at the end of stderr, and otherwise the process's exit code is
   * returned verbatim.
   */
  lemma ContainerRunAfterProbe(workingDirectory: string, commands: seq<string>, image: string,
                               probe: ProbeOutcome, outcome: ContainerOutcome)
    requires ProbeSucceeded(probe)
    ensures var report := RunInContainer(workingDirectory, commands, image, probe, outcome);
      var args := DockerRunArguments(workingDirectory, image, ContainerScript(commands));
      && report.started == [ProbeInvocation, Invocation("docker", args, None)]
      && (outcome.StartFailed? ==> report.result == ExecutionResult(-1, "", outcome.message))
      && (outcome.ContainerTimedOut? ==>
            && report.result.exitCode == -1
            && report.result.stdOut == Unlines(outcome.outLines)
            && report.result.stdErr == Unlines(outcome.errLines) + "Container command timed out\n")
      && (outcome.ContainerExited? ==>
            report.result == ExecutionResult(outcome.code, Unlines(outcome.outLines), Unlines(outcome.errLines)))
  {
    if outcome.ContainerTimedOut? {
      UnlinesAppend(outcome.errLines, ["Container command timed out"]);
    }
  }
}
