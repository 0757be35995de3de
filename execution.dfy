/** `run(command)` with the shell abstracted: every command the script
    issues is logged, a dry run executes nothing, and a real run takes its
    exit status from a given list. A non-zero status ends the script
    (`sys.exit`), after which nothing else is issued or executed. */
module Execution {
  import opened Wrappers

  /** How commands run: `dry` is the `--dry` flag; `outcomes[n]` is the exit
      status of the n-th command the shell executes, and a command past the
      end of the list succeeds. */
  datatype Runner = Runner(dry: bool, outcomes: seq<int>)

  /** What the script has done so far: every command it handed to `run`,
      the ones the shell executed, and the status it exited with, if it has
      exited. */
  datatype Trace = Trace(issued: seq<string>, executed: seq<string>, exit: Option<int>)

  /** The trace of a script that has not run anything yet. */
  const Start := Trace([], [], None)

  /** The exit status of the n-th executed command. */
  function Status(runner: Runner, n: nat): int
  {
    if n < |runner.outcomes| then runner.outcomes[n] else 0
  }

  /** `run(command)`: after an exit nothing happens; a dry run only logs;
      otherwise the command executes, and a status other than zero exits
      with that status. */
  function Exec1(runner: Runner, t: Trace, command: string): Trace
  {
    if t.exit.Some? then t
    else if runner.dry then t.(issued := t.issued + [command])
    else
      var status := Status(runner, |t.executed|);
      Trace(t.issued + [command], t.executed + [command], if status != 0 then Some(status) else None)
  }

  /** `run` of each command in turn. */
  function Exec(runner: Runner, t: Trace, commands: seq<string>): Trace
    decreases |commands|
  {
    if commands == [] then t
    else Exec1(runner, Exec(runner, t, commands[..|commands| - 1]), commands[|commands| - 1])
  }

  /** Running two lists of commands one after the other is running their
      concatenation. */
  lemma {:induction false} ExecAppend(runner: Runner, t: Trace, a: seq<string>, b: seq<string>)
    ensures Exec(runner, t, a + b) == Exec(runner, Exec(runner, t, a), b)
    decreases |b|
  {
    if b == [] {
      assert a + b == a;
    } else {
      var b0 := b[..|b| - 1];
      assert (a + b)[..|a + b| - 1] == a + b0;
      assert (a + b)[|a + b| - 1] == b[|b| - 1];
      ExecAppend(runner, t, a, b0);
    }
  }

  /** Running `a`, then `b` and `c`, is running `a` and `b`, then `c`. */
  lemma ExecExtend(runner: Runner, t: Trace, a: seq<string>, b: seq<string>, c: seq<string>)
    ensures Exec(runner, t, a + (b + c)) == Exec(runner, Exec(runner, t, a + b), c)
  {
    assert a + (b + c) == (a + b) + c;
    ExecAppend(runner, t, a + b, c);
  }

  /** Running one more command after a list is one more `run`. */
  lemma ExecSnoc(runner: Runner, t: Trace, commands: seq<string>, command: string)
    ensures Exec(runner, t, commands + [command]) == Exec1(runner, Exec(runner, t, commands), command)
  {
    assert (commands + [command])[..|commands|] == commands;
  }

  /** Once the script has exited, nothing more is issued or executed. */
  lemma {:induction false} ExecHalted(runner: Runner, t: Trace, commands: seq<string>)
    requires t.exit.Some?
    ensures Exec(runner, t, commands) == t
    decreases |commands|
  {
    if commands != [] {
      ExecHalted(runner, t, commands[..|commands| - 1]);
    }
  }

  /** A dry run logs every command and executes none, and never exits. */
  lemma {:induction false} ExecDry(runner: Runner, t: Trace, commands: seq<string>)
    requires runner.dry && t.exit.None?
    ensures Exec(runner, t, commands) == t.(issued := t.issued + commands)
    decreases |commands|
  {
    if commands != [] {
      var c0 := commands[..|commands| - 1];
      ExecDry(runner, t, c0);
      assert t.issued + c0 + [commands[|commands| - 1]] == t.issued + commands;
    }
  }

  /** A real run from the start executes the commands in order up to and
      including the first that fails, and exits with that command's status;
      it runs them all, and does not exit, exactly when none fails. */
  lemma ExecStopsAtFirstFailure(runner: Runner, commands: seq<string>)
    requires !runner.dry
    ensures var t := Exec(runner, Start, commands);
      && t.issued == t.executed
      && |t.executed| <= |commands| && t.executed == commands[..|t.executed|]
      && (forall i :: 0 <= i < |t.executed| - 1 ==> Status(runner, i) == 0)
      && (t.exit.None? <==> t.executed == commands && forall i :: 0 <= i < |commands| ==> Status(runner, i) == 0)
      && (t.exit.Some? ==> |t.executed| > 0 && t.exit.value == Status(runner, |t.executed| - 1) != 0)
  {
    ExecPrefix(runner, commands);
  }

  /** The trace of a real run from the start: what executed is a prefix of
      the commands, every command but the last executed succeeded, and
      the run exits exactly when the last executed command failed. */
  lemma {:induction false} ExecPrefix(runner: Runner, commands: seq<string>)
    requires !runner.dry
    ensures var t := Exec(runner, Start, commands);
      && t.issued == t.executed
      && |t.executed| <= |commands| && t.executed == commands[..|t.executed|]
      && (forall i :: 0 <= i < |t.executed| - 1 ==> Status(runner, i) == 0)
      && (t.exit.None? ==> t.executed == commands && forall i :: 0 <= i < |commands| ==> Status(runner, i) == 0)
      && (t.exit.Some? ==> |t.executed| > 0 && t.exit.value == Status(runner, |t.executed| - 1) != 0)
    decreases |commands|
  {
    if commands != [] {
      var c0, x := commands[..|commands| - 1], commands[|commands| - 1];
      ExecPrefix(runner, c0);
      var p := Exec(runner, Start, c0);
      assert Exec(runner, Start, commands) == Exec1(runner, p, x);
      if p.exit.None? {
        var status := Status(runner, |c0|);
        assert Exec1(runner, p, x) == Trace(commands, commands, if status != 0 then Some(status) else None) by {
          assert c0 + [x] == commands;
        }
      } else {
        assert Exec1(runner, p, x) == p;
        assert commands[..|p.executed|] == c0[..|p.executed|];
      }
    }
  }
}
