/** The top level of the deployment script: reading the command line,
    refusing what it cannot run, layering the variable store, and then
    handing the command list to the stage loop. The prompt's answer and
    `os.environ` are given as inputs. */
module Launch {
  import opened Wrappers
  import opened Text
  import opened VarStore
  import opened Config
  import opened Execution
  import opened Stages
  import opened Driver

  /** What the argument loop collects: the flags, the server name and the
      comma-separated command text (both empty until seen). */
  datatype Args = Args(flags: seq<string>, serverName: string, commandsText: string)

  /** Why the script stops before the stage loop. The first three leave
      through `exit()`; the last three are Python exceptions: `arg[0]` of
      an empty argument, `config.servers[name]` of an unknown name, and the
      prompt's `server['version']` when no server was named. */
  datatype Stop =
    | Usage
    | UnknownServer(name: string)
    | Declined
    | EmptyArgument
    | MissingServer(name: string)
    | NoServerToConfirm

  /** What the stage loop starts from. */
  datatype Plan = Plan(
    serverName: string,
    server: Option<Server>,
    variables: Store,
    destinationDir: string,
    containers: seq<Container>,
    commands: seq<string>,
    dry: bool)

  // ------------------------------------------------------------ arguments

  /** An argument that starts with `-`. */
  predicate IsFlag(arg: string)
  {
    arg != [] && arg[0] == '-'
  }

  /** One pass of `for i, arg in enumerate(sys.argv)`; `None` when `arg[0]`
      fails on an empty argument. */
  function ClassifyOne(a: Args, i: nat, arg: string): Option<Args>
  {
    if arg == [] then None
    else if arg[0] == '-' then Some(a.(flags := a.flags + [arg]))
    else if i > 0 && a.serverName == "" then Some(a.(serverName := arg))
    else if i > 0 && a.commandsText == "" then Some(a.(commandsText := arg))
    else Some(a)
  }

  /** The argument loop over the whole of `argv`. */
  function Classify(argv: seq<string>): Option<Args>
    decreases |argv|
  {
    if argv == [] then Some(Args([], "", ""))
    else
      match Classify(argv[..|argv| - 1])
      case None => None
      case Some(a) => ClassifyOne(a, |argv| - 1, argv[|argv| - 1])
  }

  /** The arguments that start with `-`, in order. */
  function Flags(argv: seq<string>): seq<string>
    decreases |argv|
  {
    if argv == [] then []
    else Flags(argv[..|argv| - 1]) + (if IsFlag(argv[|argv| - 1]) then [argv[|argv| - 1]] else [])
  }

  /** The non-empty arguments after the script's own name that do not start
      with `-`, in order. */
  function Positionals(argv: seq<string>): seq<string>
    decreases |argv|
  {
    if |argv| <= 1 then []
    else
      var arg := argv[|argv| - 1];
      Positionals(argv[..|argv| - 1]) + (if arg != [] && arg[0] != '-' then [arg] else [])
  }

  /** The k-th element, or `""` past the end. */
  function Nth(xs: seq<string>, k: nat): string
  {
    if k < |xs| then xs[k] else ""
  }

  /** The argument loop fails exactly when some argument is empty;
      otherwise every flag is collected, the first positional argument is
      the server name, the second the command text, and any later one is
      ignored. */
  lemma {:induction false} ClassifySpec(argv: seq<string>)
    ensures Classify(argv).None? <==> exists i :: 0 <= i < |argv| && argv[i] == []
    ensures Classify(argv).Some? ==>
      Classify(argv).value == Args(Flags(argv), Nth(Positionals(argv), 0), Nth(Positionals(argv), 1))
    ensures forall p :: p in Positionals(argv) ==> p != []
    decreases |argv|
  {
    if argv != [] {
      var init := argv[..|argv| - 1];
      var arg := argv[|argv| - 1];
      ClassifySpec(init);
      assert forall i :: 0 <= i < |init| ==> init[i] == argv[i];
      if Classify(init).None? {
        var i :| 0 <= i < |init| && init[i] == [];
        assert argv[i] == [];
      } else if arg == [] {
        assert argv[|argv| - 1] == [];
      } else {
        var a := Classify(init).value;
        var p0 := Positionals(init);
        if |p0| > 0 {
          assert p0[0] in p0;
        }
        if |p0| > 1 {
          assert p0[1] in p0;
        }
        if arg[0] == '-' {
          assert Positionals(argv) == (if |argv| <= 1 then [] else p0);
        } else if |argv| == 1 {
          assert Positionals(argv) == [];
        } else {
          assert Positionals(argv) == p0 + [arg];
          if |p0| == 0 {
            assert a.serverName == "";
          } else if |p0| == 1 {
            assert a.serverName != "" && a.commandsText == "";
          } else {
            assert a.serverName != "" && a.commandsText != "";
          }
        }
        assert !exists i :: 0 <= i < |argv| && argv[i] == [] by {
          forall i | 0 <= i < |argv|
            ensures argv[i] != []
          {
            if i < |init| {
              assert init[i] == argv[i];
            }
          }
        }
      }
    }
  }

  /** `commands_str.strip('').split(",")` when the text is not empty;
      `strip('')` removes nothing. */
  function CommandList(text: string): seq<string>
  {
    if text != "" then Split(text, ',') else []
  }

  /** The command list is the text cut at its commas: none of the names
      holds a comma, and joining them with commas gives the text back. */
  lemma CommandListJoin(text: string)
    ensures (text == "") <==> CommandList(text) == []
    ensures forall c :: c in CommandList(text) ==> ',' !in c
    ensures Join(CommandList(text), ',') == text
  {
    if text != "" {
      JoinSplit(text, ',');
    }
  }

  // ---------------------------------------------------------- the checks

  /** The names whose presence demands a server: the stages, and `init`. */
  predicate NamesStage(commands: seq<string>)
  {
    "run" in commands || "deploy" in commands || "build" in commands
    || "build-env" in commands || "push" in commands || "init" in commands
  }

  /** `--update`, then `--version`, then `--config` replace the command
      list; the last one given in that order wins. */
  function Overridden(flags: seq<string>, commands: seq<string>): seq<string>
  {
    if "--config" in flags then ["config"]
    else if "--version" in flags then ["version"]
    else if "--update" in flags then ["update"]
    else commands
  }

  /** The answers that confirm the default deployment. */
  predicate Accepts(answer: string)
  {
    answer == "Y" || answer == "y" || answer == ""
  }

  /** What an empty command list becomes when confirmed. */
  const DefaultCommands: seq<string> := ["build-env", "build", "push", "deploy"]

  // ------------------------------------------------------------ the store

  /** The names set from the server's own entry. */
  function ServerBuiltins(name: string, s: Server): Store
  {
    [("SERVER_HOST", s.host), ("SERVER_NAME", name), ("VERSION", s.version), ("ENV", s.env)]
  }

  /** The names set from the directories. */
  function PathVariables(destinationDir: string, tempDir: string): Store
  {
    [("DESTINATION_DIR", destinationDir), ("TEMP_DIR", tempDir), ("TEMP_ENVIRONMENT_DIR", EnvironmentDir(tempDir))]
  }

  /** `config.variables` after the four `update` calls. */
  function Layer(settings: Settings, name: string, server: Option<Server>, destinationDir: string, environ: Store): Store
  {
    var own :=
      if server.Some? then Update(Update(settings.variables, ServerBuiltins(name, server.value)), server.value.variables)
      else settings.variables;
    Update(Update(own, PathVariables(destinationDir, settings.tempDir)), environ)
  }

  /** Every dict handed to `update` holds each name once. */
  predicate DictsDistinct(server: Option<Server>, environ: Store)
  {
    Distinct(environ) && (server.Some? ==> Distinct(server.value.variables))
  }

  /** The server's layers over the configured variables: its `variables`
      win over its own entry, which wins over the configuration. */
  lemma ServerLayerPrecedence(vars: Store, name: string, s: Server, k: string)
    requires Distinct(s.variables)
    ensures Get(Update(Update(vars, ServerBuiltins(name, s)), s.variables), k) ==
      if k in Keys(s.variables) then Get(s.variables, k)
      else if k == "SERVER_HOST" then Some(s.host)
      else if k == "SERVER_NAME" then Some(name)
      else if k == "VERSION" then Some(s.version)
      else if k == "ENV" then Some(s.env)
      else Get(vars, k)
  {
    var builtins := ServerBuiltins(name, s);
    UpdateGet(Update(vars, builtins), s.variables, k);
    assert Keys(builtins[3..]) == ["ENV"];
    assert Keys(builtins[2..]) == ["VERSION", "ENV"];
    assert Keys(builtins[1..]) == ["SERVER_NAME", "VERSION", "ENV"];
    assert Distinct(builtins[3..]);
    assert Distinct(builtins[2..]);
    assert Distinct(builtins[1..]);
    assert Keys(builtins) == ["SERVER_HOST", "SERVER_NAME", "VERSION", "ENV"];
    assert Get(builtins[3..], k) == if k == "ENV" then Some(s.env) else None;
    assert Get(builtins[2..], k) == if k == "VERSION" then Some(s.version) else Get(builtins[3..], k);
    assert Get(builtins[1..], k) == if k == "SERVER_NAME" then Some(name) else Get(builtins[2..], k);
    assert Get(builtins, k) == if k == "SERVER_HOST" then Some(s.host) else Get(builtins[1..], k);
    UpdateGet(vars, builtins, k);
  }

  /** The directory and environment layers over any store: the
      environment wins over the directories, which win over the store. */
  lemma PathLayerPrecedence(own: Store, destinationDir: string, tempDir: string, environ: Store, k: string)
    requires Distinct(environ)
    ensures Get(Update(Update(own, PathVariables(destinationDir, tempDir)), environ), k) ==
      if k in Keys(environ) then Get(environ, k)
      else if k == "DESTINATION_DIR" then Some(destinationDir)
      else if k == "TEMP_DIR" then Some(tempDir)
      else if k == "TEMP_ENVIRONMENT_DIR" then Some(EnvironmentDir(tempDir))
      else Get(own, k)
  {
    var paths := PathVariables(destinationDir, tempDir);
    UpdateGet(Update(own, paths), environ, k);
    assert Keys(paths[2..]) == ["TEMP_ENVIRONMENT_DIR"];
    assert Keys(paths[1..]) == ["TEMP_DIR", "TEMP_ENVIRONMENT_DIR"];
    assert Distinct(paths[2..]);
    assert Distinct(paths[1..]);
    assert Keys(paths) == ["DESTINATION_DIR", "TEMP_DIR", "TEMP_ENVIRONMENT_DIR"];
    assert Get(paths[2..], k) == if k == "TEMP_ENVIRONMENT_DIR" then Some(EnvironmentDir(tempDir)) else None;
    assert Get(paths[1..], k) == if k == "TEMP_DIR" then Some(tempDir) else Get(paths[2..], k);
    assert Get(paths, k) == if k == "DESTINATION_DIR" then Some(destinationDir) else Get(paths[1..], k);
    UpdateGet(own, paths, k);
  }

  /** The later layer wins: the environment over the directories, those
      over the server's `variables`, those over the server's own entry,
      and that over the configured variables. */
  lemma LayerPrecedence(settings: Settings, name: string, server: Option<Server>, destinationDir: string, environ: Store, k: string)
    requires DictsDistinct(server, environ)
    ensures Get(Layer(settings, name, server, destinationDir, environ), k) ==
      if k in Keys(environ) then Get(environ, k)
      else if k == "DESTINATION_DIR" then Some(destinationDir)
      else if k == "TEMP_DIR" then Some(settings.tempDir)
      else if k == "TEMP_ENVIRONMENT_DIR" then Some(EnvironmentDir(settings.tempDir))
      else if server.Some? && k in Keys(server.value.variables) then Get(server.value.variables, k)
      else if server.Some? && k == "SERVER_HOST" then Some(server.value.host)
      else if server.Some? && k == "SERVER_NAME" then Some(name)
      else if server.Some? && k == "VERSION" then Some(server.value.version)
      else if server.Some? && k == "ENV" then Some(server.value.env)
      else Get(settings.variables, k)
  {
    var own :=
      if server.Some? then Update(Update(settings.variables, ServerBuiltins(name, server.value)), server.value.variables)
      else settings.variables;
    PathLayerPrecedence(own, destinationDir, settings.tempDir, environ, k);
    if server.Some? {
      ServerLayerPrecedence(settings.variables, name, server.value, k);
    }
  }

  /** Layering never drops a name nor moves one: the configured names come
      first, in their order, so substitution still visits them first. */
  lemma LayerKeepsOrder(settings: Settings, name: string, server: Option<Server>, destinationDir: string, environ: Store)
    ensures var l := Layer(settings, name, server, destinationDir, environ);
      && |Keys(l)| >= |settings.variables|
      && Keys(l)[..|settings.variables|] == Keys(settings.variables)
      && (Distinct(settings.variables) ==> Distinct(l))
  {
    var base := settings.variables;
    var own := base;
    if server.Some? {
      var b1 := Update(base, ServerBuiltins(name, server.value));
      UpdateKeys(base, ServerBuiltins(name, server.value));
      UpdateKeys(b1, server.value.variables);
      own := Update(b1, server.value.variables);
      assert Keys(own)[..|base|] == Keys(own)[..|b1|][..|base|];
    }
    var p1 := Update(own, PathVariables(destinationDir, settings.tempDir));
    UpdateKeys(own, PathVariables(destinationDir, settings.tempDir));
    UpdateKeys(p1, environ);
    assert Keys(p1)[..|base|] == Keys(p1)[..|own|][..|base|];
    var l := Update(p1, environ);
    assert Keys(l)[..|base|] == Keys(l)[..|p1|][..|base|];
  }

  // -------------------------------------------------------------- prepare

  /** Everything from the argument loop to the prompt, in the script's
      order: the loop, the usage check, the check that a stage names a
      known server, the server's layers, the directories, the environment,
      `--skip-containers`, the three overriding flags and the prompt. */
  function Prepare(argv: seq<string>, settings: Settings, environ: Store, answer: string): Result<Plan, Stop>
  {
    match Classify(argv)
    case None => Failure(EmptyArgument)
    case Some(a) =>
      var commands := CommandList(a.commandsText);
      if |argv| < 2 then Failure(Usage)
      else if NamesStage(commands) && |argv| < 3 then Failure(Usage)
      else if NamesStage(commands) && a.serverName !in settings.servers then Failure(UnknownServer(a.serverName))
      else if a.serverName != "" && a.serverName !in settings.servers then Failure(MissingServer(a.serverName))
      else
        var server := if a.serverName != "" then Some(settings.servers[a.serverName]) else None;
        var destinationDir :=
          if server.Some? && server.value.destinationDir.Some? then server.value.destinationDir.value
          else settings.destinationDir;
        var variables := Layer(settings, a.serverName, server, destinationDir, environ);
        var containers := if "--skip-containers" in a.flags then [] else settings.containers;
        var chosen := Overridden(a.flags, commands);
        var plan := Plan(a.serverName, server, variables, destinationDir, containers, chosen, "--dry" in a.flags);
        if chosen != [] then Success(plan)
        else if server.None? then Failure(NoServerToConfirm)
        else if Accepts(answer) then Success(plan.(commands := DefaultCommands))
        else Failure(Declined)
  }

  /** A run that gets past the checks has a server whenever it will run
      anything but `version`, `update` or `config`, and that server is
      the configured entry of the name given; without a server the list is
      exactly one of those three. */
  lemma PrepareServerWhenNeeded(argv: seq<string>, settings: Settings, environ: Store, answer: string)
    requires Prepare(argv, settings, environ, answer).Success?
    ensures var p := Prepare(argv, settings, environ, answer).value;
      && (p.server.Some? <==> p.serverName != "")
      && (p.server.Some? ==> p.serverName in settings.servers && p.server.value == settings.servers[p.serverName])
      && (NamesStage(p.commands) ==> p.server.Some?)
      && (p.server.None? ==> p.commands in {["version"], ["update"], ["config"]})
  {
    ClassifySpec(argv);
    var ps := Positionals(argv);
    if |ps| > 0 {
      assert ps[0] in ps;
    }
    if |ps| > 1 {
      assert ps[1] in ps;
    }
    CommandListJoin(Classify(argv).value.commandsText);
  }

  /** The command list of a run is the overriding flag's, else the names
      in the text cut at its commas, else, with no text, the default four
      stages after a confirming answer. */
  lemma PrepareCommands(argv: seq<string>, settings: Settings, environ: Store, answer: string)
    requires Prepare(argv, settings, environ, answer).Success?
    ensures var a := Classify(argv).value;
      var p := Prepare(argv, settings, environ, answer).value;
      && ("--config" in a.flags ==> p.commands == ["config"])
      && ("--config" !in a.flags && "--version" in a.flags ==> p.commands == ["version"])
      && ("--config" !in a.flags && "--version" !in a.flags && "--update" in a.flags ==> p.commands == ["update"])
      && (Overridden(a.flags, []) == [] && a.commandsText != "" ==> Join(p.commands, ',') == a.commandsText)
      && (Overridden(a.flags, []) == [] && a.commandsText == "" ==> p.commands == DefaultCommands && Accepts(answer))
  {
    CommandListJoin(Classify(argv).value.commandsText);
  }

  /** The store of a run layers as `LayerPrecedence` says, and the
      containers are dropped exactly under `--skip-containers`. */
  lemma PrepareLayers(argv: seq<string>, settings: Settings, environ: Store, answer: string, k: string)
    requires Prepare(argv, settings, environ, answer).Success?
    requires Distinct(environ) && forall n :: n in settings.servers ==> Distinct(settings.servers[n].variables)
    ensures var a := Classify(argv).value;
      var p := Prepare(argv, settings, environ, answer).value;
      && Get(p.variables, k) == Get(Layer(settings, p.serverName, p.server, p.destinationDir, environ), k)
      && (k in Keys(environ) ==> Get(p.variables, k) == Get(environ, k))
      && (k !in Keys(environ) && k == "DESTINATION_DIR" ==> Get(p.variables, k) == Some(p.destinationDir))
      && (p.containers == if "--skip-containers" in a.flags then [] else settings.containers)
      && (p.dry <==> "--dry" in a.flags)
  {
    var p := Prepare(argv, settings, environ, answer).value;
    assert DictsDistinct(p.server, environ);
    LayerPrecedence(settings, p.serverName, p.server, p.destinationDir, environ, k);
  }

  /** A command line of fewer than two arguments, none empty, prints the
      usage and stops. */
  lemma ShortCommandLineIsUsage(argv: seq<string>, settings: Settings, environ: Store, answer: string)
    requires |argv| < 2 && forall i :: 0 <= i < |argv| ==> argv[i] != []
    ensures Prepare(argv, settings, environ, answer) == Failure(Usage)
  {
    ClassifySpec(argv);
  }

  /** `deploy.py SERVER STAGES` with a stage among the names and a server
      that is not configured stops with the unknown-server error, before
      anything is run. */
  lemma UnknownServerStops(script: string, name: string, text: string, settings: Settings, environ: Store, answer: string)
    requires script != [] && script[0] != '-'
    requires name != [] && name[0] != '-' && text != [] && text[0] != '-'
    requires NamesStage(CommandList(text)) && name !in settings.servers
    ensures Prepare([script, name, text], settings, environ, answer) == Failure(UnknownServer(name))
  {
    assert [script, name, text][..2] == [script, name];
    assert [script, name][..1] == [script];
    assert [script][..0] == [];
    assert Classify([script]) == Some(Args([], "", ""));
    assert Classify([script, name]) == Some(Args([], name, ""));
    assert Classify([script, name, text]) == Some(Args([], name, text));
  }

  /** `for i, arg in enumerate(sys.argv)`, stopping at an empty argument. */
  method ReadArguments(argv: seq<string>) returns (r: Option<Args>)
    ensures r == Classify(argv)
  {
    var flags: seq<string> := [];
    var serverName := "";
    var commandsText := "";
    var i := 0;
    while i < |argv|
      invariant 0 <= i <= |argv|
      invariant Classify(argv[..i]) == Some(Args(flags, serverName, commandsText))
    {
      var arg := argv[i];
      assert argv[..i + 1][..i] == argv[..i];
      if arg == [] {
        ClassifySpec(argv);
        return None;
      }
      if arg[0] == '-' {
        flags := flags + [arg];
      } else if i > 0 && serverName == "" {
        serverName := arg;
      } else if i > 0 && commandsText == "" {
        commandsText := arg;
      }
      i := i + 1;
    }
    assert argv[..i] == argv;
    r := Some(Args(flags, serverName, commandsText));
  }

  /** The four `config.variables.update` calls and the server's
      `destination_dir`. */
  method LayerVariables(settings: Settings, name: string, server: Option<Server>, environ: Store)
    returns (variables: Store, destinationDir: string)
    ensures destinationDir ==
      if server.Some? && server.value.destinationDir.Some? then server.value.destinationDir.value
      else settings.destinationDir
    ensures variables == Layer(settings, name, server, destinationDir, environ)
  {
    variables := settings.variables;
    destinationDir := settings.destinationDir;
    if server.Some? {
      var s := server.value;
      variables := Update(variables, ServerBuiltins(name, s));
      variables := Update(variables, s.variables);
      if s.destinationDir.Some? {
        destinationDir := s.destinationDir.value;
      }
    }
    variables := Update(variables, PathVariables(destinationDir, settings.tempDir));
    variables := Update(variables, environ);
  }

  /** The argument loop and the checks after it, statement by statement:
      the outcome is `Prepare`'s. */
  method Launch(argv: seq<string>, settings: Settings, environ: Store, answer: string) returns (r: Result<Plan, Stop>)
    ensures r == Prepare(argv, settings, environ, answer)
  {
    var args := ReadArguments(argv);
    if args.None? {
      return Failure(EmptyArgument);
    }
    var flags, serverName, commandsText := args.value.flags, args.value.serverName, args.value.commandsText;
    var commands: seq<string> := [];
    if commandsText != "" {
      commands := Split(commandsText, ',');
    }
    if |argv| < 2 {
      return Failure(Usage);
    }
    if "run" in commands || "deploy" in commands || "build" in commands
       || "build-env" in commands || "push" in commands || "init" in commands {
      if |argv| < 3 {
        return Failure(Usage);
      }
      if serverName !in settings.servers {
        return Failure(UnknownServer(serverName));
      }
    }

    var server: Option<Server> := None;
    if serverName != "" {
      if serverName !in settings.servers {
        return Failure(MissingServer(serverName));
      }
      server := Some(settings.servers[serverName]);
    }
    var variables, destinationDir := LayerVariables(settings, serverName, server, environ);

    var containers := settings.containers;
    if "--skip-containers" in flags {
      containers := [];
    }
    if "--update" in flags {
      commands := ["update"];
    }
    if "--version" in flags {
      commands := ["version"];
    }
    if "--config" in flags {
      commands := ["config"];
    }
    if |commands| < 1 {
      if server.None? {
        return Failure(NoServerToConfirm);
      }
      if answer == "Y" || answer == "y" || answer == "" {
        commands := DefaultCommands;
      } else {
        return Failure(Declined);
      }
    }
    r := Success(Plan(serverName, server, variables, destinationDir, containers, commands, "--dry" in flags));
  }

  // ------------------------------------------------------------ whole run

  /** The stage loop's context for a plan with a server. */
  function ContextOf(p: Plan, settings: Settings, fs: FileSystem, matches: (string, string) -> bool): Context
    requires p.server.Some?
  {
    Context(settings, p.server.value, p.destinationDir, fs, matches)
  }

  /** The stage loop's starting state for a plan. */
  function StateOf(p: Plan, settings: Settings): State
  {
    State(p.variables, p.containers, settings.files)
  }

  /** What a whole run issues and executes: nothing when it stops before
      the loop or has no server, and otherwise the lines of the stages of
      the plan's list, in order, from a fresh trace. */
  function Outcome(argv: seq<string>, settings: Settings, environ: Store, answer: string,
                   fs: FileSystem, matches: (string, string) -> bool, outcomes: seq<int>): Result<Trace, Stop>
  {
    match Prepare(argv, settings, environ, answer)
    case Failure(e) => Failure(e)
    case Success(p) =>
      if p.server.None? then Success(Start)
      else
        var runner := Runner(p.dry, outcomes);
        Success(Exec(runner, Start, Pipeline(ContextOf(p, settings, fs, matches), StateOf(p, settings), p.commands).commands))
  }

  /** Without a server the loop only meets `version`, `update` or
      `config`, which issue nothing: leaving it out loses no line. */
  lemma NoServerIssuesNothing(ctx: Context, p: Plan, settings: Settings)
    requires p.commands in {["version"], ["update"], ["config"]}
    ensures Pipeline(ctx, StateOf(p, settings), p.commands).commands == []
  {
    PipelineSnoc(ctx, StateOf(p, settings), [], p.commands[0]);
    assert [] + [p.commands[0]] == p.commands;
  }

  /** The script from start to end: prepare, then run the stage loop on a
      deployment holding the plan's state. */
  method Airship(argv: seq<string>, settings: Settings, environ: Store, answer: string,
                 fs: FileSystem, matches: (string, string) -> bool, outcomes: seq<int>) returns (r: Result<Trace, Stop>)
    ensures r == Outcome(argv, settings, environ, answer, fs, matches, outcomes)
  {
    var prepared := Launch(argv, settings, environ, answer);
    if prepared.Failure? {
      return Failure(prepared.error);
    }
    var p := prepared.value;
    if p.server.None? {
      return Success(Start);
    }
    var d := new Deployment(ContextOf(p, settings, fs, matches), Runner(p.dry, outcomes), StateOf(p, settings));
    d.RunCommands(p.commands);
    r := Success(d.trace);
  }
}
