/** What each command of the script's stage loop does, as functions of the
    mutable state it works on: the variable store, the container dicts and
    the file dicts, which the stages rewrite in place. Each stage yields
    its new state and the command lines it hands to `run`, in order. The
    class in module Driver carries out the same stages step by step and is
    proved to match. */
module Stages {
  import opened Wrappers
  import opened Text
  import opened Paths
  import opened VarStore
  import opened Config
  import opened Commands
  import opened Templates
  import opened Execution

  /** What stays fixed during the stage loop: the configuration, the
      selected server, the destination directory (the server's, when it
      names one), the filesystem and the regular-expression search. */
  datatype Context = Context(
    settings: Settings,
    server: Server,
    destinationDir: string,
    fs: FileSystem,
    matches: (string, string) -> bool)

  /** What the stages change: `config.variables`, `config.containers` and
      `config.files`. */
  datatype State = State(variables: Store, containers: seq<Container>, files: seq<FileSpec>)

  /** A state and the command lines issued while reaching it. */
  datatype Step = Step(state: State, commands: seq<string>)

  /** The outcome of one container's step: the shared store after it, the
      rewritten container, and the line run. */
  datatype Built = Built(variables: Store, container: Container, line: string)

  /** A container stage over the first `n` containers: each selected
      container, in order, goes through `step`, which may rewrite it and
      the shared store and runs one line; the others are skipped. */
  function ForContainers(step: (Store, Container) -> Built, select: Container -> bool, st: State, n: nat): (r: Step)
    requires n <= |st.containers|
    ensures |r.state.containers| == |st.containers|
    ensures r.state.containers[n..] == st.containers[n..] && r.state.files == st.files
    decreases n
  {
    if n == 0 then Step(st, [])
    else
      var prev := ForContainers(step, select, st, n - 1);
      var c := st.containers[n - 1];
      if !select(c) then prev
      else
        var b := step(prev.state.variables, c);
        Step(State(b.variables, prev.state.containers[n - 1 := b.container], st.files), prev.commands + [b.line])
  }

  /** One more pass of the container loop: the i-th container is still
      as it was given, and it is either skipped or stepped. */
  lemma ForContainersNext(step: (Store, Container) -> Built, select: Container -> bool, st: State, i: nat)
    requires i < |st.containers|
    ensures var prev := ForContainers(step, select, st, i);
      var c := st.containers[i];
      && prev.state.containers[i] == c
      && ForContainers(step, select, st, i + 1)
         == if !select(c) then prev
            else
              var b := step(prev.state.variables, c);
              Step(State(b.variables, prev.state.containers[i := b.container], st.files), prev.commands + [b.line])
  {
    var prev := ForContainers(step, select, st, i);
    assert prev.state.containers[i..][0] == st.containers[i..][0];
  }

  /** The selected containers, in order. */
  function Filter(select: Container -> bool, cs: seq<Container>): (r: seq<Container>)
    ensures |r| <= |cs|
    ensures forall c :: c in r ==> select(c)
    decreases |cs|
  {
    if cs == [] then []
    else Filter(select, cs[..|cs| - 1]) + (if select(cs[|cs| - 1]) then [cs[|cs| - 1]] else [])
  }

  /** For a step that leaves the store alone: the skipped containers stay
      as they were, each selected one is rewritten by the step, and the
      lines are those of the selected containers, one each, in order. */
  lemma ForContainersSelected(step: (Store, Container) -> Built, select: Container -> bool, st: State, n: nat)
    requires n <= |st.containers|
    requires forall v, c :: step(v, c).variables == v
    ensures var r := ForContainers(step, select, st, n);
      && r.state.variables == st.variables
      && (forall i :: 0 <= i < n && !select(st.containers[i]) ==> r.state.containers[i] == st.containers[i])
      && (forall i :: 0 <= i < n && select(st.containers[i]) ==>
            r.state.containers[i] == step(st.variables, st.containers[i]).container)
      && |r.commands| == |Filter(select, st.containers[..n])|
      && (forall j :: 0 <= j < |r.commands| ==>
            r.commands[j] == step(st.variables, Filter(select, st.containers[..n])[j]).line)
  {
    ForContainersState(step, select, st, n);
    ForContainersLines(step, select, st, n);
  }

  /** The state half of `ForContainersSelected`. */
  lemma {:induction false} ForContainersState(step: (Store, Container) -> Built, select: Container -> bool, st: State, n: nat)
    requires n <= |st.containers|
    requires forall v, c :: step(v, c).variables == v
    ensures var r := ForContainers(step, select, st, n);
      && r.state.variables == st.variables
      && (forall i :: 0 <= i < n && !select(st.containers[i]) ==> r.state.containers[i] == st.containers[i])
      && (forall i :: 0 <= i < n && select(st.containers[i]) ==>
            r.state.containers[i] == step(st.variables, st.containers[i]).container)
    decreases n
  {
    if n > 0 {
      ForContainersState(step, select, st, n - 1);
    }
  }

  /** The lines half of `ForContainersSelected`. */
  lemma {:induction false} ForContainersLines(step: (Store, Container) -> Built, select: Container -> bool, st: State, n: nat)
    requires n <= |st.containers|
    requires forall v, c :: step(v, c).variables == v
    ensures var r := ForContainers(step, select, st, n);
      && |r.commands| == |Filter(select, st.containers[..n])|
      && (forall j :: 0 <= j < |r.commands| ==>
            r.commands[j] == step(st.variables, Filter(select, st.containers[..n])[j]).line)
    decreases n
  {
    if n > 0 {
      var prev := ForContainers(step, select, st, n - 1);
      var before := Filter(select, st.containers[..n - 1]);
      var c := st.containers[n - 1];
      ForContainersLines(step, select, st, n - 1);
      assert st.containers[..n][..n - 1] == st.containers[..n - 1];
      if select(c) {
        assert prev.state.variables == st.variables by {
          ForContainersState(step, select, st, n - 1);
        }
        assert Filter(select, st.containers[..n]) == before + [c];
      } else {
        assert Filter(select, st.containers[..n]) == before;
      }
    }
  }

  // ---------------------------------------------------------------- build

  /** `docker_build(variables, container)`: `DOCKERFILE_DIR` is written into
      the shared store first, then every field is substituted with that
      store; a build path of exactly `./` becomes the directory of the
      resolved Dockerfile. */
  function BuildOne(ctx: Context, vars: Store, c: Container): Built
  {
    var vars1 := Set(vars, "DOCKERFILE_DIR", Dirname(c.dockerfile));
    var dockerfile := PathJoin(ctx.settings.workDir, ReplaceVariables(vars1, c.dockerfile));
    var c1 := c.(
      name := ReplaceVariables(vars1, c.name),
      registry := ReplaceVariables(vars1, c.registry),
      dockerfile := dockerfile,
      buildPath := if c.buildPath == "./" then Dirname(dockerfile)
                   else PathJoin(ctx.settings.workDir, ReplaceVariables(vars1, c.buildPath)));
    var docker := ctx.settings.docker;
    Built(vars1, c1,
      DockerBuildLine(DockerHost(vars1, docker, c.dockerHost), BuildxWord(docker, c), PlatformOption(docker, c),
                      BuildArgs(vars1, c), c1))
  }

  /** `docker_build` as a container step. */
  function BuildStep(ctx: Context): (Store, Container) -> Built
  {
    (v: Store, c: Container) => BuildOne(ctx, v, c)
  }

  /** Every container is built. */
  predicate Every(c: Container)
  {
    true
  }

  /** The `build` stage: every container in order. */
  function BuildStage(ctx: Context, st: State): Step
  {
    ForContainers(BuildStep(ctx), Every, st, |st.containers|)
  }

  /** Building runs one line per container and leaves in the store the
      `DOCKERFILE_DIR` of the last container built, since the alias
      `build_variables` is the shared store itself; no other name is
      lost. */
  lemma {:induction false} BuildLeaksDockerfileDir(ctx: Context, st: State, n: nat)
    requires 0 < n <= |st.containers|
    ensures var r := ForContainers(BuildStep(ctx), Every, st, n);
      && |r.commands| == n
      && Get(r.state.variables, "DOCKERFILE_DIR") == Some(Dirname(st.containers[n - 1].dockerfile))
      && forall k :: Get(st.variables, k).Some? ==> Get(r.state.variables, k).Some?
    decreases n
  {
    var step := BuildStep(ctx);
    var prev := ForContainers(step, Every, st, n - 1);
    var c := st.containers[n - 1];
    SetSpec(prev.state.variables, "DOCKERFILE_DIR", Dirname(c.dockerfile));
    assert ForContainers(step, Every, st, n).state.variables
        == Set(prev.state.variables, "DOCKERFILE_DIR", Dirname(c.dockerfile));
    if n > 1 {
      BuildLeaksDockerfileDir(ctx, st, n - 1);
    }
  }

  /** Building twice joins the work directory twice onto the Dockerfile
      path, which already carries it after the first build; only an
      absolute work directory makes the second join harmless. */
  lemma RebuildJoinsWorkDirTwice(ctx: Context, vars: Store, vars': Store, c: Container)
    requires '$' !in ctx.settings.workDir && '$' !in c.dockerfile
    ensures var once := BuildOne(ctx, vars, c).container;
      var twice := BuildOne(ctx, vars', once).container;
      var w := ctx.settings.workDir;
      && once.dockerfile == PathJoin(w, c.dockerfile)
      && twice.dockerfile == PathJoin(w, PathJoin(w, c.dockerfile))
      && (w != [] && !StartsWith("/", w) && !StartsWith("/", c.dockerfile) ==> twice.dockerfile != once.dockerfile)
      && (StartsWith("/", w) ==> twice.dockerfile == once.dockerfile)
  {
    var w := ctx.settings.workDir;
    ResolvedDockerfile(ctx, vars, c);
    PathJoinChars(w, c.dockerfile, '$');
    ResolvedDockerfile(ctx, vars', BuildOne(ctx, vars, c).container);
    PathJoinTwice(w, c.dockerfile);
  }

  /** A Dockerfile path without variables is only joined onto the work
      directory. */
  lemma ResolvedDockerfile(ctx: Context, vars: Store, c: Container)
    requires '$' !in c.dockerfile
    ensures BuildOne(ctx, vars, c).container.dockerfile == PathJoin(ctx.settings.workDir, c.dockerfile)
  {
    ReplaceVariablesIdentity(Set(vars, "DOCKERFILE_DIR", Dirname(c.dockerfile)), c.dockerfile);
  }

  /** A build path of exactly `./` names the directory of the resolved
      Dockerfile; any other, the empty one included, is joined onto the
      work directory, so an empty build path builds in the work directory
      itself. */
  lemma BuildPathChoice(ctx: Context, vars: Store, c: Container, dir: string, file: string)
    requires '$' !in c.dockerfile && c.dockerfile == dir + "/" + file
    requires dir != [] && dir[|dir| - 1] != '/' && '/' !in file && !StartsWith("/", dir)
    requires |ctx.settings.workDir| > 0 && ctx.settings.workDir[|ctx.settings.workDir| - 1] == '/'
    ensures c.buildPath == "./" ==> BuildOne(ctx, vars, c).container.buildPath == PathJoin(ctx.settings.workDir, dir)
    ensures c.buildPath == "" ==> BuildOne(ctx, vars, c).container.buildPath == ctx.settings.workDir
  {
    BuildPaths(ctx, vars, c);
    var vars1 := Set(vars, "DOCKERFILE_DIR", Dirname(c.dockerfile));
    DirOfResolved(ctx.settings.workDir, vars1, c.dockerfile, dir, file);
    EmptyBuildPath(ctx.settings.workDir, vars1);
  }

  /** The directory of a variable-free Dockerfile path joined onto a work
      directory ending in `/` is the work directory joined with the
      Dockerfile's own directory. */
  lemma DirOfResolved(w: string, vars: Store, dockerfile: string, dir: string, file: string)
    requires '$' !in dockerfile && dockerfile == dir + "/" + file
    requires dir != [] && dir[|dir| - 1] != '/' && '/' !in file && !StartsWith("/", dir)
    requires |w| > 0 && w[|w| - 1] == '/'
    ensures Dirname(PathJoin(w, ReplaceVariables(vars, dockerfile))) == PathJoin(w, dir)
  {
    ReplaceVariablesIdentity(vars, dockerfile);
    assert !StartsWith("/", dockerfile) by {
      assert dockerfile[0] == dir[0];
    }
    assert PathJoin(w, dockerfile) == (w + dir) + "/" + file;
    DirnameOfJoin(w + dir, file);
  }

  /** An empty build path resolves to the work directory itself when that
      ends in `/`; otherwise a `/` is appended to it. */
  lemma EmptyBuildPath(w: string, vars: Store)
    requires w == [] || w[|w| - 1] == '/'
    ensures PathJoin(w, ReplaceVariables(vars, "")) == w
  {
    ReplaceVariablesIdentity(vars, "");
    assert w + "" == w;
  }

  /** The two paths of a built container, apart from the rest of it. */
  lemma BuildPaths(ctx: Context, vars: Store, c: Container)
    ensures var vars1 := Set(vars, "DOCKERFILE_DIR", Dirname(c.dockerfile));
      var b := BuildOne(ctx, vars, c).container;
      && b.dockerfile == PathJoin(ctx.settings.workDir, ReplaceVariables(vars1, c.dockerfile))
      && b.buildPath == (if c.buildPath == "./" then Dirname(b.dockerfile)
                         else PathJoin(ctx.settings.workDir, ReplaceVariables(vars1, c.buildPath)))
  {
  }

  // ----------------------------------------------------------------- push

  /** `docker_push(variables, container)`: registry and name are
      substituted in place, then pushed. */
  function PushOne(ctx: Context, vars: Store, c: Container): Built
  {
    var c1 := c.(registry := ReplaceVariables(vars, c.registry), name := ReplaceVariables(vars, c.name));
    Built(vars, c1, DockerPushLine(DockerHost(vars, ctx.settings.docker, c.dockerHost), c1))
  }

  /** `docker_push` as a container step. */
  function PushStep(ctx: Context): (Store, Container) -> Built
  {
    (v: Store, c: Container) => PushOne(ctx, v, c)
  }

  /** `'arch_name' not in container`. */
  predicate IsUnarchived(c: Container)
  {
    c.archName.None?
  }

  /** The `push` stage: only containers without an archive name. */
  function PushStage(ctx: Context, st: State): Step
  {
    ForContainers(PushStep(ctx), IsUnarchived, st, |st.containers|)
  }

  /** `push` leaves every archived container as it was, substitutes the
      registry and name of every other one, and pushes exactly the
      unarchived containers, in order. */
  lemma PushTouchesOnlyUnarchived(ctx: Context, st: State)
    ensures var r := PushStage(ctx, st); var pushed := Filter(IsUnarchived, st.containers);
      && r.state.variables == st.variables
      && (forall i :: 0 <= i < |st.containers| && st.containers[i].archName.Some? ==> r.state.containers[i] == st.containers[i])
      && (forall i :: 0 <= i < |st.containers| && st.containers[i].archName.None? ==>
            r.state.containers[i] == PushOne(ctx, st.variables, st.containers[i]).container)
      && |r.commands| == |pushed|
      && (forall j :: 0 <= j < |r.commands| ==> r.commands[j] == PushOne(ctx, st.variables, pushed[j]).line)
  {
    ForContainersSelected(PushStep(ctx), IsUnarchived, st, |st.containers|);
    assert st.containers[..|st.containers|] == st.containers;
  }

  // ----------------------------------------------------------------- dump

  /** The archive name of a container, `""` for one without. */
  function ArchName(c: Container): string
  {
    if c.archName.Some? then c.archName.value else ""
  }

  /** `docker_dump(variables, container)`: registry and name are
      substituted in place, and the image is saved into the environment
      directory, or into the containers directory when the container is
      deployed separately. */
  function DumpOne(ctx: Context, vars: Store, c: Container): Built
  {
    var c1 := c.(registry := ReplaceVariables(vars, c.registry), name := ReplaceVariables(vars, c.name));
    var tempDir := ctx.settings.tempDir;
    var tempPath := if c.deploySeparately then ContainersDir(tempDir) else EnvironmentDir(tempDir);
    Built(vars, c1, DockerSaveLine(c1, PathJoin(tempPath, ReplaceVariables(vars, ArchName(c)))))
  }

  /** `docker_dump` as a container step. */
  function DumpStep(ctx: Context): (Store, Container) -> Built
  {
    (v: Store, c: Container) => DumpOne(ctx, v, c)
  }

  /** `'arch_name' in container`. */
  predicate IsArchived(c: Container)
  {
    c.archName.Some?
  }

  /** The dump step of `deploy`: only containers with an archive name. */
  function DumpStage(ctx: Context, st: State): Step
  {
    ForContainers(DumpStep(ctx), IsArchived, st, |st.containers|)
  }

  /** The dump step leaves every unarchived container as it was, keeps
      every archive name, and saves exactly the archived containers, in
      order. */
  lemma DumpTouchesOnlyArchived(ctx: Context, st: State)
    ensures var r := DumpStage(ctx, st); var dumped := Filter(IsArchived, st.containers);
      && r.state.variables == st.variables
      && (forall i :: 0 <= i < |st.containers| && st.containers[i].archName.None? ==> r.state.containers[i] == st.containers[i])
      && (forall i :: 0 <= i < |st.containers| ==> r.state.containers[i].archName == st.containers[i].archName)
      && |r.commands| == |dumped|
      && (forall j :: 0 <= j < |r.commands| ==>
            dumped[j].archName.Some? && r.commands[j] == DumpOne(ctx, st.variables, dumped[j]).line)
  {
    var step := DumpStep(ctx);
    var select := IsArchived;
    ForContainersSelected(step, select, st, |st.containers|);
    assert st.containers[..|st.containers|] == st.containers;
    var r := DumpStage(ctx, st);
    var dumped := Filter(select, st.containers);
    forall j | 0 <= j < |dumped|
      ensures dumped[j].archName.Some?
    {
      assert dumped[j] in dumped;
    }
    forall i | 0 <= i < |st.containers|
      ensures r.state.containers[i].archName == st.containers[i].archName
    {
      if select(st.containers[i]) {
        assert r.state.containers[i] == step(st.variables, st.containers[i]).container;
      }
    }
  }

  // --------------------------------------------------------------- deploy

  /** `excludeVariables`: every variable's value `v` turned into the glob
      `*[^v]`, by assignment into a fresh dict in the store's order. */
  function ExcludeStore(vars: Store): Store
    decreases |vars|
  {
    if vars == [] then []
    else
      var last := vars[|vars| - 1];
      Set(ExcludeStore(vars[..|vars| - 1]), last.0, "*[^" + last.1 + "]")
  }

  /** The lines `deploy` issues for one container after the archive is
      extracted: for a separately deployed container, an optional removal
      of old archives and the upload of its own archive; then, for every
      archived container, the import. */
  function ShipLines(ctx: Context, vars: Store, c: Container): seq<string>
  {
    if c.archName.None? then []
    else
      var arch := c.archName.value;
      var dest := ctx.destinationDir;
      var server := ctx.server;
      (if c.deploySeparately then
         (if c.removeOld then [SshLine(server, "rm -f " + PathJoin(dest, ReplaceVariables(ExcludeStore(vars), arch)))] else [])
         + [UploadLine(server, PathJoin(ContainersDir(ctx.settings.tempDir), ReplaceVariables(vars, arch)), dest, c.ignoreExisting)]
       else [])
      + [SshLine(server, DockerLoadCommand(dest, ReplaceVariables(vars, arch)))]
  }

  /** `f` of each element in turn, one after the other. */
  function FlatMap<T>(f: T -> seq<string>, xs: seq<T>): seq<string>
    decreases |xs|
  {
    if xs == [] then [] else FlatMap(f, xs[..|xs| - 1]) + f(xs[|xs| - 1])
  }

  /** Splitting the list splits the lines. */
  lemma {:induction false} FlatMapAppend<T>(f: T -> seq<string>, a: seq<T>, b: seq<T>)
    ensures FlatMap(f, a + b) == FlatMap(f, a) + FlatMap(f, b)
    decreases |b|
  {
    if b == [] {
      assert a + b == a;
    } else {
      var b0 := b[..|b| - 1];
      assert (a + b)[..|a + b| - 1] == a + b0;
      assert (a + b)[|a + b| - 1] == b[|b| - 1];
      FlatMapAppend(f, a, b0);
    }
  }

  /** One more element adds its lines at the end. */
  lemma FlatMapSnoc<T>(f: T -> seq<string>, xs: seq<T>, x: T)
    ensures FlatMap(f, xs + [x]) == FlatMap(f, xs) + f(x)
  {
    assert (xs + [x])[..|xs|] == xs;
  }

  /** The lines of one more element, run after those of the elements
      before it, are the lines of the longer prefix run. */
  lemma ExecFlatMapStep<T>(runner: Runner, t0: Trace, f: T -> seq<string>, xs: seq<T>, m: nat, t1: Trace, t2: Trace)
    requires m < |xs|
    requires t1 == Exec(runner, t0, FlatMap(f, xs[..m]))
    requires t2 == Exec(runner, t1, f(xs[m]))
    ensures t2 == Exec(runner, t0, FlatMap(f, xs[..m + 1]))
  {
    assert xs[..m + 1] == xs[..m] + [xs[m]];
    FlatMapSnoc(f, xs[..m], xs[m]);
    ExecAppend(runner, t0, FlatMap(f, xs[..m]), f(xs[m]));
  }

  /** The shipping lines as a function of the container. */
  function Shipper(ctx: Context, vars: Store): Container -> seq<string>
  {
    (c: Container) => ShipLines(ctx, vars, c)
  }

  /** The four lines that move the environment archive: archive it, create
      the destination, upload, extract. */
  function ArchiveLines(ctx: Context): seq<string>
  {
    var s := ctx.settings;
    var dest := ctx.destinationDir;
    var environment := EnvironmentDir(s.tempDir);
    [ ArchiveLine(PathJoin(ArchivesDir(s.tempDir), s.archName), environment, environment in ctx.fs.dirs),
      SshLine(ctx.server, "mkdir -p " + dest),
      UploadLine(ctx.server, ArchivesDir(s.tempDir) + "/*", dest + "/", false),
      SshLine(ctx.server, "cd " + dest + " && tar -xzf " + s.archName + " --totals .") ]
  }

  /** The line of the `run` stage, also the last line of `deploy`. */
  function RunLine(ctx: Context, vars: Store): string
  {
    SshLine(ctx.server, ReplaceVariables(vars, ctx.settings.runCommand))
  }

  /** The `deploy` stage: dump, move the archive, ship the containers, run. */
  function DeployStage(ctx: Context, st: State): Step
  {
    var d := DumpStage(ctx, st);
    Step(d.state,
      d.commands + ArchiveLines(ctx)
      + FlatMap(Shipper(ctx, st.variables), d.state.containers)
      + [RunLine(ctx, st.variables)])
  }

  /** A container is shipped only when it has an archive name, and then
      its import comes last; it is uploaded on its own exactly when it is
      deployed separately, after any removal of old archives. */
  lemma ShipOnlyArchived(ctx: Context, vars: Store, c: Container)
    ensures var r := ShipLines(ctx, vars, c);
      && (r == [] <==> c.archName.None?)
      && (c.archName.Some? ==>
            && |r| == 1 + (if c.deploySeparately then 1 + (if c.removeOld then 1 else 0) else 0)
            && r[|r| - 1] == SshLine(ctx.server, DockerLoadCommand(ctx.destinationDir, ReplaceVariables(vars, c.archName.value)))
            && (c.deploySeparately ==>
                  r[|r| - 2] == UploadLine(ctx.server, PathJoin(ContainersDir(ctx.settings.tempDir),
                                                                ReplaceVariables(vars, c.archName.value)),
                                           ctx.destinationDir, c.ignoreExisting)))
  {
  }

  /** Lists whose elements yield the same lines, one by one, yield the
      same lines. */
  lemma {:induction false} FlatMapPointwise<T>(f: T -> seq<string>, xs: seq<T>, ys: seq<T>)
    requires |xs| == |ys|
    requires forall i :: 0 <= i < |xs| ==> f(xs[i]) == f(ys[i])
    ensures FlatMap(f, xs) == FlatMap(f, ys)
    decreases |xs|
  {
    if xs != [] {
      FlatMapPointwise(f, xs[..|xs| - 1], ys[..|ys| - 1]);
    }
  }

  /** A container without an archive name adds no shipping line, so the
      shipping lines of a list are those of its archived containers, in
      order. */
  lemma {:induction false} ShipFiltered(ctx: Context, vars: Store, cs: seq<Container>)
    ensures FlatMap(Shipper(ctx, vars), cs) == FlatMap(Shipper(ctx, vars), Filter(IsArchived, cs))
    decreases |cs|
  {
    if cs != [] {
      var init, c := cs[..|cs| - 1], cs[|cs| - 1];
      ShipFiltered(ctx, vars, init);
      if IsArchived(c) {
        FlatMapSnoc(Shipper(ctx, vars), Filter(IsArchived, init), c);
      } else {
        assert Shipper(ctx, vars)(c) == [];
        assert Filter(IsArchived, cs) == Filter(IsArchived, init) + [];
        assert Filter(IsArchived, init) + [] == Filter(IsArchived, init);
        assert FlatMap(Shipper(ctx, vars), cs) == FlatMap(Shipper(ctx, vars), init) + [];
        assert FlatMap(Shipper(ctx, vars), init) + [] == FlatMap(Shipper(ctx, vars), init);
      }
    }
  }

  /** Dumping rewrites only registry and name, so every container ships
      the same lines after the dump as before it. */
  lemma DumpKeepsShipping(ctx: Context, st: State, vars: Store)
    ensures var r := DumpStage(ctx, st);
      FlatMap(Shipper(ctx, vars), r.state.containers) == FlatMap(Shipper(ctx, vars), st.containers)
  {
    var r := DumpStage(ctx, st);
    ForContainersState(DumpStep(ctx), IsArchived, st, |st.containers|);
    forall i | 0 <= i < |st.containers|
      ensures Shipper(ctx, vars)(r.state.containers[i]) == Shipper(ctx, vars)(st.containers[i])
    {
      var c := st.containers[i];
      if IsArchived(c) {
        assert r.state.containers[i] == DumpOne(ctx, st.variables, c).container;
      }
    }
    FlatMapPointwise(Shipper(ctx, vars), r.state.containers, st.containers);
  }

  /** `deploy` issues, in this order: one save per archived container, the
      archive, the creation of the destination, the upload, the
      extraction, the shipping lines of the archived containers in
      container order, and last the run command; the store is not
      changed. */
  lemma DeployOrder(ctx: Context, st: State)
    ensures var r := DeployStage(ctx, st); var d := |Filter(IsArchived, st.containers)|;
      && |r.commands| >= d + 5
      && r.commands[..d] == DumpStage(ctx, st).commands
      && r.commands[d..d + 4] == ArchiveLines(ctx)
      && r.commands[d + 4..|r.commands| - 1] == FlatMap(Shipper(ctx, st.variables), Filter(IsArchived, st.containers))
      && r.commands[|r.commands| - 1] == RunLine(ctx, st.variables)
      && r.state.variables == st.variables
  {
    var d := DumpStage(ctx, st);
    var ship := FlatMap(Shipper(ctx, st.variables), d.state.containers);
    var run := RunLine(ctx, st.variables);
    assert DeployStage(ctx, st).commands == d.commands + ArchiveLines(ctx) + ship + [run];
    DumpTouchesOnlyArchived(ctx, st);
    Layout4(d.commands, ArchiveLines(ctx), ship, run);
    DumpKeepsShipping(ctx, st, st.variables);
    ShipFiltered(ctx, st.variables, st.containers);
  }

  /** Where the parts of `a + b + c + [x]` sit, for a `b` of four lines. */
  lemma Layout4<T>(a: seq<T>, b: seq<T>, c: seq<T>, x: T)
    requires |b| == 4
    ensures var r := a + b + c + [x];
      && |r| >= |a| + 5 && r[..|a|] == a && r[|a|..|a| + 4] == b
      && r[|a| + 4..|r| - 1] == c && r[|r| - 1] == x
  {
    var r := a + b + c + [x];
    assert r[..|a|] == a;
    assert r[|a|..|a| + 4] == b;
    assert r[|a| + 4..|r| - 1] == c;
  }

  /** Every variable of a store is in its exclusion store, as `*[^v]`. */
  lemma {:induction false} ExcludeGet(vars: Store, k: string)
    requires Distinct(vars)
    ensures Get(ExcludeStore(vars), k) == if Get(vars, k).Some? then Some("*[^" + Get(vars, k).value + "]") else None
    decreases |vars|
  {
    if vars != [] {
      var init, last := vars[..|vars| - 1], vars[|vars| - 1];
      assert vars == init + [last];
      DistinctSnoc(init, last);
      ExcludeGet(init, k);
      SetSpec(ExcludeStore(init), last.0, "*[^" + last.1 + "]");
      GetSnoc(init, last, k);
      GetPresent(init, k);
    }
  }

  // ------------------------------------------------------------ build-env

  /** The destination of one template file found in a copied directory:
      its path relative to the directory, under the directory's
      destination. */
  function TemplateSpec(ctx: Context, g: FileSpec, dirFile: string): FileSpec
  {
    FileSpec(dirFile, PathJoin(PathJoin(EnvironmentDir(ctx.settings.tempDir), g.envPath), RelativeTo(dirFile, g.path)), true)
  }

  /** `copy_and_replace` of a file, with the parent check done against the
      filesystem. */
  function CopyAndReplace(ctx: Context, vars: Store, f: FileSpec): seq<string>
  {
    CopyAndReplaceLines(vars, f, Exists(ctx.fs, Dirname(f.envPath)))
  }

  /** `copy_and_replace` as a function of the file entry. */
  function Copier(ctx: Context, vars: Store): FileSpec -> seq<string>
  {
    (f: FileSpec) => CopyAndReplace(ctx, vars, f)
  }

  /** The entries made for the template files of the directory `g`. */
  function TemplateSpecs(ctx: Context, g: FileSpec, found: seq<string>): (r: seq<FileSpec>)
    ensures |r| == |found|
    ensures forall i :: 0 <= i < |found| ==> r[i] == TemplateSpec(ctx, g, found[i])
  {
    seq(|found|, i requires 0 <= i < |found| => TemplateSpec(ctx, g, found[i]))
  }

  /** The template files of a copied directory. */
  function Found(ctx: Context, g: FileSpec): seq<string>
  {
    Selected(ctx.matches, ctx.settings.replacePatterns, Walk(ctx.fs, g.path))
  }

  /** Both paths of a file entry joined (onto the work directory and the
      environment directory) and then substituted, as `build-env` rewrites
      them in place. */
  function ResolvedFile(ctx: Context, vars: Store, f: FileSpec): FileSpec
  {
    var s := ctx.settings;
    f.(path := ReplaceVariables(vars, PathJoin(s.workDir, f.path)),
       envPath := ReplaceVariables(vars, PathJoin(EnvironmentDir(s.tempDir), f.envPath)))
  }

  /** The lines for a directory entry: the directory is copied whole and
      then, when asked, each template file in it is substituted again over
      its copy. */
  function DirLines(ctx: Context, vars: Store, g: FileSpec): seq<string>
  {
    [CopyDirLine(g)]
    + (if g.replaceVars then FlatMap(Copier(ctx, vars), TemplateSpecs(ctx, g, Found(ctx, g))) else [])
  }

  /** One file of the `build-env` loop: the entry is resolved in place; a
      missing source is skipped; a regular file is copied with
      substitution; a directory gets its `DirLines`. */
  function FileOne(ctx: Context, vars: Store, f: FileSpec): (FileSpec, seq<string>)
  {
    var g := ResolvedFile(ctx, vars, f);
    if !Exists(ctx.fs, g.path) then (g, [])
    else
      (g,
        (if g.path in ctx.fs.files then CopyAndReplace(ctx, vars, g) else [])
        + (if g.path in ctx.fs.dirs then DirLines(ctx, vars, g) else []))
  }

  /** The file loop of `build-env` over the first `n` files. */
  function FilesPrefix(ctx: Context, st: State, n: nat): (r: Step)
    requires n <= |st.files|
    ensures |r.state.files| == |st.files| && r.state.files[n..] == st.files[n..]
    ensures r.state.variables == st.variables && r.state.containers == st.containers
    decreases n
  {
    if n == 0 then Step(st, [])
    else
      var prev := FilesPrefix(ctx, st, n - 1);
      var one := FileOne(ctx, st.variables, st.files[n - 1]);
      Step(prev.state.(files := prev.state.files[n - 1 := one.0]), prev.commands + one.1)
  }

  /** One more pass of the file loop: the k-th entry, still as it was
      given, is resolved and its lines follow those before it. */
  lemma FilesPrefixStep(ctx: Context, st: State, k: nat)
    requires k < |st.files|
    ensures var prev := FilesPrefix(ctx, st, k); var one := FileOne(ctx, st.variables, st.files[k]);
      && prev.state.files[k] == st.files[k]
      && FilesPrefix(ctx, st, k + 1) == Step(prev.state.(files := prev.state.files[k := one.0]), prev.commands + one.1)
  {
    var prev := FilesPrefix(ctx, st, k);
    assert prev.state.files[k..][0] == st.files[k..][0];
  }

  /** The `build-env` stage: clean the temporary directory, then every
      file in order. */
  function BuildEnvStage(ctx: Context, st: State): Step
  {
    var f := FilesPrefix(ctx, st, |st.files|);
    Step(f.state, CleanupLines(ctx.settings.tempDir) + f.commands)
  }

  /** A missing source issues nothing; a regular file (that is not also a
      directory) is copied, through sed when asked; a directory is first
      copied whole, and its template files are substituted only when the
      entry asks for it. */
  lemma FileOneCases(ctx: Context, vars: Store, f: FileSpec)
    ensures var (g, lines) := FileOne(ctx, vars, f);
      && (!Exists(ctx.fs, g.path) ==> lines == [])
      && (g.path in ctx.fs.files && g.path !in ctx.fs.dirs ==> lines == CopyAndReplace(ctx, vars, g))
      && (g.path !in ctx.fs.files && g.path in ctx.fs.dirs ==>
            && lines[0] == "cp -R " + g.path + " " + g.envPath
            && (!g.replaceVars ==> |lines| == 1))
  {
  }

  /** A template file found in a copied directory is substituted to the
      same relative place under the directory's destination; when that
      destination is absolute, which it is whenever the temporary
      directory is, that place is inside the copy `cp -R` made. */
  lemma TemplateDestination(ctx: Context, g: FileSpec, q: string)
    requires g.path != [] && !StartsWith("/", q)
    ensures TemplateSpec(ctx, g, PathJoin(g.path, q)).envPath
         == PathJoin(PathJoin(EnvironmentDir(ctx.settings.tempDir), g.envPath), q)
    ensures StartsWith("/", g.envPath) ==> TemplateSpec(ctx, g, PathJoin(g.path, q)).envPath == PathJoin(g.envPath, q)
    ensures TemplateSpec(ctx, g, PathJoin(g.path, q)).replaceVars
  {
    RelativeToJoin(g.path, q);
  }

  /** The template entries of a copied directory, one per file found in
      it and in the order found: each substitutes the found file itself,
      always with variables, to the file's relative place under the
      directory's destination joined onto the environment directory, and
      to its place inside the copy when that destination is absolute. */
  lemma TemplateSpecsPlaces(ctx: Context, g: FileSpec, found: seq<string>, rel: seq<string>)
    requires g.path != [] && |rel| == |found|
    requires forall i :: 0 <= i < |found| ==> found[i] == PathJoin(g.path, rel[i]) && !StartsWith("/", rel[i])
    ensures var r := TemplateSpecs(ctx, g, found);
      && |r| == |found|
      && forall i :: 0 <= i < |found| ==>
           && r[i].path == found[i]
           && r[i].replaceVars
           && r[i].envPath == PathJoin(PathJoin(EnvironmentDir(ctx.settings.tempDir), g.envPath), rel[i])
           && (StartsWith("/", g.envPath) ==> r[i].envPath == PathJoin(g.envPath, rel[i]))
  {
    forall i | 0 <= i < |found|
      ensures TemplateSpec(ctx, g, PathJoin(g.path, rel[i])).envPath
           == PathJoin(PathJoin(EnvironmentDir(ctx.settings.tempDir), g.envPath), rel[i])
      ensures StartsWith("/", g.envPath) ==> TemplateSpec(ctx, g, PathJoin(g.path, rel[i])).envPath == PathJoin(g.envPath, rel[i])
    {
      TemplateDestination(ctx, g, rel[i]);
    }
  }

  // ------------------------------------------------------ user commands

  /** One line of `user_commands(server, variables, commands, place)`: the
      command is substituted and run over ssh when the place is `remote`,
      locally otherwise. */
  function UserLine(ctx: Context, vars: Store, place: string, command: string): seq<string>
  {
    var c := ReplaceVariables(vars, command);
    [if place == "remote" then SshLine(ctx.server, c) else c]
  }

  /** `UserLine` as a function of the command. */
  function UserLines(ctx: Context, vars: Store, place: string): string -> seq<string>
  {
    (x: string) => UserLine(ctx, vars, place, x)
  }

  /** Each element of `xs` yields exactly one line through `f`: the lines
      are those of the elements, in order. */
  lemma {:induction false} FlatMapSingles<T>(f: T -> seq<string>, xs: seq<T>)
    requires forall x :: |f(x)| == 1
    ensures |FlatMap(f, xs)| == |xs|
    ensures forall i :: 0 <= i < |xs| ==> FlatMap(f, xs)[i] == f(xs[i])[0]
    decreases |xs|
  {
    if xs != [] {
      FlatMapSingles(f, xs[..|xs| - 1]);
    }
  }

  /** A user command runs one line per listed command, in order: the ssh
      call of the substituted command when the place is `remote`, the
      substituted command itself otherwise. */
  lemma UserCommandPlace(ctx: Context, vars: Store, uc: UserCommand)
    ensures var r := FlatMap(UserLines(ctx, vars, uc.place), uc.commands);
      && |r| == |uc.commands|
      && forall i :: 0 <= i < |uc.commands| ==>
           r[i] == if uc.place == "remote" then SshLine(ctx.server, ReplaceVariables(vars, uc.commands[i]))
                   else ReplaceVariables(vars, uc.commands[i])
  {
    FlatMapSingles(UserLines(ctx, vars, uc.place), uc.commands);
  }

  // -------------------------------------------------------------- dispatch

  /** One pass of `for command in commands`. `version` and `config` only
      print; `update`, which depends on the network, does nothing here,
      though the source may end the script in it; a name that is neither a
      stage nor a user command does nothing. */
  function Dispatch(ctx: Context, st: State, name: string): Step
  {
    if name == "build-env" then BuildEnvStage(ctx, st)
    else if name == "build" then BuildStage(ctx, st)
    else if name == "push" then PushStage(ctx, st)
    else if name == "deploy" then DeployStage(ctx, st)
    else if name == "run" then Step(st, [RunLine(ctx, st.variables)])
    else if name in {"version", "update", "config"} then Step(st, [])
    else if name in ctx.settings.userCommands then
      var uc := ctx.settings.userCommands[name];
      Step(st, FlatMap(UserLines(ctx, st.variables, uc.place), uc.commands))
    else Step(st, [])
  }

  /** The names the loop handles itself, ahead of user commands. */
  predicate BuiltIn(name: string)
  {
    name in {"build-env", "build", "push", "deploy", "run", "version", "update", "config"}
  }

  /** Each name's stage in turn, each starting from the state the one
      before left, with the lines of all of them in order. */
  function Fold(stage: (State, string) -> Step, st: State, names: seq<string>): Step
    decreases |names|
  {
    if names == [] then Step(st, [])
    else
      var prev := Fold(stage, st, names[..|names| - 1]);
      var d := stage(prev.state, names[|names| - 1]);
      Step(d.state, prev.commands + d.commands)
  }

  lemma {:induction false} FoldAppend(stage: (State, string) -> Step, st: State, a: seq<string>, b: seq<string>)
    ensures var pa := Fold(stage, st, a); var pb := Fold(stage, pa.state, b);
      Fold(stage, st, a + b) == Step(pb.state, pa.commands + pb.commands)
    decreases |b|
  {
    if b == [] {
      assert a + b == a;
    } else {
      var b0 := b[..|b| - 1];
      assert (a + b)[..|a + b| - 1] == a + b0;
      assert (a + b)[|a + b| - 1] == b[|b| - 1];
      FoldAppend(stage, st, a, b0);
      var pa := Fold(stage, st, a);
      var pb0 := Fold(stage, pa.state, b0);
      var d := stage(pb0.state, b[|b| - 1]);
      assert (pa.commands + pb0.commands) + d.commands == pa.commands + (pb0.commands + d.commands);
    }
  }

  /** `Dispatch` as a function of the state and the name. */
  function Dispatcher(ctx: Context): (State, string) -> Step
  {
    (s: State, name: string) => Dispatch(ctx, s, name)
  }

  /** The stage loop `for command in commands`. */
  function Pipeline(ctx: Context, st: State, names: seq<string>): Step
  {
    Fold(Dispatcher(ctx), st, names)
  }

  /** One more name runs its stage from where the others left the state. */
  lemma PipelineSnoc(ctx: Context, st: State, names: seq<string>, name: string)
    ensures var p := Pipeline(ctx, st, names); var d := Dispatch(ctx, p.state, name);
      Pipeline(ctx, st, names + [name]) == Step(d.state, p.commands + d.commands)
  {
    assert (names + [name])[..|names|] == names;
  }

  /** Commands run in the order given: running two lists of names is
      running the first, then the second from where the first left the
      state; a name given twice runs twice. */
  lemma PipelineAppend(ctx: Context, st: State, a: seq<string>, b: seq<string>)
    ensures var pa := Pipeline(ctx, st, a); var pb := Pipeline(ctx, pa.state, b);
      Pipeline(ctx, st, a + b) == Step(pb.state, pa.commands + pb.commands)
  {
    FoldAppend(Dispatcher(ctx), st, a, b);
  }

  /** A name that is neither built in nor a user command leaves the state
      alone and runs nothing; a user command never changes the state. */
  lemma UnknownNameDoesNothing(ctx: Context, st: State, name: string)
    requires !BuiltIn(name)
    ensures Dispatch(ctx, st, name).state == st
    ensures name !in ctx.settings.userCommands ==> Dispatch(ctx, st, name).commands == []
  {
  }
}
