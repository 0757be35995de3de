/** The script's top-level state and its stage loop, step by step: the
    variable store, the container and file dicts that the stages rewrite in
    place, and the trace of what `run` was handed. Every method is proved
    to do what the functions of module Stages say. */
module Driver {
  import opened Wrappers
  import opened Text
  import opened Paths
  import opened VarStore
  import opened Config
  import opened Commands
  import opened Templates
  import opened Execution
  import opened Stages

  /** `replace_variables(variables, str)`: one `str.replace` per entry, in
      the store's order. */
  method Substitute(vars: Store, s: string) returns (r: string)
    ensures r == ReplaceVariables(vars, s)
  {
    r := s;
    var i := 0;
    while i < |vars|
      invariant 0 <= i <= |vars|
      invariant ReplaceVariables(vars[i..], r) == ReplaceVariables(vars, s)
    {
      var (name, value) := vars[i];
      assert vars[i..][1..] == vars[i + 1..];
      r := Replace(r, "$" + name, value);
      i := i + 1;
    }
  }

  /** The `cmdVars` loop of `copy_and_replace`: one sed expression per
      variable. */
  method SedArguments(vars: Store) returns (cmdVars: string)
    ensures cmdVars == SedScript(vars)
  {
    cmdVars := "";
    var i := 0;
    while i < |vars|
      invariant 0 <= i <= |vars|
      invariant cmdVars == SedScript(vars[..i])
    {
      var (name, value) := vars[i];
      assert vars[..i + 1][..i] == vars[..i];
      cmdVars := cmdVars + SedExpression(name, value);
      i := i + 1;
    }
    assert vars[..i] == vars;
  }

  /** The `build_args` loops of `docker_build`: one word per value, with
      variables substituted. */
  method ArgumentWords(flag: string, vars: Store, xs: seq<string>) returns (words: seq<string>)
    ensures words == ArgWords(flag, vars, xs)
  {
    words := [];
    var i := 0;
    while i < |xs|
      invariant 0 <= i <= |xs|
      invariant words == ArgWords(flag, vars, xs[..i])
    {
      var arg := Substitute(vars, xs[i]);
      assert xs[..i + 1][..i] == xs[..i];
      words := words + [flag + arg];
      i := i + 1;
    }
    assert xs[..i] == xs;
  }

  /** `excludeVariables`: a fresh dict that maps every variable to `*[^v]`. */
  method ExcludeVariables(vars: Store) returns (exclude: Store)
    ensures exclude == ExcludeStore(vars)
  {
    exclude := [];
    var i := 0;
    while i < |vars|
      invariant 0 <= i <= |vars|
      invariant exclude == ExcludeStore(vars[..i])
    {
      var (name, value) := vars[i];
      assert vars[..i + 1][..i] == vars[..i];
      exclude := Set(exclude, name, "*[^" + value + "]");
      i := i + 1;
    }
    assert vars[..i] == vars;
  }

  /** One run of the script: the fixed context, how commands run, the
      mutable configuration and the trace. */
  class Deployment {
    const ctx: Context
    const runner: Runner
    var variables: Store
    var containers: seq<Container>
    var files: seq<FileSpec>
    var trace: Trace

    /** The part of the configuration the stages change. */
    function Current(): State
      reads this
    {
      State(variables, containers, files)
    }

    constructor (ctx: Context, runner: Runner, st: State)
      ensures this.ctx == ctx && this.runner == runner
      ensures Current() == st && trace == Start
    {
      this.ctx := ctx;
      this.runner := runner;
      variables := st.variables;
      containers := st.containers;
      files := st.files;
      trace := Start;
    }

    /** `run(command)`: logged always, executed unless dry; a status other
        than zero exits the script. */
    method Run(command: string)
      modifies this`trace
      ensures trace == Exec1(runner, old(trace), command)
    {
      if trace.exit.Some? {
        return;
      }
      if runner.dry {
        trace := trace.(issued := trace.issued + [command]);
      } else {
        var status := Status(runner, |trace.executed|);
        trace := Trace(trace.issued + [command], trace.executed + [command], None);
        if status != 0 {
          trace := trace.(exit := Some(status));
        }
      }
    }

    /** `ssh(server, command)`. */
    method Ssh(command: string)
      modifies this`trace
      ensures trace == Exec1(runner, old(trace), SshLine(ctx.server, command))
    {
      var server := ctx.server;
      var cmd := "ssh -t ";
      if PortGiven(server) {
        cmd := cmd + " -p " + server.port.value + " ";
      }
      var target := "";
      if UserGiven(server) {
        target := server.user.value + "@";
      }
      cmd := cmd + (target + server.host) + " '" + Escape(command, '\'', '\\') + "'";
      assert cmd == SshLine(server, command);
      Run(cmd);
    }

    /** `upload(server, frm, to, ignore_existing)`. */
    method Upload(frm: string, to: string, ignoreExisting: bool)
      modifies this`trace
      ensures trace == Exec1(runner, old(trace), UploadLine(ctx.server, frm, to, ignoreExisting))
    {
      var server := ctx.server;
      var cmd := "rsync -chavzP --info=progress2";
      var ie := "";
      if ignoreExisting {
        ie := " --ignore-existing";
      }
      var port := "";
      if PortGiven(server) {
        port := " -p " + server.port.value;
      }
      cmd := cmd + (ie + (" -e 'ssh" + (port + ("' " + (frm + (" " + (Target(server) + (":" + to))))))));
      Run(cmd);
    }

    /** `archive(destination_dir, path)`. */
    method Archive(destination: string, path: string)
      modifies this`trace
      ensures trace == Exec1(runner, old(trace), ArchiveLine(destination, path, path in ctx.fs.dirs))
    {
      Run(ArchiveLine(destination, path, path in ctx.fs.dirs));
    }

    /** `get_docker_host(variables, host)`. */
    method GetDockerHost(host: string) returns (prefix: string)
      ensures prefix == DockerHost(variables, ctx.settings.docker, host)
    {
      var dockerHost := "";
      if host != "" {
        dockerHost := host;
      } else if ctx.settings.docker.host.Some? {
        dockerHost := ctx.settings.docker.host.value;
      } else {
        return "";
      }
      var resolved := Substitute(variables, dockerHost);
      prefix := "DOCKER_HOST=" + resolved + " ";
    }

    /** `docker_build(config.variables, container)` for the i-th container:
        the shared store gains `DOCKERFILE_DIR`, the container's fields are
        rewritten in place and the build line is run. */
    method DockerBuild(i: nat)
      requires i < |containers|
      modifies this`variables, this`containers, this`trace
      ensures var b := BuildOne(ctx, old(variables), old(containers[i]));
        && variables == b.variables
        && containers == old(containers)[i := b.container]
        && trace == Exec1(runner, old(trace), b.line)
    {
      var c := containers[i];
      var docker := ctx.settings.docker;
      variables := Set(variables, "DOCKERFILE_DIR", Dirname(c.dockerfile));
      var name := Substitute(variables, c.name);
      var registry := Substitute(variables, c.registry);
      var dockerfile := Substitute(variables, c.dockerfile);
      dockerfile := PathJoin(ctx.settings.workDir, dockerfile);
      var buildArgs := ArgumentWords("--build-arg ", variables, c.buildArgs);
      var buildContexts := ArgumentWords("--build-context ", variables, c.buildContexts);
      buildArgs := buildArgs + buildContexts;
      var buildPath;
      if c.buildPath == "./" {
        buildPath := Dirname(dockerfile);
      } else {
        buildPath := Substitute(variables, c.buildPath);
        buildPath := PathJoin(ctx.settings.workDir, buildPath);
      }
      var buildx := "";
      if docker.buildx || c.buildx {
        buildx := "buildx";
      }
      var platform := "";
      if docker.platform.Some? {
        platform := "--platform " + docker.platform.value;
      }
      if c.platform.Some? {
        platform := "--platform " + c.platform.value;
      }
      var c1 := c.(name := name, registry := registry, dockerfile := dockerfile, buildPath := buildPath);
      ghost var b := BuildOne(ctx, old(variables), c);
      assert c1 == b.container;
      assert buildArgs == BuildArgs(variables, c);
      assert buildx == BuildxWord(docker, c) && platform == PlatformOption(docker, c);
      containers := containers[i := c1];
      var host := GetDockerHost(c.dockerHost);
      var line := DockerBuildLine(host, buildx, platform, buildArgs, c1);
      assert b.variables == variables;
      assert b.line == DockerBuildLine(DockerHost(variables, docker, c.dockerHost), BuildxWord(docker, c),
                                       PlatformOption(docker, c), BuildArgs(variables, c), b.container);
      Run(line);
    }

    /** `docker_push(config.variables, container)` for the i-th container. */
    method DockerPush(i: nat)
      requires i < |containers|
      modifies this`containers, this`trace
      ensures var b := PushOne(ctx, variables, old(containers[i]));
        && containers == old(containers)[i := b.container]
        && trace == Exec1(runner, old(trace), b.line)
    {
      var c := containers[i];
      var registry := Substitute(variables, c.registry);
      var name := Substitute(variables, c.name);
      c := c.(registry := registry, name := name);
      containers := containers[i := c];
      var host := GetDockerHost(c.dockerHost);
      Run(DockerPushLine(host, c));
    }

    /** `docker_dump(config.variables, container)` for the i-th container,
        which has an archive name. */
    method DockerDump(i: nat)
      requires i < |containers| && containers[i].archName.Some?
      modifies this`containers, this`trace
      ensures var b := DumpOne(ctx, variables, old(containers[i]));
        && containers == old(containers)[i := b.container]
        && trace == Exec1(runner, old(trace), b.line)
    {
      var c := containers[i];
      var registry := Substitute(variables, c.registry);
      var name := Substitute(variables, c.name);
      c := c.(registry := registry, name := name);
      containers := containers[i := c];
      var tempPath := EnvironmentDir(ctx.settings.tempDir);
      if c.deploySeparately {
        tempPath := ContainersDir(ctx.settings.tempDir);
      }
      var archive := Substitute(variables, c.archName.value);
      Run(DockerSaveLine(c, PathJoin(tempPath, archive)));
    }

    /** One pass of the `build` loop: `docker_build` of the i-th container. */
    method BuildAt(ghost st: State, ghost t0: Trace, i: nat)
      requires i < |st.containers|
      requires Current() == ForContainers(BuildStep(ctx), Every, st, i).state
      requires trace == Exec(runner, t0, ForContainers(BuildStep(ctx), Every, st, i).commands)
      modifies this`variables, this`containers, this`trace
      ensures Current() == ForContainers(BuildStep(ctx), Every, st, i + 1).state
      ensures trace == Exec(runner, t0, ForContainers(BuildStep(ctx), Every, st, i + 1).commands)
    {
      ghost var prev := ForContainers(BuildStep(ctx), Every, st, i);
      ForContainersNext(BuildStep(ctx), Every, st, i);
      DockerBuild(i);
      ExecSnoc(runner, t0, prev.commands, BuildOne(ctx, prev.state.variables, st.containers[i]).line);
    }

    /** The `build` stage: `docker_build` of every container, in order. */
    method Build()
      modifies this
      ensures Current() == BuildStage(ctx, old(Current())).state
      ensures trace == Exec(runner, old(trace), BuildStage(ctx, old(Current())).commands)
    {
      ghost var st := Current();
      ghost var t0 := trace;
      var i := 0;
      while i < |containers|
        invariant 0 <= i <= |containers| == |st.containers|
        invariant Current() == ForContainers(BuildStep(ctx), Every, st, i).state
        invariant trace == Exec(runner, t0, ForContainers(BuildStep(ctx), Every, st, i).commands)
      {
        BuildAt(st, t0, i);
        i := i + 1;
      }
    }

    /** One pass of the `push` loop: `docker_push` of the i-th container
        unless it has an archive name. */
    method PushAt(ghost st: State, ghost t0: Trace, i: nat)
      requires i < |st.containers|
      requires Current() == ForContainers(PushStep(ctx), IsUnarchived, st, i).state
      requires trace == Exec(runner, t0, ForContainers(PushStep(ctx), IsUnarchived, st, i).commands)
      modifies this`containers, this`trace
      ensures Current() == ForContainers(PushStep(ctx), IsUnarchived, st, i + 1).state
      ensures trace == Exec(runner, t0, ForContainers(PushStep(ctx), IsUnarchived, st, i + 1).commands)
    {
      ghost var prev := ForContainers(PushStep(ctx), IsUnarchived, st, i);
      ForContainersNext(PushStep(ctx), IsUnarchived, st, i);
      if containers[i].archName.None? {
        DockerPush(i);
        ExecSnoc(runner, t0, prev.commands, PushOne(ctx, prev.state.variables, st.containers[i]).line);
      }
    }

    /** The `push` stage: `docker_push` of every container without an
        archive name, in order. */
    method Push()
      modifies this
      ensures Current() == PushStage(ctx, old(Current())).state
      ensures trace == Exec(runner, old(trace), PushStage(ctx, old(Current())).commands)
    {
      ghost var st := Current();
      ghost var t0 := trace;
      var i := 0;
      while i < |containers|
        invariant 0 <= i <= |containers| == |st.containers|
        invariant Current() == ForContainers(PushStep(ctx), IsUnarchived, st, i).state
        invariant trace == Exec(runner, t0, ForContainers(PushStep(ctx), IsUnarchived, st, i).commands)
      {
        PushAt(st, t0, i);
        i := i + 1;
      }
    }

    /** `copy_dir(file)`. */
    method CopyDir(f: FileSpec)
      modifies this`trace
      ensures trace == Exec1(runner, old(trace), CopyDirLine(f))
    {
      Run("cp -R " + f.path + " " + f.envPath);
    }

    /** `docker_import(server, config.variables, container)` for a container
        with an archive name. */
    method DockerImport(c: Container)
      requires c.archName.Some?
      modifies this`trace
      ensures trace == Exec1(runner, old(trace), SshLine(ctx.server, DockerLoadCommand(ctx.destinationDir, ReplaceVariables(variables, c.archName.value))))
    {
      var archive := Substitute(variables, c.archName.value);
      Ssh("cd " + ctx.destinationDir + " && docker load -i " + archive);
    }

    /** One archived container in the shipping loop of `deploy`: a separately
        deployed one has its old archives removed when asked and its own
        archive uploaded; then it is imported. */
    method ShipContainer(c: Container)
      requires c.archName.Some?
      modifies this`trace
      ensures trace == Exec(runner, old(trace), ShipLines(ctx, variables, c))
    {
      ghost var t0 := trace;
      ghost var done: seq<string> := [];
      var dest := ctx.destinationDir;
      var arch := c.archName.value;
      if c.deploySeparately {
        var archive := Substitute(variables, arch);
        var tempPath := PathJoin(ContainersDir(ctx.settings.tempDir), archive);
        var exclude := ExcludeVariables(variables);
        if c.removeOld {
          var pattern := Substitute(exclude, arch);
          Ssh("rm -f " + PathJoin(dest, pattern));
          done := [SshLine(ctx.server, "rm -f " + PathJoin(dest, pattern))];
          assert done[..0] == [];
        }
        Upload(tempPath, dest, c.ignoreExisting);
        ExecSnoc(runner, t0, done, UploadLine(ctx.server, tempPath, dest, c.ignoreExisting));
        done := done + [UploadLine(ctx.server, tempPath, dest, c.ignoreExisting)];
      }
      DockerImport(c);
      var load := SshLine(ctx.server, DockerLoadCommand(dest, ReplaceVariables(variables, arch)));
      ExecSnoc(runner, t0, done, load);
      done := done + [load];
      assert done == ShipLines(ctx, variables, c);
    }

    /** The dump loop of `deploy`: `docker_dump` of every container with an
        archive name, in order. */
    method DumpContainers()
      modifies this`containers, this`trace
      ensures Current() == DumpStage(ctx, old(Current())).state
      ensures trace == Exec(runner, old(trace), DumpStage(ctx, old(Current())).commands)
    {
      ghost var st := Current();
      ghost var t0 := trace;
      var i := 0;
      while i < |containers|
        invariant 0 <= i <= |containers| == |st.containers|
        invariant Current() == ForContainers(DumpStep(ctx), IsArchived, st, i).state
        invariant trace == Exec(runner, t0, ForContainers(DumpStep(ctx), IsArchived, st, i).commands)
      {
        ghost var prev := ForContainers(DumpStep(ctx), IsArchived, st, i);
        assert containers[i] == st.containers[i] by {
          assert prev.state.containers[i..][0] == st.containers[i..][0];
        }
        if containers[i].archName.Some? {
          DockerDump(i);
          ExecSnoc(runner, t0, prev.commands, DumpOne(ctx, prev.state.variables, st.containers[i]).line);
        }
        i := i + 1;
      }
    }

    /** The middle of `deploy`: archive the environment, create the
        destination, upload the archive and extract it there. */
    method MoveArchive()
      modifies this`trace
      ensures trace == Exec(runner, old(trace), ArchiveLines(ctx))
    {
      ghost var t0 := trace;
      ghost var lines := ArchiveLines(ctx);
      var s := ctx.settings;
      var dest := ctx.destinationDir;
      var archives := ArchivesDir(s.tempDir);
      Archive(PathJoin(archives, s.archName), EnvironmentDir(s.tempDir));
      assert trace == Exec(runner, t0, lines[..1]);
      Ssh("mkdir -p " + dest);
      ExecSnoc(runner, t0, lines[..1], lines[1]);
      assert lines[..1] + [lines[1]] == lines[..2];
      Upload(archives + "/*", dest + "/", false);
      ExecSnoc(runner, t0, lines[..2], lines[2]);
      assert lines[..2] + [lines[2]] == lines[..3];
      Ssh("cd " + dest + " && tar -xzf " + s.archName + " --totals .");
      ExecSnoc(runner, t0, lines[..3], lines[3]);
      assert lines[..3] + [lines[3]] == lines;
    }

    /** The shipping loop of `deploy`: every container with an archive
        name, in order. */
    method ShipContainers()
      modifies this`trace
      ensures trace == Exec(runner, old(trace), FlatMap(Shipper(ctx, variables), containers))
    {
      ghost var t0 := trace;
      var cs := containers;
      var j := 0;
      assert cs[..0] == [];
      while j < |cs|
        invariant 0 <= j <= |cs|
        invariant trace == Exec(runner, t0, FlatMap(Shipper(ctx, variables), cs[..j]))
      {
        ShipAt(t0, cs, j);
        j := j + 1;
      }
      assert cs[..j] == cs;
    }

    /** One pass of the shipping loop: the j-th container is shipped when
        it has an archive name. */
    method ShipAt(ghost t0: Trace, cs: seq<Container>, j: nat)
      requires j < |cs|
      requires trace == Exec(runner, t0, FlatMap(Shipper(ctx, variables), cs[..j]))
      modifies this`trace
      ensures trace == Exec(runner, t0, FlatMap(Shipper(ctx, variables), cs[..j + 1]))
    {
      ghost var t1 := trace;
      var c := cs[j];
      if c.archName.Some? {
        ShipContainer(c);
      } else {
        assert Shipper(ctx, variables)(c) == [];
      }
      ExecFlatMapStep(runner, t0, Shipper(ctx, variables), cs, j, t1, trace);
    }

    /** The `deploy` stage: dump, move the archive, ship, then run the run
        command. */
    method Deploy()
      modifies this
      ensures Current() == DeployStage(ctx, old(Current())).state
      ensures trace == Exec(runner, old(trace), DeployStage(ctx, old(Current())).commands)
    {
      ghost var st := Current();
      ghost var t0 := trace;
      DumpContainers();
      ghost var d := DumpStage(ctx, st);
      DumpTouchesOnlyArchived(ctx, st);
      MoveArchive();
      ExecAppend(runner, t0, d.commands, ArchiveLines(ctx));
      ghost var shipped := FlatMap(Shipper(ctx, st.variables), d.state.containers);
      ShipContainers();
      ExecAppend(runner, t0, d.commands + ArchiveLines(ctx), shipped);
      var command := Substitute(variables, ctx.settings.runCommand);
      Ssh(command);
      ExecSnoc(runner, t0, d.commands + ArchiveLines(ctx) + shipped, RunLine(ctx, st.variables));
    }

    /** `stage_cleanup_temp_dir()`. */
    method CleanupTempDir()
      modifies this`trace
      ensures trace == Exec(runner, old(trace), CleanupLines(ctx.settings.tempDir))
    {
      ghost var t0 := trace;
      var tempDir := ctx.settings.tempDir;
      ghost var lines := CleanupLines(tempDir);
      Run("mkdir -p " + tempDir);
      assert trace == Exec(runner, t0, lines[..1]);
      Run("rm -rf " + tempDir + "/*");
      ExecSnoc(runner, t0, lines[..1], lines[1]);
      assert lines[..1] + [lines[1]] == lines[..2];
      Run("mkdir -p " + EnvironmentDir(tempDir));
      ExecSnoc(runner, t0, lines[..2], lines[2]);
      assert lines[..2] + [lines[2]] == lines[..3];
      Run("mkdir -p " + ContainersDir(tempDir));
      ExecSnoc(runner, t0, lines[..3], lines[3]);
      assert lines[..3] + [lines[3]] == lines[..4];
      Run("mkdir -p " + ArchivesDir(tempDir));
      ExecSnoc(runner, t0, lines[..4], lines[4]);
      assert lines[..4] + [lines[4]] == lines;
    }

    /** The entries `build-env` makes for the template files found in the
        copied directory `g`: each file is substituted to its place relative
        to `g` under the destination of `g`. */
    method TemplateFiles(g: FileSpec, found: seq<string>) returns (specs: seq<FileSpec>)
      ensures specs == TemplateSpecs(ctx, g, found)
    {
      specs := [];
      var m := 0;
      while m < |found|
        invariant 0 <= m <= |found| && |specs| == m
        invariant forall i :: 0 <= i < m ==> specs[i] == TemplateSpec(ctx, g, found[i])
      {
        var dirFile := found[m];
        var envPath := PathJoin(PathJoin(EnvironmentDir(ctx.settings.tempDir), g.envPath), RelativeTo(dirFile, g.path));
        specs := specs + [FileSpec(dirFile, envPath, true)];
        m := m + 1;
      }
    }

    /** `copy_and_replace` of the m-th entry, after the ones before it. */
    method CopyTemplate(ghost t0: Trace, specs: seq<FileSpec>, m: nat)
      requires m < |specs|
      requires trace == Exec(runner, t0, FlatMap(Copier(ctx, variables), specs[..m]))
      modifies this`trace
      ensures trace == Exec(runner, t0, FlatMap(Copier(ctx, variables), specs[..m + 1]))
    {
      ghost var t1 := trace;
      CopyAndReplaceFile(specs[m]);
      ExecFlatMapStep(runner, t0, Copier(ctx, variables), specs, m, t1, trace);
    }

    /** `copy_and_replace` of each entry in turn. */
    method CopyTemplates(specs: seq<FileSpec>)
      modifies this`trace
      ensures trace == Exec(runner, old(trace), FlatMap(Copier(ctx, variables), specs))
    {
      ghost var t0 := trace;
      var m := 0;
      assert specs[..0] == [];
      while m < |specs|
        invariant 0 <= m <= |specs|
        invariant trace == Exec(runner, t0, FlatMap(Copier(ctx, variables), specs[..m]))
      {
        CopyTemplate(t0, specs, m);
        m := m + 1;
      }
      assert specs[..m] == specs;
    }

    /** A directory entry of `build-env`: `copy_dir`, then, when asked, the
        template files found in it. */
    method CopyDirectory(g: FileSpec)
      modifies this`trace
      ensures trace == Exec(runner, old(trace), DirLines(ctx, variables, g))
    {
      ghost var t0 := trace;
      CopyDir(g);
      assert trace == Exec(runner, t0, [CopyDirLine(g)]);
      if g.replaceVars {
        var found := FindFilesForReplace(ctx.fs, g.path, ctx.settings.replacePatterns, ctx.matches);
        var specs := TemplateFiles(g, found);
        CopyTemplates(specs);
        ExecAppend(runner, t0, [CopyDirLine(g)], FlatMap(Copier(ctx, variables), specs));
      } else {
        assert [CopyDirLine(g)] + [] == [CopyDirLine(g)];
      }
    }

    /** An entry of `build-env` whose source exists: a file is copied with
        substitution, a directory is handled by `CopyDirectory`. */
    method CopyExisting(g: FileSpec)
      modifies this`trace
      ensures trace == Exec(runner, old(trace),
        (if g.path in ctx.fs.files then Stages.CopyAndReplace(ctx, variables, g) else [])
        + (if g.path in ctx.fs.dirs then DirLines(ctx, variables, g) else []))
    {
      ghost var t0 := trace;
      ghost var copied: seq<string> := [];
      if g.path in ctx.fs.files {
        CopyAndReplaceFile(g);
        copied := Stages.CopyAndReplace(ctx, variables, g);
      }
      if g.path in ctx.fs.dirs {
        CopyDirectory(g);
        ExecAppend(runner, t0, copied, DirLines(ctx, variables, g));
      } else {
        assert copied + [] == copied;
      }
    }

    /** One entry of the file loop of `build-env`, the k-th: both paths are
        joined and substituted in place; a missing source is skipped. */
    method CopyFile(k: nat)
      requires k < |files|
      modifies this`files, this`trace
      ensures var one := FileOne(ctx, variables, old(files[k]));
        && files == old(files)[k := one.0]
        && trace == Exec(runner, old(trace), one.1)
    {
      var f := files[k];
      var path := PathJoin(ctx.settings.workDir, f.path);
      path := Substitute(variables, path);
      var envPath := PathJoin(EnvironmentDir(ctx.settings.tempDir), f.envPath);
      envPath := Substitute(variables, envPath);
      var g := f.(path := path, envPath := envPath);
      files := files[k := g];
      if !Exists(ctx.fs, g.path) {
        return;
      }
      CopyExisting(g);
    }

    /** The k-th pass of the file loop of `build-env`, after the ones
        before it. */
    method BuildEnvStep(ghost st: State, ghost t0: Trace, k: nat)
      requires k < |st.files|
      requires Current() == FilesPrefix(ctx, st, k).state
      requires trace == Exec(runner, t0, CleanupLines(ctx.settings.tempDir) + FilesPrefix(ctx, st, k).commands)
      modifies this`files, this`trace
      ensures Current() == FilesPrefix(ctx, st, k + 1).state
      ensures trace == Exec(runner, t0, CleanupLines(ctx.settings.tempDir) + FilesPrefix(ctx, st, k + 1).commands)
    {
      ghost var prev := FilesPrefix(ctx, st, k);
      ghost var one := FileOne(ctx, st.variables, st.files[k]);
      FilesPrefixStep(ctx, st, k);
      CopyFile(k);
      ExecExtend(runner, t0, CleanupLines(ctx.settings.tempDir), prev.commands, one.1);
    }

    /** The `build-env` stage: clean the temporary directory, then every
        file entry in order. */
    method BuildEnv()
      modifies this
      ensures Current() == BuildEnvStage(ctx, old(Current())).state
      ensures trace == Exec(runner, old(trace), BuildEnvStage(ctx, old(Current())).commands)
    {
      ghost var st := Current();
      ghost var t0 := trace;
      CleanupTempDir();
      assert CleanupLines(ctx.settings.tempDir) + [] == CleanupLines(ctx.settings.tempDir);
      var k := 0;
      while k < |files|
        invariant 0 <= k <= |files| == |st.files|
        invariant Current() == FilesPrefix(ctx, st, k).state
        invariant trace == Exec(runner, t0, CleanupLines(ctx.settings.tempDir) + FilesPrefix(ctx, st, k).commands)
      {
        BuildEnvStep(st, t0, k);
        k := k + 1;
      }
    }

    /** The `run` stage: the run command, substituted, over ssh. */
    method RunStage()
      modifies this`trace
      ensures trace == Exec(runner, old(trace), [RunLine(ctx, variables)])
    {
      var command := Substitute(variables, ctx.settings.runCommand);
      Ssh(command);
      assert [RunLine(ctx, variables)][..0] == [];
    }

    /** The m-th command of a user list, resolved against the variables
        and run on the server or locally as `place` says. */
    method UserCommand(ghost t0: Trace, place: string, commands: seq<string>, m: nat)
      requires m < |commands|
      requires trace == Exec(runner, t0, FlatMap(UserLines(ctx, variables, place), commands[..m]))
      modifies this`trace
      ensures trace == Exec(runner, t0, FlatMap(UserLines(ctx, variables, place), commands[..m + 1]))
    {
      ghost var t1 := trace;
      var resolved := Substitute(variables, commands[m]);
      if place == "remote" {
        Ssh(resolved);
        assert UserLines(ctx, variables, place)(commands[m]) == [SshLine(ctx.server, resolved)];
        ExecSnoc(runner, t1, [], SshLine(ctx.server, resolved));
      } else {
        Run(resolved);
        assert UserLines(ctx, variables, place)(commands[m]) == [resolved];
        ExecSnoc(runner, t1, [], resolved);
      }
      ExecFlatMapStep(runner, t0, UserLines(ctx, variables, place), commands, m, t1, trace);
    }

    /** `user_commands(server, config.variables, commands, place)`: each
        command substituted, over ssh when the place is `remote`, locally
        otherwise, in order. */
    method UserCommands(place: string, commands: seq<string>)
      modifies this`trace
      ensures trace == Exec(runner, old(trace), FlatMap(UserLines(ctx, variables, place), commands))
    {
      ghost var t0 := trace;
      var m := 0;
      assert commands[..0] == [];
      while m < |commands|
        invariant 0 <= m <= |commands|
        invariant trace == Exec(runner, t0, FlatMap(UserLines(ctx, variables, place), commands[..m]))
      {
        UserCommand(t0, place, commands, m);
        m := m + 1;
      }
      assert commands[..m] == commands;
    }

    /** One pass of the stage loop, for the command `name`. */
    method Execute(name: string)
      modifies this
      ensures Current() == Dispatch(ctx, old(Current()), name).state
      ensures trace == Exec(runner, old(trace), Dispatch(ctx, old(Current()), name).commands)
    {
      if name == "version" || name == "update" || name == "config" {
      } else if name == "build-env" {
        BuildEnv();
      } else if name == "build" {
        Build();
      } else if name == "push" {
        Push();
      } else if name == "deploy" {
        Deploy();
      } else if name == "run" {
        RunStage();
      } else if name in ctx.settings.userCommands {
        var uc := ctx.settings.userCommands[name];
        UserCommands(uc.place, uc.commands);
      }
    }

    /** The stage loop `for command in commands`. */
    method RunCommands(names: seq<string>)
      modifies this
      ensures Current() == Pipeline(ctx, old(Current()), names).state
      ensures trace == Exec(runner, old(trace), Pipeline(ctx, old(Current()), names).commands)
    {
      ghost var st := Current();
      ghost var t0 := trace;
      var k := 0;
      assert names[..0] == [];
      while k < |names|
        invariant 0 <= k <= |names|
        invariant Current() == Pipeline(ctx, st, names[..k]).state
        invariant trace == Exec(runner, t0, Pipeline(ctx, st, names[..k]).commands)
      {
        var name := names[k];
        assert names[..k + 1] == names[..k] + [name];
        ghost var prev := Pipeline(ctx, st, names[..k]);
        ghost var d := Dispatch(ctx, prev.state, name);
        Execute(name);
        ExecAppend(runner, t0, prev.commands, d.commands);
        PipelineSnoc(ctx, st, names[..k], name);
        k := k + 1;
      }
      assert names[..k] == names;
    }

    /** `copy_and_replace(variables, file)`. */
    method CopyAndReplaceFile(f: FileSpec)
      modifies this`trace
      ensures trace == Exec(runner, old(trace), Stages.CopyAndReplace(ctx, variables, f))
    {
      var parent := Dirname(f.envPath);
      var first: seq<string> := [];
      if !Exists(ctx.fs, parent) {
        Run("mkdir -p " + parent);
        first := ["mkdir -p " + parent];
      }
      var cmd;
      if f.replaceVars && |variables| > 0 {
        var cmdVars := SedArguments(variables);
        cmd := "cat " + f.path + " | sed " + cmdVars + " > " + f.envPath;
      } else {
        cmd := "cp " + f.path + " " + f.envPath;
      }
      Run(cmd);
      assert Stages.CopyAndReplace(ctx, variables, f) == first + [cmd];
      ExecSnoc(runner, old(trace), first, cmd);
      assert first == [] ==> Exec(runner, old(trace), first) == old(trace);
      assert first != [] ==> Exec(runner, old(trace), first) == Exec1(runner, old(trace), first[0]) by {
        if first != [] {
          assert first[..0] == [];
        }
      }
    }
  }
}
