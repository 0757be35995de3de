/** The command lines the deployment script hands to the shell: ssh,
    rsync, tar, cp, sed and docker invocations, each a pure function of its
    inputs. Where a line carries fields that matter later (the remote
    command of an ssh call, the source and target of an upload, the host of
    a docker call), a parser reads them back and a lemma shows that it
    recovers exactly what the builder was given. */
module Commands {
  import opened Wrappers
  import opened Text
  import opened Paths
  import opened VarStore
  import opened Config

  /** The port the script puts on the line: empty when not given. */
  function PortOf(s: Server): string
  {
    if PortGiven(s) then s.port.value else ""
  }

  /** The user the script puts on the line: empty when not given. */
  function UserOf(s: Server): string
  {
    if UserGiven(s) then s.user.value else ""
  }

  /** `[USER@]HOST`, shared by ssh and rsync. */
  function Target(s: Server): string
  {
    (if UserGiven(s) then s.user.value + "@" else "") + s.host
  }

  /** The line `ssh(server, command)` runs: the remote command goes inside
      single quotes with every `'` written as `\'` (which `Unquote` reads
      back, but a POSIX shell does not). */
  function SshLine(server: Server, command: string): string
  {
    "ssh -t "
    + (if PortGiven(server) then " -p " + server.port.value + " " else "")
    + Target(server)
    + " '" + Escape(command, '\'', '\\') + "'"
  }

  /** What an ssh line says: the port (empty if none), the user (empty if
      none), the host and the remote command. */
  datatype SshCall = SshCall(port: string, user: string, host: string, command: string)

  /** Splits `[USER@]HOST` at its first `@`. */
  function SplitTarget(t: string): (string, string)
  {
    var u := Until(t, '@');
    if u.1 == [] then ("", t) else (u.0, u.1[1..])
  }

  /** Reads the optional ` -p PORT ` of an ssh line: the port (empty if
      none) and the rest of the line. */
  function TakeSshPort(rest: string): (string, string)
  {
    if StartsWith(" -p ", rest) then
      var p := Until(rest[4..], ' ');
      (p.0, if p.1 == [] then [] else p.1[1..])
    else ("", rest)
  }

  /** Reads ` 'QUOTED'` back into the text it quotes. */
  function Unquote(tail: string): Option<string>
  {
    if |tail| >= 3 && tail[..2] == " '" && tail[|tail| - 1] == '\''
    then Some(Unescape(tail[2..|tail| - 1], '\'', '\\'))
    else None
  }

  /** Reads an ssh line back. */
  function ParseSsh(line: string): Option<SshCall>
  {
    if !StartsWith("ssh -t ", line) then None
    else
      var p := TakeSshPort(line[7..]);
      var t := Until(p.1, ' ');
      var uh := SplitTarget(t.0);
      var q := Unquote(t.1);
      if q.None? then None else Some(SshCall(p.0, uh.0, uh.1, q.value))
  }

  /** Server fields that the shell would split or that would blur the
      `USER@HOST` boundary make a line ambiguous; configurations use none. */
  predicate PlainServer(s: Server)
  {
    && (PortGiven(s) ==> ' ' !in s.port.value && '\'' !in s.port.value)
    && (UserGiven(s) ==> ' ' !in s.user.value && '@' !in s.user.value && ':' !in s.user.value)
    && ' ' !in s.host && '@' !in s.host && ':' !in s.host
  }

  /** The target splits back into the user (empty when none) and the host. */
  lemma SplitTargetOf(s: Server)
    requires PlainServer(s)
    ensures SplitTarget(Target(s)) == (UserOf(s), s.host)
    ensures ' ' !in Target(s) && ':' !in Target(s)
  {
    if UserGiven(s) {
      var u := s.user.value;
      var rest := "@" + s.host;
      assert Target(s) == u + rest;
      UntilSplits(u, rest, '@');
      assert rest[1..] == s.host;
      assert ' ' !in u + rest && ':' !in u + rest;
    } else {
      assert Target(s) == s.host;
      UntilSplits(s.host, "", '@');
      assert s.host + "" == s.host;
    }
  }

  /** An ssh line names the server's port exactly when one is given, its
      user exactly when one is given, its host, and the remote command:
      unescaping the quoted part gives back the command, whatever it
      contains. */
  lemma SshRoundTrip(s: Server, command: string)
    requires PlainServer(s)
    ensures ParseSsh(SshLine(s, command)) == Some(SshCall(PortOf(s), UserOf(s), s.host, command))
  {
    var tg := Target(s);
    var quoted := " '" + Escape(command, '\'', '\\') + "'";
    var opt := if PortGiven(s) then " -p " + s.port.value + " " else "";
    var line := SshLine(s, command);
    assert line == "ssh -t " + (opt + (tg + quoted));
    assert line[7..] == opt + (tg + quoted);
    SplitTargetOf(s);
    SshPortRoundTrip(s, tg + quoted);
    UntilSplits(tg, quoted, ' ');
    UnquoteRoundTrip(command);
  }

  /** The port part of an ssh line reads back as the port given, if any. */
  lemma SshPortRoundTrip(s: Server, after: string)
    requires PlainServer(s)
    requires after != [] && (after[0] == ' ' ==> |after| > 1 && after[1] == '\'')
    ensures TakeSshPort((if PortGiven(s) then " -p " + s.port.value + " " else "") + after) == (PortOf(s), after)
  {
    if PortGiven(s) {
      var rest := " -p " + s.port.value + " " + after;
      assert rest[..4] == " -p ";
      assert rest[4..] == s.port.value + (" " + after);
      UntilSplits(s.port.value, " " + after, ' ');
      assert (" " + after)[1..] == after;
    } else {
      assert "" + after == after;
      assert !StartsWith(" -p ", after);
    }
  }

  /** A quoted command reads back through `Unquote` as the command,
      whatever it contains. */
  lemma UnquoteRoundTrip(command: string)
    ensures Unquote(" '" + Escape(command, '\'', '\\') + "'") == Some(command)
  {
    var e := Escape(command, '\'', '\\');
    var quoted := " '" + e + "'";
    assert quoted[..2] == " '" && quoted[|quoted| - 1] == '\'';
    assert quoted[2..|quoted| - 1] == e;
    EscapeRoundTrip(command, '\'', '\\');
  }

  /** The line `upload(server, frm, to, ignore_existing)` runs. */
  function UploadLine(server: Server, frm: string, to: string, ignoreExisting: bool): string
  {
    "rsync -chavzP --info=progress2"
    + ((if ignoreExisting then " --ignore-existing" else "")
    + (" -e 'ssh"
    + ((if PortGiven(server) then " -p " + server.port.value else "")
    + ("' " + (frm + (" " + (Target(server) + (":" + to))))))))
  }

  /** What an rsync line says. */
  datatype UploadCall = UploadCall(ignoreExisting: bool, port: string, source: string, user: string, host: string, target: string)

  /** Reads the optional ` --ignore-existing` of an rsync line. */
  function TakeIgnoreExisting(rest: string): (bool, string)
  {
    if StartsWith(" --ignore-existing", rest) then (true, rest[18..]) else (false, rest)
  }

  /** Reads ` -e 'ssh[ -p PORT]' ` of an rsync line: the port (empty if
      none) and the rest of the line. */
  function TakeRsyncShell(r1: string): Option<(string, string)>
  {
    if !StartsWith(" -e 'ssh", r1) then None
    else
      var r2 := r1[8..];
      var p := Until(if StartsWith(" -p ", r2) then r2[4..] else r2, '\'');
      if StartsWith("' ", p.1) then Some((p.0, p.1[2..])) else None
  }

  /** Reads `SOURCE [USER@]HOST:TARGET`: the source, the target text and
      what follows its colon. */
  function TakeTransfer(r4: string): Option<(string, string, string)>
  {
    var f := Until(r4, ' ');
    if f.1 == [] then None
    else
      var t := Until(f.1[1..], ':');
      if t.1 == [] then None else Some((f.0, t.0, t.1[1..]))
  }

  /** Reads an rsync line back. */
  function ParseUpload(line: string): Option<UploadCall>
  {
    var head := "rsync -chavzP --info=progress2";
    if !StartsWith(head, line) then None
    else
      var ie := TakeIgnoreExisting(line[|head|..]);
      var sh := TakeRsyncShell(ie.1);
      if sh.None? then None
      else
        var tr := TakeTransfer(sh.value.1);
        if tr.None? then None
        else
          var uh := SplitTarget(tr.value.1);
          Some(UploadCall(ie.0, sh.value.0, tr.value.0, uh.0, uh.1, tr.value.2))
  }

  /** The ` --ignore-existing` part reads back as the flag. */
  lemma IgnoreExistingRoundTrip(ignoreExisting: bool, r1: string)
    requires StartsWith(" -e", r1)
    ensures TakeIgnoreExisting((if ignoreExisting then " --ignore-existing" else "") + r1) == (ignoreExisting, r1)
  {
    var rest := (if ignoreExisting then " --ignore-existing" else "") + r1;
    if ignoreExisting {
      assert rest[..18] == " --ignore-existing";
      assert rest[18..] == r1;
    } else {
      assert rest == r1;
      assert rest[2] == 'e';
    }
  }

  /** The shell option part reads back as the port given, if any. */
  lemma RsyncShellRoundTrip(s: Server, r4: string)
    requires PlainServer(s)
    ensures TakeRsyncShell(" -e 'ssh" + ((if PortGiven(s) then " -p " + s.port.value else "") + ("' " + r4)))
         == Some((PortOf(s), r4))
  {
    var r3 := "' " + r4;
    var portText := if PortGiven(s) then " -p " + s.port.value else "";
    var r1 := " -e 'ssh" + (portText + r3);
    assert r1[..8] == " -e 'ssh";
    assert r1[8..] == portText + r3;
    if PortGiven(s) {
      var r2 := portText + r3;
      assert r2[..4] == " -p ";
      assert r2[4..] == s.port.value + r3;
      UntilSplits(s.port.value, r3, '\'');
    } else {
      assert portText + r3 == r3;
      UntilSplits("", r3, '\'');
      assert "" + r3 == r3;
    }
    assert r3[..2] == "' " && r3[2..] == r4;
  }

  /** The transfer part reads back as the source and the target. */
  lemma TransferRoundTrip(frm: string, tg: string, to: string)
    requires ' ' !in frm && ' ' !in tg && ':' !in tg
    ensures TakeTransfer(frm + (" " + (tg + (":" + to)))) == Some((frm, tg, to))
  {
    var r5 := tg + (":" + to);
    UntilSplits(frm, " " + r5, ' ');
    assert (" " + r5)[1..] == r5;
    UntilSplits(tg, ":" + to, ':');
    assert (":" + to)[1..] == to;
  }

  /** An rsync line carries `--ignore-existing` exactly when asked to,
      the server's port exactly when one is given, the source, and the
      target `[USER@]HOST:to`. */
  lemma UploadRoundTrip(s: Server, frm: string, to: string, ignoreExisting: bool)
    requires PlainServer(s) && ' ' !in frm
    ensures ParseUpload(UploadLine(s, frm, to, ignoreExisting))
         == Some(UploadCall(ignoreExisting, PortOf(s), frm, UserOf(s), s.host, to))
  {
    var head := "rsync -chavzP --info=progress2";
    var ieText := if ignoreExisting then " --ignore-existing" else "";
    var portText := if PortGiven(s) then " -p " + s.port.value else "";
    var tg := Target(s);
    var r4 := frm + (" " + (tg + (":" + to)));
    var r1 := " -e 'ssh" + (portText + ("' " + r4));
    var line := UploadLine(s, frm, to, ignoreExisting);
    assert line == head + (ieText + r1);
    assert line[|head|..] == ieText + r1;
    IgnoreExistingRoundTrip(ignoreExisting, r1);
    RsyncShellRoundTrip(s, r4);
    SplitTargetOf(s);
    TransferRoundTrip(frm, tg, to);
  }

  /** The line `archive(destination, path)` runs: the directory form
      archives the contents of `path`, the file form changes to the file's
      directory and archives the file by its base name. */
  function ArchiveLine(destination: string, path: string, isDir: bool): string
  {
    if isDir then
      "cd " + path + " && tar -zcf " + destination + " --totals -C " + path + " ."
    else
      var file := Basename(path);
      var dir := Dirname(path);
      "cd " + dir + " && tar -zcf " + destination + " --totals -C " + dir + " " + file
  }

  /** The single-file form of `archive` adds one entry, a bare file name,
      taken from a directory that, joined with that name, is the path
      given. */
  lemma ArchiveFileEntry(destination: string, path: string)
    requires var k := AfterLastSlash(path); k == 0 || (k >= 2 && path[k - 2] != '/')
    ensures exists dir, entry ::
      && ArchiveLine(destination, path, false)
         == "cd " + dir + " && tar -zcf " + destination + " --totals -C " + dir + " " + entry
      && '/' !in entry
      && PathJoin(dir, entry) == path
  {
    DirnameBasename(path);
    var dir, entry := Dirname(path), Basename(path);
    assert '/' !in entry;
    assert ArchiveLine(destination, path, false)
      == "cd " + dir + " && tar -zcf " + destination + " --totals -C " + dir + " " + entry;
  }

  /** The line `copy_dir(file)` runs. */
  function CopyDirLine(f: FileSpec): string
  {
    "cp -R " + f.path + " " + f.envPath
  }

  /** One sed expression of `copy_and_replace`: `${NAME}` becomes the
      value, with every `/` of the value written as `\/`. */
  function SedExpression(name: string, value: string): string
  {
    " -e 's/${" + name + "}/" + Escape(value, '/', '\\') + "/g'"
  }

  /** All sed expressions, one per variable, in the store's order. */
  function SedScript(vars: Store): string
    decreases |vars|
  {
    if vars == [] then ""
    else SedScript(vars[..|vars| - 1]) + SedExpression(vars[|vars| - 1].0, vars[|vars| - 1].1)
  }

  /** The escaped value reads back unchanged through `Unescape`, and every
      `/` in it follows a `\`. This is not sed's own reading: sed takes
      `\\` as one backslash, see `SedBackslashBeforeSlash`. */
  lemma SedValueRoundTrip(value: string)
    ensures Unescape(Escape(value, '/', '\\'), '/', '\\') == value
    ensures var e := Escape(value, '/', '\\');
      forall i :: 0 <= i < |e| && e[i] == '/' ==> 0 < i && e[i - 1] == '\\'
  {
    EscapeRoundTrip(value, '/', '\\');
    EscapedArePreceded(value, '/', '\\');
  }

  /** Only `/` is escaped, not `\`: the value `a\/b` becomes `a\\/b`,
      whose `/` follows an escaped backslash, so sed ends the replacement
      there and reads `b/g` as flags. */
  lemma SedBackslashBeforeSlash()
    ensures Escape("a\\/b", '/', '\\') == "a\\\\/b"
    ensures SedExpression("X", "a\\/b") == " -e 's/${X}/a\\\\/b/g'"
  {
    assert Escape("b", '/', '\\') == "b";
    assert Escape("/b", '/', '\\') == "\\/b";
    assert Escape("\\/b", '/', '\\') == "\\\\/b";
  }

  /** The script is the expressions of the variables one after the other:
      splitting the store splits the script. */
  lemma {:induction false} SedScriptAppend(a: Store, b: Store)
    ensures SedScript(a + b) == SedScript(a) + SedScript(b)
    decreases |b|
  {
    if b != [] {
      var b0 := b[..|b| - 1];
      assert (a + b)[..|a + b| - 1] == a + b0;
      SedScriptAppend(a, b0);
    } else {
      assert a + b == a;
    }
  }

  /** The lines `copy_and_replace(variables, file)` runs, given whether the
      destination's parent directory exists. */
  function CopyAndReplaceLines(vars: Store, f: FileSpec, parentExists: bool): seq<string>
  {
    (if parentExists then [] else ["mkdir -p " + Dirname(f.envPath)])
    + [if f.replaceVars && |vars| > 0
       then "cat " + f.path + " | sed " + SedScript(vars) + " > " + f.envPath
       else "cp " + f.path + " " + f.envPath]
  }

  /** `copy_and_replace` creates the parent directory first exactly when
      it is missing, then streams the file through sed exactly when
      substitution is asked for and there are variables, and copies it
      unchanged otherwise. */
  lemma CopyAndReplaceChoice(vars: Store, f: FileSpec, parentExists: bool)
    ensures var r := CopyAndReplaceLines(vars, f, parentExists);
      && |r| == (if parentExists then 1 else 2)
      && (!parentExists ==> r[0] == "mkdir -p " + Dirname(f.envPath))
      && (StartsWith("cat ", r[|r| - 1]) <==> f.replaceVars && |vars| > 0)
      && (StartsWith("cp ", r[|r| - 1]) <==> !(f.replaceVars && |vars| > 0))
      && (!(f.replaceVars && |vars| > 0) ==> r[|r| - 1] == "cp " + f.path + " " + f.envPath)
  {
    var r := CopyAndReplaceLines(vars, f, parentExists);
    var last := r[|r| - 1];
    if f.replaceVars && |vars| > 0 {
      assert last[..4] == "cat ";
      assert last[1] != 'p';
    } else {
      assert last[..3] == "cp ";
      assert last[1] != 'a';
    }
  }

  /** The docker host a container uses: its own if it has one, else the
      global one, else none. */
  function ResolvedHost(docker: DockerSettings, host: string): Option<string>
  {
    if host != "" then Some(host)
    else if docker.host.Some? then Some(docker.host.value)
    else None
  }

  /** `get_docker_host(variables, host)`: the `DOCKER_HOST=... ` prefix of a
      docker line, or nothing. */
  function DockerHost(vars: Store, docker: DockerSettings, host: string): string
  {
    if host != "" then "DOCKER_HOST=" + ReplaceVariables(vars, host) + " "
    else if docker.host.Some? then "DOCKER_HOST=" + ReplaceVariables(vars, docker.host.value) + " "
    else ""
  }

  /** Reads the host back out of a `DOCKER_HOST=... ` prefix. */
  function ParseDockerHost(prefix: string): Option<string>
  {
    var key := "DOCKER_HOST=";
    if StartsWith(key, prefix) && |prefix| > |key| && prefix[|prefix| - 1] == ' '
    then Some(prefix[|key|..|prefix| - 1])
    else None
  }

  /** The prefix names the container's host when it has one, otherwise the
      global host when there is one (even an empty one), with variables
      substituted; it is empty exactly when there is neither. */
  lemma DockerHostPrecedence(vars: Store, docker: DockerSettings, host: string)
    ensures var h := ResolvedHost(docker, host);
      && (DockerHost(vars, docker, host) == "" <==> h.None?)
      && ParseDockerHost(DockerHost(vars, docker, host))
         == (if h.Some? then Some(ReplaceVariables(vars, h.value)) else None)
  {
    var h := ResolvedHost(docker, host);
    if h.Some? {
      var v := ReplaceVariables(vars, h.value);
      var p := "DOCKER_HOST=" + v + " ";
      assert DockerHost(vars, docker, host) == p;
      assert p[..12] == "DOCKER_HOST=";
      assert p[12..|p| - 1] == v;
    }
  }

  /** The `--build-arg` (or `--build-context`) words for a list of values,
      with variables substituted. */
  function ArgWords(flag: string, vars: Store, xs: seq<string>): seq<string>
    decreases |xs|
  {
    if xs == [] then []
    else ArgWords(flag, vars, xs[..|xs| - 1]) + [flag + ReplaceVariables(vars, xs[|xs| - 1])]
  }

  /** One word per value, in order, each the flag and the substituted
      value. */
  lemma {:induction false} ArgWordsAt(flag: string, vars: Store, xs: seq<string>)
    ensures |ArgWords(flag, vars, xs)| == |xs|
    ensures forall i :: 0 <= i < |xs| ==> ArgWords(flag, vars, xs)[i] == flag + ReplaceVariables(vars, xs[i])
    decreases |xs|
  {
    if xs != [] {
      ArgWordsAt(flag, vars, xs[..|xs| - 1]);
    }
  }

  /** The `build_args` list of `docker_build`: the build arguments, then
      the build contexts, which the script appends to the same list. */
  function BuildArgs(vars: Store, c: Container): seq<string>
  {
    ArgWords("--build-arg ", vars, c.buildArgs) + ArgWords("--build-context ", vars, c.buildContexts)
  }

  /** Every build argument and every build context yields one word, the
      arguments first; the separate `build_contexts` list stays empty. */
  lemma BuildArgsLayout(vars: Store, c: Container)
    ensures var w := BuildArgs(vars, c); var n := |c.buildArgs|;
      && |w| == n + |c.buildContexts|
      && (forall i :: 0 <= i < n ==> w[i] == "--build-arg " + ReplaceVariables(vars, c.buildArgs[i]))
      && (forall i :: 0 <= i < |c.buildContexts| ==> w[n + i] == "--build-context " + ReplaceVariables(vars, c.buildContexts[i]))
  {
    ArgWordsAt("--build-arg ", vars, c.buildArgs);
    ArgWordsAt("--build-context ", vars, c.buildContexts);
  }

  /** `buildx` when the global or the container flag is set. */
  function BuildxWord(docker: DockerSettings, c: Container): string
  {
    if docker.buildx || c.buildx then "buildx" else ""
  }

  /** The platform option: the global one, overwritten by the container's. */
  function PlatformOption(docker: DockerSettings, c: Container): string
  {
    var global := if docker.platform.Some? then "--platform " + docker.platform.value else "";
    if c.platform.Some? then "--platform " + c.platform.value else global
  }

  /** The container's platform wins over the global one; with neither there
      is no option; buildx is used when either asks for it. */
  lemma OverridePrecedence(docker: DockerSettings, c: Container)
    ensures PlatformOption(docker, c) != "" <==> c.platform.Some? || docker.platform.Some?
    ensures c.platform.Some? ==> PlatformOption(docker, c) == "--platform " + c.platform.value
    ensures c.platform.None? && docker.platform.Some? ==> PlatformOption(docker, c) == "--platform " + docker.platform.value
    ensures BuildxWord(docker, c) == "buildx" <==> docker.buildx || c.buildx
  {
  }

  /** The docker build line, for the container with its fields already
      substituted and `args` its build words. */
  function DockerBuildLine(hostPrefix: string, buildx: string, platform: string, args: seq<string>, c: Container): string
  {
    hostPrefix + "docker " + buildx + " build " + platform + " " + Join(args, ' ') + " " + ""
    + " -t " + c.registry + "/" + c.name + " -f " + c.dockerfile + " " + c.buildPath
  }

  /** The line `docker_push` runs. */
  function DockerPushLine(hostPrefix: string, c: Container): string
  {
    hostPrefix + "docker push " + c.registry + "/" + c.name
  }

  /** The line `docker_dump` runs. */
  function DockerSaveLine(c: Container, archive: string): string
  {
    "docker save " + c.registry + "/" + c.name + " -o " + archive
  }

  /** The remote command of `docker_import`. */
  function DockerLoadCommand(destinationDir: string, archive: string): string
  {
    "cd " + destinationDir + " && docker load -i " + archive
  }

  /** The five lines of `stage_cleanup_temp_dir`. */
  function CleanupLines(tempDir: string): seq<string>
  {
    [ "mkdir -p " + tempDir,
      "rm -rf " + tempDir + "/*",
      "mkdir -p " + EnvironmentDir(tempDir),
      "mkdir -p " + ContainersDir(tempDir),
      "mkdir -p " + ArchivesDir(tempDir) ]
  }
}
