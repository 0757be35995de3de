# AirShip deployment script, modelled in Dafny

AirShip (`src/deploy.py`) deploys a Docker-based project from one command line: `deploy.py SERVER build-env,build,push,deploy`. It reads a declarative `config` module, layers a variable store (configuration, then the chosen server, then the directories, then the environment) and runs the named stages in order. Each stage issues shell lines through `run`:

- `build-env` copies environment files into a temporary directory, substituting `${VAR}` in template files with sed;
- `build` and `push` build and push the containers;
- `deploy` saves archived containers, packs and uploads the environment, imports the containers and starts the project over ssh;
- `run` runs the start command, and user-defined commands run lists of lines locally or over ssh.

The model follows the script's own structure:

- `Text`, `VarStore`, `Paths`: Python's `str.replace`, `split`/`join`, the ordered dict with `d[k] = v` and `d.update`, `replace_variables`, and `os.path.join`/`dirname`/`basename`/`relpath`.
- `Config`: the configuration entities (server, container, file entry, docker settings) and a fixed snapshot of the filesystem.
- `Commands`: every command-line builder (`ssh`, `upload`, `archive`, `copy_dir`, `copy_and_replace`, `get_docker_host`, the docker lines), each stated by the exact text of its line. The ssh line, the rsync line of `upload` and the `DOCKER_HOST=` prefix also have readers that parse them back, with round-trip lemmas.
- `Templates`: `find_files_for_replace` over a given walk and a given pattern-match predicate.
- `Execution`: `run` as a trace of issued and executed lines. A dry run executes nothing, and the first non-zero status ends the script.
- `Stages`: each stage as a function from the state (`config.variables`, `config.containers`, `config.files`) to the new state and the lines issued, and the `for command in commands` loop as a fold.
- `Driver`: the class `Deployment`, whose fields are the mutable parts of `config` and the trace. Its methods mirror the script's functions and loops and change the containers, files and store in place. Each is proved against the `Stages` function it implements.
- `Launch`: the argument loop, the usage and server checks, the four `update` calls, the overriding flags, the confirmation prompt, and the whole run end to end.

Where the configuration's comments and the code disagree, the model follows the code:

- **Substitution is not token-bounded.** Substitution is plain `str.replace` of `$NAME`, applied entry by entry in the store's order. `$VERSION` therefore rewrites the front of `$VERSIONING` when `VERSION` comes first, and a value that contains `$NAME` is not substituted again in the same pass.
- **An empty `build_path` builds in the work directory.** `src/config.py:41` says an empty `build_path` means the Dockerfile's directory. The code joins it onto the work directory, so only `"./"` selects the Dockerfile's directory.
- **`DOCKERFILE_DIR` stays in the shared store.** `build_variables` is the shared store, not a copy, so `DOCKERFILE_DIR` of the last container built remains in the store that later stages use.
- **Build contexts go into the build arguments.** They are added to `build_args`; the separate `build_contexts` list, which the docker line also prints, stays empty.
- **Template destinations join the environment directory twice.** A template file found in a copied directory gets the destination `join(TEMP_ENVIRONMENT_DIR, env_path, relpath)`, where `env_path` has already been joined onto the environment directory. This is only harmless because `temp_dir` is absolute.
- **A patterned name is a regex, so `.` is a wildcard.** `replace_vars_file_patterns` (`src/config.py:22`) are regular expressions, so `nginxconf` matches `.conf$`.

## Model

| member | source | states |
|---|---|---|
| VarStore.SetSpec | src/deploy.py:144 | `d[k] = v`: `k` maps to `v`, every other name keeps its value, an existing name keeps its place and a new one goes last, and names stay distinct |
| VarStore.UpdateGet | src/deploy.py:346-354 | after `d.update(other)` a name has `other`'s value if `other` has it, else its old value |
| VarStore.UpdateKeys | src/deploy.py:346-354 | `update` keeps the old names first and in order, adds only `other`'s names, and keeps names distinct |
| VarStore.ReplaceVariablesInOrder | src/deploy.py:124-127 | substitution is sequential `str.replace("$" + k, v)` over the entries in store order |
| VarStore.ReplaceVariablesIdentity | src/deploy.py:124-127 | an empty store, or a text without `$`, comes back unchanged |
| VarStore.ReplaceVariablesKeepsUnknown | src/deploy.py:124-127 | a text in which no `$NAME` of the store occurs comes back unchanged |
| VarStore.ShorterNameCaptures | src/deploy.py:124-127 | no token boundary: `VERSION` applied before `VERSIONING` rewrites `$VERSIONING` to the `VERSION` value followed by `ING` |
| VarStore.ValueReintroducesName | src/deploy.py:124-127 | not idempotent: a value holding `$A` for an earlier name `A` survives one pass and is rewritten by a second |
| Text.Replace | src/deploy.py:126 | `str.replace`: text without the pattern is unchanged, and nothing but the text's and the replacement's characters appears |
| Text.ReplaceBySelf | src/deploy.py:126 | replacing a pattern by itself changes nothing |
| Text.EscapeRoundTrip | src/deploy.py:73 | the model's own unescaping undoes the `'` → `\'` escaping for every text |
| Text.EscapedArePreceded | src/deploy.py:117 | after escaping, every occurrence of the escaped character follows the escape character |
| Text.JoinSplit | src/deploy.py:303 | joining the parts of `split(",")` gives back the text |
| Text.SplitJoin | src/deploy.py:303 | splitting a join of comma-free parts gives back the parts |
| Text.Split | src/deploy.py:303 | `split` yields at least one part and no part holds the separator |
| Paths.DirnameOfJoin | src/deploy.py:100-101 | `dirname` and `basename` of `p/q` are `p` and `q` |
| Paths.DirnameBasename | src/deploy.py:100-102 | rejoining `dirname` and `basename` gives the path back when its last slash is single |
| Paths.PathJoinTwice | src/deploy.py:148 | joining a relative work directory twice changes the path; an absolute one does not |
| Paths.RelativeToJoin | src/deploy.py:421-422 | `relpath` undoes `join` for a file found inside a directory |
| Commands.SshRoundTrip | src/deploy.py:63-73 | the ssh line reads back as the port (iff given and non-empty), the user (iff given and non-empty), the host and the unescaped command |
| Commands.UnquoteRoundTrip | src/deploy.py:73 | the model's own reader gives back the quoted remote command exactly, whatever it contains |
| Commands.SplitTargetOf | src/deploy.py:67-70 | the target `[USER@]HOST` splits back into user and host |
| Commands.UploadRoundTrip | src/deploy.py:76-93 | the rsync line reads back as `--ignore-existing` iff asked, the port iff given, the source and the target `[USER@]HOST:to` |
| Commands.ArchiveFileEntry | src/deploy.py:96-102 | the single-file form archives one bare file name from a directory that, joined with the name, is the path |
| Commands.SedValueRoundTrip | src/deploy.py:117 | each value's `/` is written as `\/`: every `/` of the escaped value follows a `\`, and the model's own unescaping gives the value back |
| Commands.SedBackslashBeforeSlash | src/deploy.py:117 | only `/` is escaped, not `\`: the value `a\/b` is written as `a\\/b`, so sed reads an escaped backslash and the `/` after it ends the replacement |
| Commands.SedScriptAppend | src/deploy.py:116-117 | the sed script is one expression per variable in store order: splitting the store splits the script |
| Commands.CopyAndReplaceChoice | src/deploy.py:109-121 | `mkdir -p` of the parent iff it is missing; then `cat … \| sed …` iff `replace_vars` and the store is non-empty, else `cp SRC DST` |
| Commands.DockerHostPrecedence | src/deploy.py:238-247 | the container host wins over the global host; the prefix is empty iff neither exists, else `DOCKER_HOST=` plus the substituted host and a space |
| Commands.OverridePrecedence | src/deploy.py:166-174 | the container platform replaces the global one; buildx is used iff the global or the container flag is set |
| Commands.BuildArgsLayout | src/deploy.py:150-159 | one `--build-arg` word per argument, then one `--build-context` word per context, each substituted |
| Commands.ArgWordsAt | src/deploy.py:151-153 | one word per value, in order, each flag plus substituted value |
| Templates.FindFilesForReplace | src/deploy.py:130-139 | the walking loop returns exactly the selection of the walk |
| Templates.SelectedMembership | src/deploy.py:130-139 | a path is returned iff it is a file of a walked directory, joined with that directory, whose name a pattern matches |
| Templates.SelectedSound | src/deploy.py:134-135 | nothing that does not match is returned |
| Templates.SelectedComplete | src/deploy.py:132-136 | every matching file of the walk is returned |
| Templates.SelectedAppend | src/deploy.py:132-136 | results keep walk order |
| Templates.SelectedInAppend | src/deploy.py:133-136 | within one directory, results keep listing order |
| Templates.SelectedInMembership | src/deploy.py:133-136 | within one directory, a path is returned iff it is a listed file whose name matches |
| Templates.DotIsWildcard | src/config.py:22 | `nginxconf` is selected by `.conf$`, since `.` matches any character |
| Execution.ExecAppend | src/deploy.py:52-60 | running two lists in turn is running their concatenation |
| Execution.ExecHalted | src/deploy.py:55-56 | after the script exits nothing more is issued or executed |
| Execution.ExecDry | src/deploy.py:52-53 | a dry run logs every command, executes none and never exits |
| Execution.ExecStopsAtFirstFailure | src/deploy.py:52-60 | a real run executes a prefix of the commands up to and including the first failure and exits with its status; it exits iff some command fails |
| Execution.ExecPrefix | src/deploy.py:52-60 | what a real run executed is a prefix of the commands whose every command but the last succeeded |
| Stages.ForContainersSelected | src/deploy.py:432-440 | for a step that leaves the store alone, skipped containers are unchanged, selected ones are rewritten, and one line per selected container is issued, in order |
| Stages.ForContainersState | src/deploy.py:428-440 | a container loop whose step keeps the store leaves skipped containers unchanged and rewrites each selected one from the unchanged store |
| Stages.ForContainersLines | src/deploy.py:428-440 | such a loop issues exactly one line per selected container, in container order |
| Stages.FoldAppend | src/deploy.py:386 | running two lists of names in turn is running their concatenation |
| Stages.BuildLeaksDockerfileDir | src/deploy.py:143-144 | after building, the shared store holds `DOCKERFILE_DIR` of the last container, loses no name, and one line per container was run |
| Stages.RebuildJoinsWorkDirTwice | src/deploy.py:148 | a second `build` joins the work directory onto the already joined Dockerfile path |
| Stages.ResolvedDockerfile | src/deploy.py:148 | a variable-free Dockerfile path is only joined onto the work directory |
| Stages.BuildPathChoice | src/deploy.py:161-164 | `"./"` selects the resolved Dockerfile's directory; `""` selects the work directory itself |
| Stages.DirOfResolved | src/deploy.py:161-162 | the directory of the joined Dockerfile is the work directory joined with the Dockerfile's own directory |
| Stages.EmptyBuildPath | src/deploy.py:164 | an empty build path resolves to a work directory ending in `/` |
| Stages.PushTouchesOnlyUnarchived | src/deploy.py:435-440 | `push` leaves archived containers alone, rewrites every other one, and pushes exactly those, in order |
| Stages.DumpTouchesOnlyArchived | src/deploy.py:447-450 | the dump loop leaves unarchived containers alone, keeps archive names, and saves exactly the archived containers, in order |
| Stages.ShipOnlyArchived | src/deploy.py:464-482 | only archived containers are shipped; the import comes last; the separate upload happens iff `deploy_separately` and comes after the removal, which happens iff `remove_old` |
| Stages.DeployOrder | src/deploy.py:442-485 | `deploy` issues the saves, then archive, mkdir, upload, extract, then the shipping lines of exactly the archived containers in container order, and last the run command, without changing the store |
| Stages.ShipFiltered | src/deploy.py:464-466 | a container without `arch_name` adds no line, so the shipping lines are those of the archived containers, in order |
| Stages.DumpKeepsShipping | src/deploy.py:199-211 | the dump rewrites only registry and name, so every container ships the same lines after it |
| Stages.FlatMapPointwise | src/deploy.py:464-482 | containers that ship the same lines one by one ship the same lines in all |
| Stages.ExcludeGet | src/deploy.py:472-474 | every variable `v` maps to `*[^v]` in the exclusion store |
| Stages.FlatMapAppend | src/deploy.py:464-482 | the lines of a split list are the lines of each part, in order |
| Stages.FileOneCases | src/deploy.py:405-415 | a missing source issues nothing; a file is copied via `copy_and_replace`; a directory is first copied whole by `cp -R` |
| Stages.TemplateDestination | src/deploy.py:417-425 | a template file is substituted to its relative place under the environment directory joined twice with the entry's `env_path`, inside the copy when that is absolute |
| Stages.TemplateSpecsPlaces | src/deploy.py:418-425 | one entry per found file, in the order found: each substitutes the found file itself, with variables, to its relative place under the environment directory joined with the entry's `env_path` twice, which is its place inside the copy when that is absolute |
| Stages.UserCommandPlace | src/deploy.py:221-227 | one line per command, in order: the ssh call when the place is `remote`, the command itself otherwise |
| Stages.PipelineAppend | src/deploy.py:386 | names run in the order given, each from the state the one before left; a repeated name runs again |
| Stages.UnknownNameDoesNothing | src/deploy.py:495-497 | a name that is neither a stage nor a user command does nothing, and user commands never change the state |
| Driver.Substitute | src/deploy.py:124-127 | the `replace_variables` loop computes the substitution |
| Driver.SedArguments | src/deploy.py:115-117 | the `cmdVars` loop builds the sed script |
| Driver.ArgumentWords | src/deploy.py:151-159 | the `build_args` loops build one word per value |
| Driver.ExcludeVariables | src/deploy.py:472-474 | the `excludeVariables` loop builds the exclusion store |
| Driver.Deployment.constructor | src/deploy.py:284-292 | a deployment starts from the given state with an empty trace |
| Driver.Deployment.Run | src/deploy.py:52-60 | `run` adds one line to the trace as `Exec1` says |
| Driver.Deployment.Ssh | src/deploy.py:63-73 | `ssh` runs the ssh line |
| Driver.Deployment.Upload | src/deploy.py:76-93 | `upload` runs the rsync line |
| Driver.Deployment.Archive | src/deploy.py:96-102 | `archive` runs the directory form iff the path is a directory |
| Driver.Deployment.CopyDir | src/deploy.py:105-106 | `copy_dir` runs `cp -R` |
| Driver.Deployment.CopyAndReplaceFile | src/deploy.py:109-121 | `copy_and_replace` runs its lines |
| Driver.Deployment.GetDockerHost | src/deploy.py:238-247 | `get_docker_host` returns the prefix for the shared store |
| Driver.Deployment.DockerBuild | src/deploy.py:142-186 | the store gains `DOCKERFILE_DIR`, the container is rewritten in place, and the build line is run |
| Driver.Deployment.DockerPush | src/deploy.py:189-196 | registry and name are rewritten in place and the push line is run |
| Driver.Deployment.DockerDump | src/deploy.py:199-211 | registry and name are rewritten in place and the save line is run |
| Driver.Deployment.DockerImport | src/deploy.py:214-218 | the load line is run over ssh |
| Driver.Deployment.UserCommands | src/deploy.py:221-227 | the commands are run in order, as `UserCommandPlace` states |
| Driver.Deployment.CleanupTempDir | src/deploy.py:230-236 | the five cleanup lines are run in order |
| Driver.Deployment.Build | src/deploy.py:428-433 | the `build` loop reaches the state and trace of the `build` stage |
| Driver.Deployment.Push | src/deploy.py:435-440 | the `push` loop reaches the state and trace of the `push` stage |
| Driver.Deployment.DumpContainers | src/deploy.py:447-450 | the dump loop reaches the state and trace of the dump stage |
| Driver.Deployment.MoveArchive | src/deploy.py:452-462 | archive, mkdir, upload and extract are run in order |
| Driver.Deployment.ShipContainer | src/deploy.py:465-482 | one archived container is shipped as `ShipLines` says |
| Driver.Deployment.ShipContainers | src/deploy.py:464-482 | the shipping loop runs the lines of each container in order |
| Driver.Deployment.Deploy | src/deploy.py:442-485 | `deploy` reaches the state and trace of the `deploy` stage |
| Driver.Deployment.TemplateFiles | src/deploy.py:418-425 | one template entry per found file |
| Driver.Deployment.CopyTemplates | src/deploy.py:418-425 | `copy_and_replace` of each template entry in turn |
| Driver.Deployment.CopyDirectory | src/deploy.py:416-425 | `copy_dir`, then the templates when `replace_vars` is set |
| Driver.Deployment.CopyExisting | src/deploy.py:411-425 | an existing file is copied with substitution and an existing directory is copied |
| Driver.Deployment.CopyFile | src/deploy.py:400-425 | both paths are joined and substituted in place, and a missing source is skipped |
| Driver.Deployment.BuildEnv | src/deploy.py:394-426 | the `build-env` branch reaches the state and trace of the `build-env` stage |
| Driver.Deployment.RunStage | src/deploy.py:487-489 | the `run` branch runs the substituted run command over ssh |
| Driver.Deployment.Execute | src/deploy.py:387-504 | one pass of the stage loop does what `Dispatch` says for the name |
| Driver.Deployment.RunCommands | src/deploy.py:386-504 | the stage loop reaches the state and trace of the pipeline of the names |
| Launch.ClassifySpec | src/deploy.py:294-300 | the loop fails iff some argument is empty; otherwise every `-` argument is a flag, the first positional after the script is the server and the second the command text, and later ones are ignored |
| Launch.CommandListJoin | src/deploy.py:302-303 | the list is empty iff the text is; no name holds a comma; joining with commas gives the text |
| Launch.ReadArguments | src/deploy.py:294-300 | the argument loop computes the classification |
| Launch.LayerPrecedence | src/deploy.py:324-354 | environment over directory names over server `variables` over the server entry over the configured variables |
| Launch.ServerLayerPrecedence | src/deploy.py:326-337 | the server's `variables` win over its built-in names, which win over the configured ones |
| Launch.PathLayerPrecedence | src/deploy.py:346-354 | the environment wins over the three directory names, which win over the rest |
| Launch.LayerKeepsOrder | src/deploy.py:324-354 | layering keeps the configured names first and in order, so substitution still visits them first |
| Launch.LayerVariables | src/deploy.py:324-354 | the four `update` calls and `destination_dir` compute the layered store |
| Launch.PrepareServerWhenNeeded | src/deploy.py:316-340 | a run that passes the checks has the named configured server whenever a stage is named, and without a server it runs only `version`, `update` or `config` |
| Launch.PrepareCommands | src/deploy.py:302-303 | the list is `config`, else `version`, else `update` when those flags are given, else the text's names, else the four default stages after a confirming answer |
| Launch.PrepareLayers | src/deploy.py:346-357 | the run's store is the layered store, `--skip-containers` empties the containers, and `--dry` sets the dry run |
| Launch.ShortCommandLineIsUsage | src/deploy.py:312-314 | fewer than two arguments print the usage and stop |
| Launch.UnknownServerStops | src/deploy.py:316-322 | a stage named with an unconfigured server stops before anything runs |
| Launch.Launch | src/deploy.py:294-382 | the preparation code computes the outcome `Prepare` defines |
| Launch.NoServerIssuesNothing | src/deploy.py:387-393 | `version`, `update` and `config` alone issue no line |
| Launch.Airship | src/deploy.py:284-504 | a whole run issues and executes exactly the pipeline of the prepared commands from an empty trace, or nothing when it stops first |

## Left out

- Process execution: `run` appends to a trace and takes exit statuses from a given list. The `OSError` branch, which prints and carries on, is not modelled.
- Logging, colours, `pprint` of the configuration, the banner and `usage` text: they only produce output.
- The self-update over HTTPS (`update`, `http_request`): it depends on the network. The `update` command issues no line in the model.
- Stages.Dispatch: `update` does nothing and the loop goes on. In the source, `update()` ends the script through `exit()` when no newer version exists, when the download is broken or when its prompt is declined (`src/deploy.py:265`, `:271`, `:275`). So with `update,build` the script never builds, but the model runs `build`. Which of these happens depends on the network.
- Interactive prompts: the answer to the confirmation prompt is an input string, and the update prompt is not modelled.
- The SIGINT handler and `sys.exit` from a signal: concurrency.
- The filesystem and `os.walk`: `exists`, `isdir`, `isfile` and `os.walk` are answered from one fixed snapshot taken before the stage loop. The source observes its own earlier commands here: the cleanup's `rm -rf`/`mkdir -p`, earlier `mkdir -p` lines and `cp -R` copies. The snapshot stands in for that changing state because the executed lines' effects on the filesystem are not modelled.
- Stages.CopyAndReplace: the parent check of `copy_and_replace` (`src/deploy.py:112`) is made against the snapshot, not the filesystem as the earlier lines of the same run left it. Take two entries `config/a.yml` and `config/b.yml` under a directory the run itself creates. The model issues `mkdir -p` for both or for neither; a real, non-dry run issues it once.
- Stages.ArchiveLines: the `isdir` test of `archive` (`src/deploy.py:97`) on the environment directory, which `build-env` created, is also read from the snapshot.
- The regex engine is a given `matches(pattern, name)` predicate, with one anchored-suffix instance for the literal-dot lemma.
- Retention cleanup of old Docker images: it is not defined in the source.
- Text.Replace: it requires a non-empty pattern. The script only replaces `$NAME` patterns, which are never empty.
- Paths.RelativeTo: it models `os.path.relpath` only for a path inside the base directory, the one case `build-env` uses.
- Launch.Prepare: a key missing from a server entry (`host`, `version`, `env`) is not modelled, because the entities make those fields mandatory; `config.docker` missing is its empty default.
- Launch.Airship: after the script has exited, the model keeps evaluating the remaining stages but runs nothing, because the trace is frozen. The rewritten containers and store after an exit are not observable in the source.
- Driver.Deployment.CopyDirectory: the template destinations are computed before any template is copied, whereas the source computes each just before copying it. Nothing in between changes them.
- Commands.SshLine: a POSIX shell does not read `\'` as a quote inside single quotes. So a remote command holding `'`, such as `echo 'hi'` written as `ssh -t host 'echo \'hi\''`, leaves an unterminated quote for the `sh -c` that `subprocess.call(..., shell=True)` starts (`src/deploy.py:56`, `:72`). The round trip is proved for the model's own reader, not for the shell.
- Commands.SedExpression: the script escapes only `/` in a value. sed does not read a value back as written when it holds `\` before `/` (see `Commands.SedBackslashBeforeSlash`), `&`, a newline, or `'`, which also ends the shell quoting. The model states the exact text of the line, not what sed makes of it.
- The meaning of the issued lines to the shell, sed, rsync, tar and docker is not modelled. The model states the exact text of each line. Only the ssh line, the rsync line and the docker host prefix are parsed back, by the model's own readers; the archive, copy, sed, docker build, push, save and load lines and the cleanup lines are stated by their text alone.
