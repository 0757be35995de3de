/** The declarative configuration the deployment script reads (its
    `config` module), and the filesystem as the script queries it. Keys
    that the script tests with `in` before use are `Option`s; flags that it
    reads as `'key' in d and d['key']` are `bool`s that default to false. */
module Config {
  import opened Wrappers
  import opened VarStore
  import opened Paths

  /** One entry of `config.servers`. */
  datatype Server = Server(
    host: string,
    port: Option<string>,
    user: Option<string>,
    version: string,
    env: string,
    destinationDir: Option<string>,
    variables: Store)

  /** `'port' in server and server['port'] != ''`. */
  predicate PortGiven(s: Server)
  {
    s.port.Some? && s.port.value != ""
  }

  /** `'user' in server and server['user'] != ''`. */
  predicate UserGiven(s: Server)
  {
    s.user.Some? && s.user.value != ""
  }

  /** One entry of `config.containers`; `dockerHost` is `""` when the key
      is absent, as the script passes `''` in that case. */
  datatype Container = Container(
    name: string,
    registry: string,
    dockerfile: string,
    buildPath: string,
    buildArgs: seq<string>,
    buildContexts: seq<string>,
    archName: Option<string>,
    buildx: bool,
    platform: Option<string>,
    dockerHost: string,
    deploySeparately: bool,
    removeOld: bool,
    ignoreExisting: bool)

  /** One entry of `config.files`. */
  datatype FileSpec = FileSpec(path: string, envPath: string, replaceVars: bool)

  /** `config.docker`, which the script sets to `{}` when it is missing. */
  datatype DockerSettings = DockerSettings(host: Option<string>, buildx: bool, platform: Option<string>)

  /** One entry of `config.user_commands`. */
  datatype UserCommand = UserCommand(place: string, commands: seq<string>)

  /** The whole `config` module. */
  datatype Settings = Settings(
    workDir: string,
    tempDir: string,
    archName: string,
    destinationDir: string,
    variables: Store,
    replacePatterns: seq<string>,
    runCommand: string,
    docker: DockerSettings,
    containers: seq<Container>,
    files: seq<FileSpec>,
    userCommands: map<string, UserCommand>,
    servers: map<string, Server>)

  /** `config.temp_dir_environment` and its two siblings. */
  function EnvironmentDir(tempDir: string): string { PathJoin(tempDir, "environment") }
  function ContainersDir(tempDir: string): string { PathJoin(tempDir, "containers") }
  function ArchivesDir(tempDir: string): string { PathJoin(tempDir, "archives") }

  /** One step of `os.walk`: a directory and the names of the files in it. */
  datatype WalkEntry = WalkEntry(root: string, files: seq<string>)

  /** The filesystem as the script queries it, fixed for the whole run:
      the regular files, the directories, and what `os.walk` yields for a
      directory. */
  datatype FileSystem = FileSystem(files: set<string>, dirs: set<string>, walks: map<string, seq<WalkEntry>>)

  /** `os.path.exists`. */
  predicate Exists(fs: FileSystem, p: string)
  {
    p in fs.files || p in fs.dirs
  }

  /** `os.walk(p)`; nothing for a path that is not a directory. */
  function Walk(fs: FileSystem, p: string): seq<WalkEntry>
  {
    if p in fs.walks then fs.walks[p] else []
  }
}
