/**
 * The plugin returned by `tauri(options)`: a dev-server hook that starts
 * `tauri dev` against the live dev URL, and a build hook that runs
 * `tauri build` once the bundle is written. Both share the closure
 * variable `viteConfig`, assigned when Vite resolves its configuration.
 */
module TauriPlugin {
  import opened Wrappers
  import opened FsPaths
  import opened FsSearch
  import opened CliArgs

  /** `TauriOptions`; an absent `options` argument reads as every field undefined. */
  datatype TauriOptions = TauriOptions(debug: Option<bool>, target: Option<string>, verbose: Option<bool>)

  /** The part of Vite's resolved configuration the build hook reads. */
  datatype ResolvedConfig = ResolvedConfig(outDir: string)

  /** `server.httpServer?.address()`: missing, a pipe or socket name, or a bound address and port. */
  datatype ServerAddress = NoAddress | PipeName(name: string) | HostPort(address: string, port: nat)

  /** The `build` object handed to `JSON.stringify` for `--config`. */
  datatype ConfigPatch = DevPath(url: string) | DistDir(dir: string)

  /** What a hook leads to: carry on, end the process with a code, or run the Tauri CLI with arguments. */
  datatype Outcome = Proceed | Exit(code: int) | RunCli(args: seq<string>)

  /** `options?.target` when it is truthy, that is, present and non-empty. */
  function Target(o: TauriOptions): Option<string> {
    if o.target.Some? && o.target.value != "" then o.target else None
  }

  /** The flags `tauri dev` is asked for: a release build only when `debug` is explicitly false. */
  function DevFlags(o: TauriOptions): CliFlags {
    CliFlags(o.debug == Some(false), false, Target(o), o.verbose == Some(true))
  }

  /** The flags `tauri build` is asked for: a debug build only when `debug` is true. */
  function BuildFlags(o: TauriOptions): CliFlags {
    CliFlags(false, o.debug == Some(true), Target(o), o.verbose == Some(true))
  }

  /** The directory holding the configuration file, which `distDir` is made relative to. */
  function ConfigDir(conf: Path): string {
    Dirname(Render(conf))
  }

  /** The base directory as the build hook computes it: `dirname(paths[0])`, the first character of the path string. */
  function AsWrittenConfigDir(conf: Path): (d: string)
    requires conf.root != ""
    ensures d == "/" || d == "."
  {
    Dirname(Render(conf)[..1])
  }

  /** The corrected base directory is the directory that holds the configuration file. */
  lemma ConfigDirIsParent(conf: Path)
    requires PlainPath(conf) && conf.parts != []
    ensures ConfigDir(conf) == Render(Parent(conf))
    ensures JoinText(ConfigDir(conf), conf.parts[|conf.parts| - 1]) == Render(conf)
  {
    DirnameIsParent(conf);
  }

  /**
   * As written, the base directory depends on nothing but the first
   * character of the working directory: "/" for any absolute one,
   * wherever the configuration file was found.
   */
  lemma AsWrittenConfigDirIgnoresLocation(conf: Path)
    requires conf.root != ""
    ensures AsWrittenConfigDir(conf) == (if conf.root[0] == '/' then "/" else ".")
  {
  }

  /** `src-tauri/tauri.conf.json` below `/home/dev/app`: the two base directories differ. */
  lemma BuildBaseDirCounterexample()
    ensures var conf := Path("/home/dev/app", ["src-tauri", "tauri.conf.json"]);
            && AsWrittenConfigDir(conf) == "/"
            && ConfigDir(conf) == "/home/dev/app/src-tauri"
  {
    var conf := Path("/home/dev/app", ["src-tauri", "tauri.conf.json"]);
    AsWrittenConfigDirIgnoresLocation(conf);
    assert PlainName("src-tauri");
    assert PlainName("tauri.conf.json");
    assert PlainPath(conf);
    ConfigDirIsParent(conf);
    assert Parent(conf) == Path("/home/dev/app", ["src-tauri"]);
    assert Render(Path("/home/dev/app", [])) == "/home/dev/app";
    assert Render(Parent(conf)) == JoinText("/home/dev/app", "src-tauri");
  }

  /** The state `tauri(options)` closes over. */
  class Plugin {
    const options: TauriOptions
    var viteConfig: Option<ResolvedConfig>

    /** `tauri(options)`: `viteConfig` is not yet assigned. */
    constructor (options: TauriOptions)
      ensures this.options == options && viteConfig == None
    {
      this.options := options;
      viteConfig := None;
    }

    /** `configResolved(config)` of either hook: remembers the resolved configuration. */
    method ConfigResolved(config: ResolvedConfig)
      modifies this
      ensures viteConfig == Some(config)
    {
      viteConfig := Some(config);
    }

    /**
     * `configureServer`: ends the process with code 0 exactly when no
     * configuration file is within reach of the working directory;
     * otherwise waits for the server to listen.
     */
    method ConfigureServer(cwd: Path, fs: Listing) returns (o: Outcome)
      ensures o == Exit(0) || o == Proceed
      ensures o == Exit(0)
          <==> forall rel :: !(Found(IsTauriConfName, DEFAULT_IGNORE, fs, rel) && WithinDepth(|rel|, DEFAULT_MAX_DEPTH))
    {
      TauriConfPathNone(cwd, fs);
      if GetTauriConfPath(cwd, fs) == None {
        o := Exit(0);
      } else {
        o := Proceed;
      }
    }

    /**
     * The `listening` callback: code 1 when the server has no host and
     * port, otherwise `tauri dev --config {build: {devPath}}` followed by
     * the flags the options ask for.
     */
    method OnListening(https: bool, address: ServerAddress, stringify: ConfigPatch -> string) returns (o: Outcome)
      ensures o == Exit(1) <==> !address.HostPort?
      ensures address.HostPort? ==>
                o == RunCli(["dev", "--config", stringify(DevPath(DevUrl(https, address.address, address.port)))]
                            + FlagArgs(DevFlags(options)))
      ensures o.RunCli? ==> |o.args| >= 3 && ParseFlags(o.args[3..], NO_FLAGS) == Some(DevFlags(options))
    {
      if !address.HostPort? {
        return Exit(1);
      }
      var host := if address.address in LOCALHOSTS then "localhost" else address.address;
      if ':' in host {
        host := "[" + host + "]";
      }
      var url := (if https then "https" else "http") + "://" + host + ":" + Decimal(address.port);
      var args := ["dev", "--config", stringify(DevPath(url))];
      args := AppendFlags(args, DevFlags(options));
      o := RunCli(args);
    }

    /**
     * `closeBundle`: code 0 when no configuration file is found; otherwise
     * `tauri build --config {build: {distDir}}`, `distDir` being the output
     * directory relative to the configuration file's directory, followed by
     * the flags the options ask for.
     */
    method CloseBundle(cwd: Path, fs: Listing, relative: (string, string) -> string, resolve: string -> string,
                       stringify: ConfigPatch -> string) returns (o: Outcome)
      requires viteConfig.Some?
      ensures o == Exit(0)
          <==> forall rel :: !(Found(IsTauriConfName, DEFAULT_IGNORE, fs, rel) && WithinDepth(|rel|, DEFAULT_MAX_DEPTH))
      ensures GetTauriConfPath(cwd, fs).Some? ==>
                var distDir := relative(ConfigDir(GetTauriConfPath(cwd, fs).value), resolve(viteConfig.value.outDir));
                o == RunCli(["build", "--config", stringify(DistDir(distDir))] + FlagArgs(BuildFlags(options)))
      ensures o.RunCli? ==> |o.args| >= 3 && ParseFlags(o.args[3..], NO_FLAGS) == Some(BuildFlags(options))
    {
      TauriConfPathNone(cwd, fs);
      var paths := GetTauriConfPath(cwd, fs);
      if paths == None {
        return Exit(0);
      }
      var distDir := relative(ConfigDir(paths.value), resolve(viteConfig.value.outDir));
      var args := ["build", "--config", stringify(DistDir(distDir))];
      args := AppendFlags(args, BuildFlags(options));
      o := RunCli(args);
    }
  }
}
