# vite-plugin-tauri, modelled in Dafny

`vite.plugin.tauri.ts` is a Vite plugin that drives the Tauri CLI. It does three things:

- It looks for the project's Tauri configuration file (`tauri.conf.json`, `tauri.conf.json5` or `Tauri.toml`). The search recurses from the working directory to a bounded depth and skips `node_modules` and `target`.
- When the dev server starts listening, it runs `tauri dev`. The server's URL is passed as `build.devPath`.
- When a production bundle is closed, it runs `tauri build`. The output directory is passed as `build.distDir`.

In both hooks, the plugin options `debug`, `target` and `verbose` become trailing CLI flags.

The model has five modules:

- `FsSearch` (`fs_search.dfy`) holds `search` and `getTauriConfPath`. The file system is a finite tree:
  - a directory's `readdir` result is a `Listing`, which is `Unreadable` when `readdir` rejects;
  - an entry's `stat` result is a `Kind`, which is `StatFails` when `stat` rejects.

  The search is a recursive function over that tree. Its results are proved equal to a declarative description, `Found` plus the depth bound, in both directions.
- `FsPaths` (`fs_paths.dfy`) holds paths as a root plus the components `join` appends. It also has node:path's POSIX `dirname`, with the lemma that `dirname` of a joined path is the directory it was joined to.
- `CliArgs` (`cli_args.dfy`) holds the trailing flags and the dev URL, each with a reference reader:
  - `ParseFlags` reads the flags back;
  - `ParseUrl` reads the URL back.

  The round-trip lemmas show that what the plugin emits reads back as what was meant.
- `TauriPlugin` (`tauri_plugin.dfy`) holds the closure of `tauri(options)` as the class `Plugin`:
  - its `const options` are the options `tauri()` was called with;
  - its `var viteConfig` is the variable `configResolved` assigns;
  - its hooks are methods that return an `Outcome`: carry on, exit with a code, or run the CLI with an argument list.
- `SearchExamples` (`search_examples.dfy`) evaluates the search on small concrete trees.

Three points of the search's behaviour are easy to misread:

- Result order: `Promise.all(...).flat()` keeps listing order, so the model returns a pre-order, listing-order concatenation. `getTauriConfPath` therefore returns the first match in listing order, not an arbitrary one.
- Ignore patterns: they are not only directory exclusions. The code tests them against every entry name before `stat`, so an ignored name removes a regular file too.
- Depth test: the code descends while `maxDepth !== 0`, not while `maxDepth > 0`, so a negative `maxDepth` means no bound at all (`NegativeDepthUnbounded`).

## Model

| member | source | states |
|---|---|---|
| `FsSearch.Search` | vite.plugin.tauri.ts:12-32 | Every returned path lies strictly below `workPath`. It passes through at most `maxDepth` directories when `maxDepth >= 0`. No component below `workPath` matches an ignore pattern. Its last component passes `pattern`. |
| `FsSearch.SearchEntries` | vite.plugin.tauri.ts:17-31 | The flattened per-entry results keep the same guarantees as `Search`. |
| `FsSearch.Visit` | vite.plugin.tauri.ts:17-29 | One entry's callback yields only paths with the same guarantees as `Search`. An ignored name or a failed `stat` yields nothing. A directory reached with depth 0 is neither entered nor returned. |
| `FsSearch.SearchExact` | vite.plugin.tauri.ts:12-32 | Soundness and completeness: `join(workPath, rel)` is returned if and only if `rel` names a matching regular file, reached through readable directories with no ignored component, within the depth bound. |
| `FsSearch.EntriesExact` | vite.plugin.tauri.ts:17-31 | The same if-and-only-if for one directory listing: some entry of the listing leads to `rel`. |
| `FsSearch.VisitExact` | vite.plugin.tauri.ts:18-28 | The same if-and-only-if for a single entry's callback. |
| `FsSearch.SearchSound` | vite.plugin.tauri.ts:20-26 | Each returned path is `workPath` joined with components that name a found regular file within the depth bound. |
| `FsSearch.SearchDepthBound` | vite.plugin.tauri.ts:23-24 | With `maxDepth >= 0`, a result is at most `maxDepth + 1` components below `workPath`. |
| `FsSearch.NegativeDepthUnbounded` | vite.plugin.tauri.ts:23 | With a negative `maxDepth`, the `!== 0` test never stops the descent, so every found file is returned at any depth. |
| `FsSearch.IgnoredContributesNothing` | vite.plugin.tauri.ts:18 | No result passes through an entry whose bare name matches an ignore pattern. |
| `FsSearch.SearchEntriesAppend` | vite.plugin.tauri.ts:31 | Results follow listing order: the result for a listing split in two is the first part's results followed by the second's. |
| `FsSearch.FoundDegraded` | vite.plugin.tauri.ts:17-22 | A file found in a tree with injected failures is also found in the tree without them. |
| `FsSearch.SearchFailSoft` | vite.plugin.tauri.ts:17-22 | Unreadable directories and rejected `stat` calls only remove results. They never add one, and the search never fails. |
| `FsSearch.GetTauriConfPath` | vite.plugin.tauri.ts:34-40 | A returned path is one of the search's results. |
| `FsSearch.TauriConfPathNone` | vite.plugin.tauri.ts:34-36 | The result is null exactly when no configuration file lies within 3 directories, outside `node_modules`/`target` names. |
| `FsSearch.TauriConfPathFound` | vite.plugin.tauri.ts:35-39 | A returned path lies below the working directory. It is at most 3 directories down, its name matches the configuration-file pattern, it is found as `Found` describes, and it is the first search result. |
| `SearchExamples.ConfNameNotIgnored` | vite.plugin.tauri.ts:14 | `tauri.conf.json` is not caught by `/node_modules/` or `/target/`. |
| `SearchExamples.DepthExample` | vite.plugin.tauri.ts:15-28 | `a/b/c/tauri.conf.json` is found with the default depth 3 and not with depth 2. |
| `SearchExamples.IgnoreExample` | vite.plugin.tauri.ts:14-18 | Nothing under `node_modules` is found. A regular file whose name contains `target` is skipped even though its name matches. |
| `SearchExamples.ListingOrderExample` | vite.plugin.tauri.ts:31-37 | A nested configuration file listed first is chosen over one directly in the working directory. |
| `CliArgs.FlagsRoundTrip` | vite.plugin.tauri.ts:69-71 | Reading the pushed flags back gives exactly the requested flags. |
| `CliArgs.AppendFlags` | vite.plugin.tauri.ts:69-71 | The conditional pushes of both hooks (lines 69-71 for `dev`, 92-94 for `build`) add exactly `--release`, `--debug`, `--target t`, `--verbose`, in that order, each only when asked for. The existing arguments are kept, and the appended part reads back as the requested flags. |
| `CliArgs.DecimalRoundTrip` | vite.plugin.tauri.ts:65 | The port printed into the dev URL reads back as the port. |
| `CliArgs.UrlRoundTrip` | vite.plugin.tauri.ts:55-65 | For every bound address, the dev URL reads back as three parts. The scheme is `https` exactly when the server's `https` option is set. The host is `localhost` for the four loopback spellings and the bound address otherwise. The port is the bound port. `ParseUrl` accepts a host holding `:` only in square brackets, as a URL requires. |
| `CliArgs.AsWrittenUrlWithoutColon` | vite.plugin.tauri.ts:65 | For a host without `:` (a name, an IPv4 address, or a loopback spelling), the URL as written equals the bracketed one and reads back as scheme, host and port. |
| `CliArgs.AsWrittenIpv6UrlRejected` | vite.plugin.tauri.ts:65 | As written, a non-loopback IPv6 host goes into the URL without brackets, and the URL reader rejects it. |
| `CliArgs.AllInterfacesUrlAsWritten` | vite.plugin.tauri.ts:65 | For a server bound to `::` on port 5173, the URL as written is `http://:::5173`, which is rejected. |
| `CliArgs.AllInterfacesUrlBracketed` | vite.plugin.tauri.ts:65 | For the same server, the intended URL is `http://[::]:5173`, which reads back as host `::` and port 5173. |
| `TauriPlugin.AsWrittenConfigDir` | vite.plugin.tauri.ts:88 | The base directory as written is always `/` or `.`. |
| `TauriPlugin.AsWrittenConfigDirIgnoresLocation` | vite.plugin.tauri.ts:83-88 | As written, the base directory depends only on the first character of the working directory: `/` when it is absolute, wherever the configuration file lies. |
| `TauriPlugin.BuildBaseDirCounterexample` | vite.plugin.tauri.ts:88 | Take `/home/dev/app/src-tauri/tauri.conf.json`. The base directory as written is `/`, but the intended one is `/home/dev/app/src-tauri`. |
| `TauriPlugin.ConfigDirIsParent` | vite.plugin.tauri.ts:88 | The corrected base directory `dirname(path)` is the directory holding the configuration file. Joining the file name back onto it gives the path. |
| `TauriPlugin.Plugin.constructor` | vite.plugin.tauri.ts:42-43 | `tauri(options)` keeps the options, and `viteConfig` starts unassigned. |
| `TauriPlugin.Plugin.ConfigResolved` | vite.plugin.tauri.ts:50 | `configResolved` stores the resolved configuration in the shared `viteConfig`. |
| `TauriPlugin.Plugin.ConfigureServer` | vite.plugin.tauri.ts:51-52 | The hook exits with code 0 exactly when no configuration file is within reach, and carries on otherwise. |
| `TauriPlugin.Plugin.OnListening` | vite.plugin.tauri.ts:54-73 | Without a host and port, the callback exits with code 1. Otherwise the CLI runs with `dev --config <json of devPath>`, with an IPv6 host in square brackets, followed by the dev flags: `--release` only when `debug` is explicitly false, then `--target t` for a non-empty target, then `--verbose`. The flags read back as requested. |
| `TauriPlugin.Plugin.CloseBundle` | vite.plugin.tauri.ts:82-96 | The hook exits with code 0 exactly when no configuration file is found. Otherwise the CLI runs with `build --config <json of distDir>`, followed by the build flags: `--debug` only when `debug` is true, then `--target t`, then `--verbose`. `distDir` is the resolved `outDir` relative to the configuration file's directory. |

## Left out

- File-system access (`readdir`, `stat`): replaced by a finite tree. Symbolic-link cycles cannot be expressed; the source does not guard against them.
- `Promise.all` concurrency: the model is sequential. This is exact, because the flattened result keeps listing order.
- The regular-expression engine. The three default expressions are written out as string predicates:
  - `/node_modules/` and `/target/` are unanchored substring tests;
  - the configuration pattern is a suffix test.

  A caller's own `pattern` and `ignorePatterns` are arbitrary name predicates. A stateful RegExp (the `g` flag) is not modelled.
- `JSON.stringify`, `relative` and `resolve`: passed to the hooks as functions (`stringify`, `relative`, `resolve`).
- Path syntax: `join` appends a component and renders with `/`; further normalisation (`.`, `..`, repeated separators) is not modelled. `dirname` is the POSIX variant only.
- `@tauri-apps/cli`'s `run`: a hook returns `RunCli(args)` instead of calling it. The model does not capture that the build hook awaits the CLI while the dev hook does not.
- `process.exit`: a hook returns `Exit(code)`.
- `console.info` and `console.error` are not modelled.
- Vite wiring: the `name`, `apply` and `enforce` fields and the registration of the `listening` callback through `server.httpServer?.once` are left out. `OnListening` is the callback, run at most once, and only when an HTTP server exists. `process.cwd()` is the `cwd` parameter.
- Option types: options have their declared TypeScript types. JavaScript truthiness of other values is not modelled. An absent `options` argument is the record with every field undefined.
- Ports are unbounded naturals, with no 0-65535 range.
- TauriPlugin.Plugin.CloseBundle: computes `distDir` from the corrected base directory `ConfigDir`, not from `dirname(paths[0])` as written. The as-written base is `AsWrittenConfigDir`, described under Findings.
- TauriPlugin.Plugin.OnListening: puts a non-loopback IPv6 host into `devPath` in square brackets, not bare as written. The URL as written is `AsWrittenDevUrl`, described under Findings.
- `vite.config.ts`: a static configuration object with no logic. It is not part of this model.

## Findings

| source | as written | input that shows it | evidently intended | confidence | as-written member | corrected member |
|---|---|---|---|---|---|---|
| vite.plugin.tauri.ts:88 | `dirname(paths[0])`. `paths` is the path string, so this is `dirname` of its first character, which is `/` for any absolute path. | Working directory `/home/dev/app`, configuration file at `/home/dev/app/src-tauri/tauri.conf.json`: the base is `/` instead of `/home/dev/app/src-tauri`, so `distDir` comes out relative to the file-system root. | `dirname(paths)`: the directory holding the configuration file. | high; not executed | `TauriPlugin.AsWrittenConfigDirIgnoresLocation` | `TauriPlugin.ConfigDirIsParent` |
| vite.plugin.tauri.ts:65 | The host goes into `devPath` as `address.address`, unbracketed. For a non-loopback IPv6 address the URL is malformed. | A dev server listening on all interfaces, bound to `::` on port 5173: `devPath` is `http://:::5173`, which a URL reader rejects. | An IPv6 host enclosed in square brackets: `http://[::]:5173`. | medium; not executed | `CliArgs.AsWrittenIpv6UrlRejected` | `CliArgs.UrlRoundTrip` |
