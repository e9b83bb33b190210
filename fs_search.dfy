/**
 * The plugin's bounded recursive search for the Tauri configuration file
 * (`search` and `getTauriConfPath` in vite.plugin.tauri.ts), over a file
 * system given as a finite tree.
 *
 * `readdir` becomes the `Listing` of a directory (or `Unreadable` when it
 * rejects), `stat` becomes the `Kind` of an entry (or `StatFails` when it
 * rejects). The asynchronous fan-out joins its per-entry results with
 * `Promise.all(...).flat()`, which keeps listing order, so a sequential
 * left-to-right concatenation computes the same list.
 */
module FsSearch {
  import opened Wrappers
  import opened FsPaths

  /** A RegExp's `test` applied to a bare entry name. */
  type NameTest = string -> bool

  /** What `readdir` yields for a directory. */
  datatype Listing = Unreadable | Listed(entries: seq<Entry>)

  /** A directory entry: its bare name, and what `stat` reports for it. */
  datatype Entry = Entry(name: string, kind: Kind)

  /** Regular file, directory, anything else (socket, device, ...), or a `stat` that rejects. */
  datatype Kind = RegularFile | Directory(listing: Listing) | OtherKind | StatFails

  /** `ignorePatterns.some(p => p.test(name))` */
  predicate Ignored(ignorePatterns: seq<NameTest>, name: string) {
    exists i :: 0 <= i < |ignorePatterns| && ignorePatterns[i](name)
  }

  /** The depth bound: a path `n` components below the search root passes through `n - 1` directories. */
  predicate WithinDepth(n: nat, maxDepth: int) {
    maxDepth < 0 || n <= maxDepth + 1
  }

  /**
   * What every result of a search below `workPath` looks like: strictly below
   * it, within the depth bound, no component below `workPath` ignored, and a
   * last component that passes `pattern`.
   */
  predicate Plausible(pattern: NameTest, ignorePatterns: seq<NameTest>, workPath: Path, maxDepth: int, p: Path) {
    && IsBelow(workPath, p)
    && WithinDepth(|p.parts| - |workPath.parts|, maxDepth)
    && (forall k :: |workPath.parts| <= k < |p.parts| ==> !Ignored(ignorePatterns, p.parts[k]))
    && pattern(p.parts[|p.parts| - 1])
  }

  /** `search(pattern, {workPath, ignorePatterns, maxDepth})` on the directory `workPath` whose listing is `dir`. */
  function Search(pattern: NameTest, ignorePatterns: seq<NameTest>, workPath: Path, dir: Listing, maxDepth: int): (r: seq<Path>)
    ensures forall p :: p in r ==> Plausible(pattern, ignorePatterns, workPath, maxDepth, p)
    decreases dir, 2
  {
    match dir
    case Unreadable => []
    case Listed(entries) => SearchEntries(pattern, ignorePatterns, workPath, entries, maxDepth)
  }

  /** The flattened results of the per-entry callbacks, in listing order. */
  function SearchEntries(pattern: NameTest, ignorePatterns: seq<NameTest>, workPath: Path, entries: seq<Entry>, maxDepth: int): (r: seq<Path>)
    ensures forall p :: p in r ==> Plausible(pattern, ignorePatterns, workPath, maxDepth, p)
    decreases entries, 1
  {
    if entries == [] then []
    else Visit(pattern, ignorePatterns, workPath, entries[0], maxDepth)
         + SearchEntries(pattern, ignorePatterns, workPath, entries[1..], maxDepth)
  }

  /** The asynchronous callback run for one entry of `workPath`. */
  function Visit(pattern: NameTest, ignorePatterns: seq<NameTest>, workPath: Path, entry: Entry, maxDepth: int): (r: seq<Path>)
    ensures forall p :: p in r ==> Plausible(pattern, ignorePatterns, workPath, maxDepth, p)
    decreases entry, 0
  {
    if Ignored(ignorePatterns, entry.name) then []
    else
      var fullPath := Join(workPath, entry.name);
      match entry.kind
      case StatFails => []
      case Directory(listing) =>
        if maxDepth != 0 then
          var sub := Search(pattern, ignorePatterns, fullPath, listing, maxDepth - 1);
          assert forall p :: p in sub ==> Plausible(pattern, ignorePatterns, workPath, maxDepth, p) by {
            forall p | p in sub
              ensures Plausible(pattern, ignorePatterns, workPath, maxDepth, p)
            {
              assert p.parts[..|fullPath.parts|] == fullPath.parts;
              assert p.parts[..|workPath.parts|] == fullPath.parts[..|workPath.parts|];
              assert p.parts[|workPath.parts|] == entry.name;
            }
          }
          sub
        else []
      case RegularFile => if pattern(entry.name) then [fullPath] else []
      case OtherKind => []
  }

  /**
   * The declarative reading of the search: `rel` names, below a directory
   * whose listing is `dir`, a regular file that passes `pattern`, reached
   * through readable directories whose entries `stat` could describe, no
   * component of `rel` being ignored.
   */
  ghost predicate Found(pattern: NameTest, ignorePatterns: seq<NameTest>, dir: Listing, rel: seq<string>)
    decreases dir, 1
  {
    dir.Listed? && exists i :: 0 <= i < |dir.entries| && FoundAt(pattern, ignorePatterns, dir.entries[i], rel)
  }

  /** `rel` names, starting at `entry`, a file as `Found` describes. */
  ghost predicate FoundAt(pattern: NameTest, ignorePatterns: seq<NameTest>, entry: Entry, rel: seq<string>)
    decreases entry, 0
  {
    && |rel| > 0
    && rel[0] == entry.name
    && !Ignored(ignorePatterns, entry.name)
    && match entry.kind
       case RegularFile => |rel| == 1 && pattern(entry.name)
       case Directory(listing) => Found(pattern, ignorePatterns, listing, rel[1..])
       case _ => false
  }

  /** Soundness and completeness of the search with respect to `Found` and the depth bound. */
  lemma {:induction false} SearchExact(pattern: NameTest, ignorePatterns: seq<NameTest>, workPath: Path, dir: Listing, maxDepth: int, rel: seq<string>)
    ensures Extend(workPath, rel) in Search(pattern, ignorePatterns, workPath, dir, maxDepth)
        <==> Found(pattern, ignorePatterns, dir, rel) && WithinDepth(|rel|, maxDepth)
    decreases dir, 2
  {
    match dir
    case Unreadable =>
    case Listed(entries) => EntriesExact(pattern, ignorePatterns, workPath, entries, maxDepth, rel);
  }

  lemma {:induction false} EntriesExact(pattern: NameTest, ignorePatterns: seq<NameTest>, workPath: Path, entries: seq<Entry>, maxDepth: int, rel: seq<string>)
    ensures Extend(workPath, rel) in SearchEntries(pattern, ignorePatterns, workPath, entries, maxDepth)
        <==> (exists i :: 0 <= i < |entries| && FoundAt(pattern, ignorePatterns, entries[i], rel)) && WithinDepth(|rel|, maxDepth)
    decreases entries, 1
  {
    if entries != [] {
      VisitExact(pattern, ignorePatterns, workPath, entries[0], maxDepth, rel);
      EntriesExact(pattern, ignorePatterns, workPath, entries[1..], maxDepth, rel);
      if i :| 0 <= i < |entries| && FoundAt(pattern, ignorePatterns, entries[i], rel) {
        if i > 0 {
          assert entries[1..][i - 1] == entries[i];
        }
      }
      if i :| 0 <= i < |entries[1..]| && FoundAt(pattern, ignorePatterns, entries[1..][i], rel) {
        assert entries[i + 1] == entries[1..][i];
      }
    }
  }

  lemma {:induction false} VisitExact(pattern: NameTest, ignorePatterns: seq<NameTest>, workPath: Path, entry: Entry, maxDepth: int, rel: seq<string>)
    ensures Extend(workPath, rel) in Visit(pattern, ignorePatterns, workPath, entry, maxDepth)
        <==> FoundAt(pattern, ignorePatterns, entry, rel) && WithinDepth(|rel|, maxDepth)
    decreases entry, 0
  {
    var target := Extend(workPath, rel);
    var fullPath := Join(workPath, entry.name);
    if !Ignored(ignorePatterns, entry.name) {
      match entry.kind
      case Directory(listing) =>
        if |rel| > 0 && rel[0] == entry.name {
          assert target == Extend(fullPath, rel[1..]);
          if maxDepth != 0 {
            SearchExact(pattern, ignorePatterns, fullPath, listing, maxDepth - 1, rel[1..]);
          } else if Found(pattern, ignorePatterns, listing, rel[1..]) {
            FoundNonEmpty(pattern, ignorePatterns, listing, rel[1..]);
          }
        } else if maxDepth != 0 {
          var sub := Search(pattern, ignorePatterns, fullPath, listing, maxDepth - 1);
          forall p | p in sub
            ensures |p.parts| > |workPath.parts| && p.parts[|workPath.parts|] == entry.name
          {
            assert p.parts[..|fullPath.parts|] == fullPath.parts;
            assert p.parts[|workPath.parts|] == p.parts[..|fullPath.parts|][|workPath.parts|];
          }
          assert |rel| > 0 ==> target.parts[|workPath.parts|] == rel[0];
        }
      case RegularFile =>
        if target == fullPath {
          assert rel == target.parts[|workPath.parts|..] == [entry.name];
        }
      case OtherKind =>
      case StatFails =>
    }
  }

  /** Only a non-empty `rel` can be found. */
  lemma FoundNonEmpty(pattern: NameTest, ignorePatterns: seq<NameTest>, dir: Listing, rel: seq<string>)
    requires Found(pattern, ignorePatterns, dir, rel)
    ensures |rel| > 0
  {
  }

  /**
   * Soundness in the source's terms: each path the search returns is a
   * matching regular file below `workPath`, found as `Found` says, within
   * the depth bound.
   */
  lemma SearchSound(pattern: NameTest, ignorePatterns: seq<NameTest>, workPath: Path, dir: Listing, maxDepth: int, p: Path)
    requires p in Search(pattern, ignorePatterns, workPath, dir, maxDepth)
    ensures IsBelow(workPath, p)
    ensures Found(pattern, ignorePatterns, dir, RelativeParts(workPath, p))
    ensures WithinDepth(|RelativeParts(workPath, p)|, maxDepth)
  {
    SearchExact(pattern, ignorePatterns, workPath, dir, maxDepth, RelativeParts(workPath, p));
  }

  /** The depth bound, for a non-negative `maxDepth`: at most `maxDepth` directories between `workPath` and a result. */
  lemma SearchDepthBound(pattern: NameTest, ignorePatterns: seq<NameTest>, workPath: Path, dir: Listing, maxDepth: int, p: Path)
    requires maxDepth >= 0
    requires p in Search(pattern, ignorePatterns, workPath, dir, maxDepth)
    ensures |workPath.parts| < |p.parts| <= |workPath.parts| + maxDepth + 1
  {
  }

  /**
   * A negative `maxDepth` never reaches the `!== 0` stop, so nothing is
   * bounded: every found file is returned, however deep.
   */
  lemma NegativeDepthUnbounded(pattern: NameTest, ignorePatterns: seq<NameTest>, workPath: Path, dir: Listing, maxDepth: int, rel: seq<string>)
    requires maxDepth < 0
    requires Found(pattern, ignorePatterns, dir, rel)
    ensures Extend(workPath, rel) in Search(pattern, ignorePatterns, workPath, dir, maxDepth)
  {
    SearchExact(pattern, ignorePatterns, workPath, dir, maxDepth, rel);
  }

  /**
   * Exclusion: an entry whose name is ignored, file or directory, yields
   * nothing, and no result passes through it.
   */
  lemma IgnoredContributesNothing(pattern: NameTest, ignorePatterns: seq<NameTest>, workPath: Path, dir: Listing, maxDepth: int, p: Path, k: int)
    requires p in Search(pattern, ignorePatterns, workPath, dir, maxDepth)
    requires |workPath.parts| <= k < |p.parts|
    ensures !Ignored(ignorePatterns, p.parts[k])
  {
  }

  /** `Promise.all(...).flat()` over a listing split in two is the first part's results, then the second's. */
  lemma {:induction false} SearchEntriesAppend(pattern: NameTest, ignorePatterns: seq<NameTest>, workPath: Path, front: seq<Entry>, back: seq<Entry>, maxDepth: int)
    ensures SearchEntries(pattern, ignorePatterns, workPath, front + back, maxDepth)
         == SearchEntries(pattern, ignorePatterns, workPath, front, maxDepth)
          + SearchEntries(pattern, ignorePatterns, workPath, back, maxDepth)
  {
    if front != [] {
      assert (front + back)[0] == front[0];
      assert (front + back)[1..] == front[1..] + back;
      SearchEntriesAppend(pattern, ignorePatterns, workPath, front[1..], back, maxDepth);
    } else {
      assert front + back == back;
    }
  }

  /**
   * `t` is `s` with failures injected: entries whose `stat` now rejects, or
   * directories that can no longer be listed, the names otherwise unchanged.
   */
  ghost predicate Degraded(t: Listing, s: Listing)
    decreases s, 1
  {
    || t == Unreadable
    || (&& s.Listed? && t.Listed?
        && |t.entries| == |s.entries|
        && forall i :: 0 <= i < |s.entries| ==> DegradedEntry(t.entries[i], s.entries[i]))
  }

  ghost predicate DegradedEntry(t: Entry, s: Entry)
    decreases s, 0
  {
    && t.name == s.name
    && (|| t.kind == StatFails
        || t.kind == s.kind
        || (s.kind.Directory? && t.kind.Directory? && Degraded(t.kind.listing, s.kind.listing)))
  }

  lemma {:induction false} FoundDegraded(pattern: NameTest, ignorePatterns: seq<NameTest>, t: Listing, s: Listing, rel: seq<string>)
    requires Degraded(t, s) && Found(pattern, ignorePatterns, t, rel)
    ensures Found(pattern, ignorePatterns, s, rel)
    decreases s
  {
    var i :| 0 <= i < |t.entries| && FoundAt(pattern, ignorePatterns, t.entries[i], rel);
    var te, se := t.entries[i], s.entries[i];
    assert DegradedEntry(te, se);
    if te.kind != se.kind {
      FoundDegraded(pattern, ignorePatterns, te.kind.listing, se.kind.listing, rel[1..]);
    }
    assert FoundAt(pattern, ignorePatterns, se, rel);
  }

  /**
   * Fail-soft: unreadable directories and rejected `stat` calls only remove
   * results; they never add one, and the search never fails.
   */
  lemma SearchFailSoft(pattern: NameTest, ignorePatterns: seq<NameTest>, workPath: Path, t: Listing, s: Listing, maxDepth: int)
    requires Degraded(t, s)
    ensures forall p :: p in Search(pattern, ignorePatterns, workPath, t, maxDepth)
                    ==> p in Search(pattern, ignorePatterns, workPath, s, maxDepth)
  {
    forall p | p in Search(pattern, ignorePatterns, workPath, t, maxDepth)
      ensures p in Search(pattern, ignorePatterns, workPath, s, maxDepth)
    {
      var rel := RelativeParts(workPath, p);
      SearchExact(pattern, ignorePatterns, workPath, t, maxDepth, rel);
      FoundDegraded(pattern, ignorePatterns, t, s, rel);
      SearchExact(pattern, ignorePatterns, workPath, s, maxDepth, rel);
    }
  }

  /** `s` ends with `suffix`. */
  predicate EndsWith(s: string, suffix: string) {
    |suffix| <= |s| && s[|s| - |suffix|..] == suffix
  }

  /** `t` occurs in `s` starting at index `i`. */
  predicate OccursAt(s: string, t: string, i: nat) {
    i + |t| <= |s| && s[i..i + |t|] == t
  }

  /** `t` occurs somewhere in `s`: an unanchored RegExp made of plain characters. */
  predicate Contains(s: string, t: string) {
    exists i: nat :: i <= |s| && OccursAt(s, t, i)
  }

  /** `/(tauri\.conf\.(json|json5)|Tauri\.toml)$/` */
  predicate IsTauriConfName(name: string) {
    EndsWith(name, "tauri.conf.json") || EndsWith(name, "tauri.conf.json5") || EndsWith(name, "Tauri.toml")
  }

  /** The default `ignorePatterns`: `/node_modules/` and `/target/`. */
  const DEFAULT_IGNORE: seq<NameTest> := [name => Contains(name, "node_modules"), name => Contains(name, "target")]

  /** The default `maxDepth`. */
  const DEFAULT_MAX_DEPTH: int := 3

  /** `getTauriConfPath()`: the first path the default search from the working directory returns, if any. */
  function GetTauriConfPath(cwd: Path, fs: Listing): (r: Option<Path>)
    ensures r.Some? ==> r.value in Search(IsTauriConfName, DEFAULT_IGNORE, cwd, fs, DEFAULT_MAX_DEPTH)
  {
    var results := Search(IsTauriConfName, DEFAULT_IGNORE, cwd, fs, DEFAULT_MAX_DEPTH);
    if |results| == 0 then None else Some(results[0])
  }

  /**
   * `getTauriConfPath` is null exactly when no configuration file lies
   * within three directories of the working directory, outside ignored
   * names.
   */
  lemma TauriConfPathNone(cwd: Path, fs: Listing)
    ensures GetTauriConfPath(cwd, fs).None?
        <==> forall rel :: !(Found(IsTauriConfName, DEFAULT_IGNORE, fs, rel) && WithinDepth(|rel|, DEFAULT_MAX_DEPTH))
  {
    var results := Search(IsTauriConfName, DEFAULT_IGNORE, cwd, fs, DEFAULT_MAX_DEPTH);
    if |results| == 0 {
      forall rel ensures !(Found(IsTauriConfName, DEFAULT_IGNORE, fs, rel) && WithinDepth(|rel|, DEFAULT_MAX_DEPTH)) {
        SearchExact(IsTauriConfName, DEFAULT_IGNORE, cwd, fs, DEFAULT_MAX_DEPTH, rel);
      }
    } else {
      SearchSound(IsTauriConfName, DEFAULT_IGNORE, cwd, fs, DEFAULT_MAX_DEPTH, results[0]);
    }
  }

  /**
   * A path `getTauriConfPath` returns is a configuration file found below
   * the working directory, at most three directories down, the first such
   * in listing order.
   */
  lemma TauriConfPathFound(cwd: Path, fs: Listing)
    requires GetTauriConfPath(cwd, fs).Some?
    ensures var p := GetTauriConfPath(cwd, fs).value;
            && IsBelow(cwd, p)
            && |p.parts| <= |cwd.parts| + 4
            && IsTauriConfName(p.parts[|p.parts| - 1])
            && Found(IsTauriConfName, DEFAULT_IGNORE, fs, RelativeParts(cwd, p))
            && p == Search(IsTauriConfName, DEFAULT_IGNORE, cwd, fs, DEFAULT_MAX_DEPTH)[0]
  {
    SearchSound(IsTauriConfName, DEFAULT_IGNORE, cwd, fs, DEFAULT_MAX_DEPTH, GetTauriConfPath(cwd, fs).value);
  }
}
