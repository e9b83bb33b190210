/**
 * Paths as the plugin builds them with node:path `join`, and the POSIX
 * `dirname` it applies to the configuration path in its build hook.
 */
module FsPaths {

  /** A directory path and the entry names appended below it, one `join` per name. */
  datatype Path = Path(root: string, parts: seq<string>)

  /** `join(p, name)`: one more component below `p`. */
  function Join(p: Path, name: string): Path {
    Path(p.root, p.parts + [name])
  }

  /** The path `rel` names below `base`. */
  function Extend(base: Path, rel: seq<string>): Path {
    Path(base.root, base.parts + rel)
  }

  /** `p` lies strictly below `base`: same root, and `base`'s components are a proper prefix of `p`'s. */
  predicate IsBelow(base: Path, p: Path) {
    && p.root == base.root
    && |base.parts| < |p.parts|
    && p.parts[..|base.parts|] == base.parts
  }

  /** The components of `p` below `base`. */
  function RelativeParts(base: Path, p: Path): (rel: seq<string>)
    requires IsBelow(base, p)
    ensures |rel| > 0 && Extend(base, rel) == p
  {
    p.parts[|base.parts|..]
  }

  /** The text node:path `join` gives for a directory string and a plain entry name. */
  function JoinText(dir: string, name: string): string {
    if dir == "" then name
    else if dir[|dir| - 1] == '/' then dir + name
    else dir + "/" + name
  }

  /** The string form of a path: the root, then each component joined below it in turn. */
  function Render(p: Path): (s: string)
    ensures p.root != "" ==> |s| > 0 && s[0] == p.root[0]
    decreases |p.parts|
  {
    if p.parts == [] then p.root
    else JoinText(Render(Path(p.root, p.parts[..|p.parts| - 1])), p.parts[|p.parts| - 1])
  }

  /** The directory that holds `p`. */
  function Parent(p: Path): Path
    requires p.parts != []
  {
    Path(p.root, p.parts[..|p.parts| - 1])
  }

  /**
   * node:path's POSIX `dirname` scans from the last character down to index 1
   * for the first '/' that follows a non-'/' character; this is that scan,
   * from index `i` down, `afterSlash` telling whether only '/' has been seen.
   */
  function DirEnd(s: string, i: int, afterSlash: bool): (end: int)
    requires i < |s|
    ensures end == -1 || 1 <= end <= i
    decreases i
  {
    if i < 1 then -1
    else if s[i] == '/' then (if !afterSlash then i else DirEnd(s, i - 1, true))
    else DirEnd(s, i - 1, false)
  }

  /** node:path's POSIX `dirname`. */
  function Dirname(s: string): string {
    if s == "" then "."
    else
      var end := DirEnd(s, |s| - 1, true);
      if end == -1 then (if s[0] == '/' then "/" else ".")
      else if s[0] == '/' && end == 1 then "//"
      else s[..end]
  }

  /** A directory string with no trailing '/', unless it is the file-system root itself. */
  predicate PlainDir(dir: string) {
    dir == "/" || (dir != "" && dir[|dir| - 1] != '/')
  }

  /** A name `readdir` can return: non-empty and free of '/'. */
  predicate PlainName(name: string) {
    name != "" && forall k :: 0 <= k < |name| ==> name[k] != '/'
  }

  /** The scan of `DirEnd` passes over the characters of a plain name and stops at the '/' before it. */
  lemma {:induction false} DirEndOverName(s: string, sep: nat, i: int, afterSlash: bool)
    requires 1 <= sep <= i < |s| && s[sep] == '/'
    requires forall k :: sep < k < |s| ==> s[k] != '/'
    requires i == sep ==> !afterSlash
    ensures DirEnd(s, i, afterSlash) == sep
    decreases i
  {
    if i > sep {
      DirEndOverName(s, sep, i - 1, false);
    }
  }

  /** `dirname(join(dir, name)) == dir` for a plain directory string and a plain name. */
  lemma DirnameOfJoin(dir: string, name: string)
    requires PlainDir(dir) && PlainName(name)
    ensures Dirname(JoinText(dir, name)) == dir
  {
    var s := JoinText(dir, name);
    if dir == "/" {
      assert s == "/" + name;
      assert DirEnd(s, |s| - 1, true) == -1 by {
        DirEndNoSlash(s, |s| - 1, true);
      }
    } else {
      assert s == dir + "/" + name;
      assert s[|dir|] == '/';
      assert forall k :: |dir| < k < |s| ==> s[k] == name[k - |dir| - 1];
      if |dir| == 1 {
        assert s[0] != '/';
      }
      DirEndOverName(s, |dir|, |s| - 1, true);
      assert s[..|dir|] == dir;
    }
  }

  /** With no '/' at indices 1..i, the scan finds nothing. */
  lemma {:induction false} DirEndNoSlash(s: string, i: int, afterSlash: bool)
    requires i < |s|
    requires forall k :: 1 <= k <= i ==> s[k] != '/'
    ensures DirEnd(s, i, afterSlash) == -1
    decreases i
  {
    if i >= 1 {
      DirEndNoSlash(s, i - 1, false);
    }
  }

  /** Every component of `p` is a plain name and its root a plain directory. */
  predicate PlainPath(p: Path) {
    PlainDir(p.root) && forall k :: 0 <= k < |p.parts| ==> PlainName(p.parts[k])
  }

  /** The rendering of a plain path is a plain directory string. */
  lemma RenderPlain(p: Path)
    requires PlainPath(p)
    ensures PlainDir(Render(p))
  {
  }

  /** `dirname` of a rendered plain path is the rendered directory that holds it. */
  lemma DirnameIsParent(p: Path)
    requires PlainPath(p) && p.parts != []
    ensures Dirname(Render(p)) == Render(Parent(p))
  {
    RenderPlain(Parent(p));
    DirnameOfJoin(Render(Parent(p)), p.parts[|p.parts| - 1]);
  }
}
