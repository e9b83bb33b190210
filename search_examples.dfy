/** Concrete trees on which the configuration search is evaluated. */
module SearchExamples {
  import opened Wrappers
  import opened FsPaths
  import opened FsSearch

  /** A name lacking some character of `t` cannot contain `t`. */
  lemma NotContainsByChar(s: string, t: string, c: char)
    requires c in t && c !in s
    ensures !Contains(s, t)
  {
  }

  /** The configuration file name is not ignored by default. */
  lemma ConfNameNotIgnored()
    ensures !Ignored(DEFAULT_IGNORE, "tauri.conf.json")
  {
    NotContainsByChar("tauri.conf.json", "node_modules", 'd');
    NotContainsByChar("tauri.conf.json", "target", 'g');
  }

  /** A one-letter directory name is not ignored by default. */
  lemma ShortNameNotIgnored(name: string)
    requires |name| == 1
    ensures !Ignored(DEFAULT_IGNORE, name)
  {
  }

  const CONF := Entry("tauri.conf.json", RegularFile)

  function Dir(name: string, entries: seq<Entry>): Entry {
    Entry(name, Directory(Listed(entries)))
  }

  /** `a/b/c/tauri.conf.json` lies three directories below the working directory. */
  lemma DepthExample(cwd: Path)
    ensures var fs := Listed([Dir("a", [Dir("b", [Dir("c", [CONF])])])]);
            && Search(IsTauriConfName, DEFAULT_IGNORE, cwd, fs, 3) == [Extend(cwd, ["a", "b", "c", "tauri.conf.json"])]
            && Search(IsTauriConfName, DEFAULT_IGNORE, cwd, fs, 2) == []
  {
    var P, I := IsTauriConfName, DEFAULT_IGNORE;
    ConfNameNotIgnored();
    ShortNameNotIgnored("a");
    ShortNameNotIgnored("b");
    ShortNameNotIgnored("c");
    var pa := Join(cwd, "a");
    var pb := Join(pa, "b");
    var pc := Join(pb, "c");
    var found := Join(pc, "tauri.conf.json");
    assert found == Extend(cwd, ["a", "b", "c", "tauri.conf.json"]);
    // depth 3: c is reached with depth 0 left and its file is kept
    assert Search(P, I, pc, Listed([CONF]), 0) == [found] by {
      assert SearchEntries(P, I, pc, [CONF], 0) == Visit(P, I, pc, CONF, 0) + SearchEntries(P, I, pc, [], 0);
    }
    assert Search(P, I, pb, Listed([Dir("c", [CONF])]), 1) == [found] by {
      assert SearchEntries(P, I, pb, [Dir("c", [CONF])], 1) == Visit(P, I, pb, Dir("c", [CONF]), 1) + SearchEntries(P, I, pb, [], 1);
    }
    assert Search(P, I, pa, Listed([Dir("b", [Dir("c", [CONF])])]), 2) == [found] by {
      assert SearchEntries(P, I, pa, [Dir("b", [Dir("c", [CONF])])], 2)
          == Visit(P, I, pa, Dir("b", [Dir("c", [CONF])]), 2) + SearchEntries(P, I, pa, [], 2);
    }
    assert SearchEntries(P, I, cwd, [Dir("a", [Dir("b", [Dir("c", [CONF])])])], 3)
        == Visit(P, I, cwd, Dir("a", [Dir("b", [Dir("c", [CONF])])]), 3) + SearchEntries(P, I, cwd, [], 3);
    // depth 2: c is reached with depth 0 left and is not descended
    assert Search(P, I, pb, Listed([Dir("c", [CONF])]), 0) == [] by {
      assert SearchEntries(P, I, pb, [Dir("c", [CONF])], 0) == Visit(P, I, pb, Dir("c", [CONF]), 0) + SearchEntries(P, I, pb, [], 0);
    }
    assert Search(P, I, pa, Listed([Dir("b", [Dir("c", [CONF])])]), 1) == [] by {
      assert SearchEntries(P, I, pa, [Dir("b", [Dir("c", [CONF])])], 1)
          == Visit(P, I, pa, Dir("b", [Dir("c", [CONF])]), 1) + SearchEntries(P, I, pa, [], 1);
    }
    assert SearchEntries(P, I, cwd, [Dir("a", [Dir("b", [Dir("c", [CONF])])])], 2)
        == Visit(P, I, cwd, Dir("a", [Dir("b", [Dir("c", [CONF])])]), 2) + SearchEntries(P, I, cwd, [], 2);
  }

  /** Nothing under `node_modules` is found, and an ignored name is skipped even for a regular file. */
  lemma IgnoreExample(cwd: Path)
    ensures Search(IsTauriConfName, DEFAULT_IGNORE, cwd, Listed([Dir("node_modules", [CONF])]), 3) == []
    ensures Search(IsTauriConfName, DEFAULT_IGNORE, cwd, Listed([Entry("target.tauri.conf.json", RegularFile)]), 3) == []
  {
    var P, I := IsTauriConfName, DEFAULT_IGNORE;
    assert OccursAt("node_modules", "node_modules", 0);
    assert Ignored(I, "node_modules") by { assert I[0]("node_modules"); }
    assert SearchEntries(P, I, cwd, [Dir("node_modules", [CONF])], 3)
        == Visit(P, I, cwd, Dir("node_modules", [CONF]), 3) + SearchEntries(P, I, cwd, [], 3);
    assert OccursAt("target.tauri.conf.json", "target", 0);
    assert Ignored(I, "target.tauri.conf.json") by { assert I[1]("target.tauri.conf.json"); }
    assert SearchEntries(P, I, cwd, [Entry("target.tauri.conf.json", RegularFile)], 3)
        == Visit(P, I, cwd, Entry("target.tauri.conf.json", RegularFile), 3) + SearchEntries(P, I, cwd, [], 3);
  }

  /**
   * The first result follows listing order, not depth: a nested
   * configuration file listed first wins over one directly in the
   * working directory.
   */
  lemma ListingOrderExample(cwd: Path)
    ensures GetTauriConfPath(cwd, Listed([Dir("a", [CONF]), CONF])) == Some(Extend(cwd, ["a", "tauri.conf.json"]))
  {
    var P, I := IsTauriConfName, DEFAULT_IGNORE;
    ConfNameNotIgnored();
    ShortNameNotIgnored("a");
    var pa := Join(cwd, "a");
    assert Search(P, I, pa, Listed([CONF]), 2) == [Join(pa, "tauri.conf.json")] by {
      assert SearchEntries(P, I, pa, [CONF], 2) == Visit(P, I, pa, CONF, 2) + SearchEntries(P, I, pa, [], 2);
    }
    var es := [Dir("a", [CONF]), CONF];
    assert SearchEntries(P, I, cwd, es, 3)
        == Visit(P, I, cwd, es[0], 3) + SearchEntries(P, I, cwd, es[1..], 3);
    assert Join(pa, "tauri.conf.json") == Extend(cwd, ["a", "tauri.conf.json"]);
  }
}
