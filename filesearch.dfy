/** The search for grading scripts: `findFilesRecursive` walks a directory tree and collects the
    Python files whose name starts with the part of a pattern before its first `*`, and the two
    `findTestFile` functions take the first of them. The file system is a tree of named entries
    listed in a fixed order, as one `readdirSync` call would return them. */
module FileSearch {
  import opened Wrappers
  import opened Text

  /** A directory entry. A directory whose listing cannot be read (`readdirSync` throws) has
      `readable == false`; an entry that is neither a plain file nor a directory (a symbolic
      link, a socket, ...) is `Special`. */
  datatype Node =
    | File(name: string)
    | Dir(name: string, readable: bool, children: seq<Node>)
    | Special(name: string)

  /** The directory names the search never enters. */
  const SkipDirs: seq<string> := ["node_modules", ".git", ".env", "dist", "build", ".next"]

  /** `pattern.split('*')[0]`. */
  function PrefixBeforeStar(pattern: string): string {
    Split(pattern, '*')[0]
  }

  /** The name test applied to a plain file. */
  predicate IsMatch(name: string, prefix: string) {
    StartsWith(name, prefix) && EndsWith(name, ".py")
  }

  /** What the search collects from `node`, the entry whose full path is `dir`: nothing when the
      last segment of `dir` names a skipped directory, nothing from an entry that is not a
      directory or a directory it cannot read, and otherwise what it collects from the listed
      entries, in listing order. */
  function Found(dir: string, node: Node, prefix: string): seq<string>
    decreases node, 0
  {
    if Basename(dir) in SkipDirs then []
    else if node.Dir? && node.readable then FoundIn(dir, node.children, prefix)
    else []
  }

  /** What the search collects from the entries of the directory whose full path is `dir`. */
  function FoundIn(dir: string, entries: seq<Node>, prefix: string): seq<string>
    decreases entries
  {
    if entries == [] then []
    else FoundIn(dir, entries[..|entries| - 1], prefix) + FoundAt(dir, entries[|entries| - 1], prefix)
  }

  /** What one entry of the directory `dir` contributes. */
  function FoundAt(dir: string, entry: Node, prefix: string): seq<string>
    decreases entry, 1
  {
    var fullPath := dir + "/" + entry.name;
    if entry.Dir? then Found(fullPath, entry, prefix)
    else if entry.File? && IsMatch(entry.name, prefix) then [fullPath]
    else []
  }

  /** `findFilesRecursive(dir, pattern)`, where `node` is the entry found at the path `dir`. */
  method FindFilesRecursive(dir: string, node: Node, pattern: string) returns (results: seq<string>)
    ensures results == Found(dir, node, PrefixBeforeStar(pattern))
    decreases node, 0
  {
    results := [];
    var prefix := PrefixBeforeStar(pattern);
    var dirName := Basename(dir);
    if dirName in SkipDirs {
      return;
    }
    if !(node.Dir? && node.readable) {
      // readdirSync throws; the error is caught and nothing is collected
      return;
    }
    var entries := node.children;
    var i := 0;
    while i < |entries|
      invariant 0 <= i <= |entries|
      invariant results == FoundIn(dir, entries[..i], prefix)
    {
      var entry := entries[i];
      var fullPath := dir + "/" + entry.name;
      if entry.Dir? {
        var sub := FindFilesRecursive(fullPath, entry, pattern);
        results := results + sub;
      } else if entry.File? && StartsWith(entry.name, prefix) && EndsWith(entry.name, ".py") {
        results := results + [fullPath];
      }
      assert entries[..i + 1][..i] == entries[..i];
      i := i + 1;
    }
    assert entries[..|entries|] == entries;
  }

  /** The last segment of a path. */
  function Basename(path: string): string {
    if path == [] || path[|path| - 1] == '/' then []
    else Basename(path[..|path| - 1]) + [path[|path| - 1]]
  }

  lemma {:induction false} BasenameOfJoin(dir: string, name: string)
    requires '/' !in name
    ensures Basename(dir + "/" + name) == name
  {
    if name == [] {
      assert dir + "/" + name == dir + "/";
    } else {
      var p := dir + "/" + name;
      assert p[..|p| - 1] == dir + "/" + name[..|name| - 1];
      BasenameOfJoin(dir, name[..|name| - 1]);
      assert name == name[..|name| - 1] + [name[|name| - 1]];
    }
  }

  /** Entry names never hold a path separator. */
  predicate PlainNames(node: Node)
    decreases node
  {
    '/' !in node.name && (node.Dir? ==> forall i :: 0 <= i < |node.children| ==> PlainNames(node.children[i]))
  }

  /** Every collected path has a base name that starts with the prefix and ends with `.py`. */
  lemma {:induction false} FoundMatches(dir: string, node: Node, prefix: string)
    requires PlainNames(node)
    ensures forall p :: p in Found(dir, node, prefix) ==> IsMatch(Basename(p), prefix)
    decreases node, 0
  {
    if Basename(dir) !in SkipDirs && node.Dir? && node.readable {
      FoundInMatches(dir, node.children, prefix);
    }
  }

  lemma {:induction false} FoundInMatches(dir: string, entries: seq<Node>, prefix: string)
    requires forall i :: 0 <= i < |entries| ==> PlainNames(entries[i])
    ensures forall p :: p in FoundIn(dir, entries, prefix) ==> IsMatch(Basename(p), prefix)
    decreases entries
  {
    if entries != [] {
      var e := entries[|entries| - 1];
      FoundInMatches(dir, entries[..|entries| - 1], prefix);
      FoundAtMatches(dir, e, prefix);
    }
  }

  lemma {:induction false} FoundAtMatches(dir: string, entry: Node, prefix: string)
    requires PlainNames(entry)
    ensures forall p :: p in FoundAt(dir, entry, prefix) ==> IsMatch(Basename(p), prefix)
    decreases entry, 1
  {
    var fullPath := dir + "/" + entry.name;
    if entry.Dir? {
      FoundMatches(fullPath, entry, prefix);
    } else if entry.File? && IsMatch(entry.name, prefix) {
      BasenameOfJoin(dir, entry.name);
    }
  }

  /** The same tree with the contents of every skipped directory removed. */
  function Prune(node: Node): (r: Node)
    ensures r.name == node.name && r.Dir? == node.Dir? && r.File? == node.File?
    ensures r.Dir? ==> r.readable == node.readable
    decreases node, 0
  {
    match node
    case Dir(name, readable, children) =>
      if name in SkipDirs then Dir(name, readable, []) else Dir(name, readable, PruneAll(children))
    case _ => node
  }

  function PruneAll(entries: seq<Node>): (r: seq<Node>)
    ensures |r| == |entries|
    decreases entries
  {
    if entries == [] then []
    else PruneAll(entries[..|entries| - 1]) + [Prune(entries[|entries| - 1])]
  }

  /** The search never looks inside a skipped directory: emptying every skipped directory
      leaves the result unchanged, for an entry named by the last segment of its path. */
  lemma {:induction false} FoundIgnoresSkipped(dir: string, node: Node, prefix: string)
    requires PlainNames(node) && Basename(dir) == node.name
    ensures Found(dir, Prune(node), prefix) == Found(dir, node, prefix)
    decreases node, 0
  {
    if Basename(dir) !in SkipDirs && node.Dir? && node.readable {
      FoundInIgnoresSkipped(dir, node.children, prefix);
    }
  }

  lemma {:induction false} FoundInIgnoresSkipped(dir: string, entries: seq<Node>, prefix: string)
    requires forall i :: 0 <= i < |entries| ==> PlainNames(entries[i])
    ensures FoundIn(dir, PruneAll(entries), prefix) == FoundIn(dir, entries, prefix)
    decreases entries
  {
    if entries != [] {
      var pruned := PruneAll(entries);
      var last := entries[|entries| - 1];
      assert pruned[..|pruned| - 1] == PruneAll(entries[..|entries| - 1]);
      assert pruned[|pruned| - 1] == Prune(last);
      FoundInIgnoresSkipped(dir, entries[..|entries| - 1], prefix);
      if last.Dir? {
        BasenameOfJoin(dir, last.name);
        FoundIgnoresSkipped(dir + "/" + last.name, last, prefix);
      }
    }
  }

  /** The entry reached from `node` by following the names in `names`, taking the first entry
      of each directory that carries the name; `None` when a name is missing (`ENOENT`) or an
      entry on the way is not a directory (`ENOTDIR`). Going through a directory does not list
      it, so a directory that cannot be listed can still be passed through. */
  function Resolve(node: Node, names: seq<string>): Option<Node>
    decreases names
  {
    if names == [] then Some(node)
    else if !node.Dir? then None
    else
      match FirstNamed(node.children, names[0])
      case None => None
      case Some(child) => Resolve(child, names[1..])
  }

  /** Passing through a directory does not depend on whether it can be listed. */
  lemma ResolveIgnoresListing(name: string, children: seq<Node>, names: seq<string>)
    requires names != []
    ensures Resolve(Dir(name, false, children), names) == Resolve(Dir(name, true, children), names)
  {
  }

  function FirstNamed(entries: seq<Node>, name: string): (r: Option<Node>)
    ensures r.Some? ==> r.value in entries && r.value.name == name
    ensures r.None? ==> forall i :: 0 <= i < |entries| ==> entries[i].name != name
  {
    if entries == [] then None
    else if entries[0].name == name then Some(entries[0])
    else FirstNamed(entries[1..], name)
  }

  /** The grading script search of the Q3T1 handler: the first `Q3T1-*.py` file under
      `<cwd>/src/tests`, or `None`. `root` is the directory at the path `cwd`. */
  method FindQ3T1TestFile(cwd: string, root: Node) returns (file: Option<string>)
    ensures file == FirstFound(cwd + "/src/tests", Resolve(root, ["src", "tests"]), "Q3T1-")
  {
    var testsDir := cwd + "/src/tests";
    var pattern := "Q3T1-*.py";
    assert pattern == "Q3T1-" + "*" + ".py";
    PrefixOfPattern("Q3T1-", ".py");
    var files: seq<string> := [];
    var target := Resolve(root, ["src", "tests"]);
    if target.Some? {
      files := FindFilesRecursive(testsDir, target.value, pattern);
    }
    if |files| > 0 {
      return Some(files[0]);
    }
    return None;
  }

  /** The first path collected under the entry at `dir`, if that entry exists. */
  function FirstFound(dir: string, node: Option<Node>, prefix: string): (r: Option<string>)
    ensures r.Some? <==> node.Some? && Found(dir, node.value, prefix) != []
    ensures r.Some? ==> r.value == Found(dir, node.value, prefix)[0]
  {
    if node.Some? && Found(dir, node.value, prefix) != [] then Some(Found(dir, node.value, prefix)[0]) else None
  }

  /** For a pattern `<head>*<tail>` whose head holds no `*`, the prefix is `<head>`. */
  lemma PrefixOfPattern(head: string, tail: string)
    requires '*' !in head
    ensures PrefixBeforeStar(head + "*" + tail) == head
  {
    SplitAtFirst(head, '*', tail);
  }

  /** `findTestFile(quest, task)` of the comment router: the first `<quest><task>-*.py` file under
      the working directory, made absolute when it does not already start with `cwd`. */
  method FindTestFileFor(cwd: string, root: Node, quest: string, task: string) returns (file: Option<string>)
    ensures file == TestFileFor(cwd, root, quest, task)
  {
    var pattern := quest + task + "-*.py";
    var files := FindFilesRecursive(cwd, root, pattern);
    if |files| > 0 {
      if StartsWith(files[0], cwd) {
        return Some(files[0]);
      } else {
        return Some(cwd + "/" + files[0]);
      }
    }
    return None;
  }

  /** The router's test file for a quest and task: the first `<quest><task>-*.py` path collected
      from the working directory, made absolute when it does not start with `cwd`. It is the
      first collected path itself, since every collected path already starts with `cwd`. */
  function TestFileFor(cwd: string, root: Node, quest: string, task: string): (r: Option<string>)
    ensures r.Some? <==> Found(cwd, root, PrefixBeforeStar(quest + task + "-*.py")) != []
    ensures r.Some? ==> r.value == Found(cwd, root, PrefixBeforeStar(quest + task + "-*.py"))[0]
  {
    var files := Found(cwd, root, PrefixBeforeStar(quest + task + "-*.py"));
    if files == [] then None
    else
      FirstFoundIsUnderCwd(cwd, root, PrefixBeforeStar(quest + task + "-*.py"));
      Some(UnderCwd(cwd, files[0]))
  }

  /** `p.startsWith(cwd) ? p : path.join(cwd, p)`. */
  function UnderCwd(cwd: string, p: string): string {
    if StartsWith(p, cwd) then p else cwd + "/" + p
  }

  /** The router's test file is the first collected path itself: collected paths already
      start with `cwd`, so the join is never applied. */
  lemma FirstFoundIsUnderCwd(cwd: string, root: Node, prefix: string)
    requires Found(cwd, root, prefix) != []
    ensures UnderCwd(cwd, Found(cwd, root, prefix)[0]) == Found(cwd, root, prefix)[0]
  {
    var f := Found(cwd, root, prefix)[0];
    FoundUnder(cwd, root, prefix);
    assert f in Found(cwd, root, prefix);
    assert f[..|cwd|] == (cwd + "/")[..|cwd|];
  }

  /** Every collected path lies under the directory the search began in, so the router's
      fallback that joins `cwd` in front of a result is never taken. */
  lemma {:induction false} FoundUnder(dir: string, node: Node, prefix: string)
    ensures forall p :: p in Found(dir, node, prefix) ==> StartsWith(p, dir + "/")
    decreases node, 0
  {
    if Basename(dir) !in SkipDirs && node.Dir? && node.readable {
      FoundInUnder(dir, node.children, prefix);
    }
  }

  lemma {:induction false} FoundInUnder(dir: string, entries: seq<Node>, prefix: string)
    ensures forall p :: p in FoundIn(dir, entries, prefix) ==> StartsWith(p, dir + "/")
    decreases entries
  {
    if entries != [] {
      var e := entries[|entries| - 1];
      FoundInUnder(dir, entries[..|entries| - 1], prefix);
      var fullPath := dir + "/" + e.name;
      if e.Dir? {
        FoundUnder(fullPath, e, prefix);
        forall p | p in Found(fullPath, e, prefix)
          ensures StartsWith(p, dir + "/")
        {
          assert p[..|dir + "/"|] == (fullPath + "/")[..|dir + "/"|];
        }
      } else {
        assert fullPath[..|dir + "/"|] == dir + "/";
      }
    }
  }
}
