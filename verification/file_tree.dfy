/** The folder tree of the generated files: `buildFileTree` of
    export/file-tree.ts (insertion order, under a synthetic root folder) and
    the variant of the example viewer (no root, folders first, then names in
    the order of a comparator). */
module FileTree {
  import opened Text
  import opened Project

  /** `FileTreeNode`: a file leaf carries the full path of its file. */
  datatype Node = File(name: string, filePath: string) | Folder(name: string, children: seq<Node>)

  const ROOT_NAME := "project-framework"

  predicate IsFolderNamed(n: Node, name: string) {
    n.Folder? && n.name == name
  }

  /** `children.find((c) => c.name === part && c.type === "folder")`, as an
      index: `|nodes|` when there is no such folder. */
  function FindFolder(nodes: seq<Node>, name: string): (k: nat)
    ensures k <= |nodes|
    ensures k < |nodes| ==> IsFolderNamed(nodes[k], name)
    ensures forall i | 0 <= i < k :: !IsFolderNamed(nodes[i], name)
  {
    if nodes == [] then 0
    else if IsFolderNamed(nodes[0], name) then 0
    else 1 + FindFolder(nodes[1..], name)
  }

  /** Node `a` holds the place of node `b`: same name and kind, and a file
      is left as it was. */
  predicate SameSlot(a: Node, b: Node) {
    a.name == b.name && a.Folder? == b.Folder? && (b.File? ==> a == b)
  }

  /** `r` keeps every node of `nodes` in its place and may add more after. */
  predicate Extends(r: seq<Node>, nodes: seq<Node>) {
    |r| >= |nodes| && forall i | 0 <= i < |nodes| :: SameSlot(r[i], nodes[i])
  }

  /** One file placed below `nodes` along the path segments `parts`: the
      last segment becomes a file leaf appended at its level; every other
      segment reuses the first folder of that name or appends a new one. */
  function Insert(nodes: seq<Node>, parts: seq<string>, path: string): (r: seq<Node>)
    requires |parts| >= 1
    ensures Extends(r, nodes)
    ensures |parts| == 1 ==> r == nodes + [File(parts[0], path)]
    ensures |parts| > 1 ==>
      (|r| == |nodes| <==> FindFolder(nodes, parts[0]) < |nodes|)
    ensures |r| == |nodes| + 1 ==> r[|nodes|].name == parts[0]
    ensures |r| == |nodes| || |r| == |nodes| + 1
    decreases |parts|
  {
    if |parts| == 1 then nodes + [File(parts[0], path)]
    else
      var k := FindFolder(nodes, parts[0]);
      if k < |nodes| then nodes[k := Folder(parts[0], Insert(nodes[k].children, parts[1..], path))]
      else nodes + [Folder(parts[0], Insert([], parts[1..], path))]
  }

  /** The outer loop: the files placed one after another, in list order. */
  function AddFiles(nodes: seq<Node>, files: seq<GeneratedFile>): seq<Node>
    decreases |files|
  {
    if files == [] then nodes
    else AddFiles(Insert(nodes, Split(files[0].path, '/'), files[0].path), files[1..])
  }

  /** Placing files never moves or drops a node already there. */
  lemma {:induction false} AddFilesExtends(nodes: seq<Node>, files: seq<GeneratedFile>)
    ensures Extends(AddFiles(nodes, files), nodes)
    decreases |files|
  {
    if files != [] {
      var next := Insert(nodes, Split(files[0].path, '/'), files[0].path);
      AddFilesExtends(next, files[1..]);
      ExtendsTrans(AddFiles(next, files[1..]), next, nodes);
    }
  }

  lemma ExtendsTrans(a: seq<Node>, b: seq<Node>, c: seq<Node>)
    requires Extends(a, b) && Extends(b, c)
    ensures Extends(a, c)
  {
  }

  function Paths(files: seq<GeneratedFile>): (r: seq<string>)
    ensures |r| == |files| && forall i | 0 <= i < |files| :: r[i] == files[i].path
  {
    seq(|files|, i requires 0 <= i < |files| => files[i].path)
  }

  // ---------------------------------------------------------------------
  // What a tree holds.

  /** The paths carried by the file leaves, at any depth. */
  function LeafPaths(nodes: seq<Node>): multiset<string>
    decreases nodes
  {
    if nodes == [] then multiset{}
    else
      (if nodes[0].File? then multiset{nodes[0].filePath} else LeafPaths(nodes[0].children))
      + LeafPaths(nodes[1..])
  }

  lemma {:induction false} LeafPathsAppend(a: seq<Node>, b: seq<Node>)
    ensures LeafPaths(a + b) == LeafPaths(a) + LeafPaths(b)
  {
    if a == [] {
      assert a + b == b;
    } else {
      assert (a + b)[0] == a[0] && (a + b)[1..] == a[1..] + b;
      LeafPathsAppend(a[1..], b);
    }
  }

  /** A folder whose leaves gained `path`, put in place of folder `k`. */
  lemma ReplacedFolderLeaves(nodes: seq<Node>, k: nat, n: Node, path: string)
    requires k < |nodes| && nodes[k].Folder? && n.Folder?
    requires LeafPaths(n.children) == LeafPaths(nodes[k].children) + multiset{path}
    ensures LeafPaths(nodes[k := n]) == LeafPaths(nodes) + multiset{path}
  {
    LeafPathsUpdate(nodes, k, n);
    OneNode(nodes[k]);
    OneNode(n);
  }

  /** A new folder appended at the end brings its leaves. */
  lemma AppendedFolderLeaves(nodes: seq<Node>, n: Node)
    requires n.Folder?
    ensures LeafPaths(nodes + [n]) == LeafPaths(nodes) + LeafPaths(n.children)
  {
    LeafPathsAppend(nodes, [n]);
    OneNode(n);
  }

  lemma LeafPathsUpdate(nodes: seq<Node>, k: nat, n: Node)
    requires k < |nodes|
    ensures LeafPaths(nodes) == LeafPaths(nodes[..k]) + LeafPaths([nodes[k]]) + LeafPaths(nodes[k + 1..])
    ensures LeafPaths(nodes[k := n]) == LeafPaths(nodes[..k]) + LeafPaths([n]) + LeafPaths(nodes[k + 1..])
  {
    assert nodes == nodes[..k] + ([nodes[k]] + nodes[k + 1..]);
    assert nodes[k := n] == nodes[..k] + ([n] + nodes[k + 1..]);
    LeafPathsAppend(nodes[..k], [nodes[k]] + nodes[k + 1..]);
    LeafPathsAppend([nodes[k]], nodes[k + 1..]);
    LeafPathsAppend(nodes[..k], [n] + nodes[k + 1..]);
    LeafPathsAppend([n], nodes[k + 1..]);
  }

  /** No two folders of one level share a name, at any depth. */
  predicate UniqueFolders(nodes: seq<Node>)
    decreases nodes
  {
    && (forall i, j | 0 <= i < j < |nodes| :: nodes[i].Folder? && nodes[j].Folder? ==> nodes[i].name != nodes[j].name)
    && (forall i | 0 <= i < |nodes| :: nodes[i].Folder? ==> UniqueFolders(nodes[i].children))
  }

  /** Every file leaf sits where its path says: the names of the folders
      above it (below `prefix`) followed by its own name are the `/`
      segments of its path. */
  predicate WellPlaced(nodes: seq<Node>, prefix: seq<string>)
    decreases nodes
  {
    forall i | 0 <= i < |nodes| ::
      if nodes[i].File? then Split(nodes[i].filePath, '/') == prefix + [nodes[i].name]
      else WellPlaced(nodes[i].children, prefix + [nodes[i].name])
  }

  // ---------------------------------------------------------------------
  // What one insertion does.

  /** One insertion adds exactly one leaf, with the file's path. */
  lemma {:induction false} InsertAddsLeaf(nodes: seq<Node>, parts: seq<string>, path: string)
    requires |parts| >= 1
    ensures LeafPaths(Insert(nodes, parts, path)) == LeafPaths(nodes) + multiset{path}
    decreases |parts|
  {
    if |parts| == 1 {
      LeafPathsAppend(nodes, [File(parts[0], path)]);
    } else {
      var k := FindFolder(nodes, parts[0]);
      if k < |nodes| {
        var sub := Insert(nodes[k].children, parts[1..], path);
        assert Insert(nodes, parts, path) == nodes[k := Folder(parts[0], sub)];
        InsertAddsLeaf(nodes[k].children, parts[1..], path);
        ReplacedFolderLeaves(nodes, k, Folder(parts[0], sub), path);
      } else {
        var sub := Insert([], parts[1..], path);
        InsertAddsLeaf([], parts[1..], path);
        AppendedFolderLeaves(nodes, Folder(parts[0], sub));
      }
    }
  }

  /** An insertion reuses folders, so it never creates a second folder of
      one name on a level. */
  lemma {:induction false} InsertKeepsUnique(nodes: seq<Node>, parts: seq<string>, path: string)
    requires |parts| >= 1 && UniqueFolders(nodes)
    ensures UniqueFolders(Insert(nodes, parts, path))
    decreases |parts|
  {
    var r := Insert(nodes, parts, path);
    if |parts| > 1 {
      var k := FindFolder(nodes, parts[0]);
      if k < |nodes| {
        InsertKeepsUnique(nodes[k].children, parts[1..], path);
        assert forall i | 0 <= i < |r| && i != k :: r[i] == nodes[i];
      } else {
        InsertKeepsUnique([], parts[1..], path);
        assert forall i | 0 <= i < |nodes| :: r[i] == nodes[i];
      }
    }
  }

  /** An insertion puts the leaf where its path says. */
  lemma {:induction false} InsertWellPlaced(nodes: seq<Node>, prefix: seq<string>, parts: seq<string>, path: string)
    requires |parts| >= 1 && WellPlaced(nodes, prefix) && Split(path, '/') == prefix + parts
    ensures WellPlaced(Insert(nodes, parts, path), prefix)
    decreases |parts|
  {
    var r := Insert(nodes, parts, path);
    if |parts| > 1 {
      assert prefix + parts == (prefix + [parts[0]]) + parts[1..];
      var k := FindFolder(nodes, parts[0]);
      if k < |nodes| {
        InsertWellPlaced(nodes[k].children, prefix + [parts[0]], parts[1..], path);
        assert forall i | 0 <= i < |r| && i != k :: r[i] == nodes[i];
      } else {
        InsertWellPlaced([], prefix + [parts[0]], parts[1..], path);
        assert forall i | 0 <= i < |nodes| :: r[i] == nodes[i];
      }
    }
  }

  /** The three facts, for a whole list of files. */
  lemma AddFilesFacts(nodes: seq<Node>, files: seq<GeneratedFile>)
    requires UniqueFolders(nodes) && WellPlaced(nodes, [])
    ensures var r := AddFiles(nodes, files);
      && LeafPaths(r) == LeafPaths(nodes) + multiset(Paths(files))
      && UniqueFolders(r) && WellPlaced(r, [])
  {
    AddFilesLeaves(nodes, files);
    AddFilesShape(nodes, files);
  }

  /** Every file adds one leaf carrying its path. */
  lemma {:induction false} AddFilesLeaves(nodes: seq<Node>, files: seq<GeneratedFile>)
    ensures LeafPaths(AddFiles(nodes, files)) == LeafPaths(nodes) + multiset(Paths(files))
    decreases |files|
  {
    if files != [] {
      var parts := Split(files[0].path, '/');
      var next := Insert(nodes, parts, files[0].path);
      InsertAddsLeaf(nodes, parts, files[0].path);
      AddFilesLeaves(next, files[1..]);
      PathsCons(files);
    }
  }

  lemma PathsCons(files: seq<GeneratedFile>)
    requires files != []
    ensures multiset(Paths(files)) == multiset{files[0].path} + multiset(Paths(files[1..]))
  {
    assert Paths(files) == [files[0].path] + Paths(files[1..]);
  }

  /** Folder names stay unique per level and leaves stay under their
      folders. */
  lemma {:induction false} AddFilesShape(nodes: seq<Node>, files: seq<GeneratedFile>)
    requires UniqueFolders(nodes) && WellPlaced(nodes, [])
    ensures UniqueFolders(AddFiles(nodes, files)) && WellPlaced(AddFiles(nodes, files), [])
    decreases |files|
  {
    if files != [] {
      var parts := Split(files[0].path, '/');
      var next := Insert(nodes, parts, files[0].path);
      InsertKeepsUnique(nodes, parts, files[0].path);
      assert [] + parts == parts;
      InsertWellPlaced(nodes, [], parts, files[0].path);
      AddFilesShape(next, files[1..]);
    }
  }

  /** `buildFileTree` of export/file-tree.ts: a root folder named
      "project-framework" whose leaves are exactly the files' paths (one
      leaf per file, duplicates included), with no two folders of one name
      on a level and every leaf below the folders its path names. */
  function BuildFileTree(files: seq<GeneratedFile>): (r: Node)
    ensures r.Folder? && r.name == ROOT_NAME
    ensures LeafPaths(r.children) == multiset(Paths(files))
    ensures UniqueFolders(r.children) && WellPlaced(r.children, [])
  {
    AddFilesFacts([], files);
    Folder(ROOT_NAME, AddFiles([], files))
  }

  /** The same construction as the source writes it, a loop over the files. */
  method BuildFileTreeLoop(files: seq<GeneratedFile>) returns (r: Node)
    ensures r == BuildFileTree(files)
  {
    var children: seq<Node> := [];
    var i := 0;
    while i < |files|
      invariant 0 <= i <= |files|
      invariant AddFiles(children, files[i..]) == AddFiles([], files)
    {
      assert files[i..][1..] == files[i + 1..];
      children := Insert(children, Split(files[i].path, '/'), files[i].path);
      i := i + 1;
    }
    r := Folder(ROOT_NAME, children);
  }

  /** Nothing is sorted: the top-level nodes after some files keep their
      places when more files follow, in first-insertion order. */
  lemma InsertionOrder(files: seq<GeneratedFile>, more: seq<GeneratedFile>)
    ensures Extends(BuildFileTree(files + more).children, BuildFileTree(files).children)
  {
    AddFilesSplit([], files, more);
    AddFilesExtends(AddFiles([], files), more);
  }

  lemma {:induction false} AddFilesSplit(nodes: seq<Node>, a: seq<GeneratedFile>, b: seq<GeneratedFile>)
    ensures AddFiles(nodes, a + b) == AddFiles(AddFiles(nodes, a), b)
    decreases |a|
  {
    if a == [] {
      assert a + b == b;
    } else {
      assert (a + b)[0] == a[0] && (a + b)[1..] == a[1..] + b;
      AddFilesSplit(Insert(nodes, Split(a[0].path, '/'), a[0].path), a[1..], b);
    }
  }

  /** Only folders are shared: two files with the same path give two leaves. */
  lemma DuplicatePathsTwoLeaves(f: GeneratedFile)
    ensures LeafPaths(BuildFileTree([f, f]).children)[f.path] == 2
  {
    assert Paths([f, f]) == [f.path, f.path];
  }

  // ---------------------------------------------------------------------
  // The example viewer's variant.

  /** `localeCompare` is abstracted as `leq(a, b)`, "a.localeCompare(b) <= 0". */
  ghost predicate Total(leq: (string, string) -> bool) {
    forall a, b :: leq(a, b) || leq(b, a)
  }

  ghost predicate Transitive(leq: (string, string) -> bool) {
    forall a, b, c :: leq(a, b) && leq(b, c) ==> leq(a, c)
  }

  /** The comparator of `sortNodes`, as "`a` may come first": a folder
      before a file, and names by `leq` within one kind. */
  predicate NodeBefore(a: Node, b: Node, leq: (string, string) -> bool) {
    if a.Folder? != b.Folder? then a.Folder? else leq(a.name, b.name)
  }

  /** A stable insertion of `x` in front of the sorted `ys`: before the
      first node it may precede, so after every node it must follow. */
  function InsertNode(x: Node, ys: seq<Node>, leq: (string, string) -> bool): (r: seq<Node>)
    ensures |r| == |ys| + 1 && multiset(r) == multiset(ys) + multiset{x}
    ensures r[0] == x || (|ys| > 0 && r[0] == ys[0])
  {
    if ys == [] || NodeBefore(x, ys[0], leq) then [x] + ys
    else
      assert ys == [ys[0]] + ys[1..];
      [ys[0]] + InsertNode(x, ys[1..], leq)
  }

  /** `nodes.sort(...)` on one level: a stable insertion sort. */
  function SortLevel(xs: seq<Node>, leq: (string, string) -> bool): (r: seq<Node>)
    ensures multiset(r) == multiset(xs)
  {
    if xs == [] then []
    else
      assert xs == [xs[0]] + xs[1..];
      InsertNode(xs[0], SortLevel(xs[1..], leq), leq)
  }

  /** `sortNodes`: each level sorted, then every folder's children sorted
      the same way. */
  function SortTree(nodes: seq<Node>, leq: (string, string) -> bool): (r: seq<Node>)
    ensures |r| == |nodes|
    decreases nodes
  {
    var sorted := SortLevel(nodes, leq);
    assert |sorted| == |multiset(nodes)| == |nodes|;
    seq(|sorted|, i requires 0 <= i < |sorted| =>
      var n := sorted[i];
      assert n in multiset(nodes);
      if n.Folder? then Folder(n.name, SortTree(n.children, leq)) else n)
  }

  /** The viewer's `buildFileTree`: the top-level nodes, sorted, with no
      synthetic root. */
  function ViewerTree(files: seq<GeneratedFile>, leq: (string, string) -> bool): seq<Node> {
    SortTree(AddFiles([], files), leq)
  }

  /** Each adjacent pair of a level is in comparator order. */
  predicate Sorted(xs: seq<Node>, leq: (string, string) -> bool) {
    forall i | 0 <= i < |xs| - 1 :: NodeBefore(xs[i], xs[i + 1], leq)
  }

  /** Every level of the tree is sorted. */
  predicate SortedDeep(xs: seq<Node>, leq: (string, string) -> bool)
    decreases xs
  {
    Sorted(xs, leq) && forall i | 0 <= i < |xs| :: xs[i].Folder? ==> SortedDeep(xs[i].children, leq)
  }

  lemma {:induction false} InsertNodeSorted(x: Node, ys: seq<Node>, leq: (string, string) -> bool)
    requires Total(leq) && Sorted(ys, leq)
    ensures Sorted(InsertNode(x, ys, leq), leq)
  {
    if ys != [] && !NodeBefore(x, ys[0], leq) {
      assert leq(x.name, ys[0].name) || leq(ys[0].name, x.name);
      InsertNodeSorted(x, ys[1..], leq);
    }
  }

  lemma {:induction false} SortLevelSorted(xs: seq<Node>, leq: (string, string) -> bool)
    requires Total(leq)
    ensures Sorted(SortLevel(xs, leq), leq)
  {
    if xs != [] {
      SortLevelSorted(xs[1..], leq);
      InsertNodeSorted(xs[0], SortLevel(xs[1..], leq), leq);
    }
  }

  /** After sorting, every level is in comparator order. */
  lemma {:induction false} SortTreeSorted(nodes: seq<Node>, leq: (string, string) -> bool)
    requires Total(leq)
    ensures SortedDeep(SortTree(nodes, leq), leq)
    decreases nodes
  {
    var sorted := SortLevel(nodes, leq);
    var r := SortTree(nodes, leq);
    SortLevelSorted(nodes, leq);
    assert forall i | 0 <= i < |r| :: r[i].name == sorted[i].name && r[i].Folder? == sorted[i].Folder?;
    forall i | 0 <= i < |r| && r[i].Folder?
      ensures SortedDeep(r[i].children, leq)
    {
      assert sorted[i] in multiset(nodes);
      SortTreeSorted(sorted[i].children, leq);
    }
  }

  /** All folders of a sorted level come before all its files. */
  lemma {:induction false} FoldersFirst(xs: seq<Node>, leq: (string, string) -> bool, i: nat, j: nat)
    requires Sorted(xs, leq) && i < j < |xs| && xs[j].Folder?
    ensures xs[i].Folder?
    decreases j - i
  {
    assert NodeBefore(xs[j - 1], xs[j], leq);
    if i < j - 1 {
      FoldersFirst(xs, leq, i, j - 1);
    }
  }

  /** With a transitive comparator, any two nodes of one kind on a sorted
      level are in name order. */
  lemma {:induction false} SameKindOrdered(xs: seq<Node>, leq: (string, string) -> bool, i: nat, j: nat)
    requires Sorted(xs, leq) && Transitive(leq) && i < j < |xs| && xs[i].Folder? == xs[j].Folder?
    ensures leq(xs[i].name, xs[j].name)
    decreases j - i
  {
    assert NodeBefore(xs[i], xs[i + 1], leq);
    if i + 1 < j {
      if xs[j].Folder? {
        FoldersFirst(xs, leq, i + 1, j);
      }
      SameKindOrdered(xs, leq, i + 1, j);
    }
  }

  /** The leaves of one node, as a one-element level. */
  lemma OneNode(n: Node)
    ensures LeafPaths([n]) == if n.File? then multiset{n.filePath} else LeafPaths(n.children)
  {
    assert [n][1..] == [];
  }

  lemma {:induction false} InsertNodeLeaves(x: Node, ys: seq<Node>, leq: (string, string) -> bool)
    ensures LeafPaths(InsertNode(x, ys, leq)) == LeafPaths(ys) + LeafPaths([x])
  {
    OneNode(x);
    if ys != [] && !NodeBefore(x, ys[0], leq) {
      InsertNodeLeaves(x, ys[1..], leq);
      assert ([ys[0]] + InsertNode(x, ys[1..], leq))[1..] == InsertNode(x, ys[1..], leq);
    } else {
      LeafPathsAppend([x], ys);
    }
  }

  lemma {:induction false} SortLevelLeaves(xs: seq<Node>, leq: (string, string) -> bool)
    ensures LeafPaths(SortLevel(xs, leq)) == LeafPaths(xs)
  {
    if xs != [] {
      SortLevelLeaves(xs[1..], leq);
      InsertNodeLeaves(xs[0], SortLevel(xs[1..], leq), leq);
      OneNode(xs[0]);
    }
  }

  /** Two levels whose nodes hold the same leaves, place by place, hold the
      same leaves. */
  lemma {:induction false} SameLeavesPointwise(a: seq<Node>, b: seq<Node>)
    requires |a| == |b| && forall i | 0 <= i < |a| :: LeafPaths([a[i]]) == LeafPaths([b[i]])
    ensures LeafPaths(a) == LeafPaths(b)
  {
    if a != [] {
      OneNode(a[0]);
      OneNode(b[0]);
      SameLeavesPointwise(a[1..], b[1..]);
    }
  }

  /** Sorting moves nodes but keeps the multiset of leaves. */
  lemma {:induction false} SortTreeLeaves(nodes: seq<Node>, leq: (string, string) -> bool)
    ensures LeafPaths(SortTree(nodes, leq)) == LeafPaths(nodes)
    decreases nodes
  {
    var sorted := SortLevel(nodes, leq);
    var r := SortTree(nodes, leq);
    forall i | 0 <= i < |r|
      ensures LeafPaths([r[i]]) == LeafPaths([sorted[i]])
    {
      OneNode(r[i]);
      OneNode(sorted[i]);
      if sorted[i].Folder? {
        assert sorted[i] in multiset(nodes);
        SortTreeLeaves(sorted[i].children, leq);
      }
    }
    SameLeavesPointwise(r, sorted);
    SortLevelLeaves(nodes, leq);
  }

  /** The viewer's tree: sorted at every level, with one leaf per file. */
  lemma ViewerTreeFacts(files: seq<GeneratedFile>, leq: (string, string) -> bool)
    requires Total(leq)
    ensures SortedDeep(ViewerTree(files, leq), leq)
    ensures LeafPaths(ViewerTree(files, leq)) == multiset(Paths(files))
  {
    AddFilesFacts([], files);
    SortTreeSorted(AddFiles([], files), leq);
    SortTreeLeaves(AddFiles([], files), leq);
  }
}
