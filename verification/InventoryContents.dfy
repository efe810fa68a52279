/** What an inventory holds, and that it tells trees apart: two sources with the same inventory
    agree on everything visible. */
module InventoryContents {
  import opened Wrappers
  import opened NameOrder
  import opened SourceInventory
  import opened InventoryInvariance

  // ---------------------------------------------------------------------------
  // The entries of a visible tree
  // ---------------------------------------------------------------------------

  /** The entry of one node. */
  predicate EntryOf(node: Tree, path: Path, e: Entry) {
    match node
    case File(mode, content) => e == FileEntry(path, Masked(mode), |content|, content)
    case Folder(mode, _) => e == FolderEntry(path, Masked(mode))
    case Symlink(_) => false
    case Special => false
  }

  /** The entry belongs to a visible node at or below `path`. */
  ghost predicate Recorded(node: Tree, path: Path, e: Entry)
    decreases node
  {
    || EntryOf(node, path, e)
    || (node.Folder? && exists n :: n in node.children && RecordedIn(node, path, n, e))
  }

  ghost predicate RecordedIn(node: Tree, path: Path, n: string, e: Entry)
    requires node.Folder? && n in node.children
    decreases node, n
  {
    !SourcePathExcluded(path + [n]) && Recorded(node.children[n], path + [n], e)
  }

  /** Only files and folders are visible at or below `path`. */
  ghost predicate Plain(node: Tree, path: Path)
    decreases node
  {
    && (node.File? || node.Folder?)
    && (node.Folder? ==> forall n :: n in node.children && !SourcePathExcluded(path + [n]) ==> Plain(node.children[n], path + [n]))
  }

  ghost predicate RecordedAmong(node: Tree, path: Path, names: seq<string>, e: Entry)
    requires node.Folder? && forall n :: n in names ==> n in node.children
  {
    exists n :: n in names && Recorded(node.children[n], path + [n], e)
  }

  lemma AmongFirst(node: Tree, path: Path, names: seq<string>, e: Entry)
    requires node.Folder? && names != [] && forall n :: n in names ==> n in node.children
    ensures RecordedAmong(node, path, names, e) <==>
      Recorded(node.children[names[0]], path + [names[0]], e) || RecordedAmong(node, path, names[1..], e)
  {
    hide Recorded;
    if RecordedAmong(node, path, names, e) {
      var n :| n in names && Recorded(node.children[n], path + [n], e);
      assert n == names[0] || n in names[1..];
    }
  }

  // ---------------------------------------------------------------------------
  // The walk records exactly these
  // ---------------------------------------------------------------------------

  lemma {:induction false} FilesRecord(node: Tree, path: Path, names: seq<string>, t: Tally, e: Entry)
    requires node.Folder? && forall n :: n in names ==> n in node.children
    requires WalkFiles(node, path, names, t).Success?
    ensures forall n :: n in names ==> node.children[n].File?
    ensures e in WalkFiles(node, path, names, t).value.entries <==> e in t.entries || RecordedAmong(node, path, names, e)
  {
    hide SourcePathExcluded;
    if names != [] {
      var child := node.children[names[0]];
      var added := AddFile(t, path + [names[0]], child.mode, child.content);
      FilesRecord(node, path, names[1..], added.value, e);
      AmongFirst(node, path, names, e);
    }
  }

  lemma {:induction false} FoldersRecord(node: Tree, path: Path, names: seq<string>, t: Tally, e: Entry)
    requires node.Folder? && forall n :: n in names ==> n in node.children && node.children[n].Folder?
    requires WalkFolders(node, path, names, t).Success?
    ensures e in WalkFolders(node, path, names, t).value.entries <==> e in t.entries || RecordedAmong(node, path, names, e)
    ensures forall n :: n in names ==> Plain(node.children[n], path + [n])
    decreases node, 0, |names|
  {
    hide SourcePathExcluded, WalkFolder, Plain, Recorded;
    if names != [] {
      var first := WalkFolder(node.children[names[0]], path + [names[0]], t);
      FolderRecords(node.children[names[0]], path + [names[0]], t, e);
      FoldersRecord(node, path, names[1..], first.value, e);
      AmongFirst(node, path, names, e);
    }
  }

  /** A walk that succeeds saw files and folders only, and added their entries. */
  lemma {:induction false} FolderRecords(node: Tree, path: Path, t: Tally, e: Entry)
    requires node.Folder? && WalkFolder(node, path, t).Success?
    ensures e in WalkFolder(node, path, t).value.entries <==> e in t.entries || Recorded(node, path, e)
    ensures Plain(node, path)
    decreases node, 1, 0
  {
    hide SourcePathExcluded, WalkFiles, WalkFolders;
    var files, folders := InOrder(FileNames(node, path)), InOrder(FolderNames(node, path));
    var added := AddEntry(t, FolderEntry(path, Masked(node.mode)));
    var walked := WalkFiles(node, path, files, added.value);
    FilesRecord(node, path, files, added.value, e);
    FoldersRecord(node, path, folders, walked.value, e);
    VisibleAmong(node, path, files, folders, e);
  }

  lemma VisibleAmong(node: Tree, path: Path, files: seq<string>, folders: seq<string>, e: Entry)
    requires node.Folder? && !LinkedFolder(node, path)
    requires files == InOrder(FileNames(node, path)) && folders == InOrder(FolderNames(node, path))
    ensures Recorded(node, path, e) <==>
      EntryOf(node, path, e) || RecordedAmong(node, path, files, e) || RecordedAmong(node, path, folders, e)
    ensures forall n :: n in node.children && !SourcePathExcluded(path + [n]) ==> n in files || n in folders
  {
    hide SourcePathExcluded, InOrder;
    if n :| n in node.children && RecordedIn(node, path, n, e) {
      assert n in files || n in folders;
    }
  }

  /** A product path. */
  lemma NodeRecords(node: Tree, path: Path, t: Tally, e: Entry)
    requires WalkNode(node, path, t).Success?
    ensures e in WalkNode(node, path, t).value.entries <==> e in t.entries || Recorded(node, path, e)
    ensures Plain(node, path)
  {
    hide SourcePathExcluded, WalkFolder;
    if node.Folder? {
      FolderRecords(node, path, t, e);
    }
  }

  /** The entry belongs to something visible below one of the product paths. */
  ghost predicate RecordedFrom(root: Tree, names: seq<string>, e: Entry)
    requires root.Folder?
  {
    exists n :: n in names && n in root.children && Product(n) && Recorded(root.children[n], [n], e)
  }

  lemma {:induction false} RootsRecord(root: Tree, names: seq<string>, t: Tally, e: Entry)
    requires root.Folder? && WalkRoots(root, names, t).Success? && forall n :: n in names ==> n in PRODUCT_PATHS
    ensures e in WalkRoots(root, names, t).value.entries <==> e in t.entries || RecordedFrom(root, names, e)
    ensures forall n :: n in names && n in root.children && Product(n) ==> Plain(root.children[n], [n])
  {
    hide SourcePathExcluded, WalkNode, Plain, Recorded, PRODUCT_PATHS;
    if names != [] {
      assert [] + [names[0]] == [names[0]];
      assert names[0] in names;
      if Visible(root, [], names[0]) {
        NodeRecords(root.children[names[0]], [names[0]], t, e);
        RootsRecord(root, names[1..], WalkNode(root.children[names[0]], [names[0]], t).value, e);
      } else {
        RootsRecord(root, names[1..], t, e);
      }
      if n :| n in names && n in root.children && Product(n) && Recorded(root.children[n], [n], e) {
        assert n == names[0] || n in names[1..];
      }
    }
  }

  lemma {:induction false} InsertedIsMember(entries: seq<Entry>, e: Entry, x: Entry)
    ensures x in InsertEntry(entries, e) <==> x == e || x in entries
  {
    if entries != [] && Before(KeyOf(entries[0]), KeyOf(e)) {
      InsertedIsMember(entries[1..], e, x);
    }
  }

  lemma {:induction false} SortedHasSame(entries: seq<Entry>, x: Entry)
    ensures x in SortEntries(entries) <==> x in entries
  {
    if entries != [] {
      SortedHasSame(entries[1..], x);
      InsertedIsMember(SortEntries(entries[1..]), entries[0], x);
    }
  }

  /** An inventory holds an entry exactly if a visible file or folder of the source has it. */
  lemma InventoryHolds(root: Tree, required: seq<Path>, e: Entry)
    requires InventoryOf(root, required).Success?
    ensures root.Folder? && (e in InventoryOf(root, required).value.digest <==> RecordedFrom(root, PRODUCT_PATHS, e))
    ensures forall n :: n in root.children && Product(n) ==> Plain(root.children[n], [n])
  {
    hide WalkRoots, RecordedFrom, Plain, SourcePathExcluded, PRODUCT_PATHS, Complete;
    var walked := WalkRoots(root, PRODUCT_PATHS, Tally([], 0));
    RootsRecord(root, PRODUCT_PATHS, Tally([], 0), e);
    SortedHasSame(walked.value.entries, e);
  }

  // ---------------------------------------------------------------------------
  // Equal inventories
  // ---------------------------------------------------------------------------

  /** Entries lie where their nodes do; the one at `path` itself is the node's own. */
  lemma {:induction false} RecordedIsBelow(node: Tree, path: Path, e: Entry)
    requires Recorded(node, path, e)
    ensures path <= e.path && (e.path == path ==> EntryOf(node, path, e))
    decreases node
  {
    hide SourcePathExcluded;
    if !EntryOf(node, path, e) {
      var n :| n in node.children && RecordedIn(node, path, n, e);
      RecordedIsBelow(node.children[n], path + [n], e);
      assert (path + [n])[..|path|] == path;
    }
  }

  ghost predicate SameEntries(a: Tree, b: Tree, path: Path) {
    forall e :: Recorded(a, path, e) <==> Recorded(b, path, e)
  }

  /** An entry below a visible name of `a` is recorded below the same name of `b`. */
  lemma PassesDown(a: Tree, b: Tree, path: Path, n: string, e: Entry)
    requires a.Folder? && n in a.children && RecordedIn(a, path, n, e) && SameEntries(a, b, path)
    ensures b.Folder? && n in b.children && RecordedIn(b, path, n, e)
  {
    hide SourcePathExcluded;
    RecordedIsBelow(a.children[n], path + [n], e);
    assert Recorded(a, path, e);
    assert |e.path| > |path|;
    var m :| m in b.children && RecordedIn(b, path, m, e);
    RecordedIsBelow(b.children[m], path + [m], e);
    assert m == (path + [m])[|path|] == e.path[|path|] == (path + [n])[|path|] == n;
  }

  /** Visible trees with the same entries agree: their modes and contents, and which names
      they have. */
  lemma {:induction false} EntriesDetermine(a: Tree, b: Tree, path: Path)
    requires Plain(a, path) && Plain(b, path) && SameEntries(a, b, path)
    ensures Agrees(a, b, path)
    decreases a
  {
    hide SourcePathExcluded, RecordedIn;
    var own := OwnEntry(a, path);
    assert Recorded(a, path, own);
    RecordedIsBelow(b, path, own);
    if a.Folder? {
      forall n | n in a.children && !SourcePathExcluded(path + [n])
        ensures n in b.children && Agrees(a.children[n], b.children[n], path + [n])
      {
        ChildrenHaveSameEntries(a, b, path, n);
        EntriesDetermine(a.children[n], b.children[n], path + [n]);
      }
      forall n | n in b.children && !SourcePathExcluded(path + [n])
        ensures n in a.children
      {
        ChildrenHaveSameEntries(b, a, path, n);
      }
    }
  }

  function OwnEntry(node: Tree, path: Path): (e: Entry)
    requires node.File? || node.Folder?
    ensures EntryOf(node, path, e)
  {
    if node.File? then FileEntry(path, Masked(node.mode), |node.content|, node.content) else FolderEntry(path, Masked(node.mode))
  }

  lemma ChildrenHaveSameEntries(a: Tree, b: Tree, path: Path, n: string)
    requires a.Folder? && n in a.children && !SourcePathExcluded(path + [n]) && Plain(a, path) && SameEntries(a, b, path)
    ensures b.Folder? && n in b.children && SameEntries(a.children[n], b.children[n], path + [n])
  {
    hide SourcePathExcluded, Recorded;
    var child := a.children[n];
    var own := OwnEntry(child, path + [n]);
    OwnIsRecorded(child, path + [n], own);
    PassesDown(a, b, path, n, own);
    forall e
      ensures Recorded(child, path + [n], e) <==> Recorded(b.children[n], path + [n], e)
    {
      if Recorded(child, path + [n], e) {
        PassesDown(a, b, path, n, e);
      }
      if Recorded(b.children[n], path + [n], e) {
        PassesDown(b, a, path, n, e);
      }
    }
  }

  lemma OwnIsRecorded(node: Tree, path: Path, e: Entry)
    requires EntryOf(node, path, e)
    ensures Recorded(node, path, e)
  {
  }

  /** An entry below a product path of one root is recorded below the same path of the other. */
  lemma PassesAcross(a: Tree, b: Tree, n: string, e: Entry)
    requires a.Folder? && b.Folder? && n in a.children && Product(n) && Recorded(a.children[n], [n], e)
    requires RecordedFrom(a, PRODUCT_PATHS, e) ==> RecordedFrom(b, PRODUCT_PATHS, e)
    ensures n in b.children && Recorded(b.children[n], [n], e)
  {
    hide SourcePathExcluded, Recorded, PRODUCT_PATHS;
    RecordedIsBelow(a.children[n], [n], e);
    var m :| m in PRODUCT_PATHS && m in b.children && Product(m) && Recorded(b.children[m], [m], e);
    RecordedIsBelow(b.children[m], [m], e);
    assert m == [m][0] == e.path[0] == [n][0] == n;
  }

  /** A source is incomplete exactly if it lacks a required path, or has a link there. */
  lemma IncompleteExactly(root: Tree, required: seq<Path>)
    ensures InventoryOf(root, required) == Failure(SourceIncomplete) ==> root.Folder?
    ensures root.Folder? ==>
      (InventoryOf(root, required) == Failure(SourceIncomplete) <==>
        exists p :: p in required && (Find(root, p).None? || Find(root, p).value.Symlink?))
  {
    hide WalkFolder, WalkFiles;
    if root.Folder? && Complete(root, required) {
      WalkIsNotIncomplete(root, PRODUCT_PATHS, Tally([], 0));
    }
  }

  lemma {:induction false} WalkIsNotIncomplete(root: Tree, names: seq<string>, t: Tally)
    requires root.Folder?
    ensures WalkRoots(root, names, t) != Failure(SourceIncomplete)
  {
    hide SourcePathExcluded;
    if names != [] {
      if Visible(root, [], names[0]) {
        NodeIsNotIncomplete(root.children[names[0]], [names[0]], t);
        var one := WalkNode(root.children[names[0]], [names[0]], t);
        if one.Success? {
          WalkIsNotIncomplete(root, names[1..], one.value);
        }
      } else {
        WalkIsNotIncomplete(root, names[1..], t);
      }
    }
  }

  lemma {:induction false} NodeIsNotIncomplete(node: Tree, path: Path, t: Tally)
    ensures WalkNode(node, path, t) != Failure(SourceIncomplete)
    decreases node, 1, 0
  {
    hide SourcePathExcluded, WalkFiles, WalkFolders;
    if node.Folder? {
      var added := AddEntry(t, FolderEntry(path, Masked(node.mode)));
      if added.Success? && !LinkedFolder(node, path) {
        FilesAreNotIncomplete(node, path, InOrder(FileNames(node, path)), added.value);
        var files := WalkFiles(node, path, InOrder(FileNames(node, path)), added.value);
        if files.Success? {
          FoldersAreNotIncomplete(node, path, InOrder(FolderNames(node, path)), files.value);
        }
      }
    }
  }

  lemma {:induction false} FilesAreNotIncomplete(node: Tree, path: Path, names: seq<string>, t: Tally)
    requires node.Folder? && forall n :: n in names ==> n in node.children
    ensures WalkFiles(node, path, names, t) != Failure(SourceIncomplete)
  {
    if names != [] && node.children[names[0]].File? {
      var child := node.children[names[0]];
      var added := AddFile(t, path + [names[0]], child.mode, child.content);
      if added.Success? {
        FilesAreNotIncomplete(node, path, names[1..], added.value);
      }
    }
  }

  lemma {:induction false} FoldersAreNotIncomplete(node: Tree, path: Path, names: seq<string>, t: Tally)
    requires node.Folder? && forall n :: n in names ==> n in node.children && node.children[n].Folder?
    ensures WalkFolders(node, path, names, t) != Failure(SourceIncomplete)
    decreases node, 0, |names|
  {
    hide WalkFolder;
    if names != [] {
      NodeIsNotIncomplete(node.children[names[0]], path + [names[0]], t);
      var first := WalkFolder(node.children[names[0]], path + [names[0]], t);
      if first.Success? {
        FoldersAreNotIncomplete(node, path, names[1..], first.value);
      }
    }
  }

  /** The inventory tells sources apart: if two have the same digest, they agree on everything
      visible, the contents of their files included. */
  lemma InventoryDetermines(a: Tree, b: Tree, required: seq<Path>)
    requires InventoryOf(a, required).Success? && InventoryOf(b, required).Success?
    requires InventoryOf(a, required).value.digest == InventoryOf(b, required).value.digest
    ensures RootsAgree(a, b)
  {
    hide SourcePathExcluded, InventoryOf, Plain, Recorded, RecordedFrom, Agrees, PRODUCT_PATHS;
    InventoryHolds(a, required, FolderEntry([], 0));
    InventoryHolds(b, required, FolderEntry([], 0));
    forall e: Entry
      ensures RecordedFrom(a, PRODUCT_PATHS, e) <==> RecordedFrom(b, PRODUCT_PATHS, e)
    {
      InventoryHolds(a, required, e);
      InventoryHolds(b, required, e);
    }
    forall n | Product(n)
      ensures (n in a.children <==> n in b.children) && (n in a.children ==> Agrees(a.children[n], b.children[n], [n]))
    {
      ProductsAgree(a, b, n);
    }
  }

  lemma ProductsAgree(a: Tree, b: Tree, n: string)
    requires a.Folder? && b.Folder? && Product(n)
    requires forall e :: RecordedFrom(a, PRODUCT_PATHS, e) <==> RecordedFrom(b, PRODUCT_PATHS, e)
    requires n in a.children ==> Plain(a.children[n], [n])
    requires n in b.children ==> Plain(b.children[n], [n])
    ensures (n in a.children <==> n in b.children) && (n in a.children ==> Agrees(a.children[n], b.children[n], [n]))
  {
    hide SourcePathExcluded, RecordedFrom, Recorded, Agrees, PRODUCT_PATHS;
    if n in a.children {
      var own := OwnEntry(a.children[n], [n]);
      OwnIsRecorded(a.children[n], [n], own);
      PassesAcross(a, b, n, own);
    }
    if n in b.children {
      var own := OwnEntry(b.children[n], [n]);
      OwnIsRecorded(b.children[n], [n], own);
      PassesAcross(b, a, n, own);
    }
    if n in a.children {
      forall e
        ensures Recorded(a.children[n], [n], e) <==> Recorded(b.children[n], [n], e)
      {
        if Recorded(a.children[n], [n], e) {
          PassesAcross(a, b, n, e);
        }
        if Recorded(b.children[n], [n], e) {
          PassesAcross(b, a, n, e);
        }
      }
      EntriesDetermine(a.children[n], b.children[n], [n]);
    }
  }

  /** So two sources have one inventory exactly if they agree on what is visible. */
  lemma InventoryExactly(a: Tree, b: Tree, required: seq<Path>)
    requires InventoryOf(a, required).Success? && InventoryOf(b, required).Success?
    requires forall p :: p in required ==> Seen(p)
    ensures InventoryOf(a, required) == InventoryOf(b, required) <==> RootsAgree(a, b)
  {
    hide RootsAgree, InventoryOf, Seen;
    if InventoryOf(a, required) == InventoryOf(b, required) {
      InventoryDetermines(a, b, required);
    }
    if RootsAgree(a, b) {
      AgreeingInventory(a, b, required);
    }
  }

  // ---------------------------------------------------------------------------
  // What the copy holds
  // ---------------------------------------------------------------------------

  /** No prefix of the rest of the path is excluded. */
  predicate Open(path: Path, rest: Path) {
    forall k :: 0 < k <= |rest| ==> !SourcePathExcluded(path + rest[..k])
  }

  /** Pruning keeps exactly what is at a path without an excluded prefix. */
  lemma {:induction false} PrunedHolds(node: Tree, path: Path, rest: Path)
    ensures Find(Pruned(node, path), rest) ==
      if Open(path, rest) && Find(node, rest).Some? then Some(Pruned(Find(node, rest).value, path + rest)) else None
    decreases |rest|
  {
    hide SourcePathExcluded;
    if rest == [] {
      assert path + rest == path;
    } else {
      var n := rest[0];
      assert rest[..1] == [n] && path + rest == (path + [n]) + rest[1..];
      OpenFurther(path, rest);
      if node.Folder? && n in node.children && !SourcePathExcluded(path + [n]) {
        PrunedHolds(node.children[n], path + [n], rest[1..]);
      }
    }
  }

  lemma OpenFurther(path: Path, rest: Path)
    requires rest != []
    ensures Open(path, rest) <==> !SourcePathExcluded(path + [rest[0]]) && Open(path + [rest[0]], rest[1..])
  {
    hide SourcePathExcluded;
    assert rest[..1] == [rest[0]];
    forall k | 0 < k < |rest|
      ensures path + rest[..k + 1] == (path + [rest[0]]) + rest[1..][..k]
    {
    }
    if !SourcePathExcluded(path + [rest[0]]) && Open(path + [rest[0]], rest[1..]) {
      forall k | 0 < k <= |rest| ensures !SourcePathExcluded(path + rest[..k]) {
        if k > 1 {
          assert path + rest[..(k - 1) + 1] == (path + [rest[0]]) + rest[1..][..k - 1];
        }
      }
    }
    if Open(path, rest) {
      forall k | 0 < k <= |rest| - 1 ensures !SourcePathExcluded((path + [rest[0]]) + rest[1..][..k]) {
        assert path + rest[..k + 1] == (path + [rest[0]]) + rest[1..][..k];
      }
    }
  }

  /** The copy holds a path exactly if the source does and the inventory may see it: nothing
      excluded is copied, at any depth, and nothing else is lost; files are copied whole. */
  lemma CopyHoldsExactly(root: Tree, path: Path)
    requires root.Folder? && path != []
    ensures Find(Copied(root), path).Some? <==> Find(root, path).Some? && Seen(path)
    ensures Find(Copied(root), path).Some? && Find(root, path).value.File? ==> Find(Copied(root), path) == Find(root, path)
  {
    hide SourcePathExcluded, Pruned, PRODUCT_PATHS;
    assert path[..1] == [path[0]];
    assert [] + [path[0]] == [path[0]];
    OpenFurther([], path);
    forall k | 0 < k <= |path| ensures [] + path[..k] == path[..k] {}
    assert Seen(path) <==> path[0] in PRODUCT_PATHS && Open([], path);
    if path[0] in root.children && Product(path[0]) {
      PrunedHolds(root.children[path[0]], [path[0]], path[1..]);
      if Find(root, path).Some? && Find(root, path).value.File? {
        PrunedFile(Find(root, path).value, [path[0]] + path[1..]);
      }
    }
  }

  lemma PrunedFile(node: Tree, path: Path)
    requires node.File?
    ensures Pruned(node, path) == node
  {
  }
}
