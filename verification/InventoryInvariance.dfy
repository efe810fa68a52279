/** Copying, freezing and cleaning a source tree, and what its inventory says before and after. */
module InventoryInvariance {
  import opened Wrappers
  import opened NameOrder
  import opened SourceInventory

  // ---------------------------------------------------------------------------
  // Trees that agree
  // ---------------------------------------------------------------------------

  predicate Product(name: string) {
    name in PRODUCT_PATHS && !SourcePathExcluded([name])
  }

  ghost predicate RootsAgree(a: Tree, b: Tree) {
    && a.Folder? && b.Folder?
    && forall n :: Product(n) ==>
         && (n in a.children <==> n in b.children)
         && (n in a.children ==> Agrees(a.children[n], b.children[n], [n]))
  }

  lemma {:induction false} AgreeingRoots(a: Tree, b: Tree, names: seq<string>, t: Tally)
    requires RootsAgree(a, b) && forall n :: n in names ==> n in PRODUCT_PATHS
    ensures WalkRoots(a, names, t) == WalkRoots(b, names, t)
  {
    hide SourcePathExcluded, WalkFolder, AddFile, Agrees;
    if names != [] {
      assert names[0] in names;
      assert [] + [names[0]] == [names[0]];
      if Visible(a, [], names[0]) {
        assert Product(names[0]);
        var x, y := a.children[names[0]], b.children[names[0]];
        AgreeingNodes(x, y, [names[0]], t);
        var one := if x.File? then AddFile(t, [names[0]], x.mode, x.content)
                   else if x.Folder? then WalkFolder(x, [names[0]], t) else Failure(SpecialForbidden);
        if one.Success? {
          AgreeingRoots(a, b, names[1..], one.value);
        }
      } else {
        AgreeingRoots(a, b, names[1..], t);
      }
    }
  }

  lemma AgreeingNodes(x: Tree, y: Tree, path: Path, t: Tally)
    requires Agrees(x, y, path)
    ensures (x.Folder? <==> y.Folder?) && (x.File? <==> y.File?) && (x.Symlink? <==> y.Symlink?)
    ensures x.File? ==> AddFile(t, path, x.mode, x.content) == AddFile(t, path, y.mode, y.content)
    ensures x.Folder? ==> WalkFolder(x, path, t) == WalkFolder(y, path, t)
  {
    hide SourcePathExcluded, WalkFolder;
    if x.Folder? {
      AgreeingWalk(x, y, path, t);
    }
  }

  /** A required path is one the inventory sees. */
  predicate Seen(path: Path) {
    path != [] && path[0] in PRODUCT_PATHS && forall k :: 0 < k <= |path| ==> !SourcePathExcluded(path[..k])
  }

  lemma {:induction false} AgreeingFind(a: Tree, b: Tree, path: Path, rest: Path)
    requires Agrees(a, b, path) && forall k :: 0 < k <= |rest| ==> !SourcePathExcluded(path + rest[..k])
    ensures Find(a, rest).Some? <==> Find(b, rest).Some?
    ensures Find(a, rest).Some? ==> (Find(a, rest).value.Symlink? <==> Find(b, rest).value.Symlink?)
    decreases |rest|
  {
    hide SourcePathExcluded;
    if rest != [] && a.Folder? {
      var n := rest[0];
      assert rest[..1] == [n];
      assert !SourcePathExcluded(path + [n]);
      if n in a.children {
        forall k | 0 < k <= |rest| - 1 ensures !SourcePathExcluded((path + [n]) + rest[1..][..k]) {
          assert (path + [n]) + rest[1..][..k] == path + rest[..k + 1];
        }
        AgreeingFind(a.children[n], b.children[n], path + [n], rest[1..]);
      }
    }
  }

  lemma AgreeingComplete(a: Tree, b: Tree, required: seq<Path>)
    requires RootsAgree(a, b) && forall p :: p in required ==> Seen(p)
    ensures Complete(a, required) <==> Complete(b, required)
  {
    hide SourcePathExcluded, Agrees, PRODUCT_PATHS;
    forall p | p in required
      ensures (Find(a, p).Some? && !Find(a, p).value.Symlink?) <==> (Find(b, p).Some? && !Find(b, p).value.Symlink?)
    {
      assert p[..1] == [p[0]];
      assert Product(p[0]);
      if p[0] in a.children {
        forall k | 0 < k <= |p| - 1 ensures !SourcePathExcluded([p[0]] + p[1..][..k]) {
          assert [p[0]] + p[1..][..k] == p[..k + 1];
        }
        AgreeingFind(a.children[p[0]], b.children[p[0]], [p[0]], p[1..]);
      }
    }
  }

  /** Trees that agree on what is seen have the same inventory, or fail alike. */
  lemma AgreeingInventory(a: Tree, b: Tree, required: seq<Path>)
    requires RootsAgree(a, b) && forall p :: p in required ==> Seen(p)
    ensures InventoryOf(a, required) == InventoryOf(b, required)
  {
    hide RootsAgree, Complete, WalkRoots, Seen, InventoryFrom;
    RootsAreFolders(a, b);
    AgreeingComplete(a, b, required);
    AgreeingRoots(a, b, PRODUCT_PATHS, Tally([], 0));
  }

  lemma RootsAreFolders(a: Tree, b: Tree)
    requires RootsAgree(a, b)
    ensures a.Folder? && b.Folder?
  {
  }

  lemma {:induction false} AgreesWithItself(a: Tree, path: Path)
    ensures Agrees(a, a, path)
    decreases a
  {
    hide SourcePathExcluded;
    if a.Folder? {
      forall n | n in a.children ensures Agrees(a.children[n], a.children[n], path + [n]) {
        AgreesWithItself(a.children[n], path + [n]);
      }
    }
  }

  // ---------------------------------------------------------------------------
  // Entries the inventory does not see
  // ---------------------------------------------------------------------------

  /** The tree with one entry put in, replaced or removed, somewhere below. */
  function Grafted(node: Tree, at: Path, name: string, entry: Option<Tree>): Tree {
    if !node.Folder? then node
    else if at == [] then
      node.(children := if entry.Some? then node.children[name := entry.value] else node.children - {name})
    else if at[0] in node.children then
      node.(children := node.children[at[0] := Grafted(node.children[at[0]], at[1..], name, entry)])
    else node
  }

  lemma {:induction false} GraftAgrees(node: Tree, path: Path, at: Path, name: string, entry: Option<Tree>)
    requires SourcePathExcluded(path + at + [name])
    ensures Agrees(node, Grafted(node, at, name, entry), path)
    decreases |at|
  {
    hide SourcePathExcluded;
    AgreesWithItself(node, path);
    if node.Folder? {
      forall n | n in node.children ensures Agrees(node.children[n], node.children[n], path + [n]) {
        AgreesWithItself(node.children[n], path + [n]);
      }
      if at == [] {
        assert path + at + [name] == path + [name];
      } else if at[0] in node.children {
        assert (path + [at[0]]) + at[1..] + [name] == path + at + [name];
        GraftAgrees(node.children[at[0]], path + [at[0]], at[1..], name, entry);
      }
    }
  }

  /** Adding, replacing or removing any excluded entry at any depth changes nothing. */
  lemma ExcludedEntriesDoNotCount(root: Tree, at: Path, name: string, entry: Option<Tree>, required: seq<Path>)
    requires root.Folder? && SourcePathExcluded(at + [name]) && forall p :: p in required ==> Seen(p)
    ensures InventoryOf(Grafted(root, at, name, entry), required) == InventoryOf(root, required)
  {
    hide SourcePathExcluded, Seen, InventoryOf;
    assert [] + at + [name] == at + [name];
    GraftAgrees(root, [], at, name, entry);
    RootsFromAgreement(root, Grafted(root, at, name, entry));
    AgreeingInventory(root, Grafted(root, at, name, entry), required);
  }

  lemma RootsFromAgreement(a: Tree, b: Tree)
    requires a.Folder? && Agrees(a, b, [])
    ensures RootsAgree(a, b)
  {
    hide SourcePathExcluded;
    forall n | Product(n)
      ensures (n in a.children <==> n in b.children) && (n in a.children ==> Agrees(a.children[n], b.children[n], [n]))
    {
      assert [] + [n] == [n];
    }
  }

  // ---------------------------------------------------------------------------
  // Copying
  // ---------------------------------------------------------------------------

  /** What `copytree` leaves of a folder: everything but the excluded entries. */
  function Pruned(node: Tree, path: Path): Tree
    decreases node
  {
    if node.Folder? then
      Folder(node.mode, map n | n in node.children && !SourcePathExcluded(path + [n]) :: Pruned(node.children[n], path + [n]))
    else node
  }

  lemma {:induction false} PrunedAgrees(node: Tree, path: Path)
    ensures Agrees(node, Pruned(node, path), path)
    decreases node
  {
    hide SourcePathExcluded;
    if node.Folder? {
      forall n | n in node.children ensures Agrees(node.children[n], Pruned(node.children[n], path + [n]), path + [n]) {
        PrunedAgrees(node.children[n], path + [n]);
      }
    }
  }

  /** The copy of the product paths of a source root. */
  function Copied(root: Tree): Tree
    requires root.Folder?
  {
    Folder(COPY_ROOT_MODE, map n | n in root.children && Product(n) :: Pruned(root.children[n], [n]))
  }

  predicate Copyable(root: Tree)
    requires root.Folder?
  {
    forall n :: n in root.children && Product(n) ==> root.children[n].File? || root.children[n].Folder?
  }

  /** The part of the copy made from some of the product paths. */
  function CopiedFrom(root: Tree, names: seq<string>): map<string, Tree>
    requires root.Folder?
  {
    map n | n in root.children && n in names && Product(n) :: Pruned(root.children[n], [n])
  }

  predicate CopyableFrom(root: Tree, names: seq<string>)
    requires root.Folder?
  {
    forall n :: n in root.children && n in names && Product(n) ==> root.children[n].File? || root.children[n].Folder?
  }

  lemma CopyStep(root: Tree, i: nat)
    requires root.Folder? && i < |PRODUCT_PATHS|
    ensures var name, before, after := PRODUCT_PATHS[i], PRODUCT_PATHS[..i], PRODUCT_PATHS[..i + 1];
      Product(name) && name in root.children ==>
        && CopiedFrom(root, after) == CopiedFrom(root, before)[name := Pruned(root.children[name], [name])]
        && (CopyableFrom(root, after) <==> CopyableFrom(root, before) && (root.children[name].File? || root.children[name].Folder?))
    ensures var name, before, after := PRODUCT_PATHS[i], PRODUCT_PATHS[..i], PRODUCT_PATHS[..i + 1];
      !(Product(name) && name in root.children) ==>
        && CopiedFrom(root, after) == CopiedFrom(root, before)
        && (CopyableFrom(root, after) <==> CopyableFrom(root, before))
  {
    hide SourcePathExcluded, Pruned, PRODUCT_PATHS;
    assert PRODUCT_PATHS[..i + 1] == PRODUCT_PATHS[..i] + [PRODUCT_PATHS[i]];
  }

  lemma CopyIsWhole(root: Tree)
    requires root.Folder?
    ensures CopiedFrom(root, PRODUCT_PATHS[..|PRODUCT_PATHS|]) == Copied(root).children
    ensures CopyableFrom(root, PRODUCT_PATHS[..|PRODUCT_PATHS|]) <==> Copyable(root)
  {
    hide SourcePathExcluded, Pruned;
    assert PRODUCT_PATHS[..|PRODUCT_PATHS|] == PRODUCT_PATHS;
  }

  /** Copies one product path after the other into a new root. */
  method CopyProductSource(root: Tree) returns (r: Result<Tree, Trouble>)
    requires root.Folder?
    ensures r.Success? <==> Copyable(root)
    ensures r.Success? ==> r.value == Copied(root)
    ensures r == Failure(SymlinkForbidden) ==> exists n :: n in root.children && Product(n) && root.children[n].Symlink?
    ensures r == Failure(SpecialForbidden) ==> exists n :: n in root.children && Product(n) && root.children[n].Special?
    ensures r.Failure? ==> r.error in {SymlinkForbidden, SpecialForbidden}
  {
    hide SourcePathExcluded, Pruned, CopiedFrom, CopyableFrom, Copyable;
    var copy: map<string, Tree> := map[];
    CopyOfNothing(root);
    for i := 0 to |PRODUCT_PATHS|
      invariant copy == CopiedFrom(root, PRODUCT_PATHS[..i]) && CopyableFrom(root, PRODUCT_PATHS[..i])
    {
      var name := PRODUCT_PATHS[i];
      CopyStep(root, i);
      if !SourcePathExcluded([name]) && name in root.children {
        match root.children[name] {
          case Symlink(_) =>
            NotCopyable(root, name);
            return Failure(SymlinkForbidden);
          case Special =>
            NotCopyable(root, name);
            return Failure(SpecialForbidden);
          case _ => copy := copy[name := Pruned(root.children[name], [name])];
        }
      }
    }
    CopyIsWhole(root);
    r := Success(Folder(COPY_ROOT_MODE, copy));
  }

  lemma CopyOfNothing(root: Tree)
    requires root.Folder?
    ensures CopiedFrom(root, PRODUCT_PATHS[..0]) == map[] && CopyableFrom(root, PRODUCT_PATHS[..0])
  {
  }

  lemma NotCopyable(root: Tree, name: string)
    requires root.Folder? && name in root.children && Product(name) && !root.children[name].File? && !root.children[name].Folder?
    ensures !Copyable(root)
  {
  }

  /** The copy has the inventory of the source. */
  lemma CopyKeepsInventory(root: Tree, required: seq<Path>)
    requires root.Folder? && forall p :: p in required ==> Seen(p)
    ensures InventoryOf(Copied(root), required) == InventoryOf(root, required)
  {
    hide SourcePathExcluded, Seen, InventoryOf;
    forall n | n in root.children ensures Agrees(root.children[n], Pruned(root.children[n], [n]), [n]) {
      PrunedAgrees(root.children[n], [n]);
    }
    assert RootsAgree(root, Copied(root));
    AgreeingInventory(root, Copied(root), required);
  }

  // ---------------------------------------------------------------------------
  // Legacy interpreter caches
  // ---------------------------------------------------------------------------

  const CACHE := "__pycache__"

  predicate IsPyc(name: string, node: Tree) {
    node.File? && EndsWith(name, ".pyc")
  }

  /** Every cache below is a folder of compiled files and nothing else. */
  predicate CachesAreSafe(node: Tree)
    decreases node
  {
    node.Folder? ==>
      && (CACHE in node.children ==>
            && node.children[CACHE].Folder?
            && forall n :: n in node.children[CACHE].children ==> IsPyc(n, node.children[CACHE].children[n]))
      && forall n :: n in node.children && n != CACHE ==> CachesAreSafe(node.children[n])
  }

  /** The tree without its caches; the modes of their parents are put back. */
  function WithoutCaches(node: Tree): Tree
    decreases node
  {
    if node.Folder? then Folder(node.mode, map n | n in node.children && n != CACHE :: WithoutCaches(node.children[n])) else node
  }

  function ConvergeLegacyCaches(root: Tree): Result<Tree, Trouble> {
    if CachesAreSafe(root) then Success(WithoutCaches(root)) else Failure(SpecialForbidden)
  }

  lemma {:induction false} WithoutCachesAgrees(node: Tree, path: Path)
    ensures Agrees(node, WithoutCaches(node), path)
    decreases node
  {
    hide SourcePathExcluded;
    if node.Folder? {
      CachesAreExcluded(path);
      forall n | n in node.children ensures Agrees(node.children[n], WithoutCaches(node.children[n]), path + [n]) {
        WithoutCachesAgrees(node.children[n], path + [n]);
      }
    }
  }

  /** What lies where a cache would be is a folder of compiled files. */
  ghost predicate SafeAt(root: Tree, path: Path) {
    var cache := Find(root, path + [CACHE]);
    cache.Some? ==>
      cache.value.Folder? && forall n :: n in cache.value.children ==> IsPyc(n, cache.value.children[n])
  }

  lemma FindBelow(node: Tree, name: string, rest: Path)
    requires node.Folder? && name in node.children
    ensures Find(node, [name] + rest) == Find(node.children[name], rest)
  {
    assert ([name] + rest)[1..] == rest;
  }

  /** The plan of a cleanup is accepted exactly when every cache in the tree is safe. */
  lemma {:induction false} PlanIsAcceptedExactly(node: Tree)
    ensures CachesAreSafe(node) <==> forall path: Path :: CACHE !in path ==> SafeAt(node, path)
    decreases node
  {
    if CachesAreSafe(node) {
      forall path: Path | CACHE !in path ensures SafeAt(node, path) {
        SafePlanIsSafeAt(node, path);
      }
    } else if CACHE in node.children && !SafeAt(node, []) {
      assert CACHE !in [];
    } else {
      assert Find(node, [] + [CACHE]) == if CACHE in node.children then Some(node.children[CACHE]) else None by {
        assert [] + [CACHE] == [CACHE] + [];
        if CACHE in node.children {
          FindBelow(node, CACHE, []);
        }
      }
      var n :| n in node.children && n != CACHE && !CachesAreSafe(node.children[n]);
      PlanIsAcceptedExactly(node.children[n]);
      var path: Path :| CACHE !in path && !SafeAt(node.children[n], path);
      FindBelow(node, n, path + [CACHE]);
      assert ([n] + path) + [CACHE] == [n] + (path + [CACHE]);
      assert CACHE !in [n] + path && !SafeAt(node, [n] + path);
    }
  }

  lemma {:induction false} SafePlanIsSafeAt(node: Tree, path: Path)
    requires CachesAreSafe(node) && CACHE !in path
    ensures SafeAt(node, path)
    decreases |path|
  {
    if node.Folder? {
      if path == [] {
        assert path + [CACHE] == [CACHE] + [];
        if CACHE in node.children {
          FindBelow(node, CACHE, []);
        }
      } else {
        assert path + [CACHE] == [path[0]] + (path[1..] + [CACHE]);
        if path[0] in node.children {
          FindBelow(node, path[0], path[1..] + [CACHE]);
          SafePlanIsSafeAt(node.children[path[0]], path[1..]);
        }
      }
    }
  }

  /** Nothing is left where a cache was. */
  lemma {:induction false} NoCacheIsLeft(node: Tree, path: Path)
    ensures Find(WithoutCaches(node), path + [CACHE]).None?
    decreases |path|
  {
    if node.Folder? {
      if path == [] {
        assert path + [CACHE] == [CACHE] + [];
      } else {
        assert path + [CACHE] == [path[0]] + (path[1..] + [CACHE]);
        if path[0] in WithoutCaches(node).children {
          FindBelow(WithoutCaches(node), path[0], path[1..] + [CACHE]);
          NoCacheIsLeft(node.children[path[0]], path[1..]);
        }
      }
    }
  }

  /** A cleanup that is accepted leaves no cache and the inventory as it was; one that is
      refused has found an unsafe cache, before it changed anything. */
  lemma CleanupKeepsInventory(root: Tree, required: seq<Path>)
    requires root.Folder? && forall p :: p in required ==> Seen(p)
    ensures ConvergeLegacyCaches(root).Success? <==> forall path: Path :: CACHE !in path ==> SafeAt(root, path)
    ensures ConvergeLegacyCaches(root).Success? ==>
      var cleaned := ConvergeLegacyCaches(root).value;
      && InventoryOf(cleaned, required) == InventoryOf(root, required)
      && forall path: Path {:trigger Find(cleaned, path + [CACHE])} :: Find(cleaned, path + [CACHE]).None?
  {
    hide SourcePathExcluded, Seen, InventoryOf, SafeAt, CachesAreSafe;
    PlanIsAcceptedExactly(root);
    WithoutCachesAgrees(root, []);
    RootsFromAgreement(root, WithoutCaches(root));
    AgreeingInventory(root, WithoutCaches(root), required);
    forall path: Path ensures Find(WithoutCaches(root), path + [CACHE]).None? {
      NoCacheIsLeft(root, path);
    }
  }

  /** A tree from which a cleanup that stopped half way removed some caches or some of their
      files. */
  function PartlyCleaned(node: Tree, path: Path, gone: set<Path>): Tree
    decreases node
  {
    if node.Folder?
    then Folder(node.mode, map n | n in node.children && !(path + [n] in gone && CACHE in path + [n])
                             :: PartlyCleaned(node.children[n], path + [n], gone))
    else node
  }

  lemma CachePathIsExcluded(path: Path)
    requires CACHE in path
    ensures SourcePathExcluded(path)
  {
    assert CACHE in BLOCKED_DIRECTORIES;
  }

  lemma {:induction false} PartlyCleanedAgrees(node: Tree, path: Path, gone: set<Path>)
    ensures Agrees(node, PartlyCleaned(node, path, gone), path)
    decreases node
  {
    hide SourcePathExcluded;
    if node.Folder? {
      forall n | n in node.children
        ensures CACHE in path + [n] ==> SourcePathExcluded(path + [n])
        ensures Agrees(node.children[n], PartlyCleaned(node.children[n], path + [n], gone), path + [n])
      {
        if CACHE in path + [n] {
          CachePathIsExcluded(path + [n]);
        }
        PartlyCleanedAgrees(node.children[n], path + [n], gone);
      }
    }
  }

  /** Wherever an accepted cleanup fails, the inventory is still the same. */
  lemma FailedCleanupKeepsInventory(root: Tree, gone: set<Path>, required: seq<Path>)
    requires root.Folder? && forall p :: p in required ==> Seen(p)
    ensures InventoryOf(PartlyCleaned(root, [], gone), required) == InventoryOf(root, required)
  {
    hide SourcePathExcluded, Seen, InventoryOf;
    PartlyCleanedAgrees(root, [], gone);
    RootsFromAgreement(root, PartlyCleaned(root, [], gone));
    AgreeingInventory(root, PartlyCleaned(root, [], gone), required);
  }

  // ---------------------------------------------------------------------------
  // Freezing
  // ---------------------------------------------------------------------------

  /** A freeze clears every write bit and gives the owner read and search on folders. */
  function Frozen(node: Tree): Tree
    decreases node
  {
    match node
    case File(mode, content) => File(mode & NO_WRITE, content)
    case Folder(mode, children) =>
      Folder((mode & NO_WRITE) | OWNER_READ_SEARCH, map n | n in children :: Frozen(children[n]))
    case Symlink(_) => node
    case Special => node
  }

  /** A freeze refuses any link or special object, seen by the inventory or not. */
  predicate Freezable(node: Tree)
    decreases node
  {
    match node
    case File(_, _) => true
    case Folder(_, children) => forall n :: n in children ==> Freezable(children[n])
    case Symlink(_) => false
    case Special => false
  }

  predicate ReadOnly(node: Tree)
    decreases node
  {
    match node
    case File(mode, _) => mode & NO_WRITE == mode
    case Folder(mode, children) => mode & NO_WRITE == mode && forall n :: n in children ==> ReadOnly(children[n])
    case Symlink(_) => false
    case Special => true
  }

  /** A read-only tree has no link at any depth, and nobody may write any of its files or
      folders; and every such tree is read-only. */
  lemma {:induction false} ReadOnlyExactly(node: Tree)
    ensures ReadOnly(node) <==> forall path: Path :: UnwritableAt(node, path)
    decreases node
  {
    WriteBits(node);
    if ReadOnly(node) {
      forall path: Path ensures UnwritableAt(node, path) {
        if Find(node, path).Some? {
          ReadOnlyBelow(node, path);
        }
      }
    } else if node.Folder? && Unwritable(node) {
      var n :| n in node.children && !ReadOnly(node.children[n]);
      ReadOnlyExactly(node.children[n]);
      var path: Path :| !UnwritableAt(node.children[n], path);
      FindBelow(node, n, path);
      assert !UnwritableAt(node, [n] + path);
    } else {
      assert !UnwritableAt(node, []);
    }
  }

  predicate UnwritableAt(node: Tree, path: Path) {
    Find(node, path).Some? ==> Unwritable(Find(node, path).value)
  }

  lemma {:induction false} ReadOnlyBelow(node: Tree, path: Path)
    requires ReadOnly(node) && Find(node, path).Some?
    ensures Unwritable(Find(node, path).value)
    decreases |path|
  {
    WriteBits(node);
    if path != [] {
      ReadOnlyBelow(node.children[path[0]], path[1..]);
    }
  }

  lemma WriteBits(node: Tree)
    ensures node.File? || node.Folder? ==> (node.mode & NO_WRITE == node.mode <==> node.mode & 0x092 == 0)
  {
  }

  /** Neither a link, nor a file or folder with a write bit. */
  predicate Unwritable(node: Tree) {
    && !node.Symlink?
    && (node.File? || node.Folder? ==> node.mode & 0x092 == 0)
  }

  lemma {:induction false} FrozenIsReadOnly(node: Tree)
    requires Freezable(node)
    ensures ReadOnly(Frozen(node))
    decreases node
  {
    if node.Folder? {
      FrozenModes(node.mode);
      forall n | n in node.children ensures ReadOnly(Frozen(node.children[n])) {
        FrozenIsReadOnly(node.children[n]);
      }
    } else {
      FrozenModes(node.mode);
    }
  }

  lemma FrozenModes(mode: Mode)
    ensures Masked(mode & NO_WRITE) == Masked(mode)
    ensures Masked((mode & NO_WRITE) | OWNER_READ_SEARCH) == Masked(mode) | OWNER_READ_SEARCH
    ensures (mode & NO_WRITE) & NO_WRITE == mode & NO_WRITE
    ensures ((mode & NO_WRITE) | OWNER_READ_SEARCH) & NO_WRITE == (mode & NO_WRITE) | OWNER_READ_SEARCH
  {
  }

  /** What a freeze does to an inventory entry. */
  function FrozenEntry(e: Entry): Entry {
    if e.FolderEntry? then e.(mode := e.mode | OWNER_READ_SEARCH) else e
  }

  function FrozenEntries(entries: seq<Entry>): seq<Entry> {
    if entries == [] then [] else FrozenEntries(entries[..|entries| - 1]) + [FrozenEntry(entries[|entries| - 1])]
  }

  function FrozenTally(t: Tally): Tally {
    t.(entries := FrozenEntries(t.entries))
  }

  function FrozenResult(r: Result<Tally, Trouble>): Result<Tally, Trouble> {
    if r.Success? then Success(FrozenTally(r.value)) else r
  }

  lemma {:induction false} FrozenLength(entries: seq<Entry>)
    ensures |FrozenEntries(entries)| == |entries|
    ensures forall i :: 0 <= i < |entries| ==> FrozenEntries(entries)[i] == FrozenEntry(entries[i])
  {
    if entries != [] {
      FrozenLength(entries[..|entries| - 1]);
    }
  }

  lemma FrozenAdd(t: Tally, e: Entry)
    ensures AddEntry(FrozenTally(t), FrozenEntry(e)) == FrozenResult(AddEntry(t, e))
  {
    FrozenLength(t.entries);
    assert (t.entries + [e])[..|t.entries|] == t.entries;
  }

  lemma FrozenAddFile(t: Tally, path: Path, mode: Mode, content: string)
    ensures AddFile(FrozenTally(t), path, mode & NO_WRITE, content) == FrozenResult(AddFile(t, path, mode, content))
  {
    FrozenModes(mode);
    FrozenAdd(t.(total := t.total + |content|), FileEntry(path, Masked(mode), |content|, content));
  }

  lemma FrozenChild(node: Tree, name: string)
    requires node.Folder? && name in node.children
    ensures Frozen(node).Folder? && name in Frozen(node).children && Frozen(node).children[name] == Frozen(node.children[name])
    ensures var x, y := node.children[name], Frozen(node).children[name];
      && (x.File? ==> y == File(x.mode & NO_WRITE, x.content))
      && (x.Folder? <==> y.Folder?) && (!x.File? && !x.Folder? ==> y == x)
  {
  }

  lemma {:induction false} FrozenFiles(node: Tree, path: Path, names: seq<string>, t: Tally)
    requires node.Folder? && forall n :: n in names ==> n in node.children
    requires Frozen(node).Folder? && Frozen(node).children.Keys == node.children.Keys
    ensures WalkFiles(Frozen(node), path, names, FrozenTally(t)) == FrozenResult(WalkFiles(node, path, names, t))
  {
    hide AddFile, FrozenTally, Frozen;
    if names != [] {
      FrozenChild(node, names[0]);
      var file := node.children[names[0]];
      if file.File? {
        FrozenAddFile(t, path + [names[0]], file.mode, file.content);
        var added := AddFile(t, path + [names[0]], file.mode, file.content);
        if added.Success? {
          FrozenFiles(node, path, names[1..], added.value);
        }
      }
    }
  }

  lemma FrozenNames(node: Tree, path: Path)
    requires node.Folder?
    ensures Frozen(node).Folder? && Frozen(node).children.Keys == node.children.Keys
    ensures FolderNames(Frozen(node), path) == FolderNames(node, path) && FileNames(Frozen(node), path) == FileNames(node, path)
    ensures LinkedFolder(Frozen(node), path) == LinkedFolder(node, path)
  {
    hide SourcePathExcluded;
  }

  /** The walk of a frozen tree is the walk of the tree, entry by entry. */
  lemma {:induction false} FrozenWalk(node: Tree, path: Path, t: Tally)
    requires node.Folder?
    ensures WalkFolder(Frozen(node), path, FrozenTally(t)) == FrozenResult(WalkFolder(node, path, t))
    decreases node, 1, 0
  {
    hide FolderNames, FileNames, WalkFiles, WalkFolders, AddEntry, FrozenTally, LinkedFolder;
    FrozenNames(node, path);
    FrozenModes(node.mode);
    FrozenAdd(t, FolderEntry(path, Masked(node.mode)));
    var added := AddEntry(t, FolderEntry(path, Masked(node.mode)));
    if added.Success? && !LinkedFolder(node, path) {
      FrozenFiles(node, path, InOrder(FileNames(node, path)), added.value);
      var files := WalkFiles(node, path, InOrder(FileNames(node, path)), added.value);
      if files.Success? {
        NotLinked(node, path);
        FrozenFolders(node, path, InOrder(FolderNames(node, path)), files.value);
      }
    }
  }

  lemma NotLinked(node: Tree, path: Path)
    requires node.Folder? && !LinkedFolder(node, path)
    ensures forall n :: n in InOrder(FolderNames(node, path)) ==> n in node.children && node.children[n].Folder?
  {
  }

  lemma {:induction false} FrozenFolders(node: Tree, path: Path, names: seq<string>, t: Tally)
    requires node.Folder? && forall n :: n in names ==> n in node.children && node.children[n].Folder?
    ensures Frozen(node).Folder? && forall n :: n in names ==>
      n in Frozen(node).children && Frozen(node).children[n].Folder?
    ensures WalkFolders(Frozen(node), path, names, FrozenTally(t)) == FrozenResult(WalkFolders(node, path, names, t))
    decreases node, 0, |names|
  {
    hide WalkFolder, FrozenTally;
    if names != [] {
      FrozenWalk(node.children[names[0]], path + [names[0]], t);
      var first := WalkFolder(node.children[names[0]], path + [names[0]], t);
      if first.Success? {
        FrozenFolders(node, path, names[1..], first.value);
      }
    }
  }

  lemma {:induction false} FrozenRoots(root: Tree, names: seq<string>, t: Tally)
    requires root.Folder?
    ensures WalkRoots(Frozen(root), names, FrozenTally(t)) == FrozenResult(WalkRoots(root, names, t))
  {
    hide SourcePathExcluded, WalkFolder, AddFile, FrozenTally, Frozen;
    FrozenNames(root, []);
    if names != [] {
      if Visible(root, [], names[0]) {
        FrozenChild(root, names[0]);
        var x := root.children[names[0]];
        if x.File? {
          FrozenAddFile(t, [names[0]], x.mode, x.content);
        } else if x.Folder? {
          FrozenWalk(x, [names[0]], t);
        }
        var one := if x.File? then AddFile(t, [names[0]], x.mode, x.content)
                   else if x.Folder? then WalkFolder(x, [names[0]], t) else Failure(SpecialForbidden);
        if one.Success? {
          FrozenRoots(root, names[1..], one.value);
        }
      } else {
        FrozenRoots(root, names[1..], t);
      }
    }
  }

  lemma {:induction false} FrozenFind(node: Tree, path: Path)
    ensures Find(Frozen(node), path).Some? <==> Find(node, path).Some?
    ensures Find(node, path).Some? ==> (Find(Frozen(node), path).value.Symlink? <==> Find(node, path).value.Symlink?)
    decreases |path|
  {
    if path != [] && node.Folder? && path[0] in node.children {
      FrozenFind(node.children[path[0]], path[1..]);
    }
  }

  /** The entries of an inventory, each as a freeze leaves it. */
  function FrozenDigest(entries: seq<Entry>): seq<Entry> {
    if entries == [] then [] else [FrozenEntry(entries[0])] + FrozenDigest(entries[1..])
  }

  lemma {:induction false} FrozenDigestOf(entries: seq<Entry>)
    ensures FrozenDigest(entries) == FrozenEntries(entries)
  {
    if entries != [] {
      FrozenDigestOf(entries[1..]);
      FrozenLength(entries);
      FrozenLength(entries[1..]);
    }
  }

  lemma {:induction false} FrozenInsert(entries: seq<Entry>, e: Entry)
    ensures InsertEntry(FrozenDigest(entries), FrozenEntry(e)) == FrozenDigest(InsertEntry(entries, e))
  {
    if entries != [] {
      FrozenInsert(entries[1..], e);
      assert FrozenDigest(entries)[1..] == FrozenDigest(entries[1..]);
      assert ([e] + entries)[1..] == entries;
      assert ([entries[0]] + InsertEntry(entries[1..], e))[1..] == InsertEntry(entries[1..], e);
    }
  }

  /** A freeze commutes with the sort and keeps the number of files. */
  lemma {:induction false} FrozenSort(entries: seq<Entry>)
    ensures SortEntries(FrozenDigest(entries)) == FrozenDigest(SortEntries(entries))
    ensures CountFiles(FrozenDigest(entries)) == CountFiles(entries)
  {
    if entries != [] {
      assert FrozenDigest(entries)[1..] == FrozenDigest(entries[1..]);
      FrozenSort(entries[1..]);
      FrozenInsert(SortEntries(entries[1..]), entries[0]);
    }
  }

  function FrozenInventory(inventory: Inventory): Inventory {
    inventory.(digest := FrozenDigest(inventory.digest))
  }

  /** What a freeze makes of an inventory, for every tree. */
  lemma FreezeMapsInventory(root: Tree, required: seq<Path>)
    requires root.Folder?
    ensures InventoryOf(Frozen(root), required) ==
      if InventoryOf(root, required).Success? then Success(FrozenInventory(InventoryOf(root, required).value))
      else InventoryOf(root, required)
  {
    hide WalkRoots, Frozen;
    FrozenNames(root, []);
    FrozenRoots(root, PRODUCT_PATHS, Tally([], 0));
    FrozenComplete(root, required);
    assert FrozenTally(Tally([], 0)) == Tally([], 0);
    var walked := WalkRoots(root, PRODUCT_PATHS, Tally([], 0));
    if walked.Success? {
      FrozenDigestOf(walked.value.entries);
      FrozenSort(walked.value.entries);
    }
  }

  lemma FrozenComplete(root: Tree, required: seq<Path>)
    ensures Complete(Frozen(root), required) <==> Complete(root, required)
  {
    forall p | p in required
      ensures (Find(Frozen(root), p).Some? && !Find(Frozen(root), p).value.Symlink?) <==> (Find(root, p).Some? && !Find(root, p).value.Symlink?)
    {
      FrozenFind(root, p);
    }
  }

  /** Every folder on record lets its owner read and search it. */
  predicate OwnerSearchable(inventory: Inventory) {
    forall e :: e in inventory.digest && e.FolderEntry? ==> e.mode & OWNER_READ_SEARCH == OWNER_READ_SEARCH
  }

  lemma SearchableEntry(e: Entry)
    ensures FrozenEntry(e) == e <==> (e.FolderEntry? ==> e.mode & OWNER_READ_SEARCH == OWNER_READ_SEARCH)
  {
    if e.FolderEntry? {
      SearchableMode(e.mode);
    }
  }

  lemma SearchableMode(mode: Mode)
    ensures mode | OWNER_READ_SEARCH == mode <==> mode & OWNER_READ_SEARCH == OWNER_READ_SEARCH
  {
  }

  lemma {:induction false} SearchableDigest(entries: seq<Entry>)
    ensures FrozenDigest(entries) == entries
            <==> forall e :: e in entries && e.FolderEntry? ==> e.mode & OWNER_READ_SEARCH == OWNER_READ_SEARCH
  {
    if entries != [] {
      SearchableEntry(entries[0]);
      SearchableDigest(entries[1..]);
      assert entries == [entries[0]] + entries[1..];
      assert FrozenDigest(entries)[1..] == FrozenDigest(entries[1..]) && FrozenDigest(entries)[0] == FrozenEntry(entries[0]);
    }
  }

  /** A freeze keeps the inventory exactly when every recorded folder already lets its owner
      read and search it. */
  lemma FreezeKeepsInventoryExactly(root: Tree, required: seq<Path>)
    requires root.Folder? && InventoryOf(root, required).Success?
    ensures InventoryOf(Frozen(root), required) == InventoryOf(root, required)
            <==> OwnerSearchable(InventoryOf(root, required).value)
  {
    hide InventoryOf, Frozen;
    FreezeMapsInventory(root, required);
    SearchableDigest(InventoryOf(root, required).value.digest);
  }

  // ---------------------------------------------------------------------------
  // Finalizing a candidate and validating the slot
  // ---------------------------------------------------------------------------

  ghost function ValidateSlot(source: Tree, manifest: Inventory, required: seq<Path>): Result<(), Trouble> {
    var observed := InventoryOf(source, required);
    if observed.Failure? then Failure(observed.error)
    else if observed.value != manifest || !ReadOnly(source) then Failure(SourceUnavailable)
    else Success(())
  }

  /** The source part of a finalize: compare, freeze, publish, validate. */
  ghost function FinalizeCandidate(source: Tree, candidate: Inventory, required: seq<Path>): Result<Tree, Trouble> {
    var observed := InventoryOf(source, required);
    if observed.Failure? then Failure(observed.error)
    else if observed.value != candidate then Failure(SourceUnavailable)
    else if !Freezable(source) then Failure(SymlinkForbidden)
    else
      var verified := ValidateSlot(Frozen(source), candidate, required);
      if verified.Failure? then Failure(verified.error) else Success(Frozen(source))
  }

  /** Exactly when a candidate is published and its slot agrees with its manifest. */
  lemma FinalizeAgreesExactly(source: Tree, candidate: Inventory, required: seq<Path>)
    ensures FinalizeCandidate(source, candidate, required).Success?
            <==> InventoryOf(source, required) == Success(candidate) && Freezable(source) && OwnerSearchable(candidate)
  {
    hide Frozen, OwnerSearchable, ReadOnly;
    if InventoryOf(source, required) == Success(candidate) && Freezable(source) {
      FreezeKeepsInventoryExactly(source, required);
      FreezeMapsInventory(source, required);
      FrozenIsReadOnly(source);
    }
  }

  /** A whole life of a source: copied, finalized, used by an interpreter that leaves caches,
      and cleaned; every inventory on the way is the one of the original. */
  lemma SlotKeepsInventory(root: Tree, required: seq<Path>, at: Path, cache: Tree)
    requires root.Folder? && InventoryOf(root, required).Success? && forall p :: p in required ==> Seen(p)
    requires Freezable(Copied(root)) && OwnerSearchable(InventoryOf(root, required).value)
    ensures var inventory := InventoryOf(root, required).value;
      && InventoryOf(Copied(root), required) == Success(inventory)
      && FinalizeCandidate(Copied(root), inventory, required) == Success(Frozen(Copied(root)))
      && InventoryOf(Grafted(Frozen(Copied(root)), at, CACHE, Some(cache)), required) == Success(inventory)
      && var cleaned := ConvergeLegacyCaches(Grafted(Frozen(Copied(root)), at, CACHE, Some(cache)));
      && (cleaned.Success? ==> InventoryOf(cleaned.value, required) == Success(inventory))
  {
    hide InventoryOf, Copied, Frozen, Grafted, ConvergeLegacyCaches, Seen, OwnerSearchable, SourcePathExcluded, SafeAt;
    var inventory := InventoryOf(root, required).value;
    CopyKeepsInventory(root, required);
    CopyIsFolder(root);
    FinalizeAgreesExactly(Copied(root), inventory, required);
    FreezeKeepsInventoryExactly(Copied(root), required);
    var slot := Frozen(Copied(root));
    CachesAreExcluded(at);
    FrozenNames(Copied(root), []);
    ExcludedEntriesDoNotCount(slot, at, CACHE, Some(cache), required);
    GraftIsFolder(slot, at, CACHE, Some(cache));
    CleanupKeepsInventory(Grafted(slot, at, CACHE, Some(cache)), required);
  }

  lemma CopyIsFolder(root: Tree)
    requires root.Folder?
    ensures Copied(root).Folder?
  {
  }

  lemma GraftIsFolder(node: Tree, at: Path, name: string, entry: Option<Tree>)
    requires node.Folder?
    ensures Grafted(node, at, name, entry).Folder?
  {
  }
}
