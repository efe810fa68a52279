/** The product source inventory: a pruned tree walk, and what leaves it unchanged. */
module SourceInventory {
  import opened Wrappers
  import opened NameOrder
  import PathText

  type Path = seq<string>

  /** Permission bits; the twelve bits of `S_IMODE`. */
  type Mode = bv12

  /** Clears the write bits of everyone. */
  const NO_WRITE: Mode := 0xF6D

  const OWNER_READ_SEARCH: Mode := 0x140

  const COPY_ROOT_MODE: Mode := 0x1C0

  datatype Tree =
    | File(mode: Mode, content: string)
    | Folder(mode: Mode, children: map<string, Tree>)
    | Symlink(toFolder: bool)
    | Special

  /** A file is represented by its content, in place of its digest. */
  datatype Entry =
    | FolderEntry(path: Path, mode: Mode)
    | FileEntry(path: Path, mode: Mode, size: nat, content: string)

  datatype Tally = Tally(entries: seq<Entry>, total: nat)

  datatype Trouble = TooLarge | SymlinkForbidden | SpecialForbidden | SourceIncomplete | SourceUnavailable

  const MAX_INVENTORY_ENTRIES := 200_000
  const MAX_INVENTORY_BYTES := 0x1_0000_0000

  const PRODUCT_PATHS: seq<string> := [
    "apps", "deploy", "docs", "release", "scripts", "docker-compose.yml", "docker-compose.pytest.yml",
    ".dockerignore", ".env.example", ".gitattributes", ".gitignore", ".km-vms-release.json", ".km-vms-source.json"]

  // ---------------------------------------------------------------------------
  // What the inventory does not see
  // ---------------------------------------------------------------------------

  const BLOCKED_DIRECTORIES: set<string> := {
    ".git", "data", "logs", "log", "node_modules", ".next", "__pycache__", ".pytest_cache", "coverage", "dist",
    "build", "service-artifacts", "service_artifacts", ".ssh"}

  const BLOCKED_ENDINGS: seq<string> := [
    ".zip", ".tar", ".tar.gz", ".tgz", ".rar", ".7z", ".pem", ".key", ".p12", ".pfx", ".crt", ".csr", ".token",
    ".secret", ".dump", ".sql", ".sqlite", ".db", "token.txt", "secret.txt", "secret.json"]

  const BLOCKED_BEGINNINGS: seq<string> := ["github-token", "auth-token", "authorization-token"]

  function Lowered(name: string): string {
    seq(|name|, i requires 0 <= i < |name| => if 'A' <= name[i] <= 'Z' then name[i] - 'A' + 'a' else name[i])
  }

  predicate EndsWith(name: string, ending: string) {
    |ending| <= |name| && name[|name| - |ending|..] == ending
  }

  predicate Contains(name: string, part: string) {
    exists i :: 0 <= i <= |name| && part <= name[i..]
  }

  predicate NameExcluded(lowered: string) {
    || lowered == "id_rsa" || lowered == "id_ed25519"
    || (exists e :: e in BLOCKED_ENDINGS && EndsWith(lowered, e))
    || Contains(lowered, "credential") || Contains(lowered, "password")
    || (exists b :: b in BLOCKED_BEGINNINGS && b <= lowered)
  }

  predicate SourcePathExcluded(path: Path) {
    && path != [".env.example"]
    && path != []
    && (|| (exists part :: part in path && part in BLOCKED_DIRECTORIES)
        || (exists part :: part in path && (part == ".env" || ".env." <= part))
        || NameExcluded(Lowered(path[|path| - 1])))
  }

  /** A name that is, ends, contains or begins with what only secrets do is excluded in every
      folder, whatever the case of its letters; so is the environment file and each of its
      variants, but for the one example at the root. */
  lemma SecretsAreExcluded(path: Path, name: string, before: string, after: string)
    ensures var whole, lowered := path + [name], Lowered(name);
      whole != [".env.example"] ==>
        && (lowered in {"id_rsa", "id_ed25519"} ==> SourcePathExcluded(whole))
        && (after in BLOCKED_ENDINGS && lowered == before + after ==> SourcePathExcluded(whole))
        && (lowered == before + "credential" + after || lowered == before + "password" + after ==> SourcePathExcluded(whole))
        && (before in BLOCKED_BEGINNINGS && lowered == before + after ==> SourcePathExcluded(whole))
        && (name == ".env" || name == ".env." + after ==> SourcePathExcluded(whole))
    ensures !SourcePathExcluded([".env.example"])
  {
    hide BLOCKED_ENDINGS, BLOCKED_BEGINNINGS, BLOCKED_DIRECTORIES;
    var whole, lowered := path + [name], Lowered(name);
    assert whole[|whole| - 1] == name && name in whole;
    if after in BLOCKED_ENDINGS && lowered == before + after {
      assert EndsWith(lowered, after);
    }
    forall part: string | lowered == before + part + after
      ensures Contains(lowered, part)
    {
      assert lowered[|before|..] == part + after;
    }
    if name == ".env." + after {
      assert ".env." <= name;
    }
  }

  /** Nothing below a blocked folder is ever seen. */
  lemma BlockedFoldersHideAll(path: Path, folder: string, rest: Path)
    requires folder in BLOCKED_DIRECTORIES
    ensures SourcePathExcluded(path + [folder] + rest)
  {
    var whole := path + [folder] + rest;
    assert whole[|path|] == folder;
    assert folder in whole;
  }

  lemma CachesAreExcluded(path: Path)
    ensures SourcePathExcluded(path + ["__pycache__"])
  {
    var whole := path + ["__pycache__"];
    assert whole[|path|] == "__pycache__";
    assert "__pycache__" in whole && "__pycache__" in BLOCKED_DIRECTORIES;
    assert whole != [".env.example"] by {
      if |path| == 0 {
        assert whole[0] != ".env.example";
      }
    }
  }

  // ---------------------------------------------------------------------------
  // The walk
  // ---------------------------------------------------------------------------

  function Masked(mode: Mode): Mode {
    mode & NO_WRITE
  }

  function AddEntry(t: Tally, e: Entry): Result<Tally, Trouble> {
    if |t.entries| >= MAX_INVENTORY_ENTRIES then Failure(TooLarge) else Success(t.(entries := t.entries + [e]))
  }

  function AddFile(t: Tally, path: Path, mode: Mode, content: string): Result<Tally, Trouble> {
    if |content| > MAX_INVENTORY_BYTES || t.total + |content| > MAX_INVENTORY_BYTES then Failure(TooLarge)
    else AddEntry(t.(total := t.total + |content|), FileEntry(path, Masked(mode), |content|, content))
  }

  predicate LooksLikeFolder(node: Tree) {
    node.Folder? || (node.Symlink? && node.toFolder)
  }

  predicate Visible(node: Tree, path: Path, name: string)
    requires node.Folder?
  {
    name in node.children && !SourcePathExcluded(path + [name])
  }

  ghost function FolderNames(node: Tree, path: Path): (r: set<string>)
    requires node.Folder?
    ensures forall n :: n in r ==> n in node.children
  {
    set n | n in node.children && Visible(node, path, n) && LooksLikeFolder(node.children[n])
  }

  ghost function FileNames(node: Tree, path: Path): (r: set<string>)
    requires node.Folder?
    ensures forall n :: n in r ==> n in node.children
  {
    set n | n in node.children && Visible(node, path, n) && !LooksLikeFolder(node.children[n])
  }

  /** The files of one folder, in the order given. */
  function WalkFiles(node: Tree, path: Path, names: seq<string>, t: Tally): Result<Tally, Trouble>
    requires node.Folder? && forall n :: n in names ==> n in node.children
  {
    if names == [] then Success(t)
    else
      match node.children[names[0]]
      case File(mode, content) =>
        var added := AddFile(t, path + [names[0]], mode, content);
        if added.Failure? then added else WalkFiles(node, path, names[1..], added.value)
      case Symlink(_) => Failure(SymlinkForbidden)
      case Special => Failure(SpecialForbidden)
      case Folder(_, _) => Failure(SpecialForbidden)
  }

  /** A visible link to a folder. */
  ghost predicate LinkedFolder(node: Tree, path: Path)
    requires node.Folder?
  {
    exists n :: n in FolderNames(node, path) && !node.children[n].Folder?
  }

  /** One folder: its own entry, its files, then its folders, each in the order of names. */
  ghost function WalkFolder(node: Tree, path: Path, t: Tally): Result<Tally, Trouble>
    requires node.Folder?
    decreases node, 1, 0
  {
    var added := AddEntry(t, FolderEntry(path, Masked(node.mode)));
    if added.Failure? then added
    else if LinkedFolder(node, path) then Failure(SymlinkForbidden)
    else
      var files := WalkFiles(node, path, InOrder(FileNames(node, path)), added.value);
      if files.Failure? then files
      else WalkFolders(node, path, InOrder(FolderNames(node, path)), files.value)
  }

  ghost function WalkFolders(node: Tree, path: Path, names: seq<string>, t: Tally): Result<Tally, Trouble>
    requires node.Folder? && forall n :: n in names ==> n in node.children && node.children[n].Folder?
    decreases node, 0, |names|
  {
    if names == [] then Success(t)
    else
      var first := WalkFolder(node.children[names[0]], path + [names[0]], t);
      if first.Failure? then first else WalkFolders(node, path, names[1..], first.value)
  }

  // ---------------------------------------------------------------------------
  // The walk as the source runs it
  // ---------------------------------------------------------------------------

  /** What one directory listing may be: every name once or more, in any order. */
  ghost predicate Lists(listing: Path -> seq<string>, node: Tree, path: Path)
    decreases node
  {
    node.Folder? ==>
      && Elements(listing(path)) == node.children.Keys
      && forall n :: n in node.children ==> Lists(listing, node.children[n], path + [n])
  }

  /** Splits and prunes one listing, as `os.walk` and the two filters do. */
  method SplitListing(node: Tree, path: Path, names: seq<string>) returns (dirnames: seq<string>, filenames: seq<string>)
    requires node.Folder? && Elements(names) == node.children.Keys
    ensures Sorted(dirnames) == InOrder(FolderNames(node, path))
    ensures Sorted(filenames) == InOrder(FileNames(node, path))
  {
    hide SourcePathExcluded;
    dirnames, filenames := [], [];
    for i := 0 to |names|
      invariant Elements(dirnames) == set n | n in names[..i] && n in FolderNames(node, path)
      invariant Elements(filenames) == set n | n in names[..i] && n in FileNames(node, path)
    {
      var name := names[i];
      assert name in Elements(names);
      assert names[..i + 1] == names[..i] + [name];
      if !SourcePathExcluded(path + [name]) {
        if LooksLikeFolder(node.children[name]) {
          ElementsOfFirst(name, dirnames);
          dirnames := [name] + dirnames;
        } else {
          ElementsOfFirst(name, filenames);
          filenames := [name] + filenames;
        }
      }
    }
    assert names[..|names|] == names;
    SameOrder(node, path, names, dirnames, filenames);
  }

  lemma SameOrder(node: Tree, path: Path, names: seq<string>, dirnames: seq<string>, filenames: seq<string>)
    requires node.Folder? && Elements(names) == node.children.Keys
    requires Elements(dirnames) == set n | n in names && n in FolderNames(node, path)
    requires Elements(filenames) == set n | n in names && n in FileNames(node, path)
    ensures Sorted(dirnames) == InOrder(FolderNames(node, path))
    ensures Sorted(filenames) == InOrder(FileNames(node, path))
  {
    forall n | n in node.children ensures n in names {
      assert n in Elements(names);
    }
    assert Elements(dirnames) == FolderNames(node, path);
    assert Elements(filenames) == FileNames(node, path);
    SortedForgetsOrder(dirnames, ListOf(FolderNames(node, path)));
    SortedForgetsOrder(filenames, ListOf(FileNames(node, path)));
  }

  method AddFiles(node: Tree, path: Path, names: seq<string>, t: Tally) returns (r: Result<Tally, Trouble>)
    requires node.Folder? && forall n :: n in names ==> n in node.children
    ensures r == WalkFiles(node, path, names, t)
  {
    hide AddFile;
    var tally := t;
    for i := 0 to |names|
      invariant WalkFiles(node, path, names[i..], tally) == WalkFiles(node, path, names, t)
    {
      var name := names[i];
      assert names[i..][0] == name && names[i..][1..] == names[i + 1..];
      match node.children[name] {
        case File(mode, content) =>
          var added := AddFile(tally, path + [name], mode, content);
          if added.Failure? {
            return added;
          }
          tally := added.value;
        case Symlink(_) => return Failure(SymlinkForbidden);
        case Special => return Failure(SpecialForbidden);
        case Folder(_, _) => return Failure(SpecialForbidden);
      }
    }
    r := Success(tally);
  }

  method AllFolders(node: Tree, names: seq<string>) returns (all: bool)
    requires node.Folder? && forall n :: n in names ==> n in node.children
    ensures all <==> forall n :: n in names ==> node.children[n].Folder?
  {
    for i := 0 to |names|
      invariant forall k :: 0 <= k < i ==> node.children[names[k]].Folder?
    {
      if !node.children[names[i]].Folder? {
        return false;
      }
    }
    all := true;
  }

  method WalkBelow(node: Tree, path: Path, names: seq<string>, listing: Path -> seq<string>, t: Tally) returns (r: Result<Tally, Trouble>)
    requires node.Folder? && Lists(listing, node, path)
    requires forall n :: n in names ==> n in node.children && node.children[n].Folder?
    ensures r == WalkFolders(node, path, names, t)
    decreases node, 0
  {
    hide SourcePathExcluded, WalkFolder;
    var tally := t;
    for i := 0 to |names|
      invariant WalkFolders(node, path, names[i..], tally) == WalkFolders(node, path, names, t)
    {
      assert names[i..][0] == names[i] && names[i..][1..] == names[i + 1..];
      var below := WalkDirectory(node.children[names[i]], path + [names[i]], listing, tally);
      if below.Failure? {
        return below;
      }
      tally := below.value;
    }
    r := Success(tally);
  }

  /** One directory of the walk and everything below it.  The result does not depend on the
      order in which directories are listed. */
  method WalkDirectory(node: Tree, path: Path, listing: Path -> seq<string>, t: Tally) returns (r: Result<Tally, Trouble>)
    requires node.Folder? && Lists(listing, node, path)
    ensures r == WalkFolder(node, path, t)
    decreases node, 1
  {
    hide SourcePathExcluded, WalkFolders, WalkFiles, FolderNames, FileNames, Sorted;
    var added := AddEntry(t, FolderEntry(path, Masked(node.mode)));
    if added.Failure? {
      return added;
    }
    var dirnames, filenames := SplitListing(node, path, listing(path));
    dirnames, filenames := Sorted(dirnames), Sorted(filenames);
    var all := AllFolders(node, dirnames);
    if !all {
      return Failure(SymlinkForbidden);
    }
    var files := AddFiles(node, path, filenames, added.value);
    if files.Failure? {
      return files;
    }
    r := WalkBelow(node, path, dirnames, listing, files.value);
  }

  // ---------------------------------------------------------------------------
  // The inventory
  // ---------------------------------------------------------------------------

  /** `digest` stands for the digest of the sorted entries. */
  datatype Inventory = Inventory(digest: seq<Entry>, fileCount: nat, total: nat)

  function KeyOf(e: Entry): string {
    PathText.Slashed(e.path)
  }

  function InsertEntry(entries: seq<Entry>, e: Entry): seq<Entry> {
    if entries == [] || !Before(KeyOf(entries[0]), KeyOf(e)) then [e] + entries
    else [entries[0]] + InsertEntry(entries[1..], e)
  }

  function SortEntries(entries: seq<Entry>): seq<Entry> {
    if entries == [] then [] else InsertEntry(SortEntries(entries[1..]), entries[0])
  }

  function CountFiles(entries: seq<Entry>): nat {
    if entries == [] then 0 else (if entries[0].FileEntry? then 1 else 0) + CountFiles(entries[1..])
  }

  function Find(node: Tree, path: Path): Option<Tree> {
    if path == [] then Some(node)
    else if node.Folder? && path[0] in node.children then Find(node.children[path[0]], path[1..])
    else None
  }

  predicate Complete(root: Tree, required: seq<Path>) {
    forall p :: p in required ==> Find(root, p).Some? && !Find(root, p).value.Symlink?
  }

  /** A product path is recorded as a file or walked as a directory; nothing else may be there. */
  ghost function WalkNode(node: Tree, path: Path, t: Tally): Result<Tally, Trouble> {
    match node
    case File(mode, content) => AddFile(t, path, mode, content)
    case Folder(_, _) => WalkFolder(node, path, t)
    case Symlink(_) => Failure(SymlinkForbidden)
    case Special => Failure(SpecialForbidden)
  }

  ghost function WalkRoots(root: Tree, names: seq<string>, t: Tally): Result<Tally, Trouble>
    requires root.Folder?
  {
    if names == [] then Success(t)
    else if !Visible(root, [], names[0]) then WalkRoots(root, names[1..], t)
    else
      var one := WalkNode(root.children[names[0]], [names[0]], t);
      if one.Failure? then one else WalkRoots(root, names[1..], one.value)
  }

  function InventoryFrom(t: Tally): Inventory {
    Inventory(SortEntries(t.entries), CountFiles(t.entries), t.total)
  }

  ghost function InventoryOf(root: Tree, required: seq<Path>): Result<Inventory, Trouble> {
    if !root.Folder? then Failure(SourceUnavailable)
    else if !Complete(root, required) then Failure(SourceIncomplete)
    else
      var walked := WalkRoots(root, PRODUCT_PATHS, Tally([], 0));
      if walked.Failure? then Failure(walked.error) else Success(InventoryFrom(walked.value))
  }

  /** One product path of the source root. */
  method WalkRoot(root: Tree, name: string, listing: Path -> seq<string>, t: Tally) returns (r: Result<Tally, Trouble>)
    requires root.Folder? && Lists(listing, root, []) && name in root.children
    ensures r == WalkNode(root.children[name], [name], t)
  {
    assert [] + [name] == [name];
    match root.children[name] {
      case File(mode, content) => r := AddFile(t, [name], mode, content);
      case Folder(_, _) => r := WalkDirectory(root.children[name], [name], listing, t);
      case Symlink(_) => r := Failure(SymlinkForbidden);
      case Special => r := Failure(SpecialForbidden);
    }
  }

  /** The inventory of a source tree, whatever order its directories are listed in. */
  method ProductInventory(root: Tree, required: seq<Path>, listing: Path -> seq<string>) returns (r: Result<Inventory, Trouble>)
    requires Lists(listing, root, [])
    ensures r == InventoryOf(root, required)
  {
    hide SourcePathExcluded, Complete, WalkFolder, AddFile, Lists, InventoryFrom;
    if !root.Folder? {
      return Failure(SourceUnavailable);
    }
    if !Complete(root, required) {
      return Failure(SourceIncomplete);
    }
    var tally := Tally([], 0);
    for i := 0 to |PRODUCT_PATHS|
      invariant WalkRoots(root, PRODUCT_PATHS[i..], tally) == WalkRoots(root, PRODUCT_PATHS, Tally([], 0))
    {
      var name := PRODUCT_PATHS[i];
      assert PRODUCT_PATHS[i..][0] == name && PRODUCT_PATHS[i..][1..] == PRODUCT_PATHS[i + 1..];
      assert [] + [name] == [name];
      if name in root.children && !SourcePathExcluded([name]) {
        var one := WalkRoot(root, name, listing, tally);
        if one.Failure? {
          return Failure(one.error);
        }
        tally := one.value;
      }
    }
    r := Success(InventoryFrom(tally));
  }

  // ---------------------------------------------------------------------------
  // What leaves the inventory unchanged
  // ---------------------------------------------------------------------------

  /** The two trees differ at most in what the inventory does not see. */
  ghost predicate Agrees(a: Tree, b: Tree, path: Path)
    decreases a
  {
    match a
    case File(mode, content) => b.File? && Masked(b.mode) == Masked(mode) && b.content == content
    case Folder(mode, children) =>
      && b.Folder? && Masked(b.mode) == Masked(mode)
      && (forall n :: n in children && !SourcePathExcluded(path + [n]) ==> n in b.children && Agrees(children[n], b.children[n], path + [n]))
      && (forall n :: n in b.children && !SourcePathExcluded(path + [n]) ==> n in children)
    case Symlink(_) => b == a
    case Special => b == a
  }

  /** Both folders have the names, and below each of them the trees agree. */
  ghost predicate AgreeAt(a: Tree, b: Tree, path: Path, names: seq<string>) {
    a.Folder? && b.Folder?
    && forall n :: n in names ==> n in a.children && n in b.children && Agrees(a.children[n], b.children[n], path + [n])
  }

  lemma {:induction false} AgreeingFiles(a: Tree, b: Tree, path: Path, names: seq<string>, t: Tally)
    requires AgreeAt(a, b, path, names)
    ensures WalkFiles(b, path, names, t) == WalkFiles(a, path, names, t)
  {
    hide SourcePathExcluded, AddFile;
    if names != [] && a.children[names[0]].File? {
      assert names[0] in names;
      assert AgreeAt(a, b, path, names[1..]);
      var x, y := a.children[names[0]], b.children[names[0]];
      SameFile(t, path + [names[0]], x, y);
      var added := AddFile(t, path + [names[0]], x.mode, x.content);
      if added.Success? {
        AgreeingFiles(a, b, path, names[1..], added.value);
      }
    }
  }

  lemma SameFile(t: Tally, path: Path, a: Tree, b: Tree)
    requires a.File? && b.File? && Masked(a.mode) == Masked(b.mode) && a.content == b.content
    ensures AddFile(t, path, a.mode, a.content) == AddFile(t, path, b.mode, b.content)
  {
  }

  /** Trees that agree list the same names in the same order. */
  lemma AgreeingNames(a: Tree, b: Tree, path: Path)
    requires a.Folder? && Agrees(a, b, path)
    ensures b.Folder? && FolderNames(a, path) == FolderNames(b, path) && FileNames(a, path) == FileNames(b, path)
    ensures AgreeAt(a, b, path, InOrder(FolderNames(a, path))) && AgreeAt(a, b, path, InOrder(FileNames(a, path)))
    ensures LinkedFolder(a, path) == LinkedFolder(b, path)
  {
    hide SourcePathExcluded;
  }

  /** Trees that agree have the same walk, entries and failures alike. */
  lemma {:induction false} AgreeingWalk(a: Tree, b: Tree, path: Path, t: Tally)
    requires a.Folder? && b.Folder? && Agrees(a, b, path)
    ensures WalkFolder(a, path, t) == WalkFolder(b, path, t)
    decreases a, 1, 0
  {
    hide SourcePathExcluded, FolderNames, FileNames, WalkFiles, WalkFolders, AgreeAt;
    AgreeingNames(a, b, path);
    var added := AddEntry(t, FolderEntry(path, Masked(a.mode)));
    if added.Success? && !LinkedFolder(a, path) {
      AgreeingFiles(a, b, path, InOrder(FileNames(a, path)), added.value);
      var files := WalkFiles(a, path, InOrder(FileNames(a, path)), added.value);
      if files.Success? {
        AgreeingFolders(a, b, path, InOrder(FolderNames(a, path)), files.value);
      }
    }
  }

  lemma {:induction false} AgreeingFolders(a: Tree, b: Tree, path: Path, names: seq<string>, t: Tally)
    requires AgreeAt(a, b, path, names)
    requires forall n :: n in names ==> a.children[n].Folder? && b.children[n].Folder?
    ensures WalkFolders(a, path, names, t) == WalkFolders(b, path, names, t)
    decreases a, 0, |names|
  {
    hide SourcePathExcluded, WalkFolder;
    if names != [] {
      assert names[0] in names;
      AgreeingWalk(a.children[names[0]], b.children[names[0]], path + [names[0]], t);
      var first := WalkFolder(a.children[names[0]], path + [names[0]], t);
      if first.Success? {
        AgreeingFolders(a, b, path, names[1..], first.value);
      }
    }
  }
}
