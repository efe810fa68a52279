/** The approval loop of the archive probe: which requested host folders may be bound. */
module ArchiveApproval {
  import opened Wrappers
  import opened PathText
  import opened HostResolver

  /** `markerValid` is what reading the marker file of a new folder finds, if there is one. */
  datatype Item = Item(source: string, target: string, inactive: bool, markerValid: bool)

  datatype Payload = Payload(appDir: string, dockerRoot: string, trusted: seq<string>, mountPoints: seq<string>, items: seq<Item>)

  datatype Approved = Approved(parts: seq<string>, target: string, isDefault: bool)

  /** The resolved places the checks compare with. */
  datatype Places = Places(app: seq<string>, docker: seq<string>, trusted: set<seq<string>>, mounts: set<seq<string>>)

  const BLOCKED: set<string> := {
    "/bin", "/boot", "/dev", "/etc", "/lib", "/lib64", "/proc", "/run",
    "/sbin", "/sys", "/usr", "/var", "/root", "/tmp", "/home"}

  /** The same directories as names below the root. */
  const BLOCKED_NAMES: set<string> := {
    "bin", "boot", "dev", "etc", "lib", "lib64", "proc", "run",
    "sbin", "sys", "usr", "var", "root", "tmp", "home"}

  const ARCHIVE_TAIL := ["data", "archive"]

  const MARKER := ".km-vms-storage-root.json"
  const NAMESPACE := "kmvms"
  const LOCK := ".kmvms_retention_apply.lock"
  const INTERNAL: set<string> := {".km-vms-internal", ".km-vms-internal-quarantine"}

  /** The places a list of paths denotes. */
  function Resolved(root: Node, paths: seq<string>): set<seq<string>> {
    set i | 0 <= i < |paths| && CanonicalParts(root, paths[i]).Success? :: CanonicalParts(root, paths[i]).value
  }

  predicate Broken(root: Node, path: string) {
    CanonicalParts(root, path).Failure? && CanonicalParts(root, path).error != NotFound
  }

  /** Trusted archives may be missing, but every other failure stops the probe; mount points
      that do not resolve are passed over. */
  method ResolveAll(root: Node, paths: seq<string>, tolerant: bool) returns (r: Result<set<seq<string>>, Trouble>)
    ensures r.Success? ==> r.value == Resolved(root, paths)
    ensures r.Success? <==> tolerant || forall i :: 0 <= i < |paths| ==> !Broken(root, paths[i])
  {
    hide CanonicalParts;
    var found := {};
    for i := 0 to |paths|
      invariant found == Resolved(root, paths[..i])
      invariant tolerant || forall k :: 0 <= k < i ==> !Broken(root, paths[k])
    {
      var one := Canonical(root, paths[i]);
      ResolvedGrows(root, paths, i);
      if one.Success? {
        found := found + {one.value};
      } else if !tolerant && one.error != NotFound {
        return Failure(one.error);
      }
    }
    assert paths[..|paths|] == paths;
    r := Success(found);
  }

  lemma ResolvedGrows(root: Node, paths: seq<string>, i: nat)
    requires i < |paths|
    ensures var one := CanonicalParts(root, paths[i]);
      Resolved(root, paths[..i + 1]) == Resolved(root, paths[..i]) + (if one.Success? then {one.value} else {})
  {
    hide CanonicalParts;
    var shorter, longer := paths[..i], paths[..i + 1];
    forall p | p in Resolved(root, shorter) ensures p in Resolved(root, longer) {
      var k :| 0 <= k < |shorter| && CanonicalParts(root, shorter[k]).Success? && CanonicalParts(root, shorter[k]).value == p;
      assert longer[k] == shorter[k];
    }
    forall p | p in Resolved(root, longer) ensures p in Resolved(root, shorter) || CanonicalParts(root, paths[i]) == Success(p) {
      var k :| 0 <= k < |longer| && CanonicalParts(root, longer[k]).Success? && CanonicalParts(root, longer[k]).value == p;
      if k < i {
        assert longer[k] == shorter[k];
      }
    }
    assert longer[i] == paths[i];
  }

  // ---------------------------------------------------------------------------
  // One item
  // ---------------------------------------------------------------------------

  /** The text tests of the probe against one resolved source. */
  predicate UnderBlocked(source: string) {
    exists p :: p in BLOCKED && (source == p || p + "/" <= source)
  }

  predicate IsDefault(source: seq<string>, item: Item, payload: Payload, at: Places) {
    && Render(source) == Render(at.app) + "/data/archive"
    && item.source == StripSlashes(payload.appDir) + "/data/archive"
  }

  predicate Protected(source: seq<string>, isDefault: bool, at: Places) {
    || Render(source) == "/"
    || (!isDefault && UnderBlocked(Render(source)))
    || Overlaps(Render(source), Render(at.docker))
    || (Overlaps(Render(source), Render(at.app)) && !isDefault)
    || source in at.mounts
  }

  function ParentText(parts: seq<string>): string {
    if parts == [] then "/" else Render(parts[..|parts| - 1])
  }

  predicate OnVolume(source: seq<string>, at: Places) {
    exists m :: m in at.mounts && ParentText(source) == Render(m)
  }

  predicate MeetsTrusted(source: seq<string>, at: Places) {
    exists t :: t in at.trusted && Overlaps(Render(source), Render(t))
  }

  /** The look into a new folder: at most five entries, no links, and nothing but what the
      product itself puts there. */
  predicate ContentsAccepted(folder: Node, markerValid: bool)
    requires folder.Directory?
  {
    var entries := folder.entries;
    && |entries| <= 5 && (forall n :: n in entries ==> !entries[n].Link?)
    && entries.Keys <= {MARKER, NAMESPACE, LOCK} + INTERNAL
    && (forall n :: n in entries.Keys && n in INTERNAL ==> entries[n].Directory?)
    && (LOCK in entries ==> entries[LOCK].File?)
    && (NAMESPACE in entries ==>
          && entries[NAMESPACE].Directory?
          && forall n :: n in entries[NAMESPACE].entries ==>
               n == "recordings" && entries[NAMESPACE].entries[n].Directory?)
    && (MARKER in entries ==> entries[MARKER].File? && markerValid)
  }

  /** What a new folder may hold at a path below it.  Only two levels are looked at. */
  predicate Ours(path: seq<string>, node: Node, markerValid: bool) {
    if |path| == 1 then
      if path[0] == MARKER then node.File? && markerValid
      else if path[0] == LOCK then node.File?
      else (path[0] == NAMESPACE || path[0] in INTERNAL) && node.Directory?
    else if |path| == 2 && path[0] == NAMESPACE then path[1] == "recordings" && node.Directory?
    else true
  }

  ghost predicate AllOurs(folder: Node, markerValid: bool) {
    forall path :: Lookup(folder, path).Some? ==> Ours(path, Lookup(folder, path).value, markerValid)
  }

  /** The look finds exactly the folders whose every path is one of ours; the limit on the
      number of entries adds nothing. */
  lemma ContentsExactly(folder: Node, markerValid: bool)
    requires folder.Directory?
    ensures ContentsAccepted(folder, markerValid) <==> AllOurs(folder, markerValid)
  {
    if ContentsAccepted(folder, markerValid) {
      forall path | Lookup(folder, path).Some?
        ensures Ours(path, Lookup(folder, path).value, markerValid)
      {
        AcceptedIsOurs(folder, path, markerValid);
      }
    }
    if AllOurs(folder, markerValid) {
      OursIsAccepted(folder, markerValid);
    }
  }

  lemma OursIsAccepted(folder: Node, markerValid: bool)
    requires folder.Directory? && AllOurs(folder, markerValid)
    ensures ContentsAccepted(folder, markerValid)
  {
    var entries := folder.entries;
    forall n | n in entries
      ensures Ours([n], entries[n], markerValid)
    {
      LookupOfOne(folder, n);
      assert Lookup(folder, [n]).Some?;
    }
    if NAMESPACE in entries {
      assert Ours([NAMESPACE], entries[NAMESPACE], markerValid);
      forall n | n in entries[NAMESPACE].entries
        ensures Ours([NAMESPACE, n], entries[NAMESPACE].entries[n], markerValid)
      {
        LookupOfTwo(folder, NAMESPACE, n);
        assert Lookup(folder, [NAMESPACE, n]).Some?;
      }
    }
    FewNames(entries, {MARKER, NAMESPACE, LOCK} + INTERNAL);
  }

  lemma LookupOfOne(folder: Node, n: string)
    requires folder.Directory? && n in folder.entries
    ensures Lookup(folder, [n]) == Some(folder.entries[n])
  {
    assert [n][1..] == [];
  }

  lemma LookupOfTwo(folder: Node, n: string, m: string)
    requires folder.Directory? && n in folder.entries
    requires folder.entries[n].Directory? && m in folder.entries[n].entries
    ensures Lookup(folder, [n, m]) == Some(folder.entries[n].entries[m])
  {
    assert [n, m][1..] == [m];
    LookupOfOne(folder.entries[n], m);
  }

  lemma AcceptedIsOurs(folder: Node, path: seq<string>, markerValid: bool)
    requires folder.Directory? && ContentsAccepted(folder, markerValid) && Lookup(folder, path).Some?
    ensures Ours(path, Lookup(folder, path).value, markerValid)
  {
    if |path| == 1 {
      LookupOfOne(folder, path[0]);
      assert path == [path[0]];
    } else if |path| == 2 && path[0] == NAMESPACE {
      var inner := folder.entries[NAMESPACE];
      assert Lookup(folder, path) == Lookup(inner, path[1..]);
      assert path[1..] == [path[1]];
      LookupOfOne(inner, path[1]);
    }
  }

  lemma FewNames(entries: map<string, Node>, names: set<string>)
    requires entries.Keys <= names && names == {MARKER, NAMESPACE, LOCK} + INTERNAL
    ensures |entries| <= 5
  {
    assert names == {MARKER, NAMESPACE, LOCK, ".km-vms-internal", ".km-vms-internal-quarantine"};
    SubsetIsSmaller(entries.Keys, names);
  }

  lemma {:induction false} SubsetIsSmaller<T>(a: set<T>, b: set<T>)
    requires a <= b
    ensures |a| <= |b|
  {
    if x :| x in a {
      SubsetIsSmaller(a - {x}, b - {x});
    }
  }

  /** What one item comes to: approved, passed over, or refused. */
  datatype Verdict = Approve(approved: Approved) | PassOver | Refuse

  function Judge(root: Node, source: seq<string>, item: Item, payload: Payload, at: Places): Verdict
    requires IsDirectory(root, source)
  {
    var isDefault := IsDefault(source, item, payload, at);
    if Protected(source, isDefault, at) then Refuse
    else if source in at.trusted || isDefault then Approve(Approved(source, item.target, isDefault))
    else if !OnVolume(source, at) || MeetsTrusted(source, at)
            || !ContentsAccepted(Lookup(root, source).value, item.markerValid)
    then Refuse
    else Approve(Approved(source, item.target, isDefault))
  }

  ghost predicate Sound(at: Places) {
    && AreNames(at.app) && AreNames(at.docker)
    && (forall t :: t in at.trusted ==> AreNames(t)) && (forall m :: m in at.mounts ==> AreNames(m))
  }

  /** What approval means, in components. */
  ghost predicate Rightful(a: Approved, at: Places) {
    && a.parts != [] && a.parts !in at.mounts
    && !Related(a.parts, at.docker)
    && (if a.isDefault then a.parts == at.app + ARCHIVE_TAIL else !Related(a.parts, at.app))
    && (a.parts !in at.trusted && !a.isDefault ==>
          && a.parts[..|a.parts| - 1] in at.mounts
          && forall t :: t in at.trusted ==> !Related(a.parts, t))
  }

  lemma {:induction false} SlashedAppends(a: seq<string>, b: seq<string>)
    ensures Slashed(a + b) == Slashed(a) + Slashed(b)
  {
    if a == [] {
      assert a + b == b;
    } else {
      SlashedAppends(a[1..], b);
      assert (a + b)[1..] == a[1..] + b;
    }
  }

  /** The textual recognition of the default archive is the component one; below an app
      directory at the root it never succeeds. */
  lemma DefaultIsBelowApp(source: seq<string>, app: seq<string>)
    requires AreNames(source) && AreNames(app)
    ensures Render(source) == Render(app) + "/data/archive" <==> app != [] && source == app + ARCHIVE_TAIL
  {
    assert ARCHIVE_TAIL[1..] == ["archive"] && ["archive"][1..] == [];
    assert Slashed(ARCHIVE_TAIL) == "/data/archive";
    SlashedAppends(app, ARCHIVE_TAIL);
    if app != [] {
      assert AreNames(app + ARCHIVE_TAIL);
      if Render(source) == Render(app) + "/data/archive" {
        RenderIsInjective(source, app + ARCHIVE_TAIL);
      }
    } else if source != [] {
      assert Slashed(source)[1] == source[0][0];
      assert source[0][0] in source[0];
    }
  }

  /** The default archive of this installation, asked for under its own text. */
  predicate AsksForDefault(parts: seq<string>, item: Item, payload: Payload, at: Places) {
    at.app != [] && parts == at.app + ARCHIVE_TAIL && item.source == StripSlashes(payload.appDir) + "/data/archive"
  }

  /** Whatever lies below the folder is one of ours. */
  ghost predicate OursBelow(root: Node, parts: seq<string>, markerValid: bool) {
    forall path :: Lookup(root, parts + path).Some? ==> Ours(path, Lookup(root, parts + path).value, markerValid)
  }

  /** Which existing folders may be approved, in components.  Nothing may be a mount or meet the
      Docker root; only the default may meet the app directory or lie below a blocked one; and
      what is neither default nor trusted must lie directly on a volume, apart from every
      trusted archive, and hold nothing that is not ours. */
  ghost predicate Approvable(root: Node, parts: seq<string>, item: Item, payload: Payload, at: Places) {
    var isDefault := AsksForDefault(parts, item, payload, at);
    && parts != [] && parts !in at.mounts && !Related(parts, at.docker)
    && (!isDefault ==> !Related(parts, at.app) && parts[0] !in BLOCKED_NAMES)
    && (!isDefault && parts !in at.trusted ==>
          && parts[..|parts| - 1] in at.mounts
          && (forall t :: t in at.trusted ==> !Related(parts, t))
          && OursBelow(root, parts, item.markerValid))
  }

  lemma BlockedExactly(source: seq<string>)
    requires AreNames(source)
    ensures UnderBlocked(Render(source)) <==> source != [] && source[0] in BLOCKED_NAMES
  {
    hide BLOCKED, BLOCKED_NAMES, Slashed, Render;
    if UnderBlocked(Render(source)) {
      var p :| p in BLOCKED && (Render(source) == p || p + "/" <= Render(source));
      BlockedTexts(p);
      BelowOne(p[1..], source);
    }
    if source != [] && source[0] in BLOCKED_NAMES {
      BlockedNames(source[0]);
      BelowOne(source[0], source);
      assert "/" + source[0] in BLOCKED;
    }
  }

  lemma BelowOne(name: string, source: seq<string>)
    requires AreNames(source) && name in BLOCKED_NAMES
    ensures Render(source) == "/" + name || "/" + name + "/" <= Render(source) <==> source != [] && source[0] == name
  {
    BlockedNames(name);
    assert [name][1..] == [] && Slashed([]) == "";
    assert Render([name]) == "/" + name + "";
    BelowExactly([name], source);
    assert [name] <= source <==> source != [] && source[0] == name;
  }

  lemma BlockedTexts(p: string)
    requires p in BLOCKED
    ensures p[1..] in BLOCKED_NAMES && p == "/" + p[1..]
  {
    assert "/bin"[1..] == "bin" && "/boot"[1..] == "boot" && "/dev"[1..] == "dev" && "/etc"[1..] == "etc";
    assert "/lib"[1..] == "lib" && "/lib64"[1..] == "lib64" && "/proc"[1..] == "proc" && "/run"[1..] == "run";
    assert "/sbin"[1..] == "sbin" && "/sys"[1..] == "sys" && "/usr"[1..] == "usr" && "/var"[1..] == "var";
    assert "/root"[1..] == "root" && "/tmp"[1..] == "tmp" && "/home"[1..] == "home";
  }

  lemma BlockedNames(name: string)
    requires name in BLOCKED_NAMES
    ensures "/" + name in BLOCKED && IsName(name)
  {
    assert "/" + "bin" == "/bin" && "/" + "boot" == "/boot" && "/" + "dev" == "/dev" && "/" + "etc" == "/etc";
    assert "/" + "lib" == "/lib" && "/" + "lib64" == "/lib64" && "/" + "proc" == "/proc" && "/" + "run" == "/run";
    assert "/" + "sbin" == "/sbin" && "/" + "sys" == "/sys" && "/" + "usr" == "/usr" && "/" + "var" == "/var";
    assert "/" + "root" == "/root" && "/" + "tmp" == "/tmp" && "/" + "home" == "/home";
  }

  lemma {:induction false} LookupAppends(node: Node, a: seq<string>, b: seq<string>)
    requires Lookup(node, a).Some?
    ensures Lookup(node, a + b) == Lookup(Lookup(node, a).value, b)
  {
    if a == [] {
      assert a + b == b;
    } else {
      LookupAppends(node.entries[a[0]], a[1..], b);
      assert (a + b)[1..] == a[1..] + b;
    }
  }

  lemma ContentsBelow(root: Node, source: seq<string>, markerValid: bool)
    requires IsDirectory(root, source)
    ensures ContentsAccepted(Lookup(root, source).value, markerValid) <==> OursBelow(root, source, markerValid)
  {
    hide ContentsAccepted, Ours, Lookup;
    ContentsExactly(Lookup(root, source).value, markerValid);
    forall path
      ensures Lookup(root, source + path) == Lookup(Lookup(root, source).value, path)
    {
      LookupAppends(root, source, path);
    }
  }

  lemma VolumeExactly(source: seq<string>, at: Places)
    requires AreNames(source) && Sound(at) && source != []
    ensures OnVolume(source, at) <==> source[..|source| - 1] in at.mounts
  {
    if OnVolume(source, at) {
      var m :| m in at.mounts && ParentText(source) == Render(m);
      RenderIsInjective(source[..|source| - 1], m);
    }
  }

  lemma RenderedRoot(source: seq<string>)
    requires AreNames(source)
    ensures Render(source) == "/" <==> source == []
  {
    if Render(source) == Render([]) {
      RenderIsInjective(source, []);
    }
  }

  /** The verdict on an existing folder, exactly: approved, under the item's own target, if it
      is approvable, and refused otherwise. */
  lemma JudgedExactly(root: Node, source: seq<string>, item: Item, payload: Payload, at: Places)
    requires AreNames(source) && Sound(at) && IsDirectory(root, source)
    ensures Judge(root, source, item, payload, at) ==
      if Approvable(root, source, item, payload, at)
      then Approve(Approved(source, item.target, AsksForDefault(source, item, payload, at)))
      else Refuse
  {
    hide UnderBlocked, OnVolume, Overlaps, Related, Ours, Lookup, ContentsAccepted, AreNames;
    OverlapsIsRelated(source, at.docker);
    OverlapsIsRelated(source, at.app);
    DefaultIsBelowApp(source, at.app);
    BlockedExactly(source);
    RenderedRoot(source);
    ContentsBelow(root, source, item.markerValid);
    if source != [] {
      VolumeExactly(source, at);
    }
    forall t | t in at.trusted ensures Overlaps(Render(source), Render(t)) <==> Related(source, t) {
      OverlapsIsRelated(source, t);
    }
  }

  lemma ApprovalIsRightful(root: Node, source: seq<string>, item: Item, payload: Payload, at: Places)
    requires AreNames(source) && Sound(at) && IsDirectory(root, source) && Judge(root, source, item, payload, at).Approve?
    ensures Rightful(Judge(root, source, item, payload, at).approved, at)
  {
    hide Judge;
    JudgedExactly(root, source, item, payload, at);
  }

  // ---------------------------------------------------------------------------
  // The loop
  // ---------------------------------------------------------------------------

  function ParentOf(value: string): string {
    var parts := Components(value);
    if parts == [] then "/" else Render(parts[..|parts| - 1])
  }

  /** An archive whose folder does not exist yet is passed over only while it is inactive and
      its parent is a discovered volume. */
  function VerdictOf(root: Node, payload: Payload, at: Places, item: Item): Verdict {
    var source := CanonicalParts(root, item.source);
    if source.Success? then Judge(root, source.value, item, payload, at)
    else if source.error != NotFound || !item.inactive || item.target == "/storage/archive" then Refuse
    else
      var parent := CanonicalParts(root, ParentOf(item.source));
      if parent.Success? && parent.value in at.mounts then PassOver else Refuse
  }

  predicate Located(root: Node, payload: Payload, at: Places) {
    && CanonicalParts(root, payload.appDir) == Success(at.app)
    && CanonicalParts(root, payload.dockerRoot) == Success(at.docker)
    && at.trusted == Resolved(root, payload.trusted)
    && at.mounts == Resolved(root, payload.mountPoints)
  }

  /** The approved folders, in the order of the request. */
  function Collected(root: Node, payload: Payload, at: Places, count: nat): seq<Approved>
    requires count <= |payload.items|
  {
    if count == 0 then []
    else
      var verdict := VerdictOf(root, payload, at, payload.items[count - 1]);
      Collected(root, payload, at, count - 1) + (if verdict.Approve? then [verdict.approved] else [])
  }

  /** The verdict of one item, with the second look at the parent of a missing folder. */
  method JudgeItem(root: Node, payload: Payload, at: Places, item: Item) returns (v: Verdict)
    ensures v == VerdictOf(root, payload, at, item)
  {
    hide CanonicalParts, Judge;
    var source := Canonical(root, item.source);
    if source.Success? {
      return Judge(root, source.value, item, payload, at);
    }
    if source.error != NotFound || !item.inactive || item.target == "/storage/archive" {
      return Refuse;
    }
    var parent := Canonical(root, ParentOf(item.source));
    v := if parent.Success? && parent.value in at.mounts then PassOver else Refuse;
  }

  /** The places of a request can be located: only trusted archives may be missing. */
  predicate Locatable(root: Node, payload: Payload) {
    && CanonicalParts(root, payload.appDir).Success? && CanonicalParts(root, payload.dockerRoot).Success?
    && forall i :: 0 <= i < |payload.trusted| ==> !Broken(root, payload.trusted[i])
  }

  /** The whole probe.  It succeeds exactly when its places can be located and each item is
      granted or awaited, and then answers with the folders of the granted ones. */
  method ApproveItems(root: Node, payload: Payload) returns (r: Result<seq<Approved>, Trouble>, at: Places)
    requires root.Directory?
    ensures Locatable(root, payload) ==> Located(root, payload, at)
    ensures r.Success? <==>
      Locatable(root, payload) && forall item :: item in payload.items ==> VerdictOf(root, payload, at, item) != Refuse
    ensures r.Success? ==> r.value == Collected(root, payload, at, |payload.items|)
    ensures WellNamed(root) ==> (r.Success? <==>
      Locatable(root, payload) && forall item :: item in payload.items ==> Granted(root, payload, at, item) || Awaited(root, at, item))
    ensures WellNamed(root) && r.Success? ==> exists chosen :: IsAnswer(root, payload, at, |payload.items|, chosen, r.value)
  {
    hide VerdictOf, CanonicalParts, Resolved, Broken, Granted, Awaited, IsAnswer, WellNamed;
    at := Places([], [], {}, {});
    var app := Canonical(root, payload.appDir);
    var docker := Canonical(root, payload.dockerRoot);
    var trusted := ResolveAll(root, payload.trusted, false);
    var mounts := ResolveAll(root, payload.mountPoints, true);
    if app.Failure? || docker.Failure? || trusted.Failure? {
      return Failure(Refused), at;
    }
    at := Places(app.value, docker.value, trusted.value, mounts.value);
    ProbeExactly(root, payload, at);
    var approved := [];
    for i := 0 to |payload.items|
      invariant approved == Collected(root, payload, at, i)
      invariant forall k :: 0 <= k < i ==> VerdictOf(root, payload, at, payload.items[k]) != Refuse
    {
      var verdict := JudgeItem(root, payload, at, payload.items[i]);
      match verdict {
        case Refuse => return Failure(Refused), at;
        case PassOver =>
        case Approve(a) => approved := approved + [a];
      }
    }
    r := Success(approved);
  }

  lemma LocatedIsSound(root: Node, payload: Payload, at: Places)
    requires root.Directory? && WellNamed(root) && Located(root, payload, at)
    ensures Sound(at)
  {
    ResultIsLinkFree(root, payload.appDir);
    ResultIsLinkFree(root, payload.dockerRoot);
    ResolvedAreNames(root, payload.trusted);
    ResolvedAreNames(root, payload.mountPoints);
  }

  lemma ResolvedAreNames(root: Node, paths: seq<string>)
    requires root.Directory? && WellNamed(root)
    ensures forall p :: p in Resolved(root, paths) ==> AreNames(p)
  {
    forall p | p in Resolved(root, paths) ensures AreNames(p) {
      var i :| 0 <= i < |paths| && CanonicalParts(root, paths[i]).Success? && CanonicalParts(root, paths[i]).value == p;
      ResultIsLinkFree(root, paths[i]);
    }
  }

  lemma VerdictIsRightful(root: Node, payload: Payload, at: Places, item: Item)
    requires root.Directory? && WellNamed(root) && Located(root, payload, at) && VerdictOf(root, payload, at, item).Approve?
    ensures var a := VerdictOf(root, payload, at, item).approved;
      Rightful(a, at) && LinkFree(root, a.parts) && IsDirectory(root, a.parts)
  {
    hide Judge, Rightful, Sound, Located, CanonicalParts, WellNamed, LinkFree, IsDirectory;
    LocatedIsSound(root, payload, at);
    ResultIsLinkFree(root, item.source);
    ApprovalIsRightful(root, CanonicalParts(root, item.source).value, item, payload, at);
    JudgedSource(root, CanonicalParts(root, item.source).value, item, payload, at);
  }

  /** Every approved folder is rightful: apart from the default archive it shares no component
      path with the app directory, and never one with the Docker root; a new one lies directly
      on a discovered volume and apart from every trusted archive. */
  lemma {:induction false} ApprovedAreRightful(root: Node, payload: Payload, at: Places, count: nat, a: Approved)
    requires root.Directory? && WellNamed(root) && Located(root, payload, at)
    requires count <= |payload.items| && a in Collected(root, payload, at, count)
    ensures Rightful(a, at) && LinkFree(root, a.parts) && IsDirectory(root, a.parts)
  {
    hide VerdictOf, Rightful, Located, WellNamed, LinkFree, IsDirectory;
    var item := payload.items[count - 1];
    if VerdictOf(root, payload, at, item) == Approve(a) {
      VerdictIsRightful(root, payload, at, item);
    } else {
      ApprovedAreRightful(root, payload, at, count - 1, a);
    }
  }

  lemma JudgedSource(root: Node, source: seq<string>, item: Item, payload: Payload, at: Places)
    requires IsDirectory(root, source) && Judge(root, source, item, payload, at).Approve?
    ensures Judge(root, source, item, payload, at).approved.parts == source
  {
  }

  /** What an item asks for: a folder that exists and may be approved. */
  ghost predicate Granted(root: Node, payload: Payload, at: Places, item: Item) {
    && CanonicalParts(root, item.source).Success?
    && Approvable(root, CanonicalParts(root, item.source).value, item, payload, at)
  }

  /** A folder that does not exist yet, of an inactive archive other than the default one, on
      a volume. */
  ghost predicate Awaited(root: Node, at: Places, item: Item) {
    && CanonicalParts(root, item.source) == Failure(NotFound) && item.inactive && item.target != "/storage/archive"
    && exists m :: m in at.mounts && CanonicalParts(root, ParentOf(item.source)) == Success(m)
  }

  lemma VerdictExactly(root: Node, payload: Payload, at: Places, item: Item)
    requires root.Directory? && WellNamed(root) && Located(root, payload, at)
    ensures VerdictOf(root, payload, at, item) ==
      if Granted(root, payload, at, item)
      then var parts := CanonicalParts(root, item.source).value;
           Approve(Approved(parts, item.target, AsksForDefault(parts, item, payload, at)))
      else if Awaited(root, at, item) then PassOver
      else Refuse
  {
    hide Judge, Sound, Located, WellNamed, Approvable, ParentOf;
    if CanonicalParts(root, item.source).Success? {
      LocatedIsSound(root, payload, at);
      ResultIsLinkFree(root, item.source);
      JudgedExactly(root, CanonicalParts(root, item.source).value, item, payload, at);
    }
  }

  /** The answer to one item: its folder, under its own target. */
  predicate Answers(root: Node, item: Item, a: Approved) {
    CanonicalParts(root, item.source) == Success(a.parts) && a.target == item.target
  }

  /** `chosen` are the positions of the granted items below `count`, in the order of the request,
      and the answer holds their folders under their own targets. */
  ghost predicate IsAnswer(root: Node, payload: Payload, at: Places, count: nat, chosen: seq<nat>, answer: seq<Approved>)
    requires count <= |payload.items|
  {
    && (forall i: nat :: i in chosen <==> i < count && Granted(root, payload, at, payload.items[i]))
    && (forall i, j :: 0 <= i < j < |chosen| ==> chosen[i] < chosen[j])
    && |answer| == |chosen|
    && forall k :: 0 <= k < |chosen| ==> chosen[k] < count && Answers(root, payload.items[chosen[k]], answer[k])
  }

  /** The verdict on a granted item is its answer. */
  lemma GrantedIsAnswered(root: Node, payload: Payload, at: Places, item: Item)
    requires root.Directory? && WellNamed(root) && Located(root, payload, at)
    ensures Granted(root, payload, at, item) <==> VerdictOf(root, payload, at, item).Approve?
    ensures Granted(root, payload, at, item) ==> Answers(root, item, VerdictOf(root, payload, at, item).approved)
  {
    hide VerdictOf, Located, WellNamed, Awaited, Approvable, CanonicalParts;
    VerdictExactly(root, payload, at, item);
  }

  lemma AnswerGrows(root: Node, payload: Payload, at: Places, count: nat, chosen: seq<nat>, answer: seq<Approved>, a: Approved)
    requires count < |payload.items| && IsAnswer(root, payload, at, count, chosen, answer)
    requires Granted(root, payload, at, payload.items[count]) && Answers(root, payload.items[count], a)
    ensures IsAnswer(root, payload, at, count + 1, chosen + [count], answer + [a])
  {
    hide Granted, Answers;
    forall i: nat | i in chosen ensures i < count {}
  }

  /** The answer of the probe, exactly. */
  lemma {:induction false} CollectedExactly(root: Node, payload: Payload, at: Places, count: nat) returns (chosen: seq<nat>)
    requires root.Directory? && WellNamed(root) && Located(root, payload, at) && count <= |payload.items|
    ensures IsAnswer(root, payload, at, count, chosen, Collected(root, payload, at, count))
  {
    hide VerdictOf, Located, WellNamed, Granted, Answers;
    chosen := [];
    if count > 0 {
      chosen := CollectedExactly(root, payload, at, count - 1);
      var item := payload.items[count - 1];
      GrantedIsAnswered(root, payload, at, item);
      if Granted(root, payload, at, item) {
        AnswerGrows(root, payload, at, count - 1, chosen, Collected(root, payload, at, count - 1), VerdictOf(root, payload, at, item).approved);
        chosen := chosen + [count - 1];
      }
    }
  }

  lemma ProbeExactly(root: Node, payload: Payload, at: Places)
    requires root.Directory? && Located(root, payload, at)
    ensures WellNamed(root) ==> forall item ::
      VerdictOf(root, payload, at, item) != Refuse <==> Granted(root, payload, at, item) || Awaited(root, at, item)
    ensures WellNamed(root) ==> exists chosen ::
      IsAnswer(root, payload, at, |payload.items|, chosen, Collected(root, payload, at, |payload.items|))
  {
    hide VerdictOf, Located, WellNamed, Granted, Awaited, IsAnswer, CanonicalParts;
    if WellNamed(root) {
      var chosen := CollectedExactly(root, payload, at, |payload.items|);
      forall item
        ensures VerdictOf(root, payload, at, item) != Refuse <==> Granted(root, payload, at, item) || Awaited(root, at, item)
      {
        VerdictExactly(root, payload, at, item);
      }
    }
  }
}
