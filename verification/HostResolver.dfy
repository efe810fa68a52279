/** The bounded symlink resolver of the archive probe, on a static host tree. */
module HostResolver {
  import opened Wrappers
  import opened PathText

  datatype Node = Directory(entries: map<string, Node>) | File | Link(destination: string)

  datatype Trouble = NotFound | NotADirectory | Refused

  const MAX_STEPS := 512
  const MAX_LINKS := 40

  /** The node at a path of plain names, following nothing. */
  function Lookup(node: Node, parts: seq<string>): Option<Node> {
    if parts == [] then Some(node)
    else if node.Directory? && parts[0] in node.entries then Lookup(node.entries[parts[0]], parts[1..])
    else None
  }

  /** `lstat` of one name below a path. */
  function Inspect(root: Node, parts: seq<string>, name: string): Result<Node, Trouble> {
    var parent := Lookup(root, parts);
    if parent.None? then Failure(NotFound)
    else if !parent.value.Directory? then Failure(NotADirectory)
    else if name in parent.value.entries then Success(parent.value.entries[name])
    else Failure(NotFound)
  }

  predicate IsDirectory(root: Node, parts: seq<string>) {
    Lookup(root, parts).Some? && Lookup(root, parts).value.Directory?
  }

  /** What is still to be resolved when a path is given as text. */
  function Start(value: string): seq<string> {
    var components := Components(value);
    if IsAbsolute(value) || components == [] then components else components[1..]
  }

  function Base(destination: string, parts: seq<string>): seq<string> {
    if IsAbsolute(destination) then [] else parts
  }

  /** The resolution from any point of the loop on. */
  function Walk(root: Node, parts: seq<string>, pending: seq<string>, links: nat, steps: nat): Result<seq<string>, Trouble>
    requires steps <= MAX_STEPS
    decreases MAX_STEPS - steps
  {
    if pending == [] then Success(parts)
    else if steps == MAX_STEPS then Failure(Refused)
    else
      var part, rest := pending[0], pending[1..];
      if part == "" || part == "." then Walk(root, parts, rest, links, steps + 1)
      else if part == ".." then
        if parts == [] then Failure(Refused) else Walk(root, parts[..|parts| - 1], rest, links, steps + 1)
      else
        var found := Inspect(root, parts, part);
        if found.Failure? then Failure(found.error)
        else if !found.value.Link? then Walk(root, parts + [part], rest, links, steps + 1)
        else if links >= MAX_LINKS then Failure(Refused)
        else Walk(root, Base(found.value.destination, parts), Components(found.value.destination) + rest, links + 1, steps + 1)
  }

  function CanonicalParts(root: Node, value: string): Result<seq<string>, Trouble> {
    var walked := Walk(root, [], Start(value), 0, 0);
    if walked.Success? && !IsDirectory(root, walked.value) then Failure(Refused) else walked
  }

  /** The resolver as a loop over pending components. */
  method Canonical(root: Node, value: string) returns (r: Result<seq<string>, Trouble>)
    ensures r == CanonicalParts(root, value)
    ensures r.Success? ==> IsDirectory(root, r.value)
  {
    hide Inspect, IsDirectory, Base, Components, Start;
    var pending, parts := Start(value), [];
    var links, steps := 0, 0;
    while pending != []
      invariant steps <= MAX_STEPS
      invariant Walk(root, parts, pending, links, steps) == Walk(root, [], Start(value), 0, 0)
      decreases MAX_STEPS - steps, if pending == [] then 0 else 1
    {
      if steps >= MAX_STEPS {
        return Failure(Refused);
      }
      steps := steps + 1;
      var part := pending[0];
      pending := pending[1..];
      if part == "" || part == "." {
        continue;
      }
      if part == ".." {
        if parts == [] {
          return Failure(Refused);
        }
        parts := parts[..|parts| - 1];
        continue;
      }
      var found := Inspect(root, parts, part);
      if found.Failure? {
        return Failure(found.error);
      }
      if found.value.Link? {
        if links >= MAX_LINKS {
          return Failure(Refused);
        }
        links := links + 1;
        pending := Components(found.value.destination) + pending;
        parts := Base(found.value.destination, parts);
      } else {
        parts := parts + [part];
      }
    }
    if !IsDirectory(root, parts) {
      return Failure(Refused);
    }
    r := Success(parts);
  }

  // ---------------------------------------------------------------------------
  // Resolution without limits
  // ---------------------------------------------------------------------------

  /** How a path resolves: the destination of a link is resolved first, by a derivation of
      its own, from the directory that holds the link or, if it begins with a slash, from the
      root; then the rest of the path from where that ends. */
  datatype Derivation =
    | Here
    | Skip(rest: Derivation)
    | Up(rest: Derivation)
    | Enter(rest: Derivation)
    | Follow(target: Derivation, through: seq<string>, rest: Derivation)

  /** `path`, taken from `cwd`, denotes `out`. */
  predicate Derives(root: Node, d: Derivation, cwd: seq<string>, path: seq<string>, out: seq<string>)
    decreases d
  {
    if path == [] then d == Here && out == cwd
    else if path[0] == "" || path[0] == "." then d.Skip? && Derives(root, d.rest, cwd, path[1..], out)
    else if path[0] == ".." then d.Up? && cwd != [] && Derives(root, d.rest, cwd[..|cwd| - 1], path[1..], out)
    else
      var found := Inspect(root, cwd, path[0]);
      && found.Success?
      && if found.value.Link? then
           && d.Follow?
           && Derives(root, d.target, if "/" <= found.value.destination then [] else cwd, Components(found.value.destination), d.through)
           && Derives(root, d.rest, d.through, path[1..], out)
         else d.Enter? && Derives(root, d.rest, cwd + [path[0]], path[1..], out)
  }

  function Steps(d: Derivation): nat {
    match d
    case Here => 0
    case Skip(rest) => 1 + Steps(rest)
    case Up(rest) => 1 + Steps(rest)
    case Enter(rest) => 1 + Steps(rest)
    case Follow(target, _, rest) => 1 + Steps(target) + Steps(rest)
  }

  function Links(d: Derivation): nat {
    match d
    case Here => 0
    case Skip(rest) => Links(rest)
    case Up(rest) => Links(rest)
    case Enter(rest) => Links(rest)
    case Follow(target, _, rest) => 1 + Links(target) + Links(rest)
  }

  /** A path denotes at most one place, in one way. */
  lemma {:induction false} DerivesOnce(root: Node, d: Derivation, e: Derivation, cwd: seq<string>, path: seq<string>,
                                       out: seq<string>, other: seq<string>)
    requires Derives(root, d, cwd, path, out) && Derives(root, e, cwd, path, other)
    ensures d == e && out == other
    decreases d
  {
    match d
    case Here =>
    case Skip(rest) => DerivesOnce(root, rest, e.rest, cwd, path[1..], out, other);
    case Up(rest) => DerivesOnce(root, rest, e.rest, cwd[..|cwd| - 1], path[1..], out, other);
    case Enter(rest) => DerivesOnce(root, rest, e.rest, cwd + [path[0]], path[1..], out, other);
    case Follow(target, through, rest) =>
      var destination := Inspect(root, cwd, path[0]).value.destination;
      DerivesOnce(root, target, e.target, Base(destination, cwd), Components(destination), through, e.through);
      DerivesOnce(root, rest, e.rest, through, path[1..], out, other);
  }

  /** Resolving two paths in a row is resolving their concatenation. */
  function Append(d: Derivation, e: Derivation): Derivation {
    match d
    case Here => e
    case Skip(rest) => Skip(Append(rest, e))
    case Up(rest) => Up(Append(rest, e))
    case Enter(rest) => Enter(Append(rest, e))
    case Follow(target, through, rest) => Follow(target, through, Append(rest, e))
  }

  lemma {:induction false} AppendDerives(root: Node, d: Derivation, e: Derivation, cwd: seq<string>, a: seq<string>, b: seq<string>,
                                         middle: seq<string>, out: seq<string>)
    requires Derives(root, d, cwd, a, middle) && Derives(root, e, middle, b, out)
    ensures Derives(root, Append(d, e), cwd, a + b, out)
    ensures Steps(Append(d, e)) == Steps(d) + Steps(e) && Links(Append(d, e)) == Links(d) + Links(e)
    decreases d
  {
    if a == [] {
      assert a + b == b;
    } else {
      assert (a + b)[0] == a[0] && (a + b)[1..] == a[1..] + b;
      match d
      case Skip(rest) => AppendDerives(root, rest, e, cwd, a[1..], b, middle, out);
      case Up(rest) => AppendDerives(root, rest, e, cwd[..|cwd| - 1], a[1..], b, middle, out);
      case Enter(rest) => AppendDerives(root, rest, e, cwd + [a[0]], a[1..], b, middle, out);
      case Follow(target, through, rest) => AppendDerives(root, rest, e, through, a[1..], b, middle, out);
    }
  }

  lemma {:induction false} SplitDerives(root: Node, d: Derivation, cwd: seq<string>, a: seq<string>, b: seq<string>, out: seq<string>)
    returns (first: Derivation, middle: seq<string>, second: Derivation)
    requires Derives(root, d, cwd, a + b, out)
    ensures Derives(root, first, cwd, a, middle) && Derives(root, second, middle, b, out)
    ensures Steps(first) + Steps(second) == Steps(d) && Links(first) + Links(second) == Links(d)
    decreases d
  {
    if a == [] {
      assert a + b == b;
      first, middle, second := Here, cwd, d;
    } else {
      assert (a + b)[0] == a[0] && (a + b)[1..] == a[1..] + b;
      match d
      case Skip(rest) =>
        first, middle, second := SplitDerives(root, rest, cwd, a[1..], b, out);
        first := Skip(first);
      case Up(rest) =>
        first, middle, second := SplitDerives(root, rest, cwd[..|cwd| - 1], a[1..], b, out);
        first := Up(first);
      case Enter(rest) =>
        first, middle, second := SplitDerives(root, rest, cwd + [a[0]], a[1..], b, out);
        first := Enter(first);
      case Follow(target, through, rest) =>
        first, middle, second := SplitDerives(root, rest, through, a[1..], b, out);
        first := Follow(target, through, first);
    }
  }

  /** Whatever the walk returns is denoted, within the limits. */
  lemma {:induction false} WalkIsSound(root: Node, parts: seq<string>, pending: seq<string>, links: nat, steps: nat) returns (d: Derivation)
    requires steps <= MAX_STEPS && links <= MAX_LINKS && Walk(root, parts, pending, links, steps).Success?
    ensures Derives(root, d, parts, pending, Walk(root, parts, pending, links, steps).value)
    ensures steps + Steps(d) <= MAX_STEPS && links + Links(d) <= MAX_LINKS
    decreases MAX_STEPS - steps
  {
    if pending == [] {
      d := Here;
    } else {
      var part, rest := pending[0], pending[1..];
      if part == "" || part == "." {
        d := WalkIsSound(root, parts, rest, links, steps + 1);
        d := Skip(d);
      } else if part == ".." {
        d := WalkIsSound(root, parts[..|parts| - 1], rest, links, steps + 1);
        d := Up(d);
      } else {
        var found := Inspect(root, parts, part).value;
        if found.Link? {
          var base, components := Base(found.destination, parts), Components(found.destination);
          var whole := WalkIsSound(root, base, components + rest, links + 1, steps + 1);
          var target, through, after :=
            SplitDerives(root, whole, base, components, rest, Walk(root, parts, pending, links, steps).value);
          d := Follow(target, through, after);
        } else {
          d := WalkIsSound(root, parts + [part], rest, links, steps + 1);
          d := Enter(d);
        }
      }
    }
  }

  /** Whatever is denoted within the limits is what the walk returns. */
  lemma {:induction false} WalkIsComplete(root: Node, d: Derivation, parts: seq<string>, pending: seq<string>, links: nat,
                                          steps: nat, out: seq<string>)
    requires steps + Steps(d) <= MAX_STEPS && links + Links(d) <= MAX_LINKS
    requires Derives(root, d, parts, pending, out)
    ensures Walk(root, parts, pending, links, steps) == Success(out)
    decreases MAX_STEPS - steps
  {
    match d
    case Here =>
    case Skip(rest) => WalkIsComplete(root, rest, parts, pending[1..], links, steps + 1, out);
    case Up(rest) => WalkIsComplete(root, rest, parts[..|parts| - 1], pending[1..], links, steps + 1, out);
    case Enter(rest) => WalkIsComplete(root, rest, parts + [pending[0]], pending[1..], links, steps + 1, out);
    case Follow(target, through, rest) =>
      var destination := Inspect(root, parts, pending[0]).value.destination;
      AppendDerives(root, target, rest, Base(destination, parts), Components(destination), pending[1..], through, out);
      WalkIsComplete(root, Append(target, rest), Base(destination, parts), Components(destination) + pending[1..], links + 1, steps + 1, out);
  }

  /** The path denotes `out` from the host root, within the limits of the loop. */
  ghost predicate Denotes(root: Node, path: seq<string>, out: seq<string>) {
    exists d :: Derives(root, d, [], path, out) && Steps(d) <= MAX_STEPS && Links(d) <= MAX_LINKS
  }

  /** The resolver refines the unlimited relation: it answers exactly the directories that a
      path denotes in at most 512 steps through at most 40 links. */
  lemma CanonicalExactly(root: Node, value: string, out: seq<string>)
    ensures CanonicalParts(root, value) == Success(out) <==> Denotes(root, Start(value), out) && IsDirectory(root, out)
  {
    if CanonicalParts(root, value) == Success(out) {
      var d := WalkIsSound(root, [], Start(value), 0, 0);
    }
    if Denotes(root, Start(value), out) && IsDirectory(root, out) {
      var d :| Derives(root, d, [], Start(value), out) && Steps(d) <= MAX_STEPS && Links(d) <= MAX_LINKS;
      WalkIsComplete(root, d, [], Start(value), 0, 0, out);
    }
  }

  // ---------------------------------------------------------------------------
  // What a result is
  // ---------------------------------------------------------------------------

  /** Every prefix of the path exists below the host root and is no link. */
  predicate LinkFree(root: Node, parts: seq<string>) {
    forall k :: 0 <= k <= |parts| ==> Lookup(root, parts[..k]).Some? && !Lookup(root, parts[..k]).value.Link?
  }

  /** The names a directory holds are proper names. */
  ghost predicate WellNamed(root: Node) {
    forall path :: path != [] && Lookup(root, path).Some? ==> IsName(path[|path| - 1])
  }

  lemma {:induction false} LookupAppends(node: Node, parts: seq<string>, name: string)
    ensures Lookup(node, parts + [name]) ==
      if IsDirectory(node, parts) && name in Lookup(node, parts).value.entries
      then Some(Lookup(node, parts).value.entries[name]) else None
  {
    if parts == [] {
      assert ([name])[1..] == [];
    } else {
      assert (parts + [name])[0] == parts[0] && (parts + [name])[1..] == parts[1..] + [name];
      if node.Directory? && parts[0] in node.entries {
        LookupAppends(node.entries[parts[0]], parts[1..], name);
      }
    }
  }

  lemma LinkFreeShrinks(root: Node, parts: seq<string>)
    requires LinkFree(root, parts) && parts != []
    ensures LinkFree(root, parts[..|parts| - 1])
  {
    var shorter := parts[..|parts| - 1];
    forall k | 0 <= k <= |shorter| ensures Lookup(root, shorter[..k]).Some? && !Lookup(root, shorter[..k]).value.Link? {
      assert shorter[..k] == parts[..k];
    }
  }

  lemma LinkFreeGrows(root: Node, parts: seq<string>, name: string)
    requires LinkFree(root, parts) && Inspect(root, parts, name).Success? && !Inspect(root, parts, name).value.Link?
    ensures LinkFree(root, parts + [name])
  {
    LookupAppends(root, parts, name);
    assert parts[..|parts|] == parts;
    forall k | 0 <= k <= |parts| + 1
      ensures Lookup(root, (parts + [name])[..k]).Some? && !Lookup(root, (parts + [name])[..k]).value.Link?
    {
      if k <= |parts| {
        assert (parts + [name])[..k] == parts[..k];
      } else {
        assert (parts + [name])[..k] == parts + [name];
      }
    }
  }

  lemma {:induction false} DerivesLinkFree(root: Node, d: Derivation, cwd: seq<string>, path: seq<string>, out: seq<string>)
    requires Derives(root, d, cwd, path, out) && LinkFree(root, cwd) && !root.Link?
    ensures LinkFree(root, out)
    decreases d
  {
    match d
    case Here =>
    case Skip(rest) => DerivesLinkFree(root, rest, cwd, path[1..], out);
    case Up(rest) =>
      LinkFreeShrinks(root, cwd);
      DerivesLinkFree(root, rest, cwd[..|cwd| - 1], path[1..], out);
    case Enter(rest) =>
      LinkFreeGrows(root, cwd, path[0]);
      DerivesLinkFree(root, rest, cwd + [path[0]], path[1..], out);
    case Follow(target, through, rest) =>
      var destination := Inspect(root, cwd, path[0]).value.destination;
      DerivesLinkFree(root, target, Base(destination, cwd), Components(destination), through);
      DerivesLinkFree(root, rest, through, path[1..], out);
  }

  lemma {:induction false} WalkLength(root: Node, parts: seq<string>, pending: seq<string>, links: nat, steps: nat)
    requires steps <= MAX_STEPS && |parts| <= steps && Walk(root, parts, pending, links, steps).Success?
    ensures |Walk(root, parts, pending, links, steps).value| <= MAX_STEPS
    decreases MAX_STEPS - steps
  {
    if pending != [] {
      var part, rest := pending[0], pending[1..];
      if part == "" || part == "." {
        WalkLength(root, parts, rest, links, steps + 1);
      } else if part == ".." {
        WalkLength(root, parts[..|parts| - 1], rest, links, steps + 1);
      } else {
        var found := Inspect(root, parts, part).value;
        if found.Link? {
          WalkLength(root, Base(found.destination, parts), Components(found.destination) + rest, links + 1, steps + 1);
        } else {
          WalkLength(root, parts + [part], rest, links, steps + 1);
        }
      }
    }
  }

  /** A result never leaves the host root: each of its prefixes is there, and none is a link. */
  lemma ResultIsLinkFree(root: Node, value: string)
    requires !root.Link? && CanonicalParts(root, value).Success?
    ensures LinkFree(root, CanonicalParts(root, value).value) && IsDirectory(root, CanonicalParts(root, value).value)
    ensures |CanonicalParts(root, value).value| <= MAX_STEPS
    ensures WellNamed(root) ==> AreNames(CanonicalParts(root, value).value)
  {
    var out := CanonicalParts(root, value).value;
    var d := WalkIsSound(root, [], Start(value), 0, 0);
    assert LinkFree(root, []);
    DerivesLinkFree(root, d, [], Start(value), out);
    WalkLength(root, [], Start(value), 0, 0);
    if WellNamed(root) {
      LinkFreeNames(root, out);
    }
  }

  lemma LinkFreeNames(root: Node, out: seq<string>)
    requires LinkFree(root, out) && WellNamed(root)
    ensures AreNames(out)
  {
    forall k | 0 <= k < |out| ensures IsName(out[k]) {
      assert out[..k + 1][k] == out[k];
    }
  }

  /** A link-free path of names resolves to itself, one step a name. */
  lemma {:induction false} LinkFreeWalk(root: Node, out: seq<string>, k: nat)
    requires k <= |out| <= MAX_STEPS && LinkFree(root, out) && AreNames(out)
    ensures Walk(root, out[..k], out[k..], 0, k) == Success(out)
    decreases |out| - k
  {
    if k == |out| {
      assert out[..k] == out;
    } else {
      LookupAppends(root, out[..k], out[k]);
      assert out[..k] + [out[k]] == out[..k + 1];
      assert out[k..][1..] == out[k + 1..];
      LinkFreeWalk(root, out, k + 1);
    }
  }

  /** Resolving the text of a result gives the result again. */
  lemma CanonicalIsIdempotent(root: Node, value: string)
    requires !root.Link? && WellNamed(root) && CanonicalParts(root, value).Success?
    ensures CanonicalParts(root, Render(CanonicalParts(root, value).value)) == CanonicalParts(root, value)
  {
    var out := CanonicalParts(root, value).value;
    ResultIsLinkFree(root, value);
    ComponentsOfRender(out);
    LinkFreeWalk(root, out, 0);
    assert out[..0] == [] && out[0..] == out;
  }

  // ---------------------------------------------------------------------------
  // Paths that lead nowhere
  // ---------------------------------------------------------------------------

  lemma {:induction false} LookupThrough(node: Node, a: seq<string>, b: seq<string>)
    requires Lookup(node, a + b).Some?
    ensures Lookup(node, a).Some? && Lookup(Lookup(node, a).value, b) == Lookup(node, a + b)
  {
    if a == [] {
      assert a + b == b;
    } else {
      assert (a + b)[1..] == a[1..] + b;
      LookupThrough(node.entries[a[0]], a[1..], b);
    }
  }

  /** Names that lead to a file or a directory are walked one by one. */
  lemma {:induction false} PlainWalk(root: Node, parts: seq<string>, names: seq<string>, rest: seq<string>, steps: nat)
    requires AreNames(names) && Lookup(root, parts + names).Some? && !Lookup(root, parts + names).value.Link?
    requires steps + |names| <= MAX_STEPS
    ensures Walk(root, parts, names + rest, 0, steps) == Walk(root, parts + names, rest, 0, steps + |names|)
    decreases |names|
  {
    if names == [] {
      assert names + rest == rest && parts + names == parts;
    } else {
      var name, others := names[0], names[1..];
      assert parts + names == (parts + [name]) + others;
      assert (names + rest)[0] == name && (names + rest)[1..] == others + rest;
      LookupThrough(root, parts, names);
      LookupThrough(root, parts + [name], others);
      assert Inspect(root, parts, name) == Success(Lookup(root, parts + [name]).value) by {
        LookupThrough(root, parts, [name]);
        assert [name][1..] == [];
      }
      PlainWalk(root, parts + [name], others, rest, steps + 1);
    }
  }

  /** How a path fails: as missing at the first name its directory does not have, and as no
      directory behind a file. */
  lemma MissingPaths(root: Node, parts: seq<string>, name: string, rest: seq<string>)
    requires AreNames(parts + [name] + rest) && |parts| < MAX_STEPS
    requires Lookup(root, parts).Some? && !Lookup(root, parts).value.Link?
    ensures var node, path := Lookup(root, parts).value, Render(parts + [name] + rest);
      && (node.Directory? && name !in node.entries ==> CanonicalParts(root, path) == Failure(NotFound))
      && (node.File? ==> CanonicalParts(root, path) == Failure(NotADirectory))
  {
    var whole := parts + [name] + rest;
    ComponentsOfRender(whole);
    assert whole == parts + ([name] + rest);
    assert AreNames(parts) && IsName(name) by {
      assert forall i :: 0 <= i < |parts| ==> parts[i] == whole[i];
      assert name == whole[|parts|];
    }
    assert [] + parts == parts;
    PlainWalk(root, [], parts, [name] + rest, 0);
  }

  // ---------------------------------------------------------------------------
  // Against pathname resolution of POSIX.1-2017, Base Definitions, section 4.13
  // ---------------------------------------------------------------------------

  /** The same relation with the standard's reading of dot-dot: only in a directory, and the
      root is its own parent. */
  predicate PosixDerives(root: Node, d: Derivation, cwd: seq<string>, path: seq<string>, out: seq<string>)
    decreases d
  {
    if path == [] then d == Here && out == cwd
    else if path[0] == "" || path[0] == "." then d.Skip? && PosixDerives(root, d.rest, cwd, path[1..], out)
    else if path[0] == ".." then
      d.Up? && IsDirectory(root, cwd) && PosixDerives(root, d.rest, if cwd == [] then [] else cwd[..|cwd| - 1], path[1..], out)
    else
      var found := Inspect(root, cwd, path[0]);
      && found.Success?
      && if found.value.Link? then
           && d.Follow?
           && PosixDerives(root, d.target, if "/" <= found.value.destination then [] else cwd, Components(found.value.destination), d.through)
           && PosixDerives(root, d.rest, d.through, path[1..], out)
         else d.Enter? && PosixDerives(root, d.rest, cwd + [path[0]], path[1..], out)
  }

  /** Where both readings give a path a meaning, they give the same one. */
  lemma {:induction false} AgreesWithPosix(root: Node, d: Derivation, e: Derivation, cwd: seq<string>, path: seq<string>,
                                           out: seq<string>, other: seq<string>)
    requires Derives(root, d, cwd, path, out) && PosixDerives(root, e, cwd, path, other)
    ensures d == e && out == other
    decreases d
  {
    match d
    case Here =>
    case Skip(rest) => AgreesWithPosix(root, rest, e.rest, cwd, path[1..], out, other);
    case Up(rest) => AgreesWithPosix(root, rest, e.rest, cwd[..|cwd| - 1], path[1..], out, other);
    case Enter(rest) => AgreesWithPosix(root, rest, e.rest, cwd + [path[0]], path[1..], out, other);
    case Follow(target, through, rest) =>
      var destination := Inspect(root, cwd, path[0]).value.destination;
      AgreesWithPosix(root, target, e.target, Base(destination, cwd), Components(destination), through, e.through);
      AgreesWithPosix(root, rest, e.rest, through, path[1..], out, other);
  }

  /** Every dot-dot of the derivation is taken in a directory. */
  predicate UpsAreInDirectories(root: Node, d: Derivation, cwd: seq<string>, path: seq<string>)
    decreases d
  {
    path != [] ==>
      match d
      case Here => true
      case Skip(rest) => UpsAreInDirectories(root, rest, cwd, path[1..])
      case Up(rest) => IsDirectory(root, cwd) && UpsAreInDirectories(root, rest, if cwd == [] then [] else cwd[..|cwd| - 1], path[1..])
      case Enter(rest) => UpsAreInDirectories(root, rest, cwd + [path[0]], path[1..])
      case Follow(target, through, rest) =>
        var found := Inspect(root, cwd, path[0]);
        && (found.Success? && found.value.Link? ==>
              UpsAreInDirectories(root, target, Base(found.value.destination, cwd), Components(found.value.destination)))
        && UpsAreInDirectories(root, rest, through, path[1..])
  }

  /** The resolver accepts a path the standard rejects exactly when it leaves a file by
      dot-dot. */
  lemma {:induction false} PosixAcceptsExactly(root: Node, d: Derivation, cwd: seq<string>, path: seq<string>, out: seq<string>)
    requires Derives(root, d, cwd, path, out)
    ensures PosixDerives(root, d, cwd, path, out) <==> UpsAreInDirectories(root, d, cwd, path)
    decreases d
  {
    match d
    case Here =>
    case Skip(rest) => PosixAcceptsExactly(root, rest, cwd, path[1..], out);
    case Up(rest) => PosixAcceptsExactly(root, rest, cwd[..|cwd| - 1], path[1..], out);
    case Enter(rest) => PosixAcceptsExactly(root, rest, cwd + [path[0]], path[1..], out);
    case Follow(target, through, rest) =>
      var destination := Inspect(root, cwd, path[0]).value.destination;
      PosixAcceptsExactly(root, target, Base(destination, cwd), Components(destination), through);
      PosixAcceptsExactly(root, rest, through, path[1..], out);
  }

  /** No dot-dot of the derivation is taken at the root. */
  predicate NoUpAtRoot(root: Node, d: Derivation, cwd: seq<string>, path: seq<string>)
    decreases d
  {
    path != [] ==>
      match d
      case Here => true
      case Skip(rest) => NoUpAtRoot(root, rest, cwd, path[1..])
      case Up(rest) => cwd != [] && NoUpAtRoot(root, rest, cwd[..|cwd| - 1], path[1..])
      case Enter(rest) => NoUpAtRoot(root, rest, cwd + [path[0]], path[1..])
      case Follow(target, through, rest) =>
        var found := Inspect(root, cwd, path[0]);
        && (found.Success? && found.value.Link? ==>
              NoUpAtRoot(root, target, Base(found.value.destination, cwd), Components(found.value.destination)))
        && NoUpAtRoot(root, rest, through, path[1..])
  }

  /** The resolver refuses a path the standard accepts exactly when it takes dot-dot at the
      root (the limits aside). */
  lemma {:induction false} RefusesExactly(root: Node, d: Derivation, cwd: seq<string>, path: seq<string>, out: seq<string>)
    requires PosixDerives(root, d, cwd, path, out)
    ensures Derives(root, d, cwd, path, out) <==> NoUpAtRoot(root, d, cwd, path)
    decreases d
  {
    match d
    case Here =>
    case Skip(rest) => RefusesExactly(root, rest, cwd, path[1..], out);
    case Up(rest) => RefusesExactly(root, rest, if cwd == [] then [] else cwd[..|cwd| - 1], path[1..], out);
    case Enter(rest) => RefusesExactly(root, rest, cwd + [path[0]], path[1..], out);
    case Follow(target, through, rest) =>
      var destination := Inspect(root, cwd, path[0]).value.destination;
      RefusesExactly(root, target, Base(destination, cwd), Components(destination), through);
      RefusesExactly(root, rest, through, path[1..], out);
  }

  /** Both deviations happen: a file left by dot-dot is accepted, and dot-dot at the root,
      which the standard maps to the root, is refused. */
  lemma PosixDeviations()
    ensures var root := Directory(map["f" := File]);
      && Walk(root, [], ["f", ".."], 0, 0) == Success([])
      && (forall d, out :: !PosixDerives(root, d, [], ["f", ".."], out))
    ensures var root := Directory(map[]);
      && Walk(root, [], [".."], 0, 0) == Failure(Refused)
      && PosixDerives(root, Up(Here), [], [".."], [])
  {
    var root := Directory(map["f" := File]);
    assert ["f", ".."][1..] == [".."] && [".."][1..] == [];
    LookupAppends(root, [], "f");
    assert [] + ["f"] == ["f"] && ["f"][..0] == [];
    assert Walk(root, ["f"], [".."], 0, 1) == Walk(root, [], [], 0, 2);
    assert !IsDirectory(root, ["f"]);
  }
}
