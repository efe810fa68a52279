/** Absolute paths as text and as lists of components. */
module PathText {

  /** The pieces of a text between slashes; there is always at least one. */
  function Pieces(text: string): (pieces: seq<string>)
    ensures |pieces| >= 1
  {
    if text == "" then [""]
    else
      var rest := Pieces(text[1..]);
      if text[0] == '/' then [""] + rest
      else [[text[0]] + rest[0]] + rest[1..]
  }

  /** Empty pieces and `.` carry no meaning in a path. */
  function Keep(pieces: seq<string>): seq<string> {
    if pieces == [] then []
    else if pieces[0] == "" || pieces[0] == "." then Keep(pieces[1..])
    else [pieces[0]] + Keep(pieces[1..])
  }

  function Components(text: string): seq<string> {
    Keep(Pieces(text))
  }

  predicate IsAbsolute(text: string) {
    "/" <= text
  }

  /** A name a directory can hold. */
  predicate IsName(name: string) {
    name != "" && name != "." && name != ".." && '/' !in name
  }

  predicate AreNames(names: seq<string>) {
    forall i :: 0 <= i < |names| ==> IsName(names[i])
  }

  /** Each component behind its slash. */
  function Slashed(parts: seq<string>): string {
    if parts == [] then "" else "/" + parts[0] + Slashed(parts[1..])
  }

  /** The text of a canonical path. */
  function Render(parts: seq<string>): string {
    if parts == [] then "/" else Slashed(parts)
  }

  lemma {:induction false} PiecesOfName(name: string, tail: string)
    requires '/' !in name
    ensures Pieces(name + "/" + tail) == [name] + Pieces(tail)
    ensures Pieces(name) == [name]
  {
    if name == "" {
      assert name + "/" + tail == "/" + tail;
      assert ("/" + tail)[1..] == tail;
    } else {
      PiecesOfName(name[1..], tail);
      assert (name + "/" + tail)[1..] == name[1..] + "/" + tail;
      assert name == [name[0]] + name[1..];
    }
  }

  lemma {:induction false} KeepAppends(a: seq<string>, b: seq<string>)
    ensures Keep(a + b) == Keep(a) + Keep(b)
  {
    if a == [] {
      assert a + b == b;
    } else {
      KeepAppends(a[1..], b);
      assert (a + b)[1..] == a[1..] + b;
    }
  }

  lemma {:induction false} PiecesOfSlashed(parts: seq<string>)
    requires AreNames(parts)
    ensures Keep(Pieces(Slashed(parts))) == parts
  {
    if parts != [] {
      var rest := parts[1..];
      PiecesOfSlashed(rest);
      var after := parts[0] + Slashed(rest);
      assert Slashed(parts) == "/" + after;
      assert ("/" + after)[1..] == after;
      if rest == [] {
        assert after == parts[0];
        PiecesOfName(parts[0], "");
        assert Pieces(Slashed(parts)) == ["", parts[0]];
        assert Keep(["", parts[0]]) == Keep([parts[0]]);
        assert [parts[0]][1..] == [];
      } else {
        var tail := rest[0] + Slashed(rest[1..]);
        assert Slashed(rest) == "/" + tail;
        assert after == parts[0] + "/" + tail;
        PiecesOfName(parts[0], tail);
        assert ("/" + tail)[1..] == tail;
        assert Pieces(Slashed(rest)) == [""] + Pieces(tail);
        assert ([""] + Pieces(tail))[1..] == Pieces(tail);
        var pieces := [""] + ([parts[0]] + Pieces(tail));
        assert Pieces(Slashed(parts)) == pieces;
        assert pieces[1..] == [parts[0]] + Pieces(tail);
        assert ([parts[0]] + Pieces(tail))[1..] == Pieces(tail);
      }
    }
  }

  /** Reading back the text of a canonical path gives its components. */
  lemma ComponentsOfRender(parts: seq<string>)
    requires AreNames(parts)
    ensures Components(Render(parts)) == parts && IsAbsolute(Render(parts))
  {
    PiecesOfSlashed(parts);
    if parts == [] {
      assert "/"[1..] == "";
      assert Pieces("/") == ["", ""];
      assert ["", ""][1..] == [""];
    }
  }

  lemma RenderIsInjective(a: seq<string>, b: seq<string>)
    requires AreNames(a) && AreNames(b) && Render(a) == Render(b)
    ensures a == b
  {
    ComponentsOfRender(a);
    ComponentsOfRender(b);
  }

  // ---------------------------------------------------------------------------
  // Overlap
  // ---------------------------------------------------------------------------

  function StripSlashes(text: string): string {
    if text != "" && text[|text| - 1] == '/' then StripSlashes(text[..|text| - 1]) else text
  }

  /** The textual test of the probe. */
  predicate Overlaps(a: string, b: string) {
    a == b || StripSlashes(b) + "/" <= a || StripSlashes(a) + "/" <= b
  }

  /** One component list is a prefix of the other. */
  predicate Related(a: seq<string>, b: seq<string>) {
    a <= b || b <= a
  }

  lemma SlashedKeepsText(parts: seq<string>)
    requires AreNames(parts) && parts != []
    ensures StripSlashes(Slashed(parts)) == Slashed(parts)
    ensures |Slashed(parts)| > 0
  {
    SlashedEndsInName(parts);
  }

  lemma {:induction false} SlashedEndsInName(parts: seq<string>)
    requires AreNames(parts) && parts != []
    ensures |Slashed(parts)| > 0 && Slashed(parts)[|Slashed(parts)| - 1] != '/'
  {
    var rest := parts[1..];
    if rest == [] {
      var name := parts[0];
      assert Slashed(parts) == "/" + name;
      assert name[|name| - 1] in name;
    } else {
      SlashedEndsInName(rest);
    }
  }

  /** With a slash behind it, the text of one path starts that of another exactly when the
      first is a proper ancestor. */
  lemma {:induction false} SlashedPrefix(a: seq<string>, b: seq<string>)
    requires AreNames(a) && AreNames(b)
    ensures Slashed(a) + "/" <= Slashed(b) <==> a < b
  {
    if a == [] {
      assert Slashed(a) + "/" == "/";
    } else if b == [] {
    } else {
      var s, t := Slashed(a[1..]) + "/", Slashed(b[1..]);
      assert Slashed(a) + "/" == "/" + (a[0] + s);
      assert Slashed(b) == "/" + (b[0] + t);
      SamePrefix("/", a[0] + s, b[0] + t);
      if a[0] == b[0] {
        SamePrefix(a[0], s, t);
        SlashedPrefix(a[1..], b[1..]);
        assert a < b <==> a[1..] < b[1..] by {
          assert a == [a[0]] + a[1..] && b == [b[0]] + b[1..];
        }
      } else {
        assert s[0] == '/';
        DifferentNames(a[0], s, b[0], t);
      }
    }
  }

  lemma SamePrefix(p: string, s: string, t: string)
    ensures p + s <= p + t <==> s <= t
  {
    if p + s <= p + t {
      forall i | 0 <= i < |s| ensures i < |t| && s[i] == t[i] {
        assert (p + s)[|p| + i] == (p + t)[|p| + i];
      }
    }
    if s <= t {
      assert t == s + t[|s|..];
      assert p + t == (p + s) + t[|s|..];
    }
  }

  lemma DifferenceOf(n: string, m: string) returns (i: nat)
    requires |n| == |m| && n != m
    ensures i < |n| && n[i] != m[i]
  {
    assert n[..|n|] == n && m[..|m|] == m;
    i := 0;
    while i < |n| && n[i] == m[i]
      invariant i <= |n| && n[..i] == m[..i]
    {
      i := i + 1;
    }
  }

  /** Two different names, each followed by a slash or the end, never start alike. */
  lemma DifferentNames(n: string, s: string, m: string, t: string)
    requires '/' !in n && '/' !in m && n != m
    requires s != "" && s[0] == '/' && (t != "" ==> t[0] == '/')
    ensures !(n + s <= m + t)
  {
    if |n| < |m| {
      assert m[|n|] in m;
      assert (n + s)[|n|] != (m + t)[|n|];
    } else if |n| > |m| {
      assert n[|m|] in n;
      if t != "" {
        assert (n + s)[|m|] != (m + t)[|m|];
      }
    } else {
      var i := DifferenceOf(n, m);
      assert (n + s)[i] != (m + t)[i];
    }
  }

  /** The test for a blocked directory: the path itself, or something below it. */
  lemma BelowExactly(a: seq<string>, b: seq<string>)
    requires AreNames(a) && AreNames(b) && a != []
    ensures Render(b) == Render(a) || Render(a) + "/" <= Render(b) <==> a <= b
  {
    SlashedKeepsText(a);
    StartsExactly(a, b);
    assert a <= b <==> a < b || a == b;
    if Render(a) == Render(b) {
      RenderIsInjective(a, b);
    }
  }

  /** On canonical texts the textual test is the component test, the root included. */
  lemma OverlapsIsRelated(a: seq<string>, b: seq<string>)
    requires AreNames(a) && AreNames(b)
    ensures Overlaps(Render(a), Render(b)) <==> Related(a, b)
  {
    StartsExactly(a, b);
    StartsExactly(b, a);
    assert a <= b <==> a < b || a == b;
    assert b <= a <==> b < a || a == b;
    if Render(a) == Render(b) {
      RenderIsInjective(a, b);
    }
  }

  lemma StartsExactly(a: seq<string>, b: seq<string>)
    requires AreNames(a) && AreNames(b)
    ensures StripSlashes(Render(a)) + "/" <= Render(b) <==> a < b || (a == [] && b == [])
  {
    if a == [] {
      assert StripSlashes("/") == StripSlashes(""); 
      if b != [] {
        assert Slashed(b)[0] == '/';
      }
    } else {
      SlashedKeepsText(a);
      SlashedPrefix(a, b);
      if b == [] {
        assert |Slashed(a) + "/"| > 1;
      }
    }
  }
}
