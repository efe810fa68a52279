/** The order of names: by characters, as the inventory sorts them. */
module NameOrder {

  predicate Before(a: string, b: string) {
    b != "" && (a == "" || a[0] < b[0] || (a[0] == b[0] && Before(a[1..], b[1..])))
  }

  lemma {:induction false} BeforeIsIrreflexive(a: string)
    ensures !Before(a, a)
  {
    if a != "" {
      BeforeIsIrreflexive(a[1..]);
    }
  }

  lemma {:induction false} BeforeIsTotal(a: string, b: string)
    ensures Before(a, b) || a == b || Before(b, a)
    ensures !(Before(a, b) && Before(b, a))
  {
    if a != "" && b != "" {
      BeforeIsTotal(a[1..], b[1..]);
      assert a == [a[0]] + a[1..] && b == [b[0]] + b[1..];
    }
  }

  lemma {:induction false} BeforeIsTransitive(a: string, b: string, c: string)
    requires Before(a, b) && Before(b, c)
    ensures Before(a, c)
  {
    if a != "" && a[0] == b[0] == c[0] {
      BeforeIsTransitive(a[1..], b[1..], c[1..]);
    }
  }

  /** Strictly ascending, so without repetition. */
  predicate Ordered(names: seq<string>) {
    forall i, j :: 0 <= i < j < |names| ==> Before(names[i], names[j])
  }

  /** The elements of a sequence. */
  function Elements(names: seq<string>): set<string> {
    set n | n in names
  }

  /** An ordered sequence is determined by its elements. */
  lemma {:induction false} OrderedIsUnique(s: seq<string>, t: seq<string>)
    requires Ordered(s) && Ordered(t) && Elements(s) == Elements(t)
    ensures s == t
  {
    assert s != [] ==> s[0] in Elements(t);
    assert t != [] ==> t[0] in Elements(s);
    if s != [] {
      FirstIsLeast(s, t);
      SameRest(s, t);
      OrderedIsUnique(s[1..], t[1..]);
      assert s == [s[0]] + s[1..] && t == [t[0]] + t[1..];
    }
  }

  lemma FirstIsLeast(s: seq<string>, t: seq<string>)
    requires Ordered(s) && Ordered(t) && Elements(s) == Elements(t) && s != [] && t != []
    ensures s[0] == t[0]
  {
    assert s[0] in Elements(s) && t[0] in Elements(t);
    assert s[0] in t && t[0] in s;
    BeforeIsTotal(s[0], t[0]);
  }

  lemma SameRest(s: seq<string>, t: seq<string>)
    requires Ordered(s) && Ordered(t) && Elements(s) == Elements(t) && s != [] && t != [] && s[0] == t[0]
    ensures Elements(s[1..]) == Elements(t[1..]) && Ordered(s[1..]) && Ordered(t[1..])
  {
    RestOf(s);
    RestOf(t);
  }

  lemma RestOf(s: seq<string>)
    requires Ordered(s) && s != []
    ensures Elements(s[1..]) == Elements(s) - {s[0]}
  {
    BeforeIsIrreflexive(s[0]);
    forall n | n in Elements(s) - {s[0]} ensures n in Elements(s[1..]) {
      var i :| 0 <= i < |s| && s[i] == n;
      assert s[1..][i - 1] == n;
    }
    forall n | n in Elements(s[1..]) ensures n in Elements(s) && n != s[0] {
      var i :| 0 <= i < |s| - 1 && s[1..][i] == n;
      assert s[i + 1] == n && Before(s[0], s[i + 1]);
    }
  }

  lemma ElementsOfFirst(first: string, rest: seq<string>)
    ensures Elements([first] + rest) == {first} + Elements(rest)
  {
    forall n | n in {first} + Elements(rest) ensures n in Elements([first] + rest) {
      if n != first {
        var i :| 0 <= i < |rest| && rest[i] == n;
        assert ([first] + rest)[i + 1] == n;
      } else {
        assert ([first] + rest)[0] == n;
      }
    }
  }

  function Insert(names: seq<string>, name: string): (r: seq<string>)
    ensures Elements(r) == Elements(names) + {name}
  {
    if names == [] then [name]
    else if name == names[0] then names
    else if Before(name, names[0]) then
      ElementsOfFirst(name, names);
      [name] + names
    else
      ElementsOfFirst(names[0], names[1..]);
      assert names == [names[0]] + names[1..];
      ElementsOfFirst(names[0], Insert(names[1..], name));
      [names[0]] + Insert(names[1..], name)
  }

  lemma {:induction false} InsertKeepsOrder(names: seq<string>, name: string)
    requires Ordered(names)
    ensures Ordered(Insert(names, name))
  {
    if names != [] {
      BeforeIsTotal(name, names[0]);
      if Before(name, names[0]) {
        forall j | 0 < j <= |names| ensures Before(name, ([name] + names)[j]) {
          if j > 1 {
            BeforeIsTransitive(name, names[0], names[j - 1]);
          }
        }
      } else if name != names[0] {
        InsertKeepsOrder(names[1..], name);
        var rest := Insert(names[1..], name);
        forall j | 0 <= j < |rest| ensures Before(names[0], rest[j]) {
          assert rest[j] in Elements(rest);
          if rest[j] != name {
            assert rest[j] in Elements(names[1..]);
            var i :| 0 <= i < |names| - 1 && names[1..][i] == rest[j];
            assert names[i + 1] == rest[j];
          }
        }
      }
    }
  }

  /** `sorted`, on names that do not repeat. */
  function Sorted(names: seq<string>): (r: seq<string>)
    ensures Elements(r) == Elements(names)
  {
    if names == [] then []
    else
      ElementsOfFirst(names[0], names[1..]);
      assert names == [names[0]] + names[1..];
      Insert(Sorted(names[1..]), names[0])
  }

  lemma {:induction false} SortedIsOrdered(names: seq<string>)
    ensures Ordered(Sorted(names))
  {
    if names != [] {
      SortedIsOrdered(names[1..]);
      InsertKeepsOrder(Sorted(names[1..]), names[0]);
    }
  }

  /** Sorting forgets the order of enumeration. */
  lemma SortedForgetsOrder(a: seq<string>, b: seq<string>)
    requires Elements(a) == Elements(b)
    ensures Sorted(a) == Sorted(b)
  {
    SortedIsOrdered(a);
    SortedIsOrdered(b);
    OrderedIsUnique(Sorted(a), Sorted(b));
  }

  /** The ordered sequence of a set of names. */
  ghost function InOrder(names: set<string>): (r: seq<string>)
    ensures Elements(r) == names && Ordered(r)
    ensures forall n :: n in r <==> n in names
  {
    var listing := ListOf(names);
    SortedIsOrdered(listing);
    Sorted(listing)
  }

  ghost function ListOf(names: set<string>): (r: seq<string>)
    ensures Elements(r) == names
  {
    if names == {} then []
    else
      var n :| n in names;
      ElementsOfFirst(n, ListOf(names - {n}));
      [n] + ListOf(names - {n})
  }
}
