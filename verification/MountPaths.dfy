/** Lexical path cleaning and the order in which mounts are sorted. */
module MountPaths {

  /** The parts of a path between its slashes; there is always at least one. */
  function Split(path: string): (parts: seq<string>)
    ensures parts != []
    ensures forall i :: 0 <= i < |parts| ==> '/' !in parts[i]
  {
    if path == "" then [""]
    else
      var rest := Split(path[1..]);
      if path[0] == '/' then [""] + rest else [[path[0]] + rest[0]] + rest[1..]
  }

  function Join(parts: seq<string>): string {
    if parts == [] then "" else if |parts| == 1 then parts[0] else parts[0] + "/" + Join(parts[1..])
  }

  function Count(path: string): nat {
    if path == "" then 0 else (if path[0] == '/' then 1 else 0) + Count(path[1..])
  }

  /** A name as it can stand in a cleaned path. */
  predicate Name(part: string) {
    part != "" && part != "." && '/' !in part
  }

  /** The names left after dropping empty and "." parts and resolving ".." against the names before it. */
  function Resolve(parts: seq<string>, rooted: bool, names: seq<string>): (r: seq<string>)
    requires forall i :: 0 <= i < |parts| ==> '/' !in parts[i]
    requires forall i :: 0 <= i < |names| ==> Name(names[i])
    ensures forall i :: 0 <= i < |r| ==> Name(r[i])
  {
    if parts == [] then names
    else
      var part := parts[0];
      if part == "" || part == "." then Resolve(parts[1..], rooted, names)
      else if part != ".." then Resolve(parts[1..], rooted, names + [part])
      else if names != [] && names[|names| - 1] != ".." then Resolve(parts[1..], rooted, names[..|names| - 1])
      else Resolve(parts[1..], rooted, if rooted then names else names + [part])
  }

  predicate Rooted(path: string) {
    path != "" && path[0] == '/'
  }

  function Names(path: string): (r: seq<string>)
    ensures forall i :: 0 <= i < |r| ==> Name(r[i])
  {
    Resolve(Split(path), Rooted(path), [])
  }

  /** The shortest path name equivalent to `path`. */
  function Clean(path: string): string {
    if Rooted(path) then "/" + Join(Names(path))
    else if Names(path) == [] then "."
    else Join(Names(path))
  }

  /** The number of slashes of the cleaned destination, which mounts are sorted by. */
  function Parts(path: string): nat {
    Count(Clean(path))
  }

  /** The directory that a destination names under the container's root; a relative one starts there too. */
  function Place(path: string): (r: seq<string>)
    ensures forall i :: 0 <= i < |r| ==> Name(r[i])
  {
    Resolve(Split(path), true, [])
  }

  /** That directory spelled out. */
  function Below(path: string): string {
    "/" + Join(Place(path))
  }

  ghost predicate SamePlace(p: string, q: string) {
    Place(p) == Place(q)
  }

  /** `p` names a proper ancestor directory of `q`. */
  ghost predicate Ancestor(p: string, q: string) {
    Place(p) < Place(q)
  }

  // ---------------------------------------------------------------------------

  lemma {:induction false} SplitSlash(a: string, b: string)
    requires '/' !in a
    ensures Split(a + "/" + b) == [a] + Split(b)
  {
    var path := a + "/" + b;
    if a == "" {
      assert path[1..] == b;
    } else {
      assert path[1..] == a[1..] + "/" + b;
      SplitSlash(a[1..], b);
      assert a == [a[0]] + a[1..];
    }
  }

  lemma {:induction false} SplitPlain(a: string)
    requires '/' !in a
    ensures Split(a) == [a]
  {
    if a != "" {
      SplitPlain(a[1..]);
      assert a == [a[0]] + a[1..];
    }
  }

  lemma {:induction false} CountConcat(a: string, b: string)
    ensures Count(a + b) == Count(a) + Count(b)
  {
    if a == "" {
      assert a + b == b;
    } else {
      assert (a + b)[1..] == a[1..] + b;
      CountConcat(a[1..], b);
    }
  }

  lemma {:induction false} CountNone(a: string)
    requires '/' !in a
    ensures Count(a) == 0
  {
    if a != "" {
      CountNone(a[1..]);
    }
  }

  lemma {:induction false} CountJoin(names: seq<string>)
    requires names != [] && forall i :: 0 <= i < |names| ==> '/' !in names[i]
    ensures Count(Join(names)) == |names| - 1
  {
    CountNone(names[0]);
    if |names| > 1 {
      CountJoin(names[1..]);
      CountConcat(names[0] + "/", Join(names[1..]));
      CountConcat(names[0], "/");
      assert Count("/") == 1;
    }
  }

  /** A rooted path has as many parts as names, but the root has one too. */
  lemma PartsAreNames(path: string)
    ensures var n := |Names(path)|;
            Parts(path) == if Rooted(path) then (if n == 0 then 1 else n) else (if n == 0 then 0 else n - 1)
  {
    var names := Names(path);
    if names != [] {
      assert forall i :: 0 <= i < |names| ==> Name(names[i]) && '/' !in names[i];
      CountJoin(names);
      CountConcat("/", Join(names));
    }
    assert Count("/") == 1 && Count(".") == 0;
    assert "/" + "" == "/";
  }

  lemma AncestorHasFewerParts(p: string, q: string)
    requires Rooted(p) && Rooted(q) && Ancestor(p, q)
    ensures Parts(p) < Parts(q) || (Parts(p) == Parts(q) && Place(p) == [] && |Place(q)| == 1)
  {
    PartsAreNames(p);
    PartsAreNames(q);
  }

  /** `later` is on the root and `earlier` on a top-level directory, both by absolute paths. */
  ghost predicate RootOver(later: string, earlier: string) {
    Rooted(later) && Rooted(earlier) && Place(later) == [] && |Place(earlier)| == 1
  }

  /** One of the paths is relative, and `later` is an ancestor: the order of parts does not compare such a pair. */
  ghost predicate RelativeOver(later: string, earlier: string) {
    !(Rooted(later) && Rooted(earlier)) && Ancestor(later, earlier)
  }

  /** What is mounted at `later` hides what is mounted at `earlier`: it is on the same directory or one above it. */
  ghost predicate Hides(later: string, earlier: string) {
    Place(later) <= Place(earlier)
  }

  /** In the order by parts, a mount hides one that comes before it exactly when both are on the same directory, when
      it is on the root and the other on a top-level directory, or when it is above the other and one of them is
      relative. */
  lemma HidesInOrderIff(earlier: string, later: string)
    requires Parts(earlier) <= Parts(later)
    ensures Hides(later, earlier) <==>
            SamePlace(later, earlier) || RootOver(later, earlier) || RelativeOver(later, earlier)
  {
    if Hides(later, earlier) && !SamePlace(later, earlier) {
      assert Ancestor(later, earlier);
      if Rooted(later) && Rooted(earlier) {
        AncestorHasFewerParts(later, earlier);
      }
    }
  }

  // ---------------------------------------------------------------------------
  // Paths and the names they spell out

  lemma {:induction false} SplitJoin(names: seq<string>)
    requires names != [] && forall i :: 0 <= i < |names| ==> '/' !in names[i]
    ensures Split(Join(names)) == names
  {
    if |names| == 1 {
      SplitPlain(names[0]);
    } else {
      SplitJoin(names[1..]);
      SplitSlash(names[0], Join(names[1..]));
    }
  }

  lemma SplitRooted(names: seq<string>)
    requires names != [] && forall i :: 0 <= i < |names| ==> '/' !in names[i]
    ensures Split("/" + Join(names)) == [""] + names
  {
    SplitJoin(names);
    SplitSlash("", Join(names));
    assert "" + "/" + Join(names) == "/" + Join(names);
  }

  /** Different directories are spelled differently, so two destinations name the same one exactly when the paths below
      the root that they clean to are equal. */
  lemma SamePlaceIff(p: string, q: string)
    ensures SamePlace(p, q) <==> Below(p) == Below(q)
  {
    if Below(p) == Below(q) {
      SpellingUnique(Place(p), Place(q));
    }
  }

  lemma SpellingUnique(a: seq<string>, b: seq<string>)
    requires forall i :: 0 <= i < |a| ==> Name(a[i])
    requires forall i :: 0 <= i < |b| ==> Name(b[i])
    requires "/" + Join(a) == "/" + Join(b)
    ensures a == b
  {
    assert ("/" + Join(a))[1..] == Join(a) && ("/" + Join(b))[1..] == Join(b);
    JoinEmptyIff(a);
    JoinEmptyIff(b);
    if a != [] && b != [] {
      SplitJoin(a);
      SplitJoin(b);
    }
  }

  lemma JoinEmptyIff(names: seq<string>)
    requires forall i :: 0 <= i < |names| ==> Name(names[i])
    ensures Join(names) == "" <==> names == []
  {
    if names != [] {
      assert Name(names[0]);
    }
  }

  /** For absolute destinations that are clean already, that is equality of the strings. */
  lemma CleanSamePlaceIff(p: string, q: string)
    requires Rooted(p) && Rooted(q) && Clean(p) == p && Clean(q) == q
    ensures SamePlace(p, q) <==> p == q
  {
    SamePlaceIff(p, q);
  }

  /** A name that cleaning leaves where it is. */
  predicate Plain(name: string) {
    Name(name) && name != ".."
  }

  lemma {:induction false} ResolvePlain(parts: seq<string>, rooted: bool, names: seq<string>)
    requires forall i :: 0 <= i < |parts| ==> Plain(parts[i]) && '/' !in parts[i]
    requires forall i :: 0 <= i < |names| ==> Name(names[i])
    ensures Resolve(parts, rooted, names) == names + parts
  {
    if parts != [] {
      assert Plain(parts[0]);
      ResolvePlain(parts[1..], rooted, names + [parts[0]]);
    }
  }

  lemma ResolveLeading(parts: seq<string>)
    requires forall i :: 0 <= i < |parts| ==> Plain(parts[i]) && '/' !in parts[i]
    ensures Resolve([""] + parts, true, []) == parts
  {
    assert ([""] + parts)[1..] == parts;
    ResolvePlain(parts, true, []);
    assert [] + parts == parts;
  }

  /** The names once one more part has been resolved against them. */
  function After(names: seq<string>, rooted: bool, part: string): seq<string> {
    if part == "" || part == "." then names
    else if part != ".." then names + [part]
    else if names != [] && names[|names| - 1] != ".." then names[..|names| - 1]
    else if rooted then names
    else names + [".."]
  }

  /** The last part of a path is resolved against the names of the others. */
  lemma {:induction false} ResolveLast(parts: seq<string>, rooted: bool, names: seq<string>, last: string)
    requires '/' !in last && forall i :: 0 <= i < |parts| ==> '/' !in parts[i]
    requires forall i :: 0 <= i < |names| ==> Name(names[i])
    ensures Resolve(parts + [last], rooted, names) == After(Resolve(parts, rooted, names), rooted, last)
    decreases parts
  {
    var longer := parts + [last];
    if parts == [] {
      assert longer[1..] == [] && longer[0] == last;
    } else {
      var part, rest := parts[0], parts[1..];
      assert longer[0] == part && longer[1..] == rest + [last];
      if part == "" || part == "." {
        ResolveLast(rest, rooted, names, last);
      } else if part != ".." {
        ResolveLast(rest, rooted, names + [part], last);
      } else if names != [] && names[|names| - 1] != ".." {
        ResolveLast(rest, rooted, names[..|names| - 1], last);
      } else {
        ResolveLast(rest, rooted, if rooted then names else names + [part], last);
      }
    }
  }

  lemma {:induction false} SplitAppend(path: string, part: string)
    requires '/' !in part
    ensures Split(path + "/" + part) == Split(path) + [part]
  {
    var longer := path + "/" + part;
    if path == "" {
      SplitSlash("", part);
      SplitPlain(part);
    } else {
      assert longer[1..] == path[1..] + "/" + part && longer[0] == path[0];
      SplitAppend(path[1..], part);
    }
  }

  /** Under the root no name goes up. */
  lemma {:induction false} ResolveStaysBelow(parts: seq<string>, names: seq<string>)
    requires forall i :: 0 <= i < |parts| ==> '/' !in parts[i]
    requires forall i :: 0 <= i < |names| ==> Name(names[i]) && Plain(names[i])
    ensures forall i :: 0 <= i < |Resolve(parts, true, names)| ==> Plain(Resolve(parts, true, names)[i])
  {
    if parts != [] {
      var part, rest := parts[0], parts[1..];
      if part == "" || part == "." {
        ResolveStaysBelow(rest, names);
      } else if part != ".." {
        ResolveStaysBelow(rest, names + [part]);
      } else if names != [] {
        ResolveStaysBelow(rest, names[..|names| - 1]);
      } else {
        ResolveStaysBelow(rest, names);
      }
    }
  }

  /** A path names a directory part by part: an empty part and "." stay, ".." goes one up, but never above the root, and
      anything else goes one down. */
  lemma PlaceStep(path: string, part: string)
    requires '/' !in part
    ensures Place(path + "/" + part) ==
            if part == "" || part == "." then Place(path)
            else if part == ".." then (if Place(path) == [] then [] else Place(path)[..|Place(path)| - 1])
            else Place(path) + [part]
    ensures Place(part) == if part == "" || part == "." || part == ".." then [] else [part]
  {
    SplitAppend(path, part);
    ResolveLast(Split(path), true, [], part);
    ResolveStaysBelow(Split(path), []);
    assert Place(path) != [] ==> Plain(Place(path)[|Place(path)| - 1]);
    SplitPlain(part);
    assert Resolve([part], true, []) == After([], true, part) by {
      assert [] + [part] == [part];
      ResolveLast([], true, [], part);
    }
  }

  /** A relative path keeps the ".." that nothing before it can undo. */
  lemma NamesStep(path: string, part: string)
    requires path != "" && '/' !in part
    ensures Rooted(path + "/" + part) == Rooted(path)
    ensures var names := Names(path);
            Names(path + "/" + part) ==
            if part == "" || part == "." then names
            else if part != ".." then names + [part]
            else if names != [] && names[|names| - 1] != ".." then names[..|names| - 1]
            else if Rooted(path) then names
            else names + [".."]
  {
    SplitAppend(path, part);
    ResolveLast(Split(path), Rooted(path), [], part);
  }

  /** A trailing slash does not change the directory that a path names. */
  lemma TrailingSlash(path: string)
    requires path != ""
    ensures Place(path + "/") == Place(path) && Names(path + "/") == Names(path) && Rooted(path + "/") == Rooted(path)
  {
    assert path + "/" + "" == path + "/";
    PlaceStep(path, "");
    NamesStep(path, "");
  }

  /** Reading a path that is spelled out from plain names gives those names back. */
  lemma PlaceRoundTrip(names: seq<string>)
    requires names != [] && forall i :: 0 <= i < |names| ==> Plain(names[i]) && '/' !in names[i]
    ensures Place("/" + Join(names)) == names
  {
    SplitRooted(names);
    ResolveLeading(names);
  }

  lemma OneName(name: string)
    requires Plain(name)
    ensures Rooted("/" + name) && Place("/" + name) == [name]
  {
    PlaceRoundTrip([name]);
  }

  lemma TwoNames(a: string, b: string)
    requires Plain(a) && Plain(b)
    ensures Place("/" + a + "/" + b) == [a, b]
  {
    assert [a, b][1..] == [b];
    assert "/" + a + "/" + b == "/" + Join([a, b]);
    PlaceRoundTrip([a, b]);
  }

  lemma ThreeNames(a: string, b: string, c: string)
    requires Plain(a) && Plain(b) && Plain(c)
    ensures Place("/" + a + "/" + b + "/" + c) == [a, b, c]
  {
    JoinThree(a, b, c);
    PlaceRoundTrip([a, b, c]);
  }

  lemma JoinThree(a: string, b: string, c: string)
    ensures "/" + a + "/" + b + "/" + c == "/" + Join([a, b, c])
  {
    var abc := [a, b, c];
    assert abc[1..] == [b, c];
    assert [b, c][1..] == [c];
    assert Join([c]) == c;
    assert Join([b, c]) == b + "/" + c;
    assert Join(abc) == a + "/" + (b + "/" + c);
    assert "/" + a + "/" + b + "/" + c == "/" + (a + "/" + (b + "/" + c));
  }

  lemma RootPlace()
    ensures Rooted("/") && Place("/") == []
  {
    SplitSlash("", "");
    assert "" + "/" + "" == "/" && Split("") == [""];
    assert Split("/") == ["", ""] && ["", ""][1..] == [""];
    assert Resolve([""], true, []) == [];
  }

  // ---------------------------------------------------------------------------
  // Each of the three cases is real

  /** The order does not separate the root from a top-level directory. */
  lemma RootNotSortedFirst()
    ensures Parts("/a") == Parts("/") && Hides("/", "/a") && RootOver("/", "/a")
  {
    RootPlace();
    OneName("a");
    assert "/" + "a" == "/a";
    PartsAreNames("/a");
    PartsAreNames("/");
  }

  /** A trailing slash makes another string of the same directory, with the same parts. */
  lemma TrailingSlashSamePlace(path: string)
    requires path != ""
    ensures path != path + "/" && Parts(path) == Parts(path + "/") && SamePlace(path, path + "/")
  {
    assert |path + "/"| == |path| + 1;
    TrailingSlash(path);
  }

  lemma RelativeNames(a: string, b: string)
    requires Plain(a) && Plain(b)
    ensures !Rooted(a + "/" + b) && Place(a + "/" + b) == [a, b] == Names(a + "/" + b)
  {
    SplitSlash(a, b);
    SplitPlain(b);
    assert Split(a + "/" + b) == [a, b];
    ResolvePlain([a, b], true, []);
    ResolvePlain([a, b], false, []);
    assert [] + [a, b] == [a, b];
    assert (a + "/" + b)[0] == a[0] && a[0] in a;
  }

  /** A relative path has one part less than the absolute one of the same directory, and sorts with its parent. */
  lemma RelativeSortsEarly(a: string, b: string)
    requires Plain(a) && Plain(b)
    ensures Parts(a + "/" + b) == Parts("/" + a) && RelativeOver("/" + a, a + "/" + b)
  {
    OneName(a);
    RelativeNames(a, b);
    PartsAreNames("/" + a);
    PartsAreNames(a + "/" + b);
  }
}
