/**
 Rust's `Path` order, as the sandbox helper's path sets use it (crates/ta-linux-sandbox/src/main.rs:501-524):
 paths are compared by their components, and a `BTreeSet` keeps the first of equal paths, in ascending order.
 */
module Paths {
  import opened Prelude

  type OsString = string

  predicate IsAbsolute(path: OsString) {
    "/" <= path
  }

  datatype Component = RootDir | CurDir | ParentDir | Normal(name: OsString)

  /** Repeated and trailing slashes and inner dots are no components. */
  function PieceComponents(pieces: seq<OsString>): seq<Component> {
    if pieces == [] then []
    else
      var piece := pieces[|pieces| - 1];
      PieceComponents(pieces[..|pieces| - 1])
      + if piece == "" || piece == "." then [] else if piece == ".." then [ParentDir] else [Normal(piece)]
  }

  function Components(path: OsString): seq<Component> {
    var pieces := Split('/', path);
    (if IsAbsolute(path) then [RootDir] else if pieces[0] == "." then [CurDir] else []) + PieceComponents(pieces)
  }

  function Rank(c: Component): nat {
    match c
    case RootDir => 0
    case CurDir => 1
    case ParentDir => 2
    case Normal(_) => 3
  }

  predicate ComponentLess(a: Component, b: Component) {
    Rank(a) < Rank(b) || (a.Normal? && b.Normal? && StringLess(a.name, b.name))
  }

  predicate ComponentsLess(a: seq<Component>, b: seq<Component>) {
    b != [] && (a == [] || ComponentLess(a[0], b[0]) || (a[0] == b[0] && ComponentsLess(a[1..], b[1..])))
  }

  predicate SamePath(p: OsString, q: OsString) {
    Components(p) == Components(q)
  }

  predicate PathLess(p: OsString, q: OsString) {
    ComponentsLess(Components(p), Components(q))
  }

  lemma {:induction false} ComponentsLessIrreflexive(a: seq<Component>)
    ensures !ComponentsLess(a, a)
  {
    if a != [] {
      ComponentsLessIrreflexive(a[1..]);
      if a[0].Normal? { StringLessIrreflexive(a[0].name); }
    }
  }

  lemma {:induction false} ComponentsLessTotal(a: seq<Component>, b: seq<Component>)
    ensures a == b || ComponentsLess(a, b) || ComponentsLess(b, a)
  {
    if a != [] && b != [] {
      if a[0].Normal? && b[0].Normal? { StringLessTotal(a[0].name, b[0].name); }
      if a[0] == b[0] {
        ComponentsLessTotal(a[1..], b[1..]);
        if a[1..] == b[1..] { assert a == [a[0]] + a[1..] && b == [b[0]] + b[1..]; }
      }
    }
  }

  lemma ComponentLessTransitive(a: Component, b: Component, c: Component)
    requires a == b || ComponentLess(a, b)
    requires b == c || ComponentLess(b, c)
    ensures a == c || ComponentLess(a, c)
    ensures a == b || b == c || ComponentLess(a, c)
  {
    if a != b && b != c && a.Normal? && c.Normal? { StringLessTransitive(a.name, b.name, c.name); }
  }

  lemma {:induction false} ComponentsLessTransitive(a: seq<Component>, b: seq<Component>, c: seq<Component>)
    requires ComponentsLess(a, b) && ComponentsLess(b, c)
    ensures ComponentsLess(a, c)
  {
    if a != [] {
      ComponentLessTransitive(a[0], b[0], c[0]);
      if a[0].Normal? { StringLessIrreflexive(a[0].name); }
      if a[0] == b[0] == c[0] { ComponentsLessTransitive(a[1..], b[1..], c[1..]); }
    }
  }

  // Which spellings are the same path, and which come first.

  lemma {:induction false} PieceComponentsJoin(x: seq<OsString>, y: seq<OsString>)
    ensures PieceComponents(x + y) == PieceComponents(x) + PieceComponents(y)
    decreases |y|
  {
    if y == [] {
      assert x + y == x;
    } else {
      var front, last := y[..|y| - 1], y[|y| - 1];
      PieceComponentsJoin(x, front);
      assert (x + y)[..|x + y| - 1] == x + front && (x + y)[|x + y| - 1] == last;
    }
  }

  /** `b` below `a` */
  function Below(a: OsString, b: OsString): OsString {
    a + ['/'] + b
  }

  /** What a slash after some path adds to it. */
  lemma ComponentsBelow(a: OsString, b: OsString)
    requires a != ""
    ensures Components(Below(a, b)) == Components(a) + PieceComponents(Split('/', b))
  {
    var x, y := Split('/', a), Split('/', b);
    hide PieceComponents, Split;
    SplitJoins('/', a, b);
    PieceComponentsJoin(x, y);
    BelowStarts(a, b);
    assert (x + y)[0] == x[0];
    hide IsAbsolute, Below;
    var root := if IsAbsolute(a) then [RootDir] else if x[0] == "." then [CurDir] else [];
    ConcatAssociates(root, PieceComponents(x), PieceComponents(y));
  }

  lemma BelowStarts(a: OsString, b: OsString)
    requires a != ""
    ensures IsAbsolute(Below(a, b)) <==> IsAbsolute(a)
    ensures Below(a, b) == a + ['/'] + b
  {
    assert Below(a, b)[0] == a[0];
  }

  /** A file name: not empty, no slash, and neither of the two dotted ones. */
  predicate IsName(name: OsString) {
    name != "" && name != "." && name != ".." && '/' !in name
  }

  lemma OnePieceComponents(name: OsString)
    requires '/' !in name
    ensures PieceComponents(Split('/', name)) ==
            if name == "" || name == "." then [] else if name == ".." then [ParentDir] else [Normal(name)]
  {
    OnePiece('/', name);
    assert [name][..0] == [];
  }

  /** A slash at the end, a doubled slash and an inner dot do not count. */
  lemma SpellingsOfAPath(a: OsString, b: OsString)
    requires a != ""
    ensures SamePath(Below(a, ""), a) && SamePath(Below(a, "."), a)
    ensures SamePath(Below(Below(a, ""), b), Below(a, b)) && SamePath(Below(Below(a, "."), b), Below(a, b))
  {
    OnePieceComponents("");
    OnePieceComponents(".");
    hide Components, PieceComponents, Split;
    ComponentsBelow(a, "");
    ComponentsBelow(a, ".");
    ComponentsBelow(a, b);
    assert Components(a) + [] == Components(a);
    assert Below(a, "") != "" && Below(a, ".") != "";
    hide Below;
    ComponentsBelow(Below(a, ""), b);
    ComponentsBelow(Below(a, "."), b);
  }

  /** A name below a path is one more component, and so are the two dots. */
  lemma NamesBelowAPath(a: OsString, name: OsString)
    requires a != "" && IsName(name)
    ensures Components(Below(a, name)) == Components(a) + [Normal(name)]
    ensures Components(Below(a, "..")) == Components(a) + [ParentDir]
  {
    OnePieceComponents(name);
    OnePieceComponents("..");
    hide Components, PieceComponents, Split, Below;
    ComponentsBelow(a, name);
    ComponentsBelow(a, "..");
  }

  /** Paths of one word, and of one below the root. */
  lemma ShortPaths(name: OsString)
    requires IsName(name)
    ensures Components(name) == [Normal(name)] && Components("") == [] && Components(".") == [CurDir]
    ensures Components("..") == [ParentDir] && Components(Below("", "")) == [RootDir]
    ensures Components(Below("", name)) == [RootDir, Normal(name)]
  {
    WordComponents(name);
    WordComponents("");
    WordComponents(".");
    WordComponents("..");
    RootedComponents("");
    RootedComponents(name);
    hide Components;
  }

  lemma SlashIn(path: OsString)
    requires '/' !in path
    ensures !IsAbsolute(path)
  {
    assert path != "" ==> path[0] in path;
  }

  lemma WordComponents(word: OsString)
    requires '/' !in word
    ensures Components(word) ==
            if word == "" then [] else if word == "." then [CurDir] else if word == ".." then [ParentDir] else [Normal(word)]
  {
    OnePiece('/', word);
    OnePieceComponents(word);
    assert !IsAbsolute(word) by { SlashIn(word); }
    hide PieceComponents, Split;
  }

  lemma RootedComponents(word: OsString)
    requires '/' !in word && word != "." && word != ".."
    ensures Components(Below("", word)) == if word == "" then [RootDir] else [RootDir, Normal(word)]
  {
    SplitJoins('/', "", word);
    OnePiece('/', "");
    PieceComponentsJoin([""], Split('/', word));
    OnePieceComponents("");
    OnePieceComponents(word);
    assert Below("", word)[0] == '/';
    hide PieceComponents, Split;
  }

  lemma {:induction false} BelowCommonStart(start: seq<Component>, x: seq<Component>, y: seq<Component>)
    ensures ComponentsLess(start + x, start + y) <==> ComponentsLess(x, y)
  {
    if start == [] {
      assert start + x == x && start + y == y;
    } else {
      BelowCommonStart(start[1..], x, y);
      assert (start + x)[1..] == start[1..] + x && (start + y)[1..] == start[1..] + y;
      if start[0].Normal? { StringLessIrreflexive(start[0].name); }
    }
  }

  /** A path comes before what lies below it; two names below one path come in the order of their characters. */
  lemma PathsInOrder(a: OsString, x: OsString, y: OsString)
    requires a != "" && IsName(x) && IsName(y)
    ensures PathLess(a, Below(a, x)) && PathLess(Below(a, ".."), Below(a, x))
    ensures PathLess(Below(a, x), Below(a, y)) <==> StringLess(x, y)
  {
    NamesBelowAPath(a, x);
    NamesBelowAPath(a, y);
    var start := Components(a);
    hide Components, SamePath, Below;
    BelowCommonStart(start, [], [Normal(x)]);
    BelowCommonStart(start, [Normal(x)], [Normal(y)]);
    BelowCommonStart(start, [ParentDir], [Normal(x)]);
    assert start + [] == start;
  }

  /** Absolute paths come before relative ones, and those that start with a dot or climb before names. */
  lemma FirstComponentsInOrder(p: OsString, q: OsString, name: OsString)
    requires Components(p) != [] && Components(q) != []
    ensures Components(p)[0] == RootDir && Components(q)[0] != RootDir ==> PathLess(p, q)
    ensures Components(p)[0] == CurDir && (Components(q)[0] == ParentDir || Components(q)[0].Normal?) ==> PathLess(p, q)
    ensures Components(p)[0] == ParentDir && Components(q)[0].Normal? ==> PathLess(p, q)
  {
    hide Components;
  }

  // A `BTreeSet<PathBuf>` as the sequence it iterates over.

  predicate Contains(paths: seq<OsString>, p: OsString) {
    exists i :: 0 <= i < |paths| && SamePath(paths[i], p)
  }

  ghost predicate Ascending(paths: seq<OsString>) {
    forall i, j | 0 <= i < j < |paths| :: PathLess(paths[i], paths[j])
  }

  /** `BTreeSet::insert` */
  function Insert(paths: seq<OsString>, p: OsString): seq<OsString> {
    if paths == [] then [p]
    else
      var front, last := paths[..|paths| - 1], paths[|paths| - 1];
      if SamePath(last, p) then paths
      else if PathLess(last, p) then paths + [p]
      else Insert(front, p) + [last]
  }

  /** The set after inserting some paths into an empty one. */
  function PathSet(added: seq<OsString>): seq<OsString> {
    if added == [] then [] else Insert(PathSet(added[..|added| - 1]), added[|added| - 1])
  }

  lemma PathSetSnoc(added: seq<OsString>, p: OsString)
    ensures PathSet(added + [p]) == Insert(PathSet(added), p)
  {
    assert (added + [p])[..|added|] == added;
  }

  lemma ContainsSnoc(paths: seq<OsString>, last: OsString, p: OsString)
    ensures Contains(paths + [last], p) <==> Contains(paths, p) || SamePath(last, p)
  {
    var longer := paths + [last];
    hide SamePath;
    assert longer[|paths|] == last;
    if i :| 0 <= i < |paths| && SamePath(paths[i], p) { assert SamePath(longer[i], p); }
  }

  lemma NothingAbove(paths: seq<OsString>, p: OsString)
    requires Ascending(paths) && paths != [] && PathLess(paths[|paths| - 1], p)
    ensures !Contains(paths, p)
  {
    forall i | 0 <= i < |paths| ensures !SamePath(paths[i], p) {
      BelowLast(paths, p, paths[i]);
      ComponentsLessIrreflexive(Components(p));
      hide Components, ComponentsLess, Ascending;
    }
  }

  lemma AscendingSnoc(paths: seq<OsString>, last: OsString)
    requires Ascending(paths) && forall q | q in paths :: PathLess(q, last)
    ensures Ascending(paths + [last])
  {
    hide PathLess;
  }

  /** An inserted path is either there already under some spelling, or joins the others at its place. */
  lemma {:induction false} InsertKeepsOrder(paths: seq<OsString>, p: OsString)
    requires Ascending(paths)
    ensures Ascending(Insert(paths, p))
    ensures forall q :: q in Insert(paths, p) <==> q in paths || (q == p && !Contains(paths, p))
  {
    if paths != [] {
      var front, last := paths[..|paths| - 1], paths[|paths| - 1];
      assert paths == front + [last];
      ContainsSnoc(front, last, p);
      if !SamePath(last, p) {
        ComponentsLessTotal(Components(last), Components(p));
        if PathLess(last, p) {
          NothingAbove(paths, p);
          forall q | q in paths ensures PathLess(q, p) { BelowLast(paths, p, q); }
          AscendingSnoc(paths, p);
        } else {
          InsertKeepsOrder(front, p);
          hide SamePath, Contains, Components;
          assert forall q | q in front :: PathLess(q, last) by { hide PathLess; }
          AscendingSnoc(Insert(front, p), last);
        }
      }
    }
  }

  lemma BelowLast(paths: seq<OsString>, p: OsString, q: OsString)
    requires Ascending(paths) && q in paths && PathLess(paths[|paths| - 1], p)
    ensures PathLess(q, p)
  {
    var last := paths[|paths| - 1];
    var i :| 0 <= i < |paths| && paths[i] == q;
    hide Components, ComponentsLess;
    if i < |paths| - 1 { ComponentsLessTransitive(Components(q), Components(last), Components(p)); }
  }

  /** `p` is added, and no earlier addition is the same path. */
  predicate FirstSpelling(added: seq<OsString>, p: OsString) {
    exists i :: 0 <= i < |added| && added[i] == p && !Contains(added[..i], p)
  }

  lemma FirstSpellingSnoc(added: seq<OsString>, last: OsString, p: OsString)
    ensures FirstSpelling(added + [last], p) <==> FirstSpelling(added, p) || (p == last && !Contains(added, p))
  {
    var longer := added + [last];
    hide Contains;
    assert longer[|added|] == last && longer[..|added|] == added;
    assert forall i | 0 <= i < |added| :: longer[..i] == added[..i] && longer[i] == added[i];
    if FirstSpelling(longer, p) {
      var i :| 0 <= i < |longer| && longer[i] == p && !Contains(longer[..i], p);
      assert i < |added| ==> added[..i] == longer[..i];
    }
    if FirstSpelling(added, p) {
      var i :| 0 <= i < |added| && added[i] == p && !Contains(added[..i], p);
      assert longer[i] == p && longer[..i] == added[..i];
    }
  }

  /** The set is in ascending order and holds exactly the first spelling of each path added to it. */
  lemma {:induction false} PathSetIsExact(added: seq<OsString>)
    ensures Ascending(PathSet(added))
    ensures forall p :: p in PathSet(added) <==> FirstSpelling(added, p)
    ensures forall p :: Contains(PathSet(added), p) <==> Contains(added, p)
  {
    if added != [] {
      var front, last := added[..|added| - 1], added[|added| - 1];
      PathSetIsExact(front);
      InsertKeepsOrder(PathSet(front), last);
      assert added == front + [last];
      forall p ensures p in PathSet(added) <==> FirstSpelling(added, p) { FirstSpellingSnoc(front, last, p); }
      forall p ensures Contains(PathSet(added), p) <==> Contains(added, p) {
        ContainsSnoc(front, last, p);
        InsertContains(PathSet(front), last, p);
      }
    }
  }

  lemma InsertContains(paths: seq<OsString>, added: OsString, p: OsString)
    requires Ascending(paths)
    ensures Contains(Insert(paths, added), p) <==> Contains(paths, p) || SamePath(added, p)
  {
    InsertKeepsOrder(paths, added);
    hide Ascending, Components, Insert;
    var longer := Insert(paths, added);
    if i :| 0 <= i < |paths| && SamePath(paths[i], p) { assert paths[i] in longer; }
    if i :| 0 <= i < |longer| && SamePath(longer[i], p) { assert longer[i] in longer; }
    if SamePath(added, p) {
      if Contains(paths, added) {
        var i :| 0 <= i < |paths| && SamePath(paths[i], added);
        assert paths[i] in longer;
      } else {
        assert added in longer;
      }
    }
  }

  /** Only one sequence is in ascending order and has given members. */
  lemma {:induction false} AscendingUnique(a: seq<OsString>, b: seq<OsString>)
    requires Ascending(a) && Ascending(b) && forall p :: p in a <==> p in b
    ensures a == b
  {
    hide PathLess;
    assert a != [] ==> a[0] in b;
    assert b != [] ==> b[0] in a;
    if a != [] {
      LastIsLast(a, b);
      var front, other := a[..|a| - 1], b[..|b| - 1];
      FrontAscends(a);
      FrontAscends(b);
      hide Ascending;
      forall q ensures q in front <==> q in other {
        LastIsNew(a, q);
        LastIsNew(b, q);
      }
      AscendingUnique(front, other);
      assert a == front + [a[|a| - 1]] && b == other + [b[|b| - 1]];
    }
  }

  lemma FrontAscends(paths: seq<OsString>)
    requires Ascending(paths) && paths != []
    ensures Ascending(paths[..|paths| - 1])
  {
    hide PathLess;
  }

  lemma LastIsAbove(paths: seq<OsString>, p: OsString)
    requires Ascending(paths) && p in paths
    ensures p == paths[|paths| - 1] || PathLess(p, paths[|paths| - 1])
  {
    hide PathLess;
  }

  lemma LastIsLast(a: seq<OsString>, b: seq<OsString>)
    requires Ascending(a) && Ascending(b) && a != [] && b != [] && forall p :: p in a <==> p in b
    ensures a[|a| - 1] == b[|b| - 1]
  {
    var p, q := a[|a| - 1], b[|b| - 1];
    assert p in b && q in a;
    LessOneWay(p, q);
    hide PathLess;
    if p != q { LastIsAbove(b, p); LastIsAbove(a, q); }
  }

  lemma LessOneWay(p: OsString, q: OsString)
    ensures !PathLess(p, q) || !PathLess(q, p)
  {
    ComponentsLessIrreflexive(Components(p));
    if PathLess(p, q) && PathLess(q, p) { ComponentsLessTransitive(Components(p), Components(q), Components(p)); }
  }

  lemma LastIsNew(a: seq<OsString>, q: OsString)
    requires Ascending(a) && a != []
    ensures q in a[..|a| - 1] <==> q in a && q != a[|a| - 1]
  {
    var m := |a| - 1;
    hide PathLess;
    assert a == a[..m] + [a[m]];
    if q == a[m] {
      forall i | 0 <= i < m ensures a[i] != q {
        if a[i] == q { LessOneWay(q, a[m]); }
      }
    }
  }
}
