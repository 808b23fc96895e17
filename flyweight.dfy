/** The Flyweight pattern of Patterns/Structural/flyweight.js: tree kinds
    (intrinsic state) are shared through a factory keyed by their fields, and a
    forest stores per-tree coordinates (extrinsic state) next to a reference to
    the shared kind. */
module Flyweight {
  import opened Output

  datatype Option<T> = None | Some(value: T)

  /** The line `TreeType.draw(x, y)` logs. */
  function TreeLine(name: string, color: string, texture: string, x: int, y: int): string {
    "Drawing " + name + " tree of color " + color + " and texture " + texture
    + " at (" + IntToString(x) + ", " + IntToString(y) + ")"
  }

  /** The flyweight: a kind of tree. Its fields are set once, by the constructor. */
  class TreeType {
    const name: string
    const color: string
    const texture: string

    constructor (name: string, color: string, texture: string)
      ensures this.name == name && this.color == color && this.texture == texture
    {
      this.name := name;
      this.color := color;
      this.texture := texture;
    }

    predicate HasFields(name: string, color: string, texture: string) {
      this.name == name && this.color == color && this.texture == texture
    }

    method Draw(x: int, y: int, console: Console)
      modifies console
      ensures console.lines == old(console.lines) + [TreeLine(name, color, texture, x, y)]
    {
      console.Log(TreeLine(name, color, texture, x, y));
    }
  }

  // ---------------------------------------------------------------------
  // Dictionary keys

  /** The key exactly as the factory builds it: the three fields joined by `_`. */
  function JoinedKey(name: string, color: string, texture: string): string {
    name + "_" + color + "_" + texture
  }

  /** Two different requests that the joined key cannot tell apart. */
  lemma JoinedKeyCollision()
    ensures ("a_b", "c", "d") != ("a", "b_c", "d")
    ensures JoinedKey("a_b", "c", "d") == JoinedKey("a", "b_c", "d")
  {
  }

  /** The joined key does tell requests apart when no name or color holds `_`. */
  lemma JoinedKeyInjective(n1: string, c1: string, t1: string, n2: string, c2: string, t2: string)
    requires '_' !in n1 && '_' !in c1 && '_' !in n2 && '_' !in c2
    requires JoinedKey(n1, c1, t1) == JoinedKey(n2, c2, t2)
    ensures n1 == n2 && c1 == c2 && t1 == t2
  {
    var r1, r2 := c1 + "_" + t1, c2 + "_" + t2;
    assert JoinedKey(n1, c1, t1) == n1 + "_" + r1;
    assert JoinedKey(n2, c2, t2) == n2 + "_" + r2;
    FirstUnderscore(n1, r1, n2, r2);
    FirstUnderscore(c1, t1, c2, t2);
  }

  /** Position of the first `c` in `s`. */
  function IndexOf(s: string, c: char): (i: nat)
    requires c in s
    ensures i < |s| && s[i] == c
  {
    if s[0] == c then 0 else 1 + IndexOf(s[1..], c)
  }

  /** In `a + [c] + r` the first `c` is the one after `a` when `a` holds none. */
  lemma {:induction false} IndexOfAfter(a: string, c: char, r: string)
    requires c !in a
    ensures IndexOf(a + [c] + r, c) == |a|
  {
    if a != [] {
      assert (a + [c] + r)[1..] == a[1..] + [c] + r;
      IndexOfAfter(a[1..], c, r);
    }
  }

  /** Splitting `a + "_" + r` at its first `_` recovers `a` when `a` holds none. */
  lemma FirstUnderscore(a1: string, r1: string, a2: string, r2: string)
    requires '_' !in a1 && '_' !in a2
    requires a1 + "_" + r1 == a2 + "_" + r2
    ensures a1 == a2 && r1 == r2
  {
    var k := a1 + "_" + r1;
    IndexOfAfter(a1, '_', r1);
    IndexOfAfter(a2, '_', r2);
    assert a1 == k[..|a1|] == a2;
    assert r1 == k[|a1| + 1..] == r2;
  }

  /** A field preceded by its length and a colon, as in `5:Green`. */
  function Frame(s: string): string {
    NatToString(|s|) + ":" + s
  }

  /** The key with the name and color framed by their lengths, so that no choice
      of fields can make two requests share a key. */
  function FramedKey(name: string, color: string, texture: string): string {
    Frame(name) + Frame(color) + texture
  }

  /** Reads one framed field off the front of `s`: the field and what follows it. */
  function SplitFrame(s: string): Option<(string, string)> {
    if ':' !in s then None
    else
      var i := IndexOf(s, ':');
      if exists j :: 0 <= j < i && !IsDigit(s[j]) then None
      else
        var len := ParseNat(s[..i]);
        if i + 1 + len > |s| then None else Some((s[i + 1..i + 1 + len], s[i + 1 + len..]))
  }

  /** Recovers the three fields of a framed key. */
  function DecodeKey(k: string): Option<(string, string, string)> {
    match SplitFrame(k)
    case None => None
    case Some((name, r)) =>
      match SplitFrame(r)
      case None => None
      case Some((color, texture)) => Some((name, color, texture))
  }

  lemma SplitFramed(a: string, rest: string)
    ensures SplitFrame(Frame(a) + rest) == Some((a, rest))
  {
    var digits := NatToString(|a|);
    var s := Frame(a) + rest;
    assert s == digits + [':'] + (a + rest);
    assert ':' !in digits by {
      forall j | 0 <= j < |digits| ensures digits[j] != ':' {
        assert IsDigit(digits[j]);
      }
    }
    IndexOfAfter(digits, ':', a + rest);
    var i := |digits|;
    assert s[..i] == digits;
    ParseNatToString(|a|);
    assert s[i + 1..i + 1 + |a|] == a;
    assert s[i + 1 + |a|..] == rest;
  }

  /** Decoding a framed key gives back the fields it was built from. */
  lemma DecodeFramedKey(name: string, color: string, texture: string)
    ensures DecodeKey(FramedKey(name, color, texture)) == Some((name, color, texture))
  {
    var rest := Frame(color) + texture;
    assert FramedKey(name, color, texture) == Frame(name) + rest;
    SplitFramed(name, rest);
    SplitFramed(color, texture);
  }

  /** Distinct requests always get distinct framed keys. */
  lemma FramedKeyInjective(n1: string, c1: string, t1: string, n2: string, c2: string, t2: string)
    requires FramedKey(n1, c1, t1) == FramedKey(n2, c2, t2)
    ensures n1 == n2 && c1 == c2 && t1 == t2
  {
    DecodeFramedKey(n1, c1, t1);
    DecodeFramedKey(n2, c2, t2);
  }

  /** The key a factory files a request under. */
  function Key(framedKeys: bool, name: string, color: string, texture: string): string {
    if framedKeys then FramedKey(name, color, texture) else JoinedKey(name, color, texture)
  }

  // ---------------------------------------------------------------------
  // The factory

  /** The flyweight factory: a memo table from keys to the one TreeType made for each.
      With `framedKeys` false it keys exactly as the source does; with it true it
      uses the injective framed key. */
  class TreeFactory {
    const framedKeys: bool
    var treeTypes: map<string, TreeType>

    /** Every entry is filed under the key of its own fields. */
    ghost predicate Valid()
      reads this
    {
      forall k :: k in treeTypes ==>
        k == Key(framedKeys, treeTypes[k].name, treeTypes[k].color, treeTypes[k].texture)
    }

    /** `t` is the instance this factory hands out for `t`'s own fields. */
    ghost predicate Canonical(t: TreeType)
      reads this
    {
      var k := Key(framedKeys, t.name, t.color, t.texture);
      k in treeTypes && treeTypes[k] == t
    }

    /** No stored name or color holds `_`. */
    ghost predicate UnderscoreFree()
      reads this
    {
      forall k :: k in treeTypes ==> '_' !in treeTypes[k].name && '_' !in treeTypes[k].color
    }

    constructor (framedKeys: bool)
      ensures this.framedKeys == framedKeys && treeTypes == map[] && Valid()
    {
      this.framedKeys := framedKeys;
      treeTypes := map[];
    }

    method GetTreeType(name: string, color: string, texture: string) returns (t: TreeType)
      requires Valid()
      modifies this
      ensures Valid()
      // a hit returns the stored instance, a miss stores and returns a new one
      ensures var k := Key(framedKeys, name, color, texture);
        && treeTypes == old(treeTypes)[k := t]
        && (k in old(treeTypes) ==> t == old(treeTypes)[k])
        && (k !in old(treeTypes) ==> fresh(t) && t.HasFields(name, color, texture))
      // at most one new entry, and no entry is ever replaced
      ensures |treeTypes| <= |old(treeTypes)| + 1
      ensures forall k :: k in old(treeTypes) ==> k in treeTypes && treeTypes[k] == old(treeTypes)[k]
      // the returned instance has the requested fields whenever the key cannot be ambiguous
      ensures framedKeys ==> t.HasFields(name, color, texture)
      ensures !framedKeys && '_' !in name && '_' !in color && old(UnderscoreFree()) ==>
                t.HasFields(name, color, texture) && UnderscoreFree()
    {
      var key := Key(framedKeys, name, color, texture);
      if key !in treeTypes {
        t := new TreeType(name, color, texture);
        treeTypes := treeTypes[key := t];
      } else {
        t := treeTypes[key];
        if framedKeys {
          FramedKeyInjective(t.name, t.color, t.texture, name, color, texture);
        } else if '_' !in name && '_' !in color && UnderscoreFree() {
          JoinedKeyInjective(t.name, t.color, t.texture, name, color, texture);
        }
      }
    }
  }

  /** Two requests with the same fields get the identical instance. */
  method SameRequestSharesInstance(factory: TreeFactory, name: string, color: string, texture: string)
    returns (first: TreeType, second: TreeType)
    requires factory.Valid()
    modifies factory
    ensures factory.Valid()
    ensures first == second
  {
    first := factory.GetTreeType(name, color, texture);
    second := factory.GetTreeType(name, color, texture);
  }

  /** With the key as written, asking for ("a", "b_c", "d") after ("a_b", "c", "d")
      returns the first instance, whose name is "a_b", not "a". */
  method JoinedKeyMixesRequests() returns (first: TreeType, second: TreeType)
    ensures first == second
    ensures first.HasFields("a_b", "c", "d") && !second.HasFields("a", "b_c", "d")
  {
    var factory := new TreeFactory(false);
    first := factory.GetTreeType("a_b", "c", "d");
    JoinedKeyCollision();
    second := factory.GetTreeType("a", "b_c", "d");
  }

  /** With framed keys the same two requests get two instances with their own fields. */
  method FramedKeySeparatesRequests() returns (first: TreeType, second: TreeType)
    ensures first != second
    ensures first.HasFields("a_b", "c", "d") && second.HasFields("a", "b_c", "d")
  {
    var factory := new TreeFactory(true);
    first := factory.GetTreeType("a_b", "c", "d");
    second := factory.GetTreeType("a", "b_c", "d");
  }

  // ---------------------------------------------------------------------
  // Trees and the forest

  /** The context: one tree's coordinates and its shared kind. */
  class Tree {
    const x: int
    const y: int
    const treeType: TreeType

    constructor (x: int, y: int, treeType: TreeType)
      ensures this.x == x && this.y == y && this.treeType == treeType
    {
      this.x := x;
      this.y := y;
      this.treeType := treeType;
    }

    function Line(): string {
      TreeLine(treeType.name, treeType.color, treeType.texture, x, y)
    }

    method Draw(console: Console)
      modifies console
      ensures console.lines == old(console.lines) + [Line()]
    {
      treeType.Draw(x, y, console);
    }
  }

  /** The lines drawing `trees` in order logs. */
  function ForestLines(trees: seq<Tree>): seq<string> {
    if trees == [] then [] else ForestLines(trees[..|trees| - 1]) + [trees[|trees| - 1].Line()]
  }

  /** One line per tree, the i-th line drawn from the i-th tree's coordinates and kind. */
  lemma {:induction false} ForestLinesSpec(trees: seq<Tree>)
    ensures |ForestLines(trees)| == |trees|
    ensures forall i :: 0 <= i < |trees| ==> ForestLines(trees)[i] == trees[i].Line()
  {
    if trees != [] {
      var front := trees[..|trees| - 1];
      ForestLinesSpec(front);
      var lines := ForestLines(trees);
      assert lines == ForestLines(front) + [trees[|trees| - 1].Line()];
      forall i | 0 <= i < |trees| - 1
        ensures lines[i] == trees[i].Line()
      {
        assert lines[i] == ForestLines(front)[i];
        assert front[i] == trees[i];
      }
    }
  }

  class Forest {
    var trees: seq<Tree>
    const treeFactory: TreeFactory

    /** The factory files every kind under its own key, and every tree's kind
        is the factory's instance for that kind's fields. */
    ghost predicate Valid()
      reads this, treeFactory
    {
      && treeFactory.Valid()
      && forall i :: 0 <= i < |trees| ==> treeFactory.Canonical(trees[i].treeType)
    }

    /** `framedKeys` chooses the factory's key: false keys as the source does. */
    constructor (framedKeys: bool)
      ensures Valid() && fresh(treeFactory) && treeFactory.framedKeys == framedKeys
      ensures trees == [] && treeFactory.treeTypes == map[]
    {
      trees := [];
      treeFactory := new TreeFactory(framedKeys);
    }

    method PlantTree(x: int, y: int, name: string, color: string, texture: string)
      requires Valid()
      modifies this, treeFactory
      ensures Valid()
      ensures |trees| == |old(trees)| + 1 && trees[..|old(trees)|] == old(trees)
      // the new tree holds the factory's entry for the request's key: the stored
      // one on a hit, a new kind with the requested fields on a miss
      ensures var k := Key(treeFactory.framedKeys, name, color, texture);
        var tree := trees[|trees| - 1];
        && fresh(tree) && tree.x == x && tree.y == y
        && treeFactory.treeTypes == old(treeFactory.treeTypes)[k := tree.treeType]
        && (k in old(treeFactory.treeTypes) ==> tree.treeType == old(treeFactory.treeTypes)[k])
        && (k !in old(treeFactory.treeTypes) ==> fresh(tree.treeType) && tree.treeType.HasFields(name, color, texture))
      // the kind has the requested fields whenever the key cannot be ambiguous
      ensures treeFactory.framedKeys ==> trees[|trees| - 1].treeType.HasFields(name, color, texture)
      ensures !treeFactory.framedKeys && '_' !in name && '_' !in color && old(treeFactory.UnderscoreFree()) ==>
                trees[|trees| - 1].treeType.HasFields(name, color, texture) && treeFactory.UnderscoreFree()
    {
      ghost var before := treeFactory.treeTypes;
      var treeType := treeFactory.GetTreeType(name, color, texture);
      var tree := new Tree(x, y, treeType);
      trees := trees + [tree];
      forall i | 0 <= i < |trees|
        ensures treeFactory.Canonical(trees[i].treeType)
      {
        var u := trees[i].treeType;
        var fw := treeFactory.framedKeys;
        if i < |trees| - 1 {
          assert u == old(trees)[i].treeType;
          assert Key(fw, u.name, u.color, u.texture) in before;
        } else {
          assert u == treeType;
          var k := Key(fw, name, color, texture);
          assert treeFactory.treeTypes[k] == u;
          assert k == Key(fw, u.name, u.color, u.texture);
        }
      }
    }

    /** Draws every tree, in the order they were planted. */
    method Draw(console: Console)
      modifies console
      ensures console.lines == old(console.lines) + ForestLines(trees)
    {
      for i := 0 to |trees|
        invariant console.lines == old(console.lines) + ForestLines(trees[..i])
      {
        trees[i].Draw(console);
        assert trees[..i + 1][..i] == trees[..i];
      }
      assert trees[..|trees|] == trees;
    }
  }

  /** Trees of a valid forest whose kinds have equal fields share one instance. */
  lemma ForestSharesKinds(forest: Forest, i: int, j: int)
    requires forest.Valid()
    requires 0 <= i < |forest.trees| && 0 <= j < |forest.trees|
    requires forest.trees[i].treeType.HasFields(
               forest.trees[j].treeType.name, forest.trees[j].treeType.color, forest.trees[j].treeType.texture)
    ensures forest.trees[i].treeType == forest.trees[j].treeType
  {
    assert forest.treeFactory.Canonical(forest.trees[i].treeType);
    assert forest.treeFactory.Canonical(forest.trees[j].treeType);
  }

  /** With the key as written, planting ("a", "b_c", "d") after ("a_b", "c", "d")
      gives the second tree the first one's kind, and the forest draws it as an
      "a_b" tree. */
  method JoinedKeyForestMixesKinds() returns (lines: seq<string>)
    ensures lines == [TreeLine("a_b", "c", "d", 0, 0), TreeLine("a_b", "c", "d", 1, 1)]
  {
    var forest := new Forest(false);
    forest.PlantTree(0, 0, "a_b", "c", "d");
    JoinedKeyCollision();
    forest.PlantTree(1, 1, "a", "b_c", "d");
    var console := new Console();
    forest.Draw(console);
    ForestLinesSpec(forest.trees);
    lines := console.lines;
  }

  /** With framed keys the same two plantings draw each tree with its own fields. */
  method FramedKeyForestSeparatesKinds() returns (lines: seq<string>)
    ensures lines == [TreeLine("a_b", "c", "d", 0, 0), TreeLine("a", "b_c", "d", 1, 1)]
  {
    var forest := new Forest(true);
    forest.PlantTree(0, 0, "a_b", "c", "d");
    forest.PlantTree(1, 1, "a", "b_c", "d");
    var console := new Console();
    forest.Draw(console);
    ForestLinesSpec(forest.trees);
    lines := console.lines;
  }

  /** A kind of tree as the demo names it: name, color and texture. */
  datatype Kind = Kind(name: string, color: string, texture: string)

  const Oak := Kind("Oak", "Green", "Rough")
  const Pine := Kind("Pine", "Dark Green", "Smooth")
  const Birch := Kind("Birch", "Light Green", "Striped")

  /** The line a tree of kind `k` at (x, y) draws. */
  function KindLine(k: Kind, x: int, y: int): string {
    TreeLine(k.name, k.color, k.texture, x, y)
  }

  function KindKey(framedKeys: bool, k: Kind): string {
    Key(framedKeys, k.name, k.color, k.texture)
  }

  /** Neither the name nor the color holds `_`, so even the key as written is unambiguous. */
  predicate NoUnderscore(k: Kind) {
    '_' !in k.name && '_' !in k.color
  }

  /** Three different kinds without `_` get three different keys, whichever key is used. */
  lemma DemoKindsDistinct(framedKeys: bool, oak: Kind, pine: Kind, birch: Kind)
    requires oak != pine && oak != birch && pine != birch
    requires NoUnderscore(oak) && NoUnderscore(pine) && NoUnderscore(birch)
    ensures KindKey(framedKeys, oak) != KindKey(framedKeys, pine)
    ensures KindKey(framedKeys, oak) != KindKey(framedKeys, birch)
    ensures KindKey(framedKeys, pine) != KindKey(framedKeys, birch)
  {
    KeysDiffer(framedKeys, oak, pine);
    KeysDiffer(framedKeys, oak, birch);
    KeysDiffer(framedKeys, pine, birch);
  }

  lemma KeysDiffer(framedKeys: bool, a: Kind, b: Kind)
    requires a != b && NoUnderscore(a) && NoUnderscore(b)
    ensures KindKey(framedKeys, a) != KindKey(framedKeys, b)
  {
    if KindKey(framedKeys, a) == KindKey(framedKeys, b) {
      if framedKeys {
        FramedKeyInjective(a.name, a.color, a.texture, b.name, b.color, b.texture);
      } else {
        JoinedKeyInjective(a.name, a.color, a.texture, b.name, b.color, b.texture);
      }
    }
  }

  /** The demo's kinds are three different kinds without `_`. */
  lemma DemoKindsAreUnambiguous()
    ensures Oak != Pine && Oak != Birch && Pine != Birch
    ensures NoUnderscore(Oak) && NoUnderscore(Pine) && NoUnderscore(Birch)
  {
    assert Oak.name[0] == 'O' && Pine.name[0] == 'P' && Birch.name[0] == 'B';
  }

  /** `tree` stands at (x, y) and is of kind `k`. */
  predicate PlantedAt(tree: Tree, k: Kind, x: int, y: int) {
    tree.x == x && tree.y == y && tree.treeType.HasFields(k.name, k.color, k.texture)
  }

  /** The demo's forest: oak, pine, oak, pine, birch along the diagonal. */
  predicate DemoPlanted(trees: seq<Tree>, oak: Kind, pine: Kind, birch: Kind) {
    && |trees| == 5
    && PlantedAt(trees[0], oak, 1, 2) && PlantedAt(trees[1], pine, 3, 4)
    && PlantedAt(trees[2], oak, 5, 6) && PlantedAt(trees[3], pine, 7, 8)
    && PlantedAt(trees[4], birch, 9, 10)
  }

  /** Five trees each planted as the demo plants them form the demo's forest. */
  lemma FiveTreesPlanted(t0: Tree, t1: Tree, t2: Tree, t3: Tree, t4: Tree, oak: Kind, pine: Kind, birch: Kind)
    requires PlantedAt(t0, oak, 1, 2) && PlantedAt(t1, pine, 3, 4)
    requires PlantedAt(t2, oak, 5, 6) && PlantedAt(t3, pine, 7, 8)
    requires PlantedAt(t4, birch, 9, 10)
    ensures DemoPlanted([t0, t1, t2, t3, t4], oak, pine, birch)
  {
  }

  /** Five lookups of three distinct keys leave three entries in the table. */
  lemma TableOfThreeKinds(a: string, b: string, c: string, v0: TreeType, v1: TreeType, v2: TreeType, v3: TreeType, v4: TreeType)
    requires a != b && a != c && b != c
    ensures |map[][a := v0][b := v1][a := v2][b := v3][c := v4]| == 3
  {
    var m := map[][a := v0][b := v1][a := v2][b := v3][c := v4];
    assert m.Keys == {a, b, c};
    assert |m| == |m.Keys|;
  }

  /** The forest keys as the source does, and no stored kind holds `_`, so every
      request without `_` gets a kind with its own fields. */
  ghost predicate Ready(forest: Forest)
    reads forest, forest.treeFactory
  {
    forest.Valid() && !forest.treeFactory.framedKeys && forest.treeFactory.UnderscoreFree()
  }

  /** One planting of the demo: the new tree has kind `k`. */
  method PlantKind(forest: Forest, x: int, y: int, k: Kind) returns (tree: Tree)
    requires Ready(forest) && NoUnderscore(k)
    modifies forest, forest.treeFactory
    ensures Ready(forest)
    ensures forest.trees == old(forest.trees) + [tree] && PlantedAt(tree, k, x, y)
    ensures forest.treeFactory.treeTypes == old(forest.treeFactory.treeTypes)[KindKey(false, k) := tree.treeType]
  {
    forest.PlantTree(x, y, k.name, k.color, k.texture);
    tree := forest.trees[|forest.trees| - 1];
    assert forest.trees == old(forest.trees) + [tree];
  }

  /** Two plantings in a row, each of its own kind. */
  method PlantPair(forest: Forest, first: Kind, x1: int, y1: int, second: Kind, x2: int, y2: int)
    returns (t1: Tree, t2: Tree)
    requires Ready(forest) && NoUnderscore(first) && NoUnderscore(second)
    modifies forest, forest.treeFactory
    ensures Ready(forest)
    ensures forest.trees == old(forest.trees) + [t1, t2]
    ensures PlantedAt(t1, first, x1, y1) && PlantedAt(t2, second, x2, y2)
    ensures forest.treeFactory.treeTypes
      == old(forest.treeFactory.treeTypes)[KindKey(false, first) := t1.treeType][KindKey(false, second) := t2.treeType]
  {
    t1 := PlantKind(forest, x1, y1, first);
    t2 := PlantKind(forest, x2, y2, second);
  }

  /** The first four plantings of the demo: oak, pine, oak, pine. */
  method PlantTwoPairs(forest: Forest, oak: Kind, pine: Kind) returns (t0: Tree, t1: Tree, t2: Tree, t3: Tree)
    requires Ready(forest) && NoUnderscore(oak) && NoUnderscore(pine)
    modifies forest, forest.treeFactory
    ensures Ready(forest)
    ensures forest.trees == old(forest.trees) + [t0, t1, t2, t3]
    ensures PlantedAt(t0, oak, 1, 2) && PlantedAt(t1, pine, 3, 4)
    ensures PlantedAt(t2, oak, 5, 6) && PlantedAt(t3, pine, 7, 8)
    ensures forest.treeFactory.treeTypes
      == old(forest.treeFactory.treeTypes)[KindKey(false, oak) := t0.treeType][KindKey(false, pine) := t1.treeType]
                                          [KindKey(false, oak) := t2.treeType][KindKey(false, pine) := t3.treeType]
  {
    t0, t1 := PlantPair(forest, oak, 1, 2, pine, 3, 4);
    t2, t3 := PlantPair(forest, oak, 5, 6, pine, 7, 8);
  }

  /** The five plantings of the demo: three kinds, the first two planted twice. */
  method PlantDemoTrees(forest: Forest, oak: Kind, pine: Kind, birch: Kind)
    requires forest.Valid() && !forest.treeFactory.framedKeys
    requires forest.trees == [] && forest.treeFactory.treeTypes == map[]
    requires oak != pine && oak != birch && pine != birch
    requires NoUnderscore(oak) && NoUnderscore(pine) && NoUnderscore(birch)
    modifies forest, forest.treeFactory
    ensures forest.Valid()
    ensures |forest.treeFactory.treeTypes| == 3
    ensures DemoPlanted(forest.trees, oak, pine, birch)
  {
    var t0, t1, t2, t3 := PlantTwoPairs(forest, oak, pine);
    var t4 := PlantKind(forest, 9, 10, birch);
    assert forest.trees == [t0, t1, t2, t3, t4];
    FiveTreesPlanted(t0, t1, t2, t3, t4, oak, pine, birch);
    DemoKindsDistinct(false, oak, pine, birch);
    TableOfThreeKinds(KindKey(false, oak), KindKey(false, pine), KindKey(false, birch),
      t0.treeType, t1.treeType, t2.treeType, t3.treeType, t4.treeType);
  }

  /** A new forest holding the demo's five trees, and the number of kinds it holds. */
  method PlantDemoForest(oak: Kind, pine: Kind, birch: Kind) returns (forest: Forest, typeCount: nat)
    requires oak != pine && oak != birch && pine != birch
    requires NoUnderscore(oak) && NoUnderscore(pine) && NoUnderscore(birch)
    ensures DemoPlanted(forest.trees, oak, pine, birch) && typeCount == 3
  {
    forest := new Forest(false);
    PlantDemoTrees(forest, oak, pine, birch);
    typeCount := |forest.treeFactory.treeTypes|;
  }

  /** Drawing the demo's five trees logs their five lines in planting order. */
  method DrawDemoForest(forest: Forest, console: Console, oak: Kind, pine: Kind, birch: Kind)
    requires DemoPlanted(forest.trees, oak, pine, birch)
    modifies console
    ensures console.lines == old(console.lines)
      + [KindLine(oak, 1, 2), KindLine(pine, 3, 4), KindLine(oak, 5, 6), KindLine(pine, 7, 8), KindLine(birch, 9, 10)]
  {
    ghost var trees := forest.trees;
    ForestLinesSpec(trees);
    forest.Draw(console);
  }

  /** The demo's run over any three distinct kinds without `_`: a header, the five trees drawn in planting order, a footer. */
  method RunForestDemo(oak: Kind, pine: Kind, birch: Kind)
    returns (lines: seq<string>, typeCount: nat, treeCount: nat)
    requires oak != pine && oak != birch && pine != birch
    requires NoUnderscore(oak) && NoUnderscore(pine) && NoUnderscore(birch)
    ensures |lines| == 7
    ensures lines[0] == "Structural : Flyweight pattern executed.."
    ensures lines[1] == KindLine(oak, 1, 2) && lines[2] == KindLine(pine, 3, 4)
    ensures lines[3] == KindLine(oak, 5, 6) && lines[4] == KindLine(pine, 7, 8)
    ensures lines[5] == KindLine(birch, 9, 10)
    ensures lines[6] == "****************************"
    ensures typeCount == 3 && treeCount == 5
  {
    var console := new Console();
    console.Log("Structural : Flyweight pattern executed..");
    var forest;
    forest, typeCount := PlantDemoForest(oak, pine, birch);
    treeCount := |forest.trees|;
    DrawDemoForest(forest, console, oak, pine, birch);
    console.Log("****************************");
    lines := console.lines;
  }

  /** The line the demo's tree at (1, 2) draws, written out. */
  lemma OakLineText()
    ensures KindLine(Oak, 1, 2) == "Drawing Oak tree of color Green and texture Rough at (1, 2)"
  {
    assert IntToString(1) == "1";
    assert IntToString(2) == "2";
    assert "Drawing " + "Oak" == "Drawing Oak";
    assert "Drawing Oak" + " tree of color " == "Drawing Oak tree of color ";
    assert "Drawing Oak tree of color " + "Green" == "Drawing Oak tree of color Green";
    assert "Drawing Oak tree of color Green" + " and texture " == "Drawing Oak tree of color Green and texture ";
    assert "Drawing Oak tree of color Green and texture " + "Rough" == "Drawing Oak tree of color Green and texture Rough";
    assert "Drawing Oak tree of color Green and texture Rough" + " at (" == "Drawing Oak tree of color Green and texture Rough at (";
    assert "Drawing Oak tree of color Green and texture Rough at (" + "1" == "Drawing Oak tree of color Green and texture Rough at (1";
    assert "Drawing Oak tree of color Green and texture Rough at (1" + ", " == "Drawing Oak tree of color Green and texture Rough at (1, ";
    assert "Drawing Oak tree of color Green and texture Rough at (1, " + "2" == "Drawing Oak tree of color Green and texture Rough at (1, 2";
    assert "Drawing Oak tree of color Green and texture Rough at (1, 2" + ")" == "Drawing Oak tree of color Green and texture Rough at (1, 2)";
  }

  /** The line the demo's tree at (3, 4) draws, written out. */
  lemma PineLineText()
    ensures KindLine(Pine, 3, 4) == "Drawing Pine tree of color Dark Green and texture Smooth at (3, 4)"
  {
    assert IntToString(3) == "3";
    assert IntToString(4) == "4";
    assert "Drawing " + "Pine" == "Drawing Pine";
    assert "Drawing Pine" + " tree of color " == "Drawing Pine tree of color ";
    assert "Drawing Pine tree of color " + "Dark Green" == "Drawing Pine tree of color Dark Green";
    assert "Drawing Pine tree of color Dark Green" + " and texture " == "Drawing Pine tree of color Dark Green and texture ";
    assert "Drawing Pine tree of color Dark Green and texture " + "Smooth" == "Drawing Pine tree of color Dark Green and texture Smooth";
    assert "Drawing Pine tree of color Dark Green and texture Smooth" + " at (" == "Drawing Pine tree of color Dark Green and texture Smooth at (";
    assert "Drawing Pine tree of color Dark Green and texture Smooth at (" + "3" == "Drawing Pine tree of color Dark Green and texture Smooth at (3";
    assert "Drawing Pine tree of color Dark Green and texture Smooth at (3" + ", " == "Drawing Pine tree of color Dark Green and texture Smooth at (3, ";
    assert "Drawing Pine tree of color Dark Green and texture Smooth at (3, " + "4" == "Drawing Pine tree of color Dark Green and texture Smooth at (3, 4";
    assert "Drawing Pine tree of color Dark Green and texture Smooth at (3, 4" + ")" == "Drawing Pine tree of color Dark Green and texture Smooth at (3, 4)";
  }

  /** The line the demo's tree at (5, 6) draws, written out. */
  lemma SecondOakLineText()
    ensures KindLine(Oak, 5, 6) == "Drawing Oak tree of color Green and texture Rough at (5, 6)"
  {
    assert IntToString(5) == "5";
    assert IntToString(6) == "6";
    assert "Drawing " + "Oak" == "Drawing Oak";
    assert "Drawing Oak" + " tree of color " == "Drawing Oak tree of color ";
    assert "Drawing Oak tree of color " + "Green" == "Drawing Oak tree of color Green";
    assert "Drawing Oak tree of color Green" + " and texture " == "Drawing Oak tree of color Green and texture ";
    assert "Drawing Oak tree of color Green and texture " + "Rough" == "Drawing Oak tree of color Green and texture Rough";
    assert "Drawing Oak tree of color Green and texture Rough" + " at (" == "Drawing Oak tree of color Green and texture Rough at (";
    assert "Drawing Oak tree of color Green and texture Rough at (" + "5" == "Drawing Oak tree of color Green and texture Rough at (5";
    assert "Drawing Oak tree of color Green and texture Rough at (5" + ", " == "Drawing Oak tree of color Green and texture Rough at (5, ";
    assert "Drawing Oak tree of color Green and texture Rough at (5, " + "6" == "Drawing Oak tree of color Green and texture Rough at (5, 6";
    assert "Drawing Oak tree of color Green and texture Rough at (5, 6" + ")" == "Drawing Oak tree of color Green and texture Rough at (5, 6)";
  }

  /** The line the demo's tree at (7, 8) draws, written out. */
  lemma SecondPineLineText()
    ensures KindLine(Pine, 7, 8) == "Drawing Pine tree of color Dark Green and texture Smooth at (7, 8)"
  {
    assert IntToString(7) == "7";
    assert IntToString(8) == "8";
    assert "Drawing " + "Pine" == "Drawing Pine";
    assert "Drawing Pine" + " tree of color " == "Drawing Pine tree of color ";
    assert "Drawing Pine tree of color " + "Dark Green" == "Drawing Pine tree of color Dark Green";
    assert "Drawing Pine tree of color Dark Green" + " and texture " == "Drawing Pine tree of color Dark Green and texture ";
    assert "Drawing Pine tree of color Dark Green and texture " + "Smooth" == "Drawing Pine tree of color Dark Green and texture Smooth";
    assert "Drawing Pine tree of color Dark Green and texture Smooth" + " at (" == "Drawing Pine tree of color Dark Green and texture Smooth at (";
    assert "Drawing Pine tree of color Dark Green and texture Smooth at (" + "7" == "Drawing Pine tree of color Dark Green and texture Smooth at (7";
    assert "Drawing Pine tree of color Dark Green and texture Smooth at (7" + ", " == "Drawing Pine tree of color Dark Green and texture Smooth at (7, ";
    assert "Drawing Pine tree of color Dark Green and texture Smooth at (7, " + "8" == "Drawing Pine tree of color Dark Green and texture Smooth at (7, 8";
    assert "Drawing Pine tree of color Dark Green and texture Smooth at (7, 8" + ")" == "Drawing Pine tree of color Dark Green and texture Smooth at (7, 8)";
  }

  /** The line the demo's tree at (9, 10) draws, written out. */
  lemma BirchLineText()
    ensures KindLine(Birch, 9, 10) == "Drawing Birch tree of color Light Green and texture Striped at (9, 10)"
  {
    assert IntToString(9) == "9";
    assert IntToString(10) == "10";
    assert "Drawing " + "Birch" == "Drawing Birch";
    assert "Drawing Birch" + " tree of color " == "Drawing Birch tree of color ";
    assert "Drawing Birch tree of color " + "Light Green" == "Drawing Birch tree of color Light Green";
    assert "Drawing Birch tree of color Light Green" + " and texture " == "Drawing Birch tree of color Light Green and texture ";
    assert "Drawing Birch tree of color Light Green and texture " + "Striped" == "Drawing Birch tree of color Light Green and texture Striped";
    assert "Drawing Birch tree of color Light Green and texture Striped" + " at (" == "Drawing Birch tree of color Light Green and texture Striped at (";
    assert "Drawing Birch tree of color Light Green and texture Striped at (" + "9" == "Drawing Birch tree of color Light Green and texture Striped at (9";
    assert "Drawing Birch tree of color Light Green and texture Striped at (9" + ", " == "Drawing Birch tree of color Light Green and texture Striped at (9, ";
    assert "Drawing Birch tree of color Light Green and texture Striped at (9, " + "10" == "Drawing Birch tree of color Light Green and texture Striped at (9, 10";
    assert "Drawing Birch tree of color Light Green and texture Striped at (9, 10" + ")" == "Drawing Birch tree of color Light Green and texture Striped at (9, 10)";
  }

  /** The demo as the source runs it (flyweight.js): oak, pine, oak, pine, birch,
      with the factory's key as written. */
  method ExecutePattern() returns (lines: seq<string>, typeCount: nat, treeCount: nat)
    ensures |lines| == 7
    ensures lines[0] == "Structural : Flyweight pattern executed.."
    ensures lines[1] == KindLine(Oak, 1, 2) && lines[2] == KindLine(Pine, 3, 4)
    ensures lines[3] == KindLine(Oak, 5, 6) && lines[4] == KindLine(Pine, 7, 8)
    ensures lines[5] == KindLine(Birch, 9, 10)
    ensures lines[6] == "****************************"
    ensures typeCount == 3 && treeCount == 5
  {
    DemoKindsAreUnambiguous();
    lines, typeCount, treeCount := RunForestDemo(Oak, Pine, Birch);
  }
}
