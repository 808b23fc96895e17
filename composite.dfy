/** The Composite pattern of Patterns/Structural/composite.js: circles and
    rectangles (leaves) and groups of graphics (composites) all answer `draw`,
    and a group draws itself and then each child in order. */
module Composite {
  import opened Output

  function CircleLine(name: string): string {
    "Drawing Circle: " + name
  }

  function RectangleLine(name: string): string {
    "Drawing Rectangle: " + name
  }

  function GroupLine(name: string): string {
    "Drawing Composite: " + name
  }

  class Circle {
    const name: string

    constructor (name: string)
      ensures this.name == name
    {
      this.name := name;
    }

    method Draw(console: Console)
      modifies console
      ensures console.lines == old(console.lines) + [CircleLine(name)]
    {
      console.Log(CircleLine(name));
    }
  }

  class Rectangle {
    const name: string

    constructor (name: string)
      ensures this.name == name
    {
      this.name := name;
    }

    method Draw(console: Console)
      modifies console
      ensures console.lines == old(console.lines) + [RectangleLine(name)]
    {
      console.Log(RectangleLine(name));
    }
  }

  /** Anything a group can hold: a reference to a circle, a rectangle or
      another group. Equality is reference identity, as with `!==`. */
  datatype Graphic =
    | CircleLeaf(circle: Circle)
    | RectangleLeaf(rectangle: Rectangle)
    | Group(group: CompositeGraphic)

  /** `g` can be drawn: following children from `g` never takes more than `h`
      steps into groups and only meets groups of `groups`. This holds exactly
      when no group reachable from `g` contains itself. */
  ghost predicate Drawable(g: Graphic, h: nat, groups: set<CompositeGraphic>)
    reads groups
    decreases h
  {
    match g
    case Group(c) =>
      && c in groups && h > 0
      && forall x :: x in c.children ==> Drawable(x, h - 1, groups)
    case _ => true
  }

  ghost predicate AllDrawable(cs: seq<Graphic>, h: nat, groups: set<CompositeGraphic>)
    reads groups
  {
    forall x :: x in cs ==> Drawable(x, h, groups)
  }

  /** The lines drawing `g` logs: a group's own line, then its children's, depth first. */
  ghost function Trace(g: Graphic, h: nat, groups: set<CompositeGraphic>): seq<string>
    requires Drawable(g, h, groups)
    reads groups
    decreases h, 0
  {
    match g
    case CircleLeaf(c) => [CircleLine(c.name)]
    case RectangleLeaf(r) => [RectangleLine(r.name)]
    case Group(c) => [GroupLine(c.name)] + TraceAll(c.children, h - 1, groups)
  }

  /** The lines drawing each of `cs` in order logs. */
  ghost function TraceAll(cs: seq<Graphic>, h: nat, groups: set<CompositeGraphic>): seq<string>
    requires AllDrawable(cs, h, groups)
    reads groups
    decreases h, 1, |cs|
  {
    if cs == [] then []
    else TraceAll(cs[..|cs| - 1], h, groups) + Trace(cs[|cs| - 1], h, groups)
  }

  /** `s` without any occurrence of `g`, the rest in order: `filter(child => child !== g)`. */
  function Without(s: seq<Graphic>, g: Graphic): seq<Graphic> {
    if s == [] then []
    else (if s[0] == g then [] else [s[0]]) + Without(s[1..], g)
  }

  class CompositeGraphic {
    const name: string
    var children: seq<Graphic>

    constructor (name: string)
      ensures this.name == name && children == []
    {
      this.name := name;
      children := [];
    }

    /** `add`: appends `g`, duplicates allowed. */
    method Add(g: Graphic)
      modifies this
      ensures children == old(children) + [g]
    {
      children := children + [g];
    }

    /** `remove`: drops every occurrence of `g`. */
    method Remove(g: Graphic)
      modifies this
      ensures children == Without(old(children), g)
    {
      children := Without(children, g);
    }

    /** Logs this group's line, then draws every child in order. */
    method Draw(console: Console, ghost h: nat, ghost groups: set<CompositeGraphic>)
      requires Drawable(Group(this), h, groups)
      modifies console
      ensures console.lines == old(console.lines) + Trace(Group(this), h, groups)
      decreases h, 0
    {
      assert h > 0 && AllDrawable(children, h - 1, groups);
      console.Log(GroupLine(name));
      for i := 0 to |children|
        invariant AllDrawable(children, h - 1, groups)
        invariant console.lines == old(console.lines) + [GroupLine(name)] + TraceAll(children[..i], h - 1, groups)
      {
        assert children[..i + 1][..i] == children[..i];
        DrawGraphic(children[i], console, h - 1, groups);
      }
      assert children[..|children|] == children;
    }
  }

  /** `child.draw()`, dispatched on the kind of graphic. */
  method DrawGraphic(g: Graphic, console: Console, ghost h: nat, ghost groups: set<CompositeGraphic>)
    requires Drawable(g, h, groups)
    modifies console
    ensures console.lines == old(console.lines) + Trace(g, h, groups)
    decreases h, 1
  {
    match g
    case CircleLeaf(c) => c.Draw(console);
    case RectangleLeaf(r) => r.Draw(console);
    case Group(c) => c.Draw(console, h, groups);
  }

  // ---------------------------------------------------------------------
  // What drawing logs

  /** Number of graphics in the tree below `g`, `g` included. */
  ghost function Size(g: Graphic, h: nat, groups: set<CompositeGraphic>): nat
    requires Drawable(g, h, groups)
    reads groups
    decreases h, 0
  {
    match g
    case Group(c) => 1 + SizeAll(c.children, h - 1, groups)
    case _ => 1
  }

  ghost function SizeAll(cs: seq<Graphic>, h: nat, groups: set<CompositeGraphic>): nat
    requires AllDrawable(cs, h, groups)
    reads groups
    decreases h, 1, |cs|
  {
    if cs == [] then 0 else SizeAll(cs[..|cs| - 1], h, groups) + Size(cs[|cs| - 1], h, groups)
  }

  /** Drawing logs exactly one line per graphic in the tree. */
  lemma {:induction false} TraceLength(g: Graphic, h: nat, groups: set<CompositeGraphic>)
    requires Drawable(g, h, groups)
    ensures |Trace(g, h, groups)| == Size(g, h, groups)
    decreases h, 0
  {
    match g
    case Group(c) => TraceAllLength(c.children, h - 1, groups);
    case _ =>
  }

  lemma {:induction false} TraceAllLength(cs: seq<Graphic>, h: nat, groups: set<CompositeGraphic>)
    requires AllDrawable(cs, h, groups)
    ensures |TraceAll(cs, h, groups)| == SizeAll(cs, h, groups)
    decreases h, 1, |cs|
  {
    if cs != [] {
      TraceAllLength(cs[..|cs| - 1], h, groups);
      TraceLength(cs[|cs| - 1], h, groups);
    }
  }

  /** Drawing a sequence of graphics is drawing its two halves one after the other. */
  lemma {:induction false} TraceAllAppend(a: seq<Graphic>, b: seq<Graphic>, h: nat, groups: set<CompositeGraphic>)
    requires AllDrawable(a, h, groups) && AllDrawable(b, h, groups)
    ensures AllDrawable(a + b, h, groups)
    ensures TraceAll(a + b, h, groups) == TraceAll(a, h, groups) + TraceAll(b, h, groups)
    decreases |b|
  {
    if b != [] {
      var b' := b[..|b| - 1];
      assert (a + b)[..|a + b| - 1] == a + b';
      assert (a + b)[|a + b| - 1] == b[|b| - 1];
      TraceAllAppend(a, b', h, groups);
    } else {
      assert a + b == a;
    }
  }

  /** The first line of a group's drawing is its own, followed by one block per child. */
  lemma GroupTraceStartsWithGroup(c: CompositeGraphic, h: nat, groups: set<CompositeGraphic>)
    requires Drawable(Group(c), h, groups)
    ensures |Trace(Group(c), h, groups)| >= 1 + |c.children|
    ensures Trace(Group(c), h, groups)[0] == GroupLine(c.name)
  {
    TraceLength(Group(c), h, groups);
    SizeAllAtLeast(c.children, h - 1, groups);
  }

  lemma {:induction false} SizeAllAtLeast(cs: seq<Graphic>, h: nat, groups: set<CompositeGraphic>)
    requires AllDrawable(cs, h, groups)
    ensures SizeAll(cs, h, groups) >= |cs|
    decreases |cs|
  {
    if cs != [] {
      SizeAllAtLeast(cs[..|cs| - 1], h, groups);
    }
  }

  /** The ghost bound is only a bound: any two bounds that allow drawing give the same lines. */
  lemma {:induction false} TraceBoundIrrelevant(g: Graphic, h1: nat, h2: nat, groups: set<CompositeGraphic>)
    requires Drawable(g, h1, groups) && Drawable(g, h2, groups)
    ensures Trace(g, h1, groups) == Trace(g, h2, groups)
    decreases h1, 0
  {
    match g
    case Group(c) => TraceAllBoundIrrelevant(c.children, h1 - 1, h2 - 1, groups);
    case _ =>
  }

  lemma {:induction false} TraceAllBoundIrrelevant(cs: seq<Graphic>, h1: nat, h2: nat, groups: set<CompositeGraphic>)
    requires AllDrawable(cs, h1, groups) && AllDrawable(cs, h2, groups)
    ensures TraceAll(cs, h1, groups) == TraceAll(cs, h2, groups)
    decreases h1, 1, |cs|
  {
    if cs != [] {
      TraceAllBoundIrrelevant(cs[..|cs| - 1], h1, h2, groups);
      TraceBoundIrrelevant(cs[|cs| - 1], h1, h2, groups);
    }
  }

  // ---------------------------------------------------------------------
  // What `remove` leaves

  /** After `remove(g)`, a graphic is a child iff it was one before and is not `g`. */
  lemma {:induction false} WithoutMembers(s: seq<Graphic>, g: Graphic, x: Graphic)
    ensures x in Without(s, g) <==> x in s && x != g
  {
    if s != [] {
      WithoutMembers(s[1..], g, x);
      assert s == [s[0]] + s[1..];
    }
  }

  /** `remove(g)` drops every copy of `g` and keeps every other child as often as before. */
  lemma {:induction false} WithoutMultiset(s: seq<Graphic>, g: Graphic)
    ensures multiset(Without(s, g)) == multiset(s)[g := 0]
  {
    if s != [] {
      WithoutMultiset(s[1..], g);
      assert s == [s[0]] + s[1..];
    }
  }

  /** `remove` works child by child, so it distributes over concatenation. */
  lemma {:induction false} WithoutAppend(a: seq<Graphic>, b: seq<Graphic>, g: Graphic)
    ensures Without(a + b, g) == Without(a, g) + Without(b, g)
  {
    if a != [] {
      assert (a + b)[0] == a[0] && (a + b)[1..] == a[1..] + b;
      WithoutAppend(a[1..], b, g);
    } else {
      assert a + b == b;
    }
  }

  /** Removing a graphic that is not a child changes nothing. */
  lemma {:induction false} WithoutAbsent(s: seq<Graphic>, g: Graphic)
    requires g !in s
    ensures Without(s, g) == s
  {
    if s != [] {
      WithoutAbsent(s[1..], g);
      assert s == [s[0]] + s[1..];
    }
  }

  /** Removing twice is removing once. */
  lemma WithoutIdempotent(s: seq<Graphic>, g: Graphic)
    ensures Without(Without(s, g), g) == Without(s, g)
  {
    forall x | x in Without(s, g)
      ensures x != g
    {
      WithoutMembers(s, g, x);
    }
    WithoutAbsent(Without(s, g), g);
  }

  /** `remove` undoes an `add` of a graphic that was not already a child. */
  lemma AddThenRemove(s: seq<Graphic>, g: Graphic)
    requires g !in s
    ensures Without(s + [g], g) == s
  {
    WithoutAppend(s, [g], g);
    WithoutAbsent(s, g);
    assert Without([g], g) == [];
  }

  // ---------------------------------------------------------------------
  // The demo

  /** The demo's tree, under any names: group 2 holds circle 2 and group 1,
      group 1 holds circle 1 and rectangle 1. Drawing group 2 walks it depth
      first. */
  method BuildDemoTree(circle1Name: string, circle2Name: string, rectangle1Name: string,
                       group1Name: string, group2Name: string)
    returns (group2: CompositeGraphic, ghost groups: set<CompositeGraphic>)
    ensures Drawable(Group(group2), 2, groups)
    ensures Trace(Group(group2), 2, groups) == [GroupLine(group2Name), CircleLine(circle2Name),
      GroupLine(group1Name), CircleLine(circle1Name), RectangleLine(rectangle1Name)]
  {
    var circle1 := new Circle(circle1Name);
    var circle2 := new Circle(circle2Name);
    var rectangle1 := new Rectangle(rectangle1Name);
    var group1 := new CompositeGraphic(group1Name);
    group1.Add(CircleLeaf(circle1));
    group1.Add(RectangleLeaf(rectangle1));
    group2 := new CompositeGraphic(group2Name);
    group2.Add(CircleLeaf(circle2));
    group2.Add(Group(group1));
    groups := {group1, group2};
    DemoTreeTrace(circle1, circle2, rectangle1, group1, group2, groups);
  }

  /** The lines the demo's tree draws, from how its two groups are filled. */
  lemma DemoTreeTrace(circle1: Circle, circle2: Circle, rectangle1: Rectangle,
                      group1: CompositeGraphic, group2: CompositeGraphic, groups: set<CompositeGraphic>)
    requires groups == {group1, group2} && group1 != group2
    requires group1.children == [CircleLeaf(circle1), RectangleLeaf(rectangle1)]
    requires group2.children == [CircleLeaf(circle2), Group(group1)]
    ensures Drawable(Group(group2), 2, groups)
    ensures Trace(Group(group2), 2, groups) == [GroupLine(group2.name), CircleLine(circle2.name),
      GroupLine(group1.name), CircleLine(circle1.name), RectangleLine(rectangle1.name)]
  {
    var leaves := group1.children;
    assert Drawable(Group(group1), 1, groups);
    assert leaves[..1] == [CircleLeaf(circle1)] && leaves[..1][..0] == [];
    assert TraceAll(leaves[..1], 0, groups) == [CircleLine(circle1.name)];
    assert TraceAll(leaves, 0, groups) == [CircleLine(circle1.name), RectangleLine(rectangle1.name)];
    var top := group2.children;
    assert top[..1] == [CircleLeaf(circle2)] && top[..1][..0] == [];
    assert TraceAll(top[..1], 1, groups) == [CircleLine(circle2.name)];
    assert TraceAll(top, 1, groups) == [CircleLine(circle2.name)] + Trace(Group(group1), 1, groups);
  }

  /** The demo: a header, the tree drawn from group 2, a footer. */
  method ExecutePattern() returns (lines: seq<string>)
    ensures |lines| == 7
    ensures lines[0] == "Structural : Composite pattern executed.."
    ensures lines[1] == GroupLine("Group 2")
    ensures lines[2] == CircleLine("Circle 2")
    ensures lines[3] == GroupLine("Group 1")
    ensures lines[4] == CircleLine("Circle 1")
    ensures lines[5] == RectangleLine("Rectangle 1")
    ensures lines[6] == "****************************"
  {
    var console := new Console();
    console.Log("Structural : Composite pattern executed..");
    var group2, groups := BuildDemoTree("Circle 1", "Circle 2", "Rectangle 1", "Group 1", "Group 2");
    group2.Draw(console, 2, groups);
    console.Log("****************************");
    lines := console.lines;
  }
}
