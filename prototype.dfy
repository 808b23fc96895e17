/** The Prototype pattern of Patterns/Creational/prototype.js: shapes that
    make new objects by copying themselves, after which the copy and the
    original change independently. */
module Prototype {
  import opened Output

  function ShapeLine(color: string, kind: string): string {
    "Drawing a " + color + " " + kind
  }

  function CircleLine(color: string, radius: int): string {
    "Drawing a " + color + " circle with radius " + IntToString(radius)
  }

  function RectangleLine(color: string, width: int, height: int): string {
    "Drawing a " + color + " rectangle of size " + IntToString(width) + "x" + IntToString(height)
  }

  /** The base prototype: a kind of shape and a color. */
  class Shape {
    var kind: string
    var color: string

    constructor (kind: string, color: string)
      ensures this.kind == kind && this.color == color
    {
      this.kind := kind;
      this.color := color;
    }

    /** A new shape with this one's kind and color. */
    method Clone() returns (c: Shape)
      ensures fresh(c)
      ensures c.kind == kind && c.color == color
    {
      c := new Shape(kind, color);
    }

    method Draw(console: Console)
      modifies console
      ensures console.lines == old(console.lines) + [ShapeLine(color, kind)]
    {
      console.Log(ShapeLine(color, kind));
    }
  }

  class Circle {
    var kind: string
    var color: string
    var radius: int

    constructor (color: string, radius: int)
      ensures kind == "Circle" && this.color == color && this.radius == radius
    {
      kind := "Circle";
      this.color := color;
      this.radius := radius;
    }

    /** A new circle with this one's color and radius; its kind is set
        afresh by the constructor, so it equals this one's when that was
        left as the constructor set it. */
    method Clone() returns (c: Circle)
      ensures fresh(c)
      ensures c.kind == "Circle" && c.color == color && c.radius == radius
      ensures kind == "Circle" ==> c.kind == kind
    {
      c := new Circle(color, radius);
    }

    method Draw(console: Console)
      modifies console
      ensures console.lines == old(console.lines) + [CircleLine(color, radius)]
    {
      console.Log(CircleLine(color, radius));
    }
  }

  class Rectangle {
    var kind: string
    var color: string
    var width: int
    var height: int

    constructor (color: string, width: int, height: int)
      ensures kind == "Rectangle" && this.color == color
      ensures this.width == width && this.height == height
    {
      kind := "Rectangle";
      this.color := color;
      this.width := width;
      this.height := height;
    }

    /** A new rectangle with this one's color, width and height. */
    method Clone() returns (c: Rectangle)
      ensures fresh(c)
      ensures c.kind == "Rectangle" && c.color == color
      ensures c.width == width && c.height == height
      ensures kind == "Rectangle" ==> c.kind == kind
    {
      c := new Rectangle(color, width, height);
    }

    method Draw(console: Console)
      modifies console
      ensures console.lines == old(console.lines) + [RectangleLine(color, width, height)]
    {
      console.Log(RectangleLine(color, width, height));
    }
  }

  /** Strings that agree after a common front agree. */
  lemma CancelFront(front: string, a: string, b: string)
    requires front + a == front + b
    ensures a == b
  {
    assert (front + a)[|front|..] == a;
    assert (front + b)[|front|..] == b;
  }

  /** Strings that agree before a common back agree. */
  lemma CancelBack(a: string, b: string, back: string)
    requires a + back == b + back
    ensures a == b
  {
    assert (a + back)[..|a|] == a;
    assert (b + back)[..|b|] == b;
  }

  /** Two circles of one color draw the same line only when their radii agree. */
  lemma CircleLineRevealsRadius(color: string, r1: int, r2: int)
    requires CircleLine(color, r1) == CircleLine(color, r2)
    ensures r1 == r2
  {
    CancelFront("Drawing a " + color + " circle with radius ", IntToString(r1), IntToString(r2));
    IntToStringInjective(r1, r2);
  }

  /** Two rectangles of one color and height draw the same line only when
      their widths agree. */
  lemma RectangleLineRevealsWidth(color: string, w1: int, w2: int, height: int)
    requires RectangleLine(color, w1, height) == RectangleLine(color, w2, height)
    ensures w1 == w2
  {
    var front := "Drawing a " + color + " rectangle of size ";
    CancelBack(front + IntToString(w1) + "x", front + IntToString(w2) + "x", IntToString(height));
    CancelBack(front + IntToString(w1), front + IntToString(w2), "x");
    CancelFront(front, IntToString(w1), IntToString(w2));
    IntToStringInjective(w1, w2);
  }

  /** The client code: two prototypes, a copy of each changed afterwards,
      then all four drawn. The originals keep their state: the copies are
      distinct objects. */
  method ClientCodePrototype(console: Console)
    modifies console
    ensures console.lines == old(console.lines)
                             + [CircleLine("red", 10), CircleLine("blue", 20),
                                RectangleLine("green", 5, 8), RectangleLine("yellow", 10, 8)]
  {
    var circle1 := new Circle("red", 10);
    var circle2 := circle1.Clone();
    circle2.color := "blue";
    circle2.radius := 20;

    var rect1 := new Rectangle("green", 5, 8);
    var rect2 := rect1.Clone();
    rect2.color := "yellow";
    rect2.width := 10;

    circle1.Draw(console);
    circle2.Draw(console);
    rect1.Draw(console);
    rect2.Draw(console);
  }

  /** A line of the client code, written out. */
  lemma RedCircleLineText()
    ensures CircleLine("red", 10) == "Drawing a red circle with radius 10"
  {
    assert IntToString(10) == "10";
    assert "Drawing a " + "red" == "Drawing a red";
    assert "Drawing a red" + " circle with radius " == "Drawing a red circle with radius ";
    assert "Drawing a red circle with radius " + "10" == "Drawing a red circle with radius 10";
  }

  /** A line of the client code, written out. */
  lemma BlueCircleLineText()
    ensures CircleLine("blue", 20) == "Drawing a blue circle with radius 20"
  {
    assert IntToString(20) == "20";
    assert "Drawing a " + "blue" == "Drawing a blue";
    assert "Drawing a blue" + " circle with radius " == "Drawing a blue circle with radius ";
    assert "Drawing a blue circle with radius " + "20" == "Drawing a blue circle with radius 20";
  }

  /** A line of the client code, written out. */
  lemma GreenRectangleLineText()
    ensures RectangleLine("green", 5, 8) == "Drawing a green rectangle of size 5x8"
  {
    assert IntToString(5) == "5";
    assert IntToString(8) == "8";
    assert "Drawing a " + "green" == "Drawing a green";
    assert "Drawing a green" + " rectangle of size " == "Drawing a green rectangle of size ";
    assert "Drawing a green rectangle of size " + "5" == "Drawing a green rectangle of size 5";
    assert "Drawing a green rectangle of size 5" + "x" == "Drawing a green rectangle of size 5x";
    assert "Drawing a green rectangle of size 5x" + "8" == "Drawing a green rectangle of size 5x8";
  }

  /** A line of the client code, written out. */
  lemma YellowRectangleLineText()
    ensures RectangleLine("yellow", 10, 8) == "Drawing a yellow rectangle of size 10x8"
  {
    assert IntToString(8) == "8";
    assert IntToString(10) == "10";
    assert "Drawing a " + "yellow" == "Drawing a yellow";
    assert "Drawing a yellow" + " rectangle of size " == "Drawing a yellow rectangle of size ";
    assert "Drawing a yellow rectangle of size " + "10" == "Drawing a yellow rectangle of size 10";
    assert "Drawing a yellow rectangle of size 10" + "x" == "Drawing a yellow rectangle of size 10x";
    assert "Drawing a yellow rectangle of size 10x" + "8" == "Drawing a yellow rectangle of size 10x8";
  }

  method ExecutePattern() returns (lines: seq<string>)
    ensures lines == ["Creational : Prototype pattern executed..",
                      CircleLine("red", 10), CircleLine("blue", 20),
                      RectangleLine("green", 5, 8), RectangleLine("yellow", 10, 8),
                      "****************************"]
  {
    var console := new Console();
    console.Log("Creational : Prototype pattern executed..");
    ClientCodePrototype(console);
    console.Log("****************************");
    lines := console.lines;
  }
}
