/** The Builder pattern of Patterns/Creational/builder.js: a builder fills in
    a house step by step, a director runs two fixed recipes through it, and
    every finished house can describe itself. */
module Builder {
  import opened Output

  /** The line `House.describe()` logs for a house with these parts. */
  function HouseDescription(windows: int, doors: int, floors: int, garage: bool, pool: bool): string {
    DescriptionFront(windows, doors, floors) + GaragePart(garage) + PoolPart(pool) + DescriptionBack()
  }

  /** The parts a recipe asks for. */
  datatype Plan = Plan(windows: int, doors: int, floors: int, garage: bool, pool: bool)

  /** The director's simple recipe. */
  const SimplePlan := Plan(4, 2, 1, false, false)
  /** The director's luxury recipe. */
  const LuxuryPlan := Plan(10, 4, 2, true, true)
  /** The demo's custom house, built without the director. */
  const CustomPlan := Plan(6, 3, 1, true, false)

  function PlanDescription(p: Plan): string {
    HouseDescription(p.windows, p.doors, p.floors, p.garage, p.pool)
  }

  /** The product. Every part is a plain field the builder writes in place. */
  class House {
    var hasGarage: bool
    var hasSwimmingPool: bool
    var numWindows: int
    var numDoors: int
    var floors: int

    /** A bare house: one floor and nothing else. */
    constructor ()
      ensures IsBare()
    {
      hasGarage := false;
      hasSwimmingPool := false;
      numWindows := 0;
      numDoors := 0;
      floors := 1;
    }

    predicate IsBare()
      reads this
    {
      HasParts(0, 0, 1, false, false)
    }

    predicate HasParts(windows: int, doors: int, floors: int, garage: bool, pool: bool)
      reads this
    {
      && numWindows == windows && numDoors == doors && this.floors == floors
      && hasGarage == garage && hasSwimmingPool == pool
    }

    predicate Follows(p: Plan)
      reads this
    {
      HasParts(p.windows, p.doors, p.floors, p.garage, p.pool)
    }

    function Description(): string
      reads this
    {
      HouseDescription(numWindows, numDoors, floors, hasGarage, hasSwimmingPool)
    }

    method Describe(console: Console)
      modifies console
      ensures console.lines == old(console.lines) + [Description()]
    {
      console.Log(Description());
    }
  }

  /** The builder: it holds the house under construction. Every step but
      `GetResult` answers the builder itself, so steps can be chained. */
  class ConcreteHouseBuilder {
    var house: House

    constructor ()
      ensures fresh(house) && house.IsBare()
    {
      house := new House();
    }

    /** Starts over on a new bare house; the previous one is left as it was. */
    method Reset() returns (self: ConcreteHouseBuilder)
      modifies this
      ensures self == this && fresh(house) && house.IsBare()
    {
      house := new House();
      self := this;
    }

    method SetWindows(num: int) returns (self: ConcreteHouseBuilder)
      modifies house
      ensures self == this
      ensures house.HasParts(num, old(house.numDoors), old(house.floors), old(house.hasGarage), old(house.hasSwimmingPool))
    {
      house.numWindows := num;
      self := this;
    }

    method SetDoors(num: int) returns (self: ConcreteHouseBuilder)
      modifies house
      ensures self == this
      ensures house.HasParts(old(house.numWindows), num, old(house.floors), old(house.hasGarage), old(house.hasSwimmingPool))
    {
      house.numDoors := num;
      self := this;
    }

    method SetFloors(num: int) returns (self: ConcreteHouseBuilder)
      modifies house
      ensures self == this
      ensures house.HasParts(old(house.numWindows), old(house.numDoors), num, old(house.hasGarage), old(house.hasSwimmingPool))
    {
      house.floors := num;
      self := this;
    }

    method AddGarage() returns (self: ConcreteHouseBuilder)
      modifies house
      ensures self == this
      ensures house.HasParts(old(house.numWindows), old(house.numDoors), old(house.floors), true, old(house.hasSwimmingPool))
    {
      house.hasGarage := true;
      self := this;
    }

    method AddSwimmingPool() returns (self: ConcreteHouseBuilder)
      modifies house
      ensures self == this
      ensures house.HasParts(old(house.numWindows), old(house.numDoors), old(house.floors), old(house.hasGarage), true)
    {
      house.hasSwimmingPool := true;
      self := this;
    }

    /** Hands out the house built so far and starts a new bare one, so later
        steps can no longer change the house handed out. */
    method GetResult() returns (result: House)
      modifies this
      ensures result == old(house)
      ensures fresh(house) && house.IsBare()
    {
      result := house;
      var _ := Reset();
    }
  }

  /** Runs fixed recipes through whatever builder it was given. */
  class Director {
    var builder: ConcreteHouseBuilder?

    constructor ()
      ensures builder == null
    {
      builder := null;
    }

    method SetBuilder(builder: ConcreteHouseBuilder)
      modifies this
      ensures this.builder == builder
    {
      this.builder := builder;
    }

    /** Four windows, two doors, one floor; the builder is left on a new bare house. */
    method ConstructSimpleHouse() returns (house: House)
      requires builder != null
      modifies builder
      ensures fresh(house) && house.Follows(SimplePlan)
      ensures fresh(builder.house) && builder.house.IsBare() && builder.house != house
    {
      var b := builder.Reset();
      b := b.SetWindows(4);
      b := b.SetDoors(2);
      b := b.SetFloors(1);
      house := builder.GetResult();
    }

    /** Ten windows, four doors, two floors, a garage and a pool. */
    method ConstructLuxuryHouse() returns (house: House)
      requires builder != null
      modifies builder
      ensures fresh(house) && house.Follows(LuxuryPlan)
      ensures fresh(builder.house) && builder.house.IsBare() && builder.house != house
    {
      var b := builder.Reset();
      b := b.SetWindows(10);
      b := b.SetDoors(4);
      b := b.SetFloors(2);
      b := b.AddGarage();
      b := b.AddSwimmingPool();
      house := builder.GetResult();
    }
  }

  // ---------------------------------------------------------------------
  // What a description says

  /** Everything a description says before the optional features. */
  function DescriptionFront(windows: int, doors: int, floors: int): string {
    "House with " + IntToString(windows) + " windows, " + IntToString(doors) + " doors, "
    + IntToString(floors) + " floor(s),"
  }

  function GaragePart(garage: bool): string {
    if garage then " a garage," else ""
  }

  function PoolPart(pool: bool): string {
    if pool then " a swimming pool," else ""
  }

  function DescriptionBack(): string {
    " and standard features."
  }

  /** No decimal rendering of a number holds a letter. */
  lemma NumberHasNoLetter(i: int, c: char)
    requires !IsDigit(c) && c != '-'
    ensures c !in IntToString(i)
  {
  }

  /** The fixed text around the numbers holds neither a `g` nor a `p`. */
  lemma FrontHasNoGOrP(windows: int, doors: int, floors: int)
    ensures 'g' !in DescriptionFront(windows, doors, floors)
    ensures 'p' !in DescriptionFront(windows, doors, floors)
  {
    var w, d, f := IntToString(windows), IntToString(doors), IntToString(floors);
    NumberHasNoLetter(windows, 'g');
    NumberHasNoLetter(doors, 'g');
    NumberHasNoLetter(floors, 'g');
    NumberHasNoLetter(windows, 'p');
    NumberHasNoLetter(doors, 'p');
    NumberHasNoLetter(floors, 'p');
    var a, b, c, e := "House with ", " windows, ", " doors, ", " floor(s),";
    assert 'g' !in a && 'g' !in b && 'g' !in c && 'g' !in e;
    assert 'p' !in a && 'p' !in b && 'p' !in c && 'p' !in e;
    NotInJoin(a, w, b, d, c, f, e, 'g');
    NotInJoin(a, w, b, d, c, f, e, 'p');
  }

  lemma NotInJoin(a: string, w: string, b: string, d: string, c: string, f: string, e: string, x: char)
    requires x !in a && x !in w && x !in b && x !in d && x !in c && x !in f && x !in e
    ensures x !in a + w + b + d + c + f + e
  {
  }

  /** `c` occurs at most once in `s`. */
  ghost predicate AtMostOnce(s: string, c: char) {
    forall j, k :: 0 <= j < |s| && 0 <= k < |s| && s[j] == c && s[k] == c ==> j == k
  }

  /** A block holding `c` at two places cannot occur where `c` occurs at most
      once: outside `middle` there is no `c` at all. */
  lemma NotContainedByTwoMarks(front: string, middle: string, back: string, s: string, c: char, a: int, b: int)
    requires c !in front && c !in back && AtMostOnce(middle, c)
    requires 0 <= a < b < |s| && s[a] == c && s[b] == c
    ensures !Contains(front + middle + back, s)
  {
    var t := front + middle + back;
    forall i | 0 <= i <= |t| - |s|
      ensures !OccursAt(t, s, i)
    {
      IndexInParts(front, middle, back, i + a);
      IndexInParts(front, middle, back, i + b);
      assert t[i..i + |s|][a] == t[i + a] && t[i..i + |s|][b] == t[i + b];
    }
  }

  /** A block holding `c` cannot occur where there is no `c`. */
  lemma NotContainedByMark(t: string, s: string, c: char, a: int)
    requires c !in t && 0 <= a < |s| && s[a] == c
    ensures !Contains(t, s)
  {
    forall i | 0 <= i <= |t| - |s|
      ensures !OccursAt(t, s, i)
    {
      assert t[i..i + |s|][a] == t[i + a];
      assert t[i + a] in t;
    }
  }

  /** Which part of `front + middle + back` index `n` falls in. */
  lemma IndexInParts(front: string, middle: string, back: string, n: int)
    requires 0 <= n < |front + middle + back|
    ensures n < |front| ==> (front + middle + back)[n] in front
    ensures |front| <= n < |front| + |middle| ==> (front + middle + back)[n] == middle[n - |front|]
    ensures |front| + |middle| <= n ==> (front + middle + back)[n] in back
  {
    var t := front + middle + back;
    if n < |front| {
      assert t[n] == front[n];
    } else if n >= |front| + |middle| {
      assert t[n] == back[n - |front| - |middle|];
    }
  }

  lemma OccursBetween(front: string, middle: string, back: string)
    ensures Contains(front + middle + back, middle)
  {
    assert (front + middle + back)[|front|..|front| + |middle|] == middle;
    assert OccursAt(front + middle + back, middle, |front|);
  }

  lemma GarageMentioned(windows: int, doors: int, floors: int, pool: bool)
    ensures Contains(HouseDescription(windows, doors, floors, true, pool), " a garage,")
  {
    var front := DescriptionFront(windows, doors, floors);
    var rest := PoolPart(pool) + DescriptionBack();
    assert HouseDescription(windows, doors, floors, true, pool) == front + " a garage," + rest;
    OccursBetween(front, " a garage,", rest);
  }

  /** Without a garage part the only `g` left is the one in "swimming", and
      " a garage," needs two. */
  lemma GarageNotMentioned(windows: int, doors: int, floors: int, pool: bool)
    ensures !Contains(HouseDescription(windows, doors, floors, false, pool), " a garage,")
  {
    var s := HouseDescription(windows, doors, floors, false, pool);
    var front, p, back := DescriptionFront(windows, doors, floors), PoolPart(pool), DescriptionBack();
    assert s == front + p + back;
    FrontHasNoGOrP(windows, doors, floors);
    assert 'g' !in back;
    assert AtMostOnce(p, 'g') by {
      assert forall j :: 0 <= j < |p| && p[j] == 'g' ==> j == 10;
    }
    assert " a garage,"[3] == 'g' && " a garage,"[7] == 'g';
    NotContainedByTwoMarks(front, p, back, " a garage,", 'g', 3, 7);
  }

  /** A description mentions a garage exactly when the house has one. */
  lemma DescriptionMentionsGarage(windows: int, doors: int, floors: int, garage: bool, pool: bool)
    ensures Contains(HouseDescription(windows, doors, floors, garage, pool), " a garage,") <==> garage
  {
    if garage {
      GarageMentioned(windows, doors, floors, pool);
    } else {
      GarageNotMentioned(windows, doors, floors, pool);
    }
  }

  lemma PoolMentioned(windows: int, doors: int, floors: int, garage: bool)
    ensures Contains(HouseDescription(windows, doors, floors, garage, true), " a swimming pool,")
  {
    var front := DescriptionFront(windows, doors, floors) + GaragePart(garage);
    OccursBetween(front, " a swimming pool,", DescriptionBack());
  }

  /** Without a pool part no `p` is left, and " a swimming pool," holds one. */
  lemma PoolNotMentioned(windows: int, doors: int, floors: int, garage: bool)
    ensures !Contains(HouseDescription(windows, doors, floors, garage, false), " a swimming pool,")
  {
    var s := HouseDescription(windows, doors, floors, garage, false);
    var front, g, back := DescriptionFront(windows, doors, floors), GaragePart(garage), DescriptionBack();
    assert s == front + g + back;
    FrontHasNoGOrP(windows, doors, floors);
    assert 'p' !in g && 'p' !in back;
    assert 'p' !in s;
    assert " a swimming pool,"[12] == 'p';
    NotContainedByMark(s, " a swimming pool,", 'p', 12);
  }

  /** A description mentions a swimming pool exactly when the house has one. */
  lemma DescriptionMentionsPool(windows: int, doors: int, floors: int, garage: bool, pool: bool)
    ensures Contains(HouseDescription(windows, doors, floors, garage, pool), " a swimming pool,") <==> pool
  {
    if pool {
      PoolMentioned(windows, doors, floors, garage);
    } else {
      PoolNotMentioned(windows, doors, floors, garage);
    }
  }

  // ---------------------------------------------------------------------
  // The demo

  lemma DescriptionOfPlan(house: House, p: Plan)
    requires house.Follows(p)
    ensures house.Description() == PlanDescription(p)
  {
  }

  /** The custom house of the demo: the builder's steps chained directly. */
  method BuildCustomHouse(builder: ConcreteHouseBuilder) returns (house: House)
    modifies builder
    ensures fresh(house) && house.Follows(CustomPlan)
    ensures fresh(builder.house) && builder.house.IsBare() && builder.house != house
  {
    var b := builder.Reset();
    b := b.SetWindows(6);
    b := b.SetDoors(3);
    b := b.SetFloors(1);
    b := b.AddGarage();
    house := b.GetResult();
  }

  /** `director.constructSimpleHouse().describe()`. */
  method DescribeSimpleHouse(director: Director, console: Console)
    requires director.builder != null
    modifies director.builder, console
    ensures console.lines == old(console.lines) + [PlanDescription(SimplePlan)]
  {
    var house := director.ConstructSimpleHouse();
    DescriptionOfPlan(house, SimplePlan);
    house.Describe(console);
  }

  /** `director.constructLuxuryHouse().describe()`. */
  method DescribeLuxuryHouse(director: Director, console: Console)
    requires director.builder != null
    modifies director.builder, console
    ensures console.lines == old(console.lines) + [PlanDescription(LuxuryPlan)]
  {
    var house := director.ConstructLuxuryHouse();
    DescriptionOfPlan(house, LuxuryPlan);
    house.Describe(console);
  }

  /** The custom house, built and described. */
  method DescribeCustomHouse(builder: ConcreteHouseBuilder, console: Console)
    modifies builder, console
    ensures console.lines == old(console.lines) + [PlanDescription(CustomPlan)]
  {
    var house := BuildCustomHouse(builder);
    DescriptionOfPlan(house, CustomPlan);
    house.Describe(console);
  }

  lemma SimpleFrontText()
    ensures DescriptionFront(4, 2, 1) == "House with 4 windows, 2 doors, 1 floor(s),"
  {
    assert IntToString(1) == "1";
    assert IntToString(2) == "2";
    assert IntToString(4) == "4";
    assert "House with " + "4" == "House with 4";
    assert "House with 4" + " windows, " == "House with 4 windows, ";
    assert "House with 4 windows, " + "2" == "House with 4 windows, 2";
    assert "House with 4 windows, 2" + " doors, " == "House with 4 windows, 2 doors, ";
    assert "House with 4 windows, 2 doors, " + "1" == "House with 4 windows, 2 doors, 1";
    assert "House with 4 windows, 2 doors, 1" + " floor(s)," == "House with 4 windows, 2 doors, 1 floor(s),";
  }

  /** The description of the house built by `SimplePlan`, written out. */
  lemma SimpleDescriptionText()
    ensures PlanDescription(SimplePlan) == "House with 4 windows, 2 doors, 1 floor(s), and standard features."
  {
    SimpleFrontText();
    var front := DescriptionFront(4, 2, 1);
    assert HouseDescription(4, 2, 1, false, false) == front + DescriptionBack() by {
      assert front + GaragePart(false) == front;
      assert front + PoolPart(false) == front;
    }
    assert "House with 4 windows, 2 doors, 1 floor(s)," + " and standard features." == "House with 4 windows, 2 doors, 1 floor(s), and standard features.";
  }

  lemma LuxuryFrontText()
    ensures DescriptionFront(10, 4, 2) == "House with 10 windows, 4 doors, 2 floor(s),"
  {
    assert IntToString(2) == "2";
    assert IntToString(4) == "4";
    assert IntToString(10) == "10";
    assert "House with " + "10" == "House with 10";
    assert "House with 10" + " windows, " == "House with 10 windows, ";
    assert "House with 10 windows, " + "4" == "House with 10 windows, 4";
    assert "House with 10 windows, 4" + " doors, " == "House with 10 windows, 4 doors, ";
    assert "House with 10 windows, 4 doors, " + "2" == "House with 10 windows, 4 doors, 2";
    assert "House with 10 windows, 4 doors, 2" + " floor(s)," == "House with 10 windows, 4 doors, 2 floor(s),";
  }

  lemma LuxuryGarageText()
    ensures DescriptionFront(10, 4, 2) + GaragePart(true) == "House with 10 windows, 4 doors, 2 floor(s), a garage,"
  {
    LuxuryFrontText();
    assert "House with 10 windows, 4 doors, 2 floor(s)," + " a garage," == "House with 10 windows, 4 doors, 2 floor(s), a garage,";
  }

  lemma LuxuryPoolText()
    ensures DescriptionFront(10, 4, 2) + GaragePart(true) + PoolPart(true)
            == "House with 10 windows, 4 doors, 2 floor(s), a garage, a swimming pool,"
  {
    LuxuryGarageText();
    assert "House with 10 windows, 4 doors, 2 floor(s), a garage," + " a swimming pool," == "House with 10 windows, 4 doors, 2 floor(s), a garage, a swimming pool,";
  }

  /** The description of the house built by `LuxuryPlan`, written out. */
  lemma LuxuryDescriptionText()
    ensures PlanDescription(LuxuryPlan) == "House with 10 windows, 4 doors, 2 floor(s), a garage, a swimming pool, and standard features."
  {
    LuxuryPoolText();
    assert "House with 10 windows, 4 doors, 2 floor(s), a garage, a swimming pool," + " and standard features." == "House with 10 windows, 4 doors, 2 floor(s), a garage, a swimming pool, and standard features.";
  }

  lemma CustomFrontText()
    ensures DescriptionFront(6, 3, 1) == "House with 6 windows, 3 doors, 1 floor(s),"
  {
    assert IntToString(1) == "1";
    assert IntToString(3) == "3";
    assert IntToString(6) == "6";
    assert "House with " + "6" == "House with 6";
    assert "House with 6" + " windows, " == "House with 6 windows, ";
    assert "House with 6 windows, " + "3" == "House with 6 windows, 3";
    assert "House with 6 windows, 3" + " doors, " == "House with 6 windows, 3 doors, ";
    assert "House with 6 windows, 3 doors, " + "1" == "House with 6 windows, 3 doors, 1";
    assert "House with 6 windows, 3 doors, 1" + " floor(s)," == "House with 6 windows, 3 doors, 1 floor(s),";
  }

  /** The description of the house built by `CustomPlan`, written out. */
  lemma CustomDescriptionText()
    ensures PlanDescription(CustomPlan) == "House with 6 windows, 3 doors, 1 floor(s), a garage, and standard features."
  {
    CustomFrontText();
    assert "House with 6 windows, 3 doors, 1 floor(s)," + " a garage," == "House with 6 windows, 3 doors, 1 floor(s), a garage,";
    assert "House with 6 windows, 3 doors, 1 floor(s), a garage," + " and standard features." == "House with 6 windows, 3 doors, 1 floor(s), a garage, and standard features.";
  }

  /** The demo: the director's two recipes, then a custom house built
      without the director; each house describes itself as soon as it is built. */
  method ExecutePattern() returns (lines: seq<string>)
    ensures |lines| == 5
    ensures lines[0] == "Creational : Builder pattern executed.."
    ensures lines[1] == PlanDescription(SimplePlan)
    ensures lines[2] == PlanDescription(LuxuryPlan)
    ensures lines[3] == PlanDescription(CustomPlan)
    ensures lines[4] == "****************************"
  {
    var console := new Console();
    console.Log("Creational : Builder pattern executed..");
    var builder := new ConcreteHouseBuilder();
    var director := new Director();
    director.SetBuilder(builder);
    DescribeSimpleHouse(director, console);
    DescribeLuxuryHouse(director, console);
    DescribeCustomHouse(builder, console);
    console.Log("****************************");
    lines := console.lines;
  }
}
