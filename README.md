# Design patterns in JavaScript: five patterns modelled in Dafny

This project models five of the design-pattern demos in a JavaScript
repository. Each demo is a small object graph whose methods update fields in
place and log lines to the console. In the model, every class of a demo is
a Dafny `class`, and every method is a Dafny `method`; a method that logs or
updates fields names what it changes in a `modifies` clause, and one that
only creates objects, such as `clone`, has none. The classes keep the
source's fields, with two differences: the prototypes' `type` field is
called `kind`, because `type` is a Dafny keyword, and `TreeFactory` has one
more field, `framedKeys`, which chooses between the source's key and a
corrected one (see Findings). The console is an object, `Output.Console`, whose
`Log` appends to a sequence of lines. Every method states the lines it logs,
so each demo's `executePattern` has a contract that lists its whole output.

- **Flyweight** (`flyweight.dfy`): `TreeFactory` shares one `TreeType` per
  key in a dictionary. With the framed key that is one per (name, color,
  texture); with the source's key, fields holding `_` can share a key. A
  `Forest`, with either key, plants trees, each holding coordinates and a
  shared kind, and draws them in order.
- **Composite** (`composite.dfy`): circles, rectangles and groups all draw
  themselves. A group logs its own line, then draws its children depth
  first. `add` appends a child and `remove` filters out every occurrence.
- **Builder** (`builder.dfy`): `ConcreteHouseBuilder` fills in a `House` one
  chained step at a time. `getResult` hands the house out and starts a new
  bare one. A `Director` runs the simple and luxury recipes.
- **Proxy** (`proxy.dfy`): `ProxyImage` creates its `RealImage` on the first
  `display` only. Creating the real image loads it from disk, so the load
  happens at most once.
- **Prototype** (`prototype.dfy`): `Shape`, `Circle` and `Rectangle` clone
  themselves into fresh objects. Changing a clone leaves the original as it
  was.

`output.dfy` holds the console and the decimal rendering of integers, which
JavaScript's template literals perform when they interpolate a number.

## Model

| member | source | states |
|---|---|---|
| Output.Console.Log | Patterns/Structural/proxy.js:28 | every `console.log` call, this one among them, appends exactly its line to the log and changes nothing else |
| Output.NatToString | Patterns/Creational/builder.js:23 | a natural number renders as at least one decimal digit, with no leading zero |
| Output.IntToString | Patterns/Creational/builder.js:23 | an integer renders as digits and a minus sign, and starts with `-` exactly when it is negative |
| Output.ParseNatToString | Patterns/Creational/builder.js:23 | reading the digits of a rendered natural number gives back the number |
| Output.IntToStringInjective | Patterns/Creational/builder.js:23 | different integers render differently |
| Flyweight.TreeType.constructor | Patterns/Structural/flyweight.js:14-18 | a kind holds the given name, color and texture |
| Flyweight.TreeType.Draw | Patterns/Structural/flyweight.js:20-22 | logs one line naming the kind's name, color and texture and the given coordinates |
| Flyweight.JoinedKeyCollision | Patterns/Structural/flyweight.js:32 | the key as written gives ("a_b", "c", "d") and ("a", "b_c", "d") the same key |
| Flyweight.JoinedKeyInjective | Patterns/Structural/flyweight.js:32 | the key as written tells requests apart when no name or color holds `_` |
| Flyweight.SplitFramed | Patterns/Structural/flyweight.js:32 | reading one length-framed field off the front of a string recovers the field and the rest |
| Flyweight.DecodeFramedKey | Patterns/Structural/flyweight.js:32 | decoding a framed key gives back the three fields it was built from |
| Flyweight.FramedKeyInjective | Patterns/Structural/flyweight.js:32 | distinct requests always get distinct framed keys |
| Flyweight.TreeFactory.constructor | Patterns/Structural/flyweight.js:27-29 | a new factory has an empty table and the chosen key |
| Flyweight.TreeFactory.GetTreeType | Patterns/Structural/flyweight.js:31-37 | a miss stores and returns a new kind under the request's key, and a hit returns the stored instance; at most one entry is added and none is replaced; the instance returned has the requested fields whenever the key is unambiguous |
| Flyweight.SameRequestSharesInstance | Patterns/Structural/flyweight.js:31-37 | asking twice for the same fields returns the identical instance |
| Flyweight.JoinedKeyMixesRequests | Patterns/Structural/flyweight.js:31-37 | with the key as written, a request for ("a", "b_c", "d") gets the instance made for ("a_b", "c", "d") |
| Flyweight.FramedKeySeparatesRequests | Patterns/Structural/flyweight.js:31-37 | with framed keys, the same two requests get two instances, each with its own fields |
| Flyweight.Tree.constructor | Patterns/Structural/flyweight.js:42-46 | a tree holds the given coordinates and a reference to the given kind |
| Flyweight.Tree.Draw | Patterns/Structural/flyweight.js:48-50 | logs its kind's line at the tree's own coordinates |
| Flyweight.ForestLinesSpec | Patterns/Structural/flyweight.js:66-70 | drawing a forest logs one line per tree, and the i-th line is the i-th tree's |
| Flyweight.Forest.constructor | Patterns/Structural/flyweight.js:55-58 | a new forest has no trees and a new, empty factory using the chosen key |
| Flyweight.Forest.PlantTree | Patterns/Structural/flyweight.js:60-64 | appends one new tree at the given coordinates, holding the factory's entry for the request's key: the stored kind on a hit, a new kind with the requested fields on a miss; that kind has the requested fields whenever the key is unambiguous; earlier trees stay, and every tree's kind stays the factory's shared instance for its own fields |
| Flyweight.Forest.Draw | Patterns/Structural/flyweight.js:66-70 | logs the lines of all trees in planting order |
| Flyweight.JoinedKeyForestMixesKinds | Patterns/Structural/flyweight.js:60-70 | with the source's key, planting ("a_b", "c", "d") and then ("a", "b_c", "d") draws the second tree as an "a_b" tree of color "c" |
| Flyweight.FramedKeyForestSeparatesKinds | Patterns/Structural/flyweight.js:60-70 | with the framed key, the same two plantings draw each tree with its own fields |
| Flyweight.ForestSharesKinds | Patterns/Structural/flyweight.js:60-64 | two trees of a forest whose kinds have equal fields share one kind instance |
| Flyweight.KeysDiffer | Patterns/Structural/flyweight.js:32 | two different kinds whose names and colors hold no `_` get different keys, with either key |
| Flyweight.DemoKindsDistinct | Patterns/Structural/flyweight.js:80-84 | three different kinds without `_` get three different keys, with either key |
| Flyweight.DemoKindsAreUnambiguous | Patterns/Structural/flyweight.js:80-84 | the demo's Oak, Pine and Birch are three different kinds, and none of their names or colors holds `_` |
| Flyweight.TableOfThreeKinds | Patterns/Structural/flyweight.js:80-84 | five lookups of three distinct keys leave three entries |
| Flyweight.PlantKind | Patterns/Structural/flyweight.js:60-64 | with the source's key and no `_` in any stored or requested name or color, planting a kind appends one tree of exactly that kind and files its kind under the kind's key |
| Flyweight.PlantPair | Patterns/Structural/flyweight.js:80-81 | two plantings in a row append two trees, each of its own kind |
| Flyweight.PlantTwoPairs | Patterns/Structural/flyweight.js:80-83 | the demo's first four plantings append oak, pine, oak and pine at their coordinates |
| Flyweight.PlantDemoTrees | Patterns/Structural/flyweight.js:80-84 | with the source's key, the five plantings leave the trees at their coordinates with their kinds, and three kinds in the factory |
| Flyweight.PlantDemoForest | Patterns/Structural/flyweight.js:77-84 | a new forest keyed as in the source, after the demo's plantings, holds five trees of three kinds |
| Flyweight.DrawDemoForest | Patterns/Structural/flyweight.js:86 | drawing the demo forest logs the five tree lines in planting order |
| Flyweight.RunForestDemo | Patterns/Structural/flyweight.js:74-89 | for any three distinct kinds without `_`, with the source's key: header, five tree lines, footer; three kinds shared by five trees |
| Flyweight.OakLineText | Patterns/Structural/flyweight.js:21 | the first oak draws "Drawing Oak tree of color Green and texture Rough at (1, 2)" |
| Flyweight.PineLineText | Patterns/Structural/flyweight.js:21 | the first pine draws "Drawing Pine tree of color Dark Green and texture Smooth at (3, 4)" |
| Flyweight.SecondOakLineText | Patterns/Structural/flyweight.js:21 | the second oak draws "Drawing Oak tree of color Green and texture Rough at (5, 6)" |
| Flyweight.SecondPineLineText | Patterns/Structural/flyweight.js:21 | the second pine draws "Drawing Pine tree of color Dark Green and texture Smooth at (7, 8)" |
| Flyweight.BirchLineText | Patterns/Structural/flyweight.js:21 | the birch draws "Drawing Birch tree of color Light Green and texture Striped at (9, 10)" |
| Flyweight.ExecutePattern | Patterns/Structural/flyweight.js:74-89 | the demo's output line by line, with Oak, Pine and Birch and the source's key; three kinds shared by five trees |
| Composite.Circle.constructor | Patterns/Structural/composite.js:21-24 | a circle keeps its name |
| Composite.Circle.Draw | Patterns/Structural/composite.js:25-27 | logs "Drawing Circle: " and the circle's name |
| Composite.Rectangle.constructor | Patterns/Structural/composite.js:31-34 | a rectangle keeps its name |
| Composite.Rectangle.Draw | Patterns/Structural/composite.js:35-37 | logs "Drawing Rectangle: " and the rectangle's name |
| Composite.CompositeGraphic.constructor | Patterns/Structural/composite.js:42-46 | a new group has its name and no children |
| Composite.CompositeGraphic.Add | Patterns/Structural/composite.js:48-50 | appends the graphic to the children; duplicates are kept |
| Composite.CompositeGraphic.Remove | Patterns/Structural/composite.js:52-54 | the children become the old children without any occurrence of the graphic |
| Composite.CompositeGraphic.Draw | Patterns/Structural/composite.js:56-61 | logs the group's line, then the lines of its children depth first, for any group that does not contain itself |
| Composite.DrawGraphic | Patterns/Structural/composite.js:58-60 | drawing any graphic logs its depth-first trace |
| Composite.TraceLength | Patterns/Structural/composite.js:56-61 | drawing a graphic logs one line per graphic in its tree |
| Composite.TraceAllLength | Patterns/Structural/composite.js:58-60 | drawing a list of children logs one line per graphic below them |
| Composite.TraceAllAppend | Patterns/Structural/composite.js:58-60 | drawing children `a + b` logs what drawing `a` and then `b` logs |
| Composite.GroupTraceStartsWithGroup | Patterns/Structural/composite.js:56-61 | a group's trace starts with its own line and is longer than its child list |
| Composite.SizeAllAtLeast | Patterns/Structural/composite.js:58-60 | a list of children holds at least as many graphics as it has entries |
| Composite.TraceBoundIrrelevant | Patterns/Structural/composite.js:56-61 | what a graphic draws does not depend on the depth bound used to show it terminates |
| Composite.TraceAllBoundIrrelevant | Patterns/Structural/composite.js:58-60 | the same for a list of children |
| Composite.WithoutMembers | Patterns/Structural/composite.js:52-54 | after `remove(g)` a graphic is a child exactly when it was one before and is not `g` |
| Composite.WithoutMultiset | Patterns/Structural/composite.js:52-54 | `remove(g)` drops every copy of `g` and keeps every other child as often as before |
| Composite.WithoutAppend | Patterns/Structural/composite.js:52-54 | filtering distributes over concatenation, so `remove` keeps the order of the others |
| Composite.WithoutAbsent | Patterns/Structural/composite.js:52-54 | removing a graphic that is not a child changes nothing |
| Composite.WithoutIdempotent | Patterns/Structural/composite.js:52-54 | removing the same graphic twice is the same as removing it once |
| Composite.AddThenRemove | Patterns/Structural/composite.js:48-54 | adding a graphic that was not a child and removing it restores the children |
| Composite.BuildDemoTree | Patterns/Structural/composite.js:69-80 | the demo's two groups are drawable, and group 2 draws its five lines in depth-first order |
| Composite.DemoTreeTrace | Patterns/Structural/composite.js:74-83 | the trace of group 2 holding circle 2 and group 1 (circle 1, rectangle 1) is those five lines |
| Composite.ExecutePattern | Patterns/Structural/composite.js:65-86 | the demo's output line by line: header, group 2, circle 2, group 1, circle 1, rectangle 1, footer |
| Builder.House.constructor | Patterns/Creational/builder.js:14-20 | a new house has no garage, no pool, no windows, no doors and one floor |
| Builder.House.Describe | Patterns/Creational/builder.js:22-26 | logs the description of the house's current parts |
| Builder.ConcreteHouseBuilder.constructor | Patterns/Creational/builder.js:42-45 | a new builder holds a fresh bare house |
| Builder.ConcreteHouseBuilder.Reset | Patterns/Creational/builder.js:47-50 | the builder moves on to a fresh bare house and answers itself |
| Builder.ConcreteHouseBuilder.SetWindows | Patterns/Creational/builder.js:52-55 | sets the window count, leaves every other part as it was, and answers the builder |
| Builder.ConcreteHouseBuilder.SetDoors | Patterns/Creational/builder.js:57-60 | sets the door count, leaves every other part as it was, and answers the builder |
| Builder.ConcreteHouseBuilder.SetFloors | Patterns/Creational/builder.js:62-65 | sets the floor count, leaves every other part as it was, and answers the builder |
| Builder.ConcreteHouseBuilder.AddGarage | Patterns/Creational/builder.js:67-70 | adds the garage, leaves every other part as it was, and answers the builder |
| Builder.ConcreteHouseBuilder.AddSwimmingPool | Patterns/Creational/builder.js:72-75 | adds the pool, leaves every other part as it was, and answers the builder |
| Builder.ConcreteHouseBuilder.GetResult | Patterns/Creational/builder.js:77-81 | returns the house built so far and moves on to a fresh bare house, so later steps cannot change the house handed out |
| Builder.Director.constructor | Patterns/Creational/builder.js:85 | a new director has no builder |
| Builder.Director.SetBuilder | Patterns/Creational/builder.js:86-88 | the director holds the given builder |
| Builder.Director.ConstructSimpleHouse | Patterns/Creational/builder.js:90-96 | returns a fresh house with 4 windows, 2 doors, 1 floor, no garage and no pool; the builder is left on another bare house |
| Builder.Director.ConstructLuxuryHouse | Patterns/Creational/builder.js:98-106 | returns a fresh house with 10 windows, 4 doors, 2 floors, a garage and a pool; the builder is left on another bare house |
| Builder.FrontHasNoGOrP | Patterns/Creational/builder.js:23 | the counts part of a description holds neither `g` nor `p`, whatever the numbers |
| Builder.GarageMentioned | Patterns/Creational/builder.js:24 | a house with a garage mentions " a garage," |
| Builder.GarageNotMentioned | Patterns/Creational/builder.js:23-25 | a house without a garage does not mention " a garage," |
| Builder.DescriptionMentionsGarage | Patterns/Creational/builder.js:22-26 | a description mentions a garage exactly when the house has one |
| Builder.PoolMentioned | Patterns/Creational/builder.js:24 | a house with a pool mentions " a swimming pool," |
| Builder.PoolNotMentioned | Patterns/Creational/builder.js:23-25 | a house without a pool does not mention " a swimming pool," |
| Builder.DescriptionMentionsPool | Patterns/Creational/builder.js:22-26 | a description mentions a swimming pool exactly when the house has one |
| Builder.DescriptionOfPlan | Patterns/Creational/builder.js:22-26 | a house built to a recipe describes the recipe's parts |
| Builder.BuildCustomHouse | Patterns/Creational/builder.js:122-127 | the chained steps give a fresh house with 6 windows, 3 doors, 1 floor and a garage |
| Builder.DescribeSimpleHouse | Patterns/Creational/builder.js:115-116 | building the simple house and describing it logs the simple recipe's description |
| Builder.DescribeLuxuryHouse | Patterns/Creational/builder.js:118-119 | building the luxury house and describing it logs the luxury recipe's description |
| Builder.DescribeCustomHouse | Patterns/Creational/builder.js:122-128 | building the custom house and describing it logs the custom recipe's description |
| Builder.SimpleDescriptionText | Patterns/Creational/builder.js:116 | the simple house describes itself as "House with 4 windows, 2 doors, 1 floor(s), and standard features." |
| Builder.LuxuryDescriptionText | Patterns/Creational/builder.js:119 | the luxury house describes itself as "House with 10 windows, 4 doors, 2 floor(s), a garage, a swimming pool, and standard features." |
| Builder.CustomDescriptionText | Patterns/Creational/builder.js:128 | the custom house describes itself as "House with 6 windows, 3 doors, 1 floor(s), a garage, and standard features." |
| Builder.ExecutePattern | Patterns/Creational/builder.js:110-135 | the demo's output line by line: header, the three descriptions in order, footer |
| Proxy.LoadLineIsNotDisplayLine | Patterns/Structural/proxy.js:27-33 | a load line never equals a display line |
| Proxy.RealImage.constructor | Patterns/Structural/proxy.js:21-25 | creating a real image keeps the file name and logs exactly one load line |
| Proxy.RealImage.LoadFromDisk | Patterns/Structural/proxy.js:27-29 | logs "Loading image from disk: " and the file name |
| Proxy.RealImage.Display | Patterns/Structural/proxy.js:31-33 | logs "Displaying image: " and the file name |
| Proxy.LoadedAtMostOnce | Patterns/Structural/proxy.js:44-49 | over any number of `display` calls the image is loaded at most once, and exactly once when it was not loaded and is displayed at all |
| Proxy.DisplayedEveryTime | Patterns/Structural/proxy.js:44-49 | `n` calls of `display` log exactly `n` display lines |
| Proxy.DisplayTraceAppend | Patterns/Structural/proxy.js:44-49 | `m` calls followed by `n` calls log what `m + n` calls log |
| Proxy.ProxyImage.constructor | Patterns/Structural/proxy.js:38-42 | a new proxy has its file name and no real image, and loads nothing |
| Proxy.ProxyImage.Display | Patterns/Structural/proxy.js:44-49 | the first call creates the real image, which loads it; later calls keep the same real image; every call ends with one display line |
| Proxy.ProxyImage.DisplayRepeatedly | Patterns/Structural/proxy.js:44-49 | `n` calls in a row log the trace of `n` displays and keep the real image once it exists |
| Proxy.RunProxyDemo | Patterns/Structural/proxy.js:53-63 | for any file name: header, one load line, two display lines, footer |
| Proxy.ExecutePattern | Patterns/Structural/proxy.js:53-63 | the demo's output line by line for "test_image.jpg" |
| Prototype.Shape.constructor | Patterns/Creational/prototype.js:15-18 | a shape keeps its type and color |
| Prototype.Shape.Clone | Patterns/Creational/prototype.js:20-23 | returns a fresh shape with the same type and color |
| Prototype.Shape.Draw | Patterns/Creational/prototype.js:25-27 | logs "Drawing a ", the color and the type |
| Prototype.Circle.constructor | Patterns/Creational/prototype.js:32-35 | a circle has type "Circle" and the given color and radius |
| Prototype.Circle.Clone | Patterns/Creational/prototype.js:37-40 | returns a fresh circle with the same color and radius, and type "Circle" |
| Prototype.Circle.Draw | Patterns/Creational/prototype.js:42-44 | logs the circle's color and radius |
| Prototype.Rectangle.constructor | Patterns/Creational/prototype.js:49-53 | a rectangle has type "Rectangle" and the given color, width and height |
| Prototype.Rectangle.Clone | Patterns/Creational/prototype.js:55-58 | returns a fresh rectangle with the same color, width and height, and type "Rectangle" |
| Prototype.Rectangle.Draw | Patterns/Creational/prototype.js:60-62 | logs the rectangle's color and size |
| Prototype.CircleLineRevealsRadius | Patterns/Creational/prototype.js:42-44 | two circles of one color draw the same line only when their radii are equal, so a drawn line shows the circle's own radius |
| Prototype.RectangleLineRevealsWidth | Patterns/Creational/prototype.js:60-62 | two rectangles of one color and height draw the same line only when their widths are equal, so a drawn line shows the rectangle's own width |
| Prototype.ClientCodePrototype | Patterns/Creational/prototype.js:66-81 | after the clones are changed, the originals still draw their own state: red 10, blue 20, green 5x8, yellow 10x8 |
| Prototype.RedCircleLineText | Patterns/Creational/prototype.js:77 | the original circle draws "Drawing a red circle with radius 10" |
| Prototype.BlueCircleLineText | Patterns/Creational/prototype.js:78 | the changed clone draws "Drawing a blue circle with radius 20" |
| Prototype.GreenRectangleLineText | Patterns/Creational/prototype.js:79 | the original rectangle draws "Drawing a green rectangle of size 5x8" |
| Prototype.YellowRectangleLineText | Patterns/Creational/prototype.js:80 | the changed clone draws "Drawing a yellow rectangle of size 10x8" |
| Prototype.ExecutePattern | Patterns/Creational/prototype.js:83-87 | the demo's output line by line: header, the four drawings, footer |

## Left out

- The other patterns in the repository are not part of this model: adapter, bridge, decorator, facade, factory and singleton. The two `index.js` files that run every demo are not part of it either.
- Output: `console.log` is modelled as appending to a list of lines. Writing to a real terminal is not modelled.
- JavaScript numbers are modelled as unbounded integers. Fractions, `NaN`, infinities and the exponent notation JavaScript uses for very large numbers are not modelled. The demos use small integers only.
- The abstract `Graphic.draw`, `Image.display` and `HouseBuilder` methods are not modelled. They either throw or do nothing, and no demo calls them. The datatype `Composite.Graphic` holds only the three concrete kinds.
- Composite.CompositeGraphic.Draw: requires that no group contains itself, directly or through other groups. In the source, such a group would recurse until the stack overflows. The ghost depth bound `h` and the set `groups` exist only to state this requirement.
- Builder.Director.ConstructSimpleHouse: requires a builder. In the source, calling it before `setBuilder` throws a `TypeError`. The same holds for Builder.Director.ConstructLuxuryHouse.
- Builder.ExecutePattern: the client code of builder.js:110-129 is split into three steps of building and then describing. The order of the calls is the same as in the source.
- Flyweight.TreeFactory.GetTreeType: the source's dictionary is a plain JavaScript object, and the model uses a `map` instead. Keys that are inherited from `Object.prototype` are therefore not modelled. For example, `__proto__` comes from name `_`, color `proto` and texture `_`. In the source, that lookup finds a truthy inherited value and returns it instead of a `TreeType`.
- Flyweight: the factory and the forest are modelled with either key. With `framedKeys` false the factory builds the key exactly as the source does (see Findings). The demo uses the source's key, because none of its names or colors holds `_`; for such kinds either key tells different kinds apart (`Flyweight.KeysDiffer`).
- Prototype: the source's `Circle` and `Rectangle` extend `Shape`. The model has three separate classes, because inheritance is not modelled. Each class keeps the fields and methods it has in the source.
- Proxy.ProxyImage.Display: the source's `realImage === null` test is modelled as a test on a nullable reference. The source never sets `realImage` to anything but a `RealImage`.

## Findings

| source | as written | input that shows it | evidently intended | confidence | as-written member | corrected member |
|---|---|---|---|---|---|---|
| Patterns/Structural/flyweight.js:32 | the key joins name, color and texture with `_`, so fields that themselves hold `_` can make two different requests share one key | `getTreeType("a_b", "c", "d")` and then `getTreeType("a", "b_c", "d")`: both use the key `a_b_c_d`, so the second call returns the tree kind named "a_b" | one shared kind per distinct (name, color, texture) | not executed | Flyweight.JoinedKeyMixesRequests | Flyweight.FramedKeySeparatesRequests |
| Patterns/Structural/flyweight.js:60-70 | `plantTree` uses that key, so a tree can be drawn with another request's fields | `plantTree(0, 0, "a_b", "c", "d")`, then `plantTree(1, 1, "a", "b_c", "d")`, then `draw()`: the second line is "Drawing a_b tree of color c and texture d at (1, 1)" | every tree drawn with the fields it was planted with | not executed | Flyweight.JoinedKeyForestMixesKinds | Flyweight.FramedKeyForestSeparatesKinds |
