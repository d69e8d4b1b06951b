# Diagram shape factories

A model of two object-creation designs over a fixed set of diagram shapes:
rectangles (sharp and rounded), ellipses, lines and text labels.

- `abstract_factory.dfy`, module `AbstractFactory` (lab3/main.py): the
  constructive abstract factory. The shapes are values. A factory is one of the
  two families, `SimpleDiagramFactory` or `RoundedDiagramFactory`, and each
  `create_*` operation is a function of the family and the arguments. The
  families differ only in the rectangle variant they build. The module also
  models what one frame of the demo paints: the window is filled white, then
  each shape is drawn in list order.
- `prototype_factory.dfy`, module `PrototypeFactory` (lab4/main.py): the
  prototype factory. Every shape is a class with a constructor, a `Draw`
  function and a `Clone` method that allocates a new object of the same class
  from the receiver's fields. `DiagramFactory` holds one prototype per shape
  kind and makes each shape by cloning that prototype.
- `paint.dfy`, module `Paint`: the drawing surface seen from outside. Each
  call a shape makes into pygame's drawing functions becomes a `PaintCommand`
  value: a filled rectangle with a corner radius, a filled ellipse, a stroked
  line with a width, a rendered string blitted into a box, or a window fill.
  A shape's draw returns the command instead of touching pixels.

Design points of the model:

- Square corners are pygame's default border radius, 0. Rounded corners use
  radius 10. Lines have width 5. Shapes are black. Labels are white on black.
- A label is placed by moving the rendered buffer's bounding rectangle so
  that its centre is the label's (x, y). pygame computes a rectangle's centre
  with C integer division, which rounds toward zero. `Paint.Half` models that
  division, and `Paint.CentredAt` proves the buffer ends up centred.
- The size of a rendered string comes from the font library. It is a
  parameter: `glyphs: Extent` for one label, or a `Renderer` function for a
  whole frame.
- In lab4 the factory accepts either rectangle class as its rectangle
  prototype. The model makes that closed choice a datatype,
  `RectanglePrototype`, over the two classes. The other three kinds each
  have one class, so their prototype fields have that class as their type.
- Each lab4 shape's `Draw` is proved equal to lab3's draw of a shape with the
  same fields. So the two files draw alike, apart from the font: labels load a
  24-pixel font in lab3 and a 14-pixel font in lab4.
- A lab4 label's clone does not copy the receiver's font. Its constructor loads
  the font again, so the clone has the 14-pixel font even if the receiver's
  `font` field was changed.
- Draw is a function in both modules, so it cannot change a shape's fields.
  `Clone` and the factory's `Create*` methods have no `modifies` clause, and
  they state `unchanged` for the receiver and the prototypes.

## Model

| member | source | states |
|---|---|---|
| `Paint.Half` | lab3/main.py:87 | halving rounds toward zero: for n >= 0 the result h has 2h <= n < 2h + 2, and for n < 0 it has 2h - 2 < n <= 2h |
| `Paint.CentredAt` | lab3/main.py:86-87 | a rectangle of the rendered buffer's size whose centre is `(cx, cy)` keeps that size and reports exactly that centre |
| `AbstractFactory.DrawRectangle` | lab3/main.py:19-32 | a rectangle paints a black filled box with its own x, y, width and height; the corner radius is 10 for the rounded variant and the square default for the simple one |
| `AbstractFactory.DrawEllipse` | lab3/main.py:49-50 | an ellipse paints, in black, the filled ellipse inscribed in its own bounding box |
| `AbstractFactory.DrawLine` | lab3/main.py:67-68 | a line paints a black stroke of width 5 from (x1, y1) to (x2, y2), endpoints in the order stored |
| `AbstractFactory.Draw` | lab3/main.py:169-170 | drawing a shape of any kind sends that kind's command and never a window fill: a box with the rectangle's bounds, an ellipse in the ellipse's box, a stroke between the line's endpoints, or a blit of the rendered buffer's size centred at the label's centre |
| `AbstractFactory.DrawText` | lab3/main.py:84-88 | a label blits its own string in its own font, antialiased, white on black, into a box of the rendered buffer's size whose centre is the label's (x, y) |
| `AbstractFactory.CreateRectangle` | lab3/main.py:112-134 | the rectangle stores x, y, width, height as given, and it is the rounded variant exactly when the family is `RoundedDiagramFactory` |
| `AbstractFactory.CreateEllipse` | lab3/main.py:119-137 | under either family the ellipse stores x, y, width, height as given |
| `AbstractFactory.CreateLine` | lab3/main.py:122-140 | under either family the line stores its endpoints in argument order |
| `AbstractFactory.CreateText` | lab3/main.py:77-143 | under either family the label stores its string and centre as given and loads the 24-pixel Roboto font |
| `AbstractFactory.FamiliesDifferOnlyInRectangles` | lab3/main.py:112-143 | for the same arguments the two families build equal ellipses, lines and labels, and rectangles with the same geometry but different variants, sharp against rounded |
| `AbstractFactory.RectangleVariantsDifferOnlyInCorners` | lab3/main.py:19-32 | the two rectangle variants paint the same black box with the same bounds; the simple one has square corners, the rounded one radius 10, so their commands differ |
| `AbstractFactory.CreatedShapesPaint` | lab3/main.py:11-143 | what each shape built by a family paints, in terms of the creation arguments: the box with the family's corner radius, the ellipse in the box, the width-5 stroke from the first to the second endpoint, the label centred at its centre |
| `AbstractFactory.Paints` | lab3/main.py:169-170 | drawing the list of shapes gives one command per shape, the k-th command being the k-th shape's draw |
| `AbstractFactory.PaintFrame` | lab3/main.py:168-170 | the loop that fills the window white and then draws each shape in turn yields exactly the frame: the fill, then every shape's command in list order |
| `AbstractFactory.DemoScene` | lab3/main.py:149-156 | the driver's scene is four shapes in order, rectangle, ellipse, line, label, with the demo's arguments; the rectangle is rounded exactly when the factory is the rounded family |
| `AbstractFactory.DemoFrames` | lab3/main.py:149-170 | the demo frame with the rounded family paints a rounded box from (100, 50) to (600, 250), the ellipse, the width-5 line from (350, 250) to (550, 500) and "Sample text" centred at (350, 150); the sharp family's frame differs only in the rectangle's corners |
| `PrototypeFactory.SimpleRectangle.constructor` | lab4/main.py:18-23 | the new rectangle stores x, y, width, height as given |
| `PrototypeFactory.SimpleRectangle.Draw` | lab4/main.py:25-26 | paints what the constructive factory's simple rectangle with the same fields paints: a square-cornered black box |
| `PrototypeFactory.SimpleRectangle.Clone` | lab4/main.py:28-29 | returns a new object of the same class with equal fields, which paints the same command; the receiver is unchanged |
| `PrototypeFactory.RoundedRectangle.constructor` | lab4/main.py:33-38 | the new rectangle stores x, y, width, height as given |
| `PrototypeFactory.RoundedRectangle.Draw` | lab4/main.py:40-41 | paints what the constructive factory's rounded rectangle with the same fields paints: a black box with radius-10 corners |
| `PrototypeFactory.RoundedRectangle.Clone` | lab4/main.py:43-44 | returns a new rounded rectangle with equal fields, which still paints the radius-10 box with the same bounds; the receiver is unchanged |
| `PrototypeFactory.SimpleEllipse.constructor` | lab4/main.py:54-59 | the new ellipse stores x, y, width, height as given |
| `PrototypeFactory.SimpleEllipse.Draw` | lab4/main.py:61-62 | paints what the constructive factory's ellipse with the same fields paints: the black ellipse inscribed in the box |
| `PrototypeFactory.SimpleEllipse.Clone` | lab4/main.py:64-65 | returns a new ellipse with equal fields that paints the same command; the receiver is unchanged |
| `PrototypeFactory.SimpleLine.constructor` | lab4/main.py:75-80 | the new line stores its endpoints in argument order |
| `PrototypeFactory.SimpleLine.Draw` | lab4/main.py:82-83 | paints what the constructive factory's line with the same endpoints paints: a width-5 stroke from (x1, y1) to (x2, y2) |
| `PrototypeFactory.SimpleLine.Clone` | lab4/main.py:85-86 | returns a new line with equal endpoints that paints the same stroke; the receiver is unchanged |
| `PrototypeFactory.SimpleText.constructor` | lab4/main.py:96-100 | the new label stores its string and centre as given and loads the 14-pixel Roboto font |
| `PrototypeFactory.SimpleText.Draw` | lab4/main.py:102-106 | paints what the constructive factory's label with the same fields paints: its string white on black, centred at (x, y) |
| `PrototypeFactory.SimpleText.Clone` | lab4/main.py:108-109 | returns a new label with the same string and centre and a freshly loaded 14-pixel font; when the receiver has that font too, the copy paints the same command for every rendered size; the receiver is unchanged |
| `PrototypeFactory.RectanglePrototype.Draw` | lab4/main.py:114 | either rectangle prototype paints a filled box with its own bounds, square-cornered for the simple class and radius 10 for the rounded one |
| `PrototypeFactory.RectanglePrototype.Clone` | lab4/main.py:114 | cloning a rectangle prototype keeps its class, its bounds and its paint command, and the copy is a new object |
| `PrototypeFactory.DiagramFactory.constructor` | lab4/main.py:113-122 | the factory stores exactly the four given prototypes in the matching fields |
| `PrototypeFactory.DiagramFactory.CreateRectangle` | lab4/main.py:124-125 | returns a new object, distinct from the prototype, of the prototype's class, with its bounds and its paint command; the factory and the prototype are unchanged |
| `PrototypeFactory.DiagramFactory.CreateEllipse` | lab4/main.py:127-128 | returns a new ellipse, distinct from the prototype, with the prototype's fields; the factory and the prototype are unchanged |
| `PrototypeFactory.DiagramFactory.CreateLine` | lab4/main.py:130-131 | returns a new line, distinct from the prototype, with the prototype's endpoints; the factory and the prototype are unchanged |
| `PrototypeFactory.DiagramFactory.CreateText` | lab4/main.py:133-134 | returns a new label, distinct from the prototype, with the prototype's string and centre and the 14-pixel font; the factory and the prototype are unchanged |
| `PrototypeFactory.CreateTextTwice` | lab4/main.py:133-134 | two successive label requests give two distinct new objects with the prototype's string and centre, and leave the factory and its prototype as they were |
| `PrototypeFactory.MoveClone` | lab4/main.py:85-86 | moving a clone's endpoints leaves the source line unchanged |
| `PrototypeFactory.Demo` | lab4/main.py:140-150 | the demo's factory yields new shapes distinct from its prototypes: a rounded box at (100, 50) of size 500 by 200, the ellipse, the width-5 line from (350, 250) to (550, 500), and "Sample text" centred at (350, 150) |

## Left out

- AbstractFactory.DrawText and Paint.CentredAt: coordinates and buffer
  sizes are assumed to fit pygame's Rect, whose fields are 32-bit C integers.
  The model computes the centred box on unbounded integers, so a label centre
  or buffer size outside that range is not modelled: there pygame cannot store
  the box `CentredAt` computes.
- Pixel rendering. pygame's `draw.rect`, `draw.ellipse` and `draw.line`,
  `Font.render`, `Surface.blit` and `get_rect` are calls into a library outside
  this model. Drawing returns the command those calls would receive.
- Font loading. Reading `Roboto-Regular.ttf` is file I/O. A font is an opaque
  value that records the file name and the pixel size.
- The size of a rendered string. The font library computes it, so it is a
  parameter of label drawing.
- The demo drivers' windowing and event loop: `pygame.init`, window creation,
  event polling, the escape key, `display.flip` and `clock.tick`. These are
  UI glue. Only the scene the lab3 driver builds and what one frame paints are
  modelled; the lab4 driver's set-up is modelled by `Demo`.
- The abstract base classes (`Rectangle`, `Ellipse`, `Line`, `Text`,
  `Prototype`, `AbstractDiagramFactory`) have no behaviour of their own. In
  lab3 they become the datatypes `Rectangle`, `Ellipse`, `Line`, `Text` and
  `Factory`. In lab4 every class provides both `Draw` and `Clone` directly,
  instead of the runtime union `Rectangle | Prototype`.
- The lab4 driver's frame loop is the same as lab3's, so it is not modelled a
  second time.
- lab2/zad1.cpp, lab2/zad2.cpp and lab2/zad3.cpp are not part of this model.
  They are fixed console programs that exercise `std::list` and `std::set`
  over points with floating-point coordinates.
