/**
 * The constructive abstract factory over diagram shapes (lab3/main.py).
 *
 * Shapes are values: each concrete shape class becomes a datatype constructor
 * holding the fields its initialiser assigns. The two concrete factories hold
 * no state, so a factory is just the name of its family, and each `create_*`
 * operation is a function of the family and the geometry arguments.
 * Drawing returns the paint command the shape would send to the surface.
 */
module AbstractFactory {
  import opened Paint

  /** The font every text label loads when it is built (Roboto, 24 pixels). */
  const TextFont := Font(FontFile, 24)

  /** The rectangle kind and its two variants: sharp and rounded corners. */
  datatype Rectangle =
    | SimpleRectangle(x: int, y: int, width: int, height: int)
    | RoundedRectangle(x: int, y: int, width: int, height: int)

  /** An ellipse, given by its bounding box. */
  datatype Ellipse = SimpleEllipse(x: int, y: int, width: int, height: int)

  /** A line segment, with its endpoints in the order they were given. */
  datatype Line = SimpleLine(x1: int, y1: int, x2: int, y2: int)

  /** A text label, anchored at its centre (x, y), with the font it loaded. */
  datatype Text = SimpleText(text: string, x: int, y: int, font: Font)

  /** Any of the four shape kinds, as the driver keeps them in one list. */
  datatype Shape =
    | RectangleShape(rectangle: Rectangle)
    | EllipseShape(ellipse: Ellipse)
    | LineShape(line: Line)
    | TextShape(caption: Text)

  /**
   * The size of the buffer a font renders a string into. Rendering is done by
   * the font library, outside this model, so it is a parameter.
   */
  type Renderer = (string, Font) -> Extent

  /** The two concrete factories: the family decides the rectangle variant. */
  datatype Factory = SimpleDiagramFactory | RoundedDiagramFactory

  // ---------------------------------------------------------------------------
  // Drawing

  /** A rectangle fills its box in black; only the rounded variant rounds its corners. */
  function DrawRectangle(r: Rectangle): (p: PaintCommand)
    ensures p.FillRect? && p.color == Black
    ensures p.bounds == Box(r.x, r.y, r.width, r.height)
    ensures p.borderRadius == (if r.RoundedRectangle? then RoundedCornerRadius else SquareCorners)
  {
    match r
    case SimpleRectangle(x, y, width, height) =>
      FillRect(Black, Box(x, y, width, height), SquareCorners)
    case RoundedRectangle(x, y, width, height) =>
      FillRect(Black, Box(x, y, width, height), RoundedCornerRadius)
  }

  /** An ellipse fills, in black, the ellipse inscribed in its bounding box. */
  function DrawEllipse(e: Ellipse): (p: PaintCommand)
    ensures p.FillEllipse? && p.color == Black
    ensures p.bounds == Box(e.x, e.y, e.width, e.height)
  {
    FillEllipse(Black, Box(e.x, e.y, e.width, e.height))
  }

  /** A line strokes, in black and with width 5, from its first endpoint to its second. */
  function DrawLine(l: Line): (p: PaintCommand)
    ensures p.StrokeLine? && p.color == Black
    ensures p.start == Point(l.x1, l.y1) && p.end == Point(l.x2, l.y2)
    ensures p.width == LineWidth
  {
    StrokeLine(Black, Point(l.x1, l.y1), Point(l.x2, l.y2), LineWidth)
  }

  /**
   * A label renders its string, white on black, and places the rendered buffer
   * so that the buffer's centre is the label's (x, y). `glyphs` is the size of
   * the rendered buffer.
   */
  function DrawText(t: Text, glyphs: Extent): (p: PaintCommand)
    ensures p.Blit? && p.text == t.text && p.font == t.font && p.antialias
    ensures p.foreground == White && p.background == Black
    ensures p.dest.width == glyphs.width && p.dest.height == glyphs.height
    ensures Centre(p.dest) == Point(t.x, t.y)
  {
    Blit(t.text, t.font, true, White, Black, CentredAt(glyphs, Point(t.x, t.y)))
  }

  /**
   * Drawing any shape dispatches on its kind: each kind sends its own kind of
   * command, and a label is measured with the font it loaded.
   */
  function Draw(s: Shape, render: Renderer): (p: PaintCommand)
    ensures p.FillRect? <==> s.RectangleShape?
    ensures p.FillEllipse? <==> s.EllipseShape?
    ensures p.StrokeLine? <==> s.LineShape?
    ensures p.Blit? <==> s.TextShape?
    ensures !p.Fill?
    ensures s.RectangleShape? ==> p.bounds == Box(s.rectangle.x, s.rectangle.y, s.rectangle.width, s.rectangle.height)
    ensures s.EllipseShape? ==> p.bounds == Box(s.ellipse.x, s.ellipse.y, s.ellipse.width, s.ellipse.height)
    ensures s.LineShape? ==> p.start == Point(s.line.x1, s.line.y1) && p.end == Point(s.line.x2, s.line.y2)
    ensures s.TextShape? ==>
              && p.dest.width == render(s.caption.text, s.caption.font).width
              && p.dest.height == render(s.caption.text, s.caption.font).height
              && Centre(p.dest) == Point(s.caption.x, s.caption.y)
  {
    match s
    case RectangleShape(r) => DrawRectangle(r)
    case EllipseShape(e) => DrawEllipse(e)
    case LineShape(l) => DrawLine(l)
    case TextShape(t) => DrawText(t, render(t.text, t.font))
  }

  // ---------------------------------------------------------------------------
  // The factories

  /** The family alone decides the variant; the geometry is stored as given. */
  function CreateRectangle(f: Factory, x: int, y: int, width: int, height: int): (r: Rectangle)
    ensures r.x == x && r.y == y && r.width == width && r.height == height
    ensures r.RoundedRectangle? <==> f == RoundedDiagramFactory
  {
    match f
    case SimpleDiagramFactory => SimpleRectangle(x, y, width, height)
    case RoundedDiagramFactory => RoundedRectangle(x, y, width, height)
  }

  /** The ellipse stores its bounding box as given. */
  function CreateEllipse(f: Factory, x: int, y: int, width: int, height: int): (e: Ellipse)
    ensures e.x == x && e.y == y && e.width == width && e.height == height
  {
    match f
    case SimpleDiagramFactory => SimpleEllipse(x, y, width, height)
    case RoundedDiagramFactory => SimpleEllipse(x, y, width, height)
  }

  /** The line keeps its endpoints in argument order. */
  function CreateLine(f: Factory, x1: int, y1: int, x2: int, y2: int): (l: Line)
    ensures l.x1 == x1 && l.y1 == y1 && l.x2 == x2 && l.y2 == y2
  {
    match f
    case SimpleDiagramFactory => SimpleLine(x1, y1, x2, y2)
    case RoundedDiagramFactory => SimpleLine(x1, y1, x2, y2)
  }

  /** The label stores its string and centre as given and loads the 24-pixel font. */
  function CreateText(f: Factory, text: string, centerX: int, centerY: int): (t: Text)
    ensures t.text == text && t.x == centerX && t.y == centerY && t.font == TextFont
  {
    match f
    case SimpleDiagramFactory => SimpleText(text, centerX, centerY, TextFont)
    case RoundedDiagramFactory => SimpleText(text, centerX, centerY, TextFont)
  }

  /**
   * The two families differ in the rectangle variant alone: for the same
   * arguments they build the same ellipse, line and label, and rectangles with
   * the same geometry but different variants.
   */
  lemma FamiliesDifferOnlyInRectangles(x: int, y: int, width: int, height: int,
                                       x1: int, y1: int, x2: int, y2: int,
                                       text: string, centerX: int, centerY: int)
    ensures CreateEllipse(SimpleDiagramFactory, x, y, width, height)
         == CreateEllipse(RoundedDiagramFactory, x, y, width, height)
    ensures CreateLine(SimpleDiagramFactory, x1, y1, x2, y2) == CreateLine(RoundedDiagramFactory, x1, y1, x2, y2)
    ensures CreateText(SimpleDiagramFactory, text, centerX, centerY)
         == CreateText(RoundedDiagramFactory, text, centerX, centerY)
    ensures var sharp := CreateRectangle(SimpleDiagramFactory, x, y, width, height);
            var rounded := CreateRectangle(RoundedDiagramFactory, x, y, width, height);
            && (sharp.x, sharp.y, sharp.width, sharp.height) == (rounded.x, rounded.y, rounded.width, rounded.height)
            && sharp.SimpleRectangle? && rounded.RoundedRectangle?
            && sharp != rounded
  {
  }

  /**
   * The two rectangle variants paint the same black box; they differ in the
   * corner radius alone, square against 10.
   */
  lemma RectangleVariantsDifferOnlyInCorners(x: int, y: int, width: int, height: int)
    ensures var sharp := DrawRectangle(SimpleRectangle(x, y, width, height));
            var rounded := DrawRectangle(RoundedRectangle(x, y, width, height));
            && sharp == FillRect(Black, Box(x, y, width, height), SquareCorners)
            && rounded == FillRect(Black, Box(x, y, width, height), RoundedCornerRadius)
            && sharp != rounded
  {
  }

  /** What a shape built by family `f` paints, stated in terms of the creation arguments. */
  lemma CreatedShapesPaint(f: Factory, x: int, y: int, width: int, height: int,
                           x1: int, y1: int, x2: int, y2: int,
                           text: string, centerX: int, centerY: int, glyphs: Extent)
    ensures DrawRectangle(CreateRectangle(f, x, y, width, height))
         == FillRect(Black, Box(x, y, width, height),
                     if f == RoundedDiagramFactory then RoundedCornerRadius else SquareCorners)
    ensures DrawEllipse(CreateEllipse(f, x, y, width, height)) == FillEllipse(Black, Box(x, y, width, height))
    ensures DrawLine(CreateLine(f, x1, y1, x2, y2)) == StrokeLine(Black, Point(x1, y1), Point(x2, y2), LineWidth)
    ensures DrawText(CreateText(f, text, centerX, centerY), glyphs)
         == Blit(text, TextFont, true, White, Black, CentredAt(glyphs, Point(centerX, centerY)))
  {
  }

  // ---------------------------------------------------------------------------
  // One frame of the driver

  /** The commands the shapes paint, one per shape, in list order. */
  function Paints(objects: seq<Shape>, render: Renderer): (cmds: seq<PaintCommand>)
    ensures |cmds| == |objects|
    ensures forall k :: 0 <= k < |objects| ==> cmds[k] == Draw(objects[k], render)
  {
    if objects == [] then []
    else Paints(objects[..|objects| - 1], render) + [Draw(objects[|objects| - 1], render)]
  }

  /** A frame clears the window to white, then paints every shape in order. */
  function Frame(objects: seq<Shape>, render: Renderer): seq<PaintCommand> {
    [Fill(White)] + Paints(objects, render)
  }

  /** The driver's per-frame drawing: fill the window, then draw each object in turn. */
  method PaintFrame(objects: seq<Shape>, render: Renderer) returns (cmds: seq<PaintCommand>)
    ensures cmds == Frame(objects, render)
  {
    cmds := [Fill(White)];
    for i := 0 to |objects|
      invariant cmds == [Fill(White)] + Paints(objects[..i], render)
    {
      assert objects[..i + 1][..i] == objects[..i];
      cmds := cmds + [Draw(objects[i], render)];
    }
    assert objects[..|objects|] == objects;
  }

  /**
   * The four shapes the driver requests from a factory, in the order it keeps
   * them: the factory's rectangle variant, then the ellipse, the line and the
   * label with the demo's fixed arguments.
   */
  function DemoScene(f: Factory): (scene: seq<Shape>)
    ensures |scene| == 4
    ensures scene[0].RectangleShape? && scene[1].EllipseShape? && scene[2].LineShape? && scene[3].TextShape?
    ensures scene[0].rectangle.RoundedRectangle? <==> f == RoundedDiagramFactory
    ensures var r := scene[0].rectangle; (r.x, r.y, r.width, r.height) == (100, 50, 500, 200)
    ensures scene[1].ellipse == SimpleEllipse(300, 500, 500, 200)
    ensures scene[2].line == SimpleLine(350, 250, 550, 500)
    ensures scene[3].caption == SimpleText("Sample text", 350, 150, TextFont)
  {
    [ RectangleShape(CreateRectangle(f, 100, 50, 500, 200)),
      EllipseShape(CreateEllipse(f, 300, 500, 500, 200)),
      LineShape(CreateLine(f, 350, 250, 550, 500)),
      TextShape(CreateText(f, "Sample text", 350, 150)) ]
  }

  /**
   * The demo frame with the rounded family: a rounded box from (100, 50) to
   * (600, 250), the line from (350, 250) to (550, 500) of width 5, the label
   * centred at (350, 150); and switching to the sharp family changes the
   * rectangle's corners and nothing else.
   */
  lemma DemoFrames(render: Renderer)
    ensures var rounded := Frame(DemoScene(RoundedDiagramFactory), render);
            && |rounded| == 5
            && rounded[0] == Fill(White)
            && rounded[1] == FillRect(Black, Box(100, 50, 500, 200), RoundedCornerRadius)
            && rounded[1].bounds.left + rounded[1].bounds.width == 600
            && rounded[1].bounds.top + rounded[1].bounds.height == 250
            && rounded[2] == FillEllipse(Black, Box(300, 500, 500, 200))
            && rounded[3] == StrokeLine(Black, Point(350, 250), Point(550, 500), LineWidth)
            && rounded[4].Blit? && rounded[4].text == "Sample text"
            && Centre(rounded[4].dest) == Point(350, 150)
    ensures var sharp := Frame(DemoScene(SimpleDiagramFactory), render);
            var rounded := Frame(DemoScene(RoundedDiagramFactory), render);
            && |sharp| == |rounded|
            && sharp[1] == FillRect(Black, Box(100, 50, 500, 200), SquareCorners)
            && forall k :: 0 <= k < |sharp| && k != 1 ==> sharp[k] == rounded[k]
  {
  }
}
