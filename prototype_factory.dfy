/**
 * The prototype factory over diagram shapes (lab4/main.py).
 *
 * Here identity matters, so every shape is a class whose constructor assigns
 * its fields, and `Clone` allocates a new object of the same class from the
 * receiver's fields. The factory keeps one prototype per shape kind and makes
 * every shape by cloning it. Each shape draws as its counterpart in the
 * constructive factory does, which `Draw`'s contract states.
 */
module PrototypeFactory {
  import opened Paint
  import AbstractFactory

  /** The font every text label loads when it is built (Roboto, 14 pixels). */
  const TextFont := Font(FontFile, 14)

  class SimpleRectangle {
    var x: int
    var y: int
    var width: int
    var height: int

    constructor (x: int, y: int, width: int, height: int)
      ensures this.x == x && this.y == y && this.width == width && this.height == height
    {
      this.x, this.y, this.width, this.height := x, y, width, height;
    }

    /** A black box with square corners. */
    function Draw(): (p: PaintCommand)
      reads this
      ensures p == AbstractFactory.DrawRectangle(AbstractFactory.SimpleRectangle(x, y, width, height))
    {
      FillRect(Black, Box(x, y, width, height), SquareCorners)
    }

    method Clone() returns (c: SimpleRectangle)
      ensures fresh(c)
      ensures c.x == x && c.y == y && c.width == width && c.height == height
      ensures c.Draw() == Draw()
      ensures unchanged(this)
    {
      c := new SimpleRectangle(x, y, width, height);
    }
  }

  class RoundedRectangle {
    var x: int
    var y: int
    var width: int
    var height: int

    constructor (x: int, y: int, width: int, height: int)
      ensures this.x == x && this.y == y && this.width == width && this.height == height
    {
      this.x, this.y, this.width, this.height := x, y, width, height;
    }

    /** A black box whose corners are rounded with radius 10. */
    function Draw(): (p: PaintCommand)
      reads this
      ensures p == AbstractFactory.DrawRectangle(AbstractFactory.RoundedRectangle(x, y, width, height))
    {
      FillRect(Black, Box(x, y, width, height), RoundedCornerRadius)
    }

    /** The copy is again a rounded rectangle: it paints the same rounded box. */
    method Clone() returns (c: RoundedRectangle)
      ensures fresh(c)
      ensures c.x == x && c.y == y && c.width == width && c.height == height
      ensures c.Draw() == Draw()
      ensures unchanged(this)
    {
      c := new RoundedRectangle(x, y, width, height);
    }
  }

  class SimpleEllipse {
    var x: int
    var y: int
    var width: int
    var height: int

    constructor (x: int, y: int, width: int, height: int)
      ensures this.x == x && this.y == y && this.width == width && this.height == height
    {
      this.x, this.y, this.width, this.height := x, y, width, height;
    }

    /** A black ellipse inscribed in the box. */
    function Draw(): (p: PaintCommand)
      reads this
      ensures p == AbstractFactory.DrawEllipse(AbstractFactory.SimpleEllipse(x, y, width, height))
    {
      FillEllipse(Black, Box(x, y, width, height))
    }

    method Clone() returns (c: SimpleEllipse)
      ensures fresh(c)
      ensures c.x == x && c.y == y && c.width == width && c.height == height
      ensures c.Draw() == Draw()
      ensures unchanged(this)
    {
      c := new SimpleEllipse(x, y, width, height);
    }
  }

  class SimpleLine {
    var x1: int
    var y1: int
    var x2: int
    var y2: int

    constructor (x1: int, y1: int, x2: int, y2: int)
      ensures this.x1 == x1 && this.y1 == y1 && this.x2 == x2 && this.y2 == y2
    {
      this.x1, this.y1, this.x2, this.y2 := x1, y1, x2, y2;
    }

    /** A black stroke of width 5 from (x1, y1) to (x2, y2). */
    function Draw(): (p: PaintCommand)
      reads this
      ensures p == AbstractFactory.DrawLine(AbstractFactory.SimpleLine(x1, y1, x2, y2))
    {
      StrokeLine(Black, Point(x1, y1), Point(x2, y2), LineWidth)
    }

    method Clone() returns (c: SimpleLine)
      ensures fresh(c)
      ensures c.x1 == x1 && c.y1 == y1 && c.x2 == x2 && c.y2 == y2
      ensures c.Draw() == Draw()
      ensures unchanged(this)
    {
      c := new SimpleLine(x1, y1, x2, y2);
    }
  }

  class SimpleText {
    var text: string
    var x: int
    var y: int
    var font: Font

    /** Building a label loads the 14-pixel font. */
    constructor (text: string, centerX: int, centerY: int)
      ensures this.text == text && x == centerX && y == centerY && font == TextFont
    {
      this.text, x, y := text, centerX, centerY;
      font := TextFont;
    }

    /**
     * The string rendered white on black, placed so that the rendered buffer,
     * of size `glyphs`, is centred at (x, y).
     */
    function Draw(glyphs: Extent): (p: PaintCommand)
      reads this
      ensures p == AbstractFactory.DrawText(AbstractFactory.SimpleText(text, x, y, font), glyphs)
    {
      Blit(text, font, true, White, Black, CentredAt(glyphs, Point(x, y)))
    }

    /**
     * The copy is built from the string and the centre; like every label it
     * loads the 14-pixel font afresh rather than sharing the receiver's.
     */
    method Clone() returns (c: SimpleText)
      ensures fresh(c)
      ensures c.text == text && c.x == x && c.y == y && c.font == TextFont
      ensures font == TextFont ==> forall glyphs :: c.Draw(glyphs) == Draw(glyphs)
      ensures unchanged(this)
    {
      c := new SimpleText(text, x, y);
    }
  }

  /**
   * A rectangle prototype: either rectangle class, as the factory accepts
   * both. This is the closed set of rectangle variants.
   */
  datatype RectanglePrototype = Sharp(sharp: SimpleRectangle) | Rounded(rounded: RoundedRectangle)
  {
    /** The object behind the variant, for identity and framing. */
    function Object(): object {
      match this
      case Sharp(r) => r
      case Rounded(r) => r
    }

    function Bounds(): Box
      reads Object()
    {
      match this
      case Sharp(r) => Box(r.x, r.y, r.width, r.height)
      case Rounded(r) => Box(r.x, r.y, r.width, r.height)
    }

    function Draw(): (p: PaintCommand)
      reads Object()
      ensures p.FillRect? && p.bounds == Bounds()
      ensures p.borderRadius == if Rounded? then RoundedCornerRadius else SquareCorners
    {
      match this
      case Sharp(r) => r.Draw()
      case Rounded(r) => r.Draw()
    }

    /** Cloning dispatches on the variant, so the copy keeps it. */
    method Clone() returns (c: RectanglePrototype)
      ensures fresh(c.Object())
      ensures c.Rounded? == Rounded? && c.Bounds() == Bounds() && c.Draw() == Draw()
      ensures unchanged(Object())
    {
      match this
      case Sharp(r) =>
        var copy := r.Clone();
        c := Sharp(copy);
      case Rounded(r) =>
        var copy := r.Clone();
        c := Rounded(copy);
    }
  }

  /** A factory that makes every shape by cloning the prototype it was given for that kind. */
  class DiagramFactory {
    var rectanglePrototype: RectanglePrototype
    var ellipsePrototype: SimpleEllipse
    var linePrototype: SimpleLine
    var textPrototype: SimpleText

    constructor (rectangle: RectanglePrototype, ellipse: SimpleEllipse, line: SimpleLine, text: SimpleText)
      ensures rectanglePrototype == rectangle && ellipsePrototype == ellipse
      ensures linePrototype == line && textPrototype == text
    {
      rectanglePrototype, ellipsePrototype := rectangle, ellipse;
      linePrototype, textPrototype := line, text;
    }

    method CreateRectangle() returns (r: RectanglePrototype)
      ensures fresh(r.Object()) && r.Object() != rectanglePrototype.Object()
      ensures r.Rounded? == rectanglePrototype.Rounded?
      ensures r.Bounds() == rectanglePrototype.Bounds() && r.Draw() == rectanglePrototype.Draw()
      ensures unchanged(this, rectanglePrototype.Object())
    {
      r := rectanglePrototype.Clone();
    }

    method CreateEllipse() returns (e: SimpleEllipse)
      ensures fresh(e) && e != ellipsePrototype
      ensures e.x == ellipsePrototype.x && e.y == ellipsePrototype.y
      ensures e.width == ellipsePrototype.width && e.height == ellipsePrototype.height
      ensures unchanged(this, ellipsePrototype)
    {
      e := ellipsePrototype.Clone();
    }

    method CreateLine() returns (l: SimpleLine)
      ensures fresh(l) && l != linePrototype
      ensures l.x1 == linePrototype.x1 && l.y1 == linePrototype.y1
      ensures l.x2 == linePrototype.x2 && l.y2 == linePrototype.y2
      ensures unchanged(this, linePrototype)
    {
      l := linePrototype.Clone();
    }

    method CreateText() returns (t: SimpleText)
      ensures fresh(t) && t != textPrototype
      ensures t.text == textPrototype.text && t.x == textPrototype.x && t.y == textPrototype.y
      ensures t.font == TextFont
      ensures unchanged(this, textPrototype)
    {
      t := textPrototype.Clone();
    }
  }

  /**
   * Asking the factory for a label twice gives two distinct labels that both
   * carry the prototype's string and centre; the factory is left as it was.
   */
  method CreateTextTwice(factory: DiagramFactory) returns (first: SimpleText, second: SimpleText)
    ensures fresh(first) && fresh(second) && first != second
    ensures first.text == second.text == factory.textPrototype.text
    ensures first.x == second.x == factory.textPrototype.x
    ensures first.y == second.y == factory.textPrototype.y
    ensures unchanged(factory, factory.textPrototype)
  {
    first := factory.CreateText();
    second := factory.CreateText();
  }

  /**
   * A clone is independent of its source: moving the copy leaves the source
   * where it was.
   */
  method MoveClone(source: SimpleLine, dx: int, dy: int) returns (c: SimpleLine)
    ensures fresh(c)
    ensures c.x1 == source.x1 + dx && c.y1 == source.y1 + dy
    ensures c.x2 == source.x2 + dx && c.y2 == source.y2 + dy
    ensures unchanged(source)
  {
    c := source.Clone();
    c.x1, c.y1, c.x2, c.y2 := c.x1 + dx, c.y1 + dy, c.x2 + dx, c.y2 + dy;
  }

  /**
   * The driver's set-up: one prototype per kind, a factory over them, and one
   * shape of each kind made by the factory.
   */
  method Demo() returns (factory: DiagramFactory, rectangle: RectanglePrototype, ellipse: SimpleEllipse,
                         line: SimpleLine, text: SimpleText)
    ensures fresh(factory) && fresh(rectangle.Object()) && fresh(ellipse) && fresh(line) && fresh(text)
    ensures rectangle.Object() != factory.rectanglePrototype.Object() && ellipse != factory.ellipsePrototype
    ensures line != factory.linePrototype && text != factory.textPrototype
    ensures rectangle.Rounded?
    ensures rectangle.Draw() == FillRect(Black, Box(100, 50, 500, 200), RoundedCornerRadius)
    ensures ellipse.Draw() == FillEllipse(Black, Box(300, 500, 500, 200))
    ensures line.Draw() == StrokeLine(Black, Point(350, 250), Point(550, 500), LineWidth)
    ensures text.text == "Sample text" && text.x == 350 && text.y == 150 && text.font == TextFont
    ensures forall glyphs :: Centre(text.Draw(glyphs).dest) == Point(350, 150)
  {
    var protoRectangle := new RoundedRectangle(100, 50, 500, 200);
    var protoEllipse := new SimpleEllipse(300, 500, 500, 200);
    var protoLine := new SimpleLine(350, 250, 550, 500);
    var protoText := new SimpleText("Sample text", 350, 150);
    factory := new DiagramFactory(Rounded(protoRectangle), protoEllipse, protoLine, protoText);
    rectangle := factory.CreateRectangle();
    ellipse := factory.CreateEllipse();
    line := factory.CreateLine();
    text := factory.CreateText();
  }
}
