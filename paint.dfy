/**
 * The drawing surface the diagram shapes paint onto, seen from the outside:
 * every call the shapes make into pygame's drawing functions is recorded as a
 * paint command value, so that what a shape draws can be stated and compared
 * without pixels.
 */
module Paint {

  /** An RGB colour as pygame takes it. */
  datatype Color = Color(red: int, green: int, blue: int)

  const Black := Color(0, 0, 0)
  const White := Color(255, 255, 255)

  datatype Point = Point(x: int, y: int)

  /** pygame's Rect: top-left corner, then width and height. */
  datatype Box = Box(left: int, top: int, width: int, height: int)

  /** The size of a pixel buffer, such as the one a font renders a string into. */
  datatype Extent = Extent(width: nat, height: nat)

  /**
   * A loaded font, kept opaque: only the file it came from and its pixel size
   * are recorded.
   */
  datatype Font = Font(path: string, size: nat)

  const FontFile := "Roboto-Regular.ttf"

  /** pygame's default border radius, which draws square corners. */
  const SquareCorners := 0
  /** The corner radius of a rounded rectangle. */
  const RoundedCornerRadius := 10
  /** The stroke width of a line. */
  const LineWidth := 5

  /** One call into the drawing surface. */
  datatype PaintCommand =
    | Fill(color: Color)
    | FillRect(color: Color, bounds: Box, borderRadius: int)
    | FillEllipse(color: Color, bounds: Box)
    | StrokeLine(color: Color, start: Point, end: Point, width: int)
    | Blit(text: string, font: Font, antialias: bool, foreground: Color, background: Color, dest: Box)

  /** Halving as pygame's rectangle code does it: C integer division, rounding toward zero. */
  function Half(n: int): (h: int)
    ensures n >= 0 ==> 0 <= h && 2 * h <= n < 2 * h + 2
    ensures n < 0 ==> h <= 0 && 2 * h - 2 < n <= 2 * h
  {
    if n >= 0 then n / 2 else -((-n) / 2)
  }

  /** The centre pygame reports for a rectangle. */
  function Centre(b: Box): Point {
    Point(b.left + Half(b.width), b.top + Half(b.height))
  }

  /**
   * A rectangle of the given size moved so that its centre is `centre`: what
   * assigning `centre` to the `center` of a buffer's bounding rectangle gives.
   */
  function CentredAt(size: Extent, centre: Point): (b: Box)
    ensures b.width == size.width && b.height == size.height
    ensures Centre(b) == centre
  {
    Box(centre.x - Half(size.width), centre.y - Half(size.height), size.width, size.height)
  }
}
