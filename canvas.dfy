/** The slice of the 2D drawing-surface API the board uses, as a list of
    commands, and what those commands leave on the surface: the polylines
    stroked since the last full clear. */
module Canvas {
  import opened GameModel

  /** The board is a 400 x 400 canvas. */
  const Width: int := 400
  const Height: int := 400

  /** Whether the surface accepts c as a stroke style: c is one of the named
      colours of CSS Color Module Level 4 (section 6.1), in the lower case the
      palette uses. Setting a value that does not parse is ignored and the
      previous style stays. */
  predicate Parses(c: Color) {
    c in {
      "aliceblue", "antiquewhite", "aqua", "aquamarine", "azure", "beige", "bisque", "black",
      "blanchedalmond", "blue", "blueviolet", "brown", "burlywood", "cadetblue", "chartreuse",
      "chocolate", "coral", "cornflowerblue", "cornsilk", "crimson", "cyan", "darkblue", "darkcyan",
      "darkgoldenrod", "darkgray", "darkgreen", "darkgrey", "darkkhaki", "darkmagenta",
      "darkolivegreen", "darkorange", "darkorchid", "darkred", "darksalmon", "darkseagreen",
      "darkslateblue", "darkslategray", "darkslategrey", "darkturquoise", "darkviolet", "deeppink",
      "deepskyblue", "dimgray", "dimgrey", "dodgerblue", "firebrick", "floralwhite", "forestgreen",
      "fuchsia", "gainsboro", "ghostwhite", "gold", "goldenrod", "gray", "green", "greenyellow",
      "grey", "honeydew", "hotpink", "indianred", "indigo", "ivory", "khaki", "lavender",
      "lavenderblush", "lawngreen", "lemonchiffon", "lightblue", "lightcoral", "lightcyan",
      "lightgoldenrodyellow", "lightgray", "lightgreen", "lightgrey", "lightpink", "lightsalmon",
      "lightseagreen", "lightskyblue", "lightslategray", "lightslategrey", "lightsteelblue",
      "lightyellow", "lime", "limegreen", "linen", "magenta", "maroon", "mediumaquamarine",
      "mediumblue", "mediumorchid", "mediumpurple", "mediumseagreen", "mediumslateblue",
      "mediumspringgreen", "mediumturquoise", "mediumvioletred", "midnightblue", "mintcream",
      "mistyrose", "moccasin", "navajowhite", "navy", "oldlace", "olive", "olivedrab", "orange",
      "orangered", "orchid", "palegoldenrod", "palegreen", "paleturquoise", "palevioletred",
      "papayawhip", "peachpuff", "peru", "pink", "plum", "powderblue", "purple", "rebeccapurple",
      "red", "rosybrown", "royalblue", "saddlebrown", "salmon", "sandybrown", "seagreen", "seashell",
      "sienna", "silver", "skyblue", "slateblue", "slategray", "slategrey", "snow", "springgreen",
      "steelblue", "tan", "teal", "thistle", "tomato", "turquoise", "violet", "wheat", "white",
      "whitesmoke", "yellow", "yellowgreen"
    }
  }

  /** As written, the ninth player's colour is not a colour name, so a
      surface ignores it; the other nine entries parse. */
  lemma WrittenPaletteEntryIgnored()
    ensures ColorsAsWritten[8] == "cornflower" && !Parses(ColorsAsWritten[8])
    ensures forall i :: 0 <= i < |ColorsAsWritten| && i != 8 ==> Parses(ColorsAsWritten[i])
  {
  }

  /** Every colour of the corrected palette parses. */
  lemma PaletteParses()
    ensures forall i :: 0 <= i < |Colors| ==> Parses(Colors[i])
  {
  }

  datatype Cmd =
    | ClearRect(x: int, y: int, w: int, h: int)
    | SetStrokeStyle(color: Color)
    | SetLineWidth(width: int)
    | BeginPath
    | MoveTo(p: Coord)
    | LineTo(p: Coord)
    | Stroke

  /** A connected line painted on the surface. */
  datatype Polyline = Polyline(color: Color, width: int, points: seq<Coord>)

  /** The drawing state: current style and width, the current path as its
      subpaths, and the polylines painted so far, oldest first. */
  datatype Surface = Surface(style: Color, width: int, path: seq<seq<Coord>>, drawn: seq<Polyline>)

  /** Stroking paints every subpath of the current path in the current style. */
  function Painted(s: Surface): (lines: seq<Polyline>)
    ensures |lines| == |s.path|
    ensures forall i :: 0 <= i < |s.path| ==> lines[i] == Polyline(s.style, s.width, s.path[i])
  {
    seq(|s.path|, i requires 0 <= i < |s.path| => Polyline(s.style, s.width, s.path[i]))
  }

  function Step(s: Surface, c: Cmd): Surface {
    match c
    case ClearRect(x, y, w, h) =>
      // only a clear of the whole surface is modelled
      if x <= 0 && y <= 0 && x + w >= Width && y + h >= Height then s.(drawn := []) else s
    case SetStrokeStyle(color) => if Parses(color) then s.(style := color) else s
    case SetLineWidth(width) => if width > 0 then s.(width := width) else s
    case BeginPath => s.(path := [])
    case MoveTo(p) => s.(path := s.path + [[p]])
    case LineTo(p) =>
      if s.path == [] then s.(path := [[p]])
      else s.(path := s.path[..|s.path| - 1] + [s.path[|s.path| - 1] + [p]])
    case Stroke => s.(drawn := s.drawn + Painted(s))
  }

  /** The surface after running the commands in order. */
  function Run(s: Surface, cmds: seq<Cmd>): Surface
    decreases |cmds|
  {
    if cmds == [] then s else Run(Step(s, cmds[0]), cmds[1..])
  }

  lemma {:induction false} RunAppend(s: Surface, a: seq<Cmd>, b: seq<Cmd>)
    ensures Run(s, a + b) == Run(Run(s, a), b)
    decreases |a|
  {
    if a != [] {
      assert (a + b)[1..] == a[1..] + b;
      RunAppend(Step(s, a[0]), a[1..], b);
    } else {
      assert a + b == b;
    }
  }
}
