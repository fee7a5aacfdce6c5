/** `Color` of `stockfish/color.py`: text wrapped in an ANSI Select Graphic
    Rendition (SGR) escape sequence, to which direct-colour foreground and
    background parameters (`38;2;r;g;b` and `48;2;r;g;b`, ECMA-48 section
    8.3.117 with the ITU T.416 colour form) are added one call at a time. */
module AnsiColor {
  import opened PyStr

  /** The control sequence introducer, `ESC [`. */
  const Start: string := "\U{1b}["
  /** The sequence that resets every attribute, `ESC [ 0 m`. */
  const End: string := "\U{1b}[0m"

  /** A colour as the caller's `(red, green, blue)` tuple. */
  type Rgb = (int, int, int)

  /** One `fg_color` or `bg_color` call. */
  datatype Layer = Foreground(rgb: Rgb) | Background(rgb: Rgb)

  /** The parameter text a call adds: `;38;2;r;g;b` or `;48;2;r;g;b`. */
  function Segment(layer: Layer): string
  {
    var (red, green, blue) := layer.rgb;
    (if layer.Foreground? then ";38;2;" else ";48;2;") +
    Decimal(red) + ";" + Decimal(green) + ";" + Decimal(blue)
  }

  /** What `fg_color` and `bg_color` store: the start marker, the new
      segment, the old string without its first 2 and last 4 characters,
      and the end marker. */
  function Recolor(s: string, segment: string): string
  {
    Start + segment + PySlice(s, 2, -4) + End
  }

  /** The segments of `layers`, latest call first. */
  function Segments(layers: seq<Layer>): string
  {
    if layers == [] then ""
    else Segment(layers[|layers| - 1]) + Segments(layers[..|layers| - 1])
  }

  /** The string after wrapping `text` and applying `layers` in order. */
  function Painted(text: string, layers: seq<Layer>): string
  {
    Start + Segments(layers) + "m" + text + End
  }

  /** The `[2:-4]` slice of a string wrapped in the two markers is what
      they wrap. */
  lemma Unwrap(mid: string)
    ensures PySlice(Start + mid + End, 2, -4) == mid
  {
    SliceInner(Start, mid, End);
  }

  /** The segments after one more call: its segment, then the earlier ones. */
  lemma SegmentsSnoc(layers: seq<Layer>, layer: Layer)
    ensures Segments(layers + [layer]) == Segment(layer) + Segments(layers)
  {
    assert (layers + [layer])[..|layers|] == layers;
  }

  /** Recolouring a wrapped string inserts the new segment in front of the
      old parameters, whatever they are. */
  lemma RecolorWrapped(segment: string, segs: string, text: string)
    ensures Recolor(Start + segs + "m" + text + End, segment) ==
            Start + (segment + segs) + "m" + text + End
  {
    var mid := segs + "m" + text;
    assert Start + segs + "m" + text + End == Start + mid + End;
    Unwrap(mid);
    assert Start + segment + mid + End == Start + (segment + segs) + "m" + text + End;
  }

  /** One more call puts its segment right after the start marker. */
  lemma RecolorPainted(text: string, layers: seq<Layer>, layer: Layer)
    ensures Recolor(Painted(text, layers), Segment(layer)) == Painted(text, layers + [layer])
  {
    SegmentsSnoc(layers, layer);
    RecolorWrapped(Segment(layer), Segments(layers), text);
  }

  /** A string wrapped in the two markers around `segs`, `m` and `text`:
      its length, its first two characters and its last `|text| + 5`. */
  lemma WrappedEnds(segs: string, text: string)
    ensures var w := Start + segs + "m" + text + End;
      |w| == |Start| + |segs| + 1 + |text| + |End| &&
      w[..2] == Start && w[|w| - (|text| + 5)..] == "m" + text + End
  {
    var tail := "m" + text + End;
    var w := Start + segs + "m" + text + End;
    assert w == (Start + segs) + tail;
    assert w[..2] == Start;
  }

  /** Whatever the calls, the string starts with the start marker and ends
      with `m`, the text and the end marker. */
  lemma PaintedEnds(text: string, layers: seq<Layer>)
    ensures |Painted(text, layers)| == |Start| + |Segments(layers)| + 1 + |text| + |End|
    ensures Painted(text, layers)[..2] == Start
    ensures Painted(text, layers)[|Painted(text, layers)| - (|text| + 5)..] == "m" + text + End
  {
    WrappedEnds(Segments(layers), text);
  }

  /** So the `[2:-4]` slice cuts off exactly the two markers. */
  lemma PaintedInner(text: string, layers: seq<Layer>)
    ensures PySlice(Painted(text, layers), 2, -4) == Segments(layers) + "m" + text
  {
    var mid := Segments(layers) + "m" + text;
    assert Painted(text, layers) == Start + mid + End;
    Unwrap(mid);
  }

  /** Each call lengthens the string by exactly its segment. */
  lemma PaintedGrowth(text: string, layers: seq<Layer>, layer: Layer)
    ensures |Painted(text, layers + [layer])| == |Painted(text, layers)| + |Segment(layer)|
  {
    SegmentsSnoc(layers, layer);
  }

  /** Six `;`-free fields joined by `;` split back into the six fields. */
  lemma SplitSix(a: string, b: string, c: string, d: string, e: string, f: string)
    requires ';' !in a && ';' !in b && ';' !in c && ';' !in d && ';' !in e && ';' !in f
    ensures Split(a + [';'] + (b + [';'] + (c + [';'] + (d + [';'] + (e + [';'] + f)))), ';') ==
            [a, b, c, d, e, f]
  {
    var t4 := e + [';'] + f;
    var t3 := d + [';'] + t4;
    var t2 := c + [';'] + t3;
    var t1 := b + [';'] + t2;
    SplitWhole(f, ';');
    SplitCons(e, ';', f);
    SplitCons(d, ';', t4);
    SplitCons(c, ';', t3);
    SplitCons(b, ';', t2);
    SplitCons(a, ';', t1);
  }

  /** The selector of a layer: 38 for foreground, 48 for background. */
  function Selector(layer: Layer): string
  {
    if layer.Foreground? then "38" else "48"
  }

  /** The fixed head of a segment: `;`, the selector, `;2;`. */
  lemma SegmentHead(layer: Layer)
    ensures (if layer.Foreground? then ";38;2;" else ";48;2;") ==
            [';'] + Selector(layer) + [';'] + "2" + [';']
  {
  }

  /** Regrouping a segment's pieces around its separators. */
  lemma SegmentRegroup(head: string, sel: string, r: string, g: string, b: string)
    requires head == [';'] + sel + [';'] + "2" + [';']
    ensures head + r + ";" + g + ";" + b ==
            "" + [';'] + (sel + [';'] + ("2" + [';'] + (r + [';'] + (g + [';'] + b))))
  {
  }

  /** The segment is six `;`-separated fields, the first one empty. */
  lemma SegmentFields(layer: Layer)
    ensures Segment(layer) ==
            "" + [';'] + (Selector(layer) + [';'] + ("2" + [';'] + (Decimal(layer.rgb.0) + [';'] +
            (Decimal(layer.rgb.1) + [';'] + Decimal(layer.rgb.2)))))
  {
    SegmentHead(layer);
    SegmentRegroup(if layer.Foreground? then ";38;2;" else ";48;2;", Selector(layer),
                   Decimal(layer.rgb.0), Decimal(layer.rgb.1), Decimal(layer.rgb.2));
  }

  /** A terminal reading the segment's `;`-separated parameters finds an
      empty parameter, the selector 38 or 48, the direct-colour mode 2, and
      the three components it was given. */
  lemma SegmentParameters(layer: Layer)
    ensures Split(Segment(layer), ';') ==
            ["", Selector(layer), "2",
             Decimal(layer.rgb.0), Decimal(layer.rgb.1), Decimal(layer.rgb.2)]
    ensures ParseDecimal(Split(Segment(layer), ';')[3]) == layer.rgb.0
    ensures ParseDecimal(Split(Segment(layer), ';')[4]) == layer.rgb.1
    ensures ParseDecimal(Split(Segment(layer), ';')[5]) == layer.rgb.2
  {
    var (red, green, blue) := layer.rgb;
    DecimalPlain(red);
    DecimalPlain(green);
    DecimalPlain(blue);
    DecimalRoundTrip(red);
    DecimalRoundTrip(green);
    DecimalRoundTrip(blue);
    SegmentFields(layer);
    SplitSix("", Selector(layer), "2", Decimal(red), Decimal(green), Decimal(blue));
  }

  /** The text `fg_color` and `bg_color` build, read as the start marker,
      the new segment, the kept middle and the end marker. */
  lemma Regroup(p: string, head: string, r: string, semi: string, g: string, b: string,
                mid: string, q: string)
    ensures p + head + r + semi + g + semi + b + mid + q ==
            p + (head + r + semi + g + semi + b) + mid + q
  {
  }

  /** The source's `string` attribute is `contents` here, `string` being a
      type name in Dafny. */
  class Color {
    const start: string
    const end: string
    var contents: string
    /** The wrapped text and the calls made so far. */
    ghost var text: string
    ghost var layers: seq<Layer>

    ghost predicate Valid()
      reads this
    {
      start == Start && end == End && contents == Painted(text, layers)
    }

    /** `__init__`: wrap `s` in an SGR sequence with no parameters. */
    constructor (s: string)
      ensures Valid() && text == s && layers == []
      ensures contents == Start + "m" + s + End
    {
      start := Start;
      end := End;
      contents := Start + "m" + s + End;
      text := s;
      layers := [];
    }

    /** `__str__`: the stored string, which opens with the start marker and
        closes with `m`, the wrapped text and the end marker. */
    function ToString(): (r: string)
      requires Valid()
      reads this
      ensures r == contents
      ensures r[..2] == Start && r[|r| - (|text| + 5)..] == "m" + text + End
    {
      PaintedEnds(text, layers);
      contents
    }

    /** `fg_color`: insert a foreground segment after the start marker and
        return this object for chaining. */
    method FgColor(color: Rgb) returns (r: Color)
      requires Valid()
      modifies this
      ensures r == this && Valid()
      ensures contents == Recolor(old(contents), Segment(Foreground(color)))
      ensures text == old(text) && layers == old(layers) + [Foreground(color)]
    {
      var (red, green, blue) := color;
      var s := PySlice(contents, 2, -4);
      Regroup(start, ";38;2;", Decimal(red), ";", Decimal(green), Decimal(blue), s, end);
      contents := start + ";38;2;" + Decimal(red) + ";" + Decimal(green) + ";" + Decimal(blue) + s + end;
      RecolorPainted(text, layers, Foreground(color));
      layers := layers + [Foreground(color)];
      r := this;
    }

    /** `bg_color`: insert a background segment after the start marker and
        return this object for chaining. */
    method BgColor(color: Rgb) returns (r: Color)
      requires Valid()
      modifies this
      ensures r == this && Valid()
      ensures contents == Recolor(old(contents), Segment(Background(color)))
      ensures text == old(text) && layers == old(layers) + [Background(color)]
    {
      var (red, green, blue) := color;
      var s := PySlice(contents, 2, -4);
      Regroup(start, ";48;2;", Decimal(red), ";", Decimal(green), Decimal(blue), s, end);
      contents := start + ";48;2;" + Decimal(red) + ";" + Decimal(green) + ";" + Decimal(blue) + s + end;
      RecolorPainted(text, layers, Background(color));
      layers := layers + [Background(color)];
      r := this;
    }
  }
}
