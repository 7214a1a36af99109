/**
 The header's `SVG` image: three fixed top-level tags (`?xml`, the doctype,
 `svg`), the constructor that fills in their attributes, `draw_line`, and
 the content `save` writes. The image is a value; each operation returns
 the updated image.
 */
module Svg {

  import opened Wrappers
  import opened Colors
  import opened Tags

  /** The doctype is a tag whose whole declaration is its name. The literal
      is the header's, split after its first character only so that the
      verifier reads `FirstChar` off it without unfolding the whole text. */
  const DoctypeName: string :=
    "!" + "DOCTYPE svg PUBLIC \"-//W3C//DTD SVG 1.1//EN\" \"http://www.w3.org/Graphics/SVG/1.1/DTD/svg11.dtd\""

  datatype Image = Image(xml: Tag, doctype: Tag, svg: Tag)

  /** `SVG::SVG()`: the attributes are added one by one, as in the constructor. */
  function New(): (img: Image)
    ensures img.xml == Tag("?xml",
      [Property("version", "1.0"), Property("encoding", "UTF-8"), Property("standalone", "no")], [])
    ensures img.doctype == Tag(DoctypeName, [], [])
    ensures img.svg == Tag("svg",
      [ Property("version", "1.0"), Property("baseProfile", "full"),
        Property("xmlns", "http://www.w3.org/2000/svg"),
        Property("xmlns:xlink", "http://www.w3.org/1999/xlink"),
        Property("xmlns:ev", "http://www.w3.org/2001/xml-events"),
        Property("width", "320px"), Property("height", "240px") ], [])
  {
    var xml := NewTag("?xml");
    var xml := AddProperty(xml, Property("version", "1.0"));
    var xml := AddProperty(xml, Property("encoding", "UTF-8"));
    var xml := AddProperty(xml, Property("standalone", "no"));
    var svg := NewTag("svg");
    var svg := AddProperty(svg, Property("version", "1.0"));
    var svg := AddProperty(svg, Property("baseProfile", "full"));
    var svg := AddProperty(svg, Property("xmlns", "http://www.w3.org/2000/svg"));
    var svg := AddProperty(svg, Property("xmlns:xlink", "http://www.w3.org/1999/xlink"));
    var svg := AddProperty(svg, Property("xmlns:ev", "http://www.w3.org/2001/xml-events"));
    var svg := AddProperty(svg, Property("width", "320px"));
    var svg := AddProperty(svg, Property("height", "240px"));
    Image(xml, NewTag(DoctypeName), svg)
  }

  /** The `line` tag `draw_line` builds. `F` stands for C++ `float` and
      `floatText` for `std::to_string(float)`. */
  function LineTag<F>(x1: F, y1: F, x2: F, y2: F, color: Color,
                   floatText: F -> string): (t: Tag)
    ensures t == Tag("line",
      [ Property("x1", floatText(x1)), Property("y1", floatText(y1)),
        Property("x2", floatText(x2)), Property("y2", floatText(y2)),
        Property("style", "stroke:" + ToText(color)) ], [])
  {
    var line := NewTag("line");
    var line := AddProperty(line, FloatProperty("x1", x1, floatText));
    var line := AddProperty(line, FloatProperty("y1", y1, floatText));
    var line := AddProperty(line, FloatProperty("x2", x2, floatText));
    var line := AddProperty(line, FloatProperty("y2", y2, floatText));
    AddProperty(line, Property("style", "stroke:" + ToText(color)))
  }

  /** `SVG::draw_line`: one more child of `svg`, nothing else touched. The
      header's default colour `Color()` is passed as `Black`. */
  function DrawLine<F>(img: Image, x1: F, y1: F, x2: F, y2: F, color: Color,
                    floatText: F -> string): (r: Image)
    ensures r.xml == img.xml && r.doctype == img.doctype
    ensures r.svg.name == img.svg.name && r.svg.properties == img.svg.properties
    ensures r.svg.children == img.svg.children + [Tag("line",
      [ Property("x1", floatText(x1)), Property("y1", floatText(y1)),
        Property("x2", floatText(x2)), Property("y2", floatText(y2)),
        Property("style", "stroke:" + ToText(color)) ], [])]
  {
    img.(svg := AddChild(img.svg, LineTag(x1, y1, x2, y2, color, floatText)))
  }

  /** What `save` writes into the stream. */
  function Output(img: Image): string {
    Serialize(img.xml) + Serialize(img.doctype) + Serialize(img.svg)
  }

  /** `SVG::save`. Whether the file could be opened is the `isOpen`
      parameter: `None` is the `false` return, with nothing written;
      `Some(text)` is the `true` return with the text written. */
  function Save(img: Image, isOpen: bool): Option<string> {
    if isOpen then Some(Output(img)) else None
  }

  /** `<?xml` with its three attributes and `?>`, then the doctype, which
      neither self-closes nor gets a closing tag. */
  const PrologText: string :=
    ("<?xml" + PropertyText(Property("version", "1.0")) + PropertyText(Property("encoding", "UTF-8"))
     + PropertyText(Property("standalone", "no")) + "?>")
    + ("<" + DoctypeName + ">")

  /** The `svg` opening tag up to, not including, its `/>` or `>`. */
  const SvgHeadText: string :=
    "<svg" + PropertyText(Property("version", "1.0")) + PropertyText(Property("baseProfile", "full"))
    + PropertyText(Property("xmlns", "http://www.w3.org/2000/svg"))
    + PropertyText(Property("xmlns:xlink", "http://www.w3.org/1999/xlink"))
    + PropertyText(Property("xmlns:ev", "http://www.w3.org/2001/xml-events"))
    + PropertyText(Property("width", "320px")) + PropertyText(Property("height", "240px"))

  lemma XmlText()
    ensures Serialize(New().xml) == "<?xml" + PropertyText(Property("version", "1.0"))
      + PropertyText(Property("encoding", "UTF-8")) + PropertyText(Property("standalone", "no")) + "?>"
  {
    var t0 := NewTag("?xml");
    var t1 := AddProperty(t0, Property("version", "1.0"));
    var t2 := AddProperty(t1, Property("encoding", "UTF-8"));
    var t3 := AddProperty(t2, Property("standalone", "no"));
    assert t3 == New().xml;
    assert Head(t0) == "<?xml";
    HeadAddProperty(t0, Property("version", "1.0"));
    HeadAddProperty(t1, Property("encoding", "UTF-8"));
    HeadAddProperty(t2, Property("standalone", "no"));
    SerializeShapes(t3);
  }

  lemma DoctypeText()
    ensures Serialize(New().doctype) == "<" + DoctypeName + ">"
  {
    var d := New().doctype;
    assert FirstChar(d.name) == '!';
    SerializeShapes(d);
    assert Head(d) == "<" + DoctypeName;
  }

  lemma SvgHead()
    ensures Head(New().svg) == SvgHeadText
  {
    var t0 := NewTag("svg");
    var t1 := AddProperty(t0, Property("version", "1.0"));
    var t2 := AddProperty(t1, Property("baseProfile", "full"));
    var t3 := AddProperty(t2, Property("xmlns", "http://www.w3.org/2000/svg"));
    var t4 := AddProperty(t3, Property("xmlns:xlink", "http://www.w3.org/1999/xlink"));
    var t5 := AddProperty(t4, Property("xmlns:ev", "http://www.w3.org/2001/xml-events"));
    var t6 := AddProperty(t5, Property("width", "320px"));
    var t7 := AddProperty(t6, Property("height", "240px"));
    assert t7 == New().svg;
    assert Head(t0) == "<svg";
    HeadAddProperty(t0, Property("version", "1.0"));
    HeadAddProperty(t1, Property("baseProfile", "full"));
    HeadAddProperty(t2, Property("xmlns", "http://www.w3.org/2000/svg"));
    HeadAddProperty(t3, Property("xmlns:xlink", "http://www.w3.org/1999/xlink"));
    HeadAddProperty(t4, Property("xmlns:ev", "http://www.w3.org/2001/xml-events"));
    HeadAddProperty(t5, Property("width", "320px"));
    HeadAddProperty(t6, Property("height", "240px"));
  }

  /** What a freshly built image saves: the declaration, the doctype with no
      closing tag, and an `svg` that self-closes with `/>`. */
  lemma NewOutput()
    ensures Output(New()) == PrologText + SvgHeadText + "/>"
  {
    XmlText();
    DoctypeText();
    SvgHead();
    SvgShape(New().svg, "");
    Associative(PrologText, SvgHeadText, "/>");
  }

  /** The text of the `line` tag `draw_line` adds: a self-closing tag with
      its five attributes in order. */
  function LineText<F>(x1: F, y1: F, x2: F, y2: F, color: Color,
                    floatText: F -> string): string
  {
    "<line" + PropertyText(Property("x1", floatText(x1))) + PropertyText(Property("y1", floatText(y1)))
    + PropertyText(Property("x2", floatText(x2))) + PropertyText(Property("y2", floatText(y2)))
    + PropertyText(Property("style", "stroke:" + ToText(color))) + "/>"
  }

  lemma LineSerialize<F>(x1: F, y1: F, x2: F, y2: F, color: Color, floatText: F -> string)
    ensures Serialize(LineTag(x1, y1, x2, y2, color, floatText)) == LineText(x1, y1, x2, y2, color, floatText)
  {
    FiveProperties(Property("x1", floatText(x1)), Property("y1", floatText(y1)),
                   Property("x2", floatText(x2)), Property("y2", floatText(y2)),
                   Property("style", "stroke:" + ToText(color)));
  }

  /** A childless `line` tag with five properties, whatever their values. */
  lemma FiveProperties(p1: Property, p2: Property, p3: Property, p4: Property, p5: Property)
    ensures Serialize(Tag("line", [p1, p2, p3, p4, p5], [])) ==
      "<line" + PropertyText(p1) + PropertyText(p2) + PropertyText(p3) + PropertyText(p4)
      + PropertyText(p5) + "/>"
  {
    var t0 := NewTag("line");
    var t1 := AddProperty(t0, p1);
    var t2 := AddProperty(t1, p2);
    var t3 := AddProperty(t2, p3);
    var t4 := AddProperty(t3, p4);
    var t5 := AddProperty(t4, p5);
    assert t5 == Tag("line", [p1, p2, p3, p4, p5], []);
    assert Head(t0) == "<line";
    HeadAddProperty(t0, p1);
    HeadAddProperty(t1, p2);
    HeadAddProperty(t2, p3);
    HeadAddProperty(t3, p4);
    HeadAddProperty(t4, p5);
    SerializeShapes(t5);
    assert Serialize(t5) == Head(t5) + "/>";
  }

  /** `draw_line` as seen in the saved text: the declaration and doctype are
      as before, `svg` keeps its attributes, becomes a container, and the
      new line follows the earlier children just before `</svg>`. */
  lemma DrawLineOutput<F>(img: Image, x1: F, y1: F, x2: F, y2: F, color: Color,
                       floatText: F -> string)
    ensures Output(DrawLine(img, x1, y1, x2, y2, color, floatText)) ==
      Serialize(img.xml) + Serialize(img.doctype)
      + (Head(img.svg) + (if FirstChar(img.svg.name) == '?' then "?" else "") + ">"
         + (ChildrenText(img.svg.children) + LineText(x1, y1, x2, y2, color, floatText))
         + ("</" + img.svg.name + ">"))
  {
    AddChildSerialize(img.svg, LineTag(x1, y1, x2, y2, color, floatText));
    LineSerialize(x1, y1, x2, y2, color, floatText);
  }

  /** One call of `draw_line`, its arguments as given. */
  datatype Line<F> = Line(x1: F, y1: F, x2: F, y2: F, color: Color)

  /** The calls `ls` made in order on `img`. */
  function DrawLines<F>(img: Image, ls: seq<Line<F>>, floatText: F -> string): Image {
    if |ls| == 0 then img
    else
      var l := ls[|ls| - 1];
      DrawLine(DrawLines(img, ls[..|ls| - 1], floatText), l.x1, l.y1, l.x2, l.y2, l.color, floatText)
  }

  /** The texts of the lines of `ls`, in call order. */
  function LinesText<F>(ls: seq<Line<F>>, floatText: F -> string): string {
    if |ls| == 0 then ""
    else
      var l := ls[|ls| - 1];
      LinesText(ls[..|ls| - 1], floatText) + LineText(l.x1, l.y1, l.x2, l.y2, l.color, floatText)
  }

  /** What follows the `svg` opening tag's attributes after the calls `ls`:
      `/>` when there are none, otherwise `>`, the lines in call order and
      `</svg>`. */
  function SvgTail<F>(ls: seq<Line<F>>, floatText: F -> string): string {
    if |ls| == 0 then "/>" else ">" + LinesText(ls, floatText) + "</svg>"
  }

  lemma {:induction false} DrawLinesKeeps<F>(img: Image, ls: seq<Line<F>>, floatText: F -> string)
    ensures DrawLines(img, ls, floatText).xml == img.xml
    ensures DrawLines(img, ls, floatText).doctype == img.doctype
    ensures DrawLines(img, ls, floatText).svg.name == img.svg.name
    ensures DrawLines(img, ls, floatText).svg.properties == img.svg.properties
    ensures |DrawLines(img, ls, floatText).svg.children| == |img.svg.children| + |ls|
    decreases |ls|
  {
    if |ls| > 0 {
      DrawLinesKeeps(img, ls[..|ls| - 1], floatText);
    }
  }

  lemma {:induction false} DrawLinesChildren<F>(img: Image, ls: seq<Line<F>>, floatText: F -> string)
    ensures ChildrenText(DrawLines(img, ls, floatText).svg.children)
            == ChildrenText(img.svg.children) + LinesText(ls, floatText)
    decreases |ls|
  {
    if |ls| > 0 {
      var l := ls[|ls| - 1];
      var before := DrawLines(img, ls[..|ls| - 1], floatText);
      DrawLinesChildren(img, ls[..|ls| - 1], floatText);
      var line := LineTag(l.x1, l.y1, l.x2, l.y2, l.color, floatText);
      var after := AddChild(before.svg, line);
      assert DrawLines(img, ls, floatText).svg == after;
      assert after.children[..|after.children| - 1] == before.svg.children;
      assert ChildrenText(after.children) == ChildrenText(before.svg.children) + Serialize(line);
      LineSerialize(l.x1, l.y1, l.x2, l.y2, l.color, floatText);
      Associative(ChildrenText(img.svg.children), LinesText(ls[..|ls| - 1], floatText),
                  LineText(l.x1, l.y1, l.x2, l.y2, l.color, floatText));
    }
  }

  lemma SvgAfterLines<F>(img: Image, ls: seq<Line<F>>, floatText: F -> string)
    requires img.svg.name == "svg" && Head(img.svg) == SvgHeadText && img.svg.children == []
    ensures Serialize(DrawLines(img, ls, floatText).svg) == SvgHeadText + SvgTail(ls, floatText)
  {
    var t := DrawLines(img, ls, floatText).svg;
    DrawLinesKeeps(img, ls, floatText);
    DrawLinesChildren(img, ls, floatText);
    assert ChildrenText(img.svg.children) == "";
    assert Head(t) == Head(img.svg);
    SvgShape(t, LinesText(ls, floatText));
  }

  /** An `svg` tag with the constructor's attributes and the given children's
      text: self-closing when empty, a container otherwise. */
  lemma SvgShape(t: Tag, lines: string)
    requires t.name == "svg" && Head(t) == SvgHeadText && ChildrenText(t.children) == lines
    ensures Serialize(t) == SvgHeadText + (if |t.children| == 0 then "/>" else ">" + lines + "</svg>")
  {
    SerializeShapes(t);
    Literals();
    if |t.children| == 0 {
      assert Serialize(t) == SvgHeadText + "/" + ">";
      Associative(SvgHeadText, "/", ">");
    } else {
      assert Serialize(t) == SvgHeadText + ">" + lines + ("</" + "svg" + ">");
      Associative(SvgHeadText, ">", lines);
      Associative(SvgHeadText, ">" + lines, "</svg>");
    }
  }

  /** Joins the short literals the serialiser writes piecewise; it only steers
      the verifier. */
  lemma Literals()
    ensures "/" + ">" == "/>"
    ensures "</" + "svg" + ">" == "</svg>"
  {
  }

  /** End to end: a fresh image, any number of `draw_line` calls, then `save`.
      With no lines `svg` self-closes; otherwise the lines appear in call
      order between `<svg ...>` and `</svg>`. */
  lemma DrawLinesOutput<F>(ls: seq<Line<F>>, floatText: F -> string)
    ensures Output(DrawLines(New(), ls, floatText)) == PrologText + SvgHeadText + SvgTail(ls, floatText)
  {
    DrawLinesKeeps(New(), ls, floatText);
    XmlText();
    DoctypeText();
    SvgHead();
    SvgAfterLines(New(), ls, floatText);
    Associative(PrologText, SvgHeadText, SvgTail(ls, floatText));
  }

  /** What a caller of `save` gets after building an image the only way the
      header allows, a fresh `SVG` and `draw_line` calls: `false` and nothing
      written when the file cannot be opened, otherwise the declaration, the
      doctype and `svg`, which self-closes with no lines and otherwise holds
      the lines in call order. */
  lemma SaveAfterLines<F>(ls: seq<Line<F>>, floatText: F -> string, isOpen: bool)
    ensures Save(DrawLines(New(), ls, floatText), isOpen) ==
      if isOpen then Some(PrologText + SvgHeadText + SvgTail(ls, floatText)) else None
  {
    DrawLinesOutput(ls, floatText);
  }
}
