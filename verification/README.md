# svglight in Dafny

A model of `svglight.h`, a one-header C++ library that builds an in-memory
markup tree and writes it out as a single-line SVG document. The model covers:

- `Color`, three unvalidated `int` channels, and `Color::to_string`, which gives
  `rgb(R,G,B)`. This is module `Colors` in `color.dfy`. The decimal text of an
  `int` is in module `Decimal` (`decimal.dfy`).
- `Property`, a name and a text value. Its `int` constructor formats the number.
  `Tag` has a name, an ordered list of properties and an ordered list of child
  tags held by value. The two `Tag::add` overloads and the serialiser
  `operator<<(std::ostream&, const Tag&)` are in module `Tags` (`tag.dfy`). The
  serialiser appears twice. `Tags.Serialize` is a recursive function. `Tags.Write`
  streams the same text with the source's two loops, and its contract says it
  writes exactly `Serialize`.
- `SVG`, an image with three top-level tags (`?xml`, the doctype and `svg`). It has
  a constructor, `draw_line`, and the text that `save` writes. These are in
  module `Svg` (`svg.dfy`).

The image is an immutable value: every operation returns the updated image.
Each `Tag::add` returns the extended tag.

The serialiser chooses between three shapes by the first character of the tag
name and whether the tag has children:

| first character | no children | with children |
|---|---|---|
| `?` | `<name props?>` | `<name props?>children</name>` |
| ASCII letter | `<name props/>` | `<name props>children</name>` |
| anything else, e.g. `!DOCTYPE ...` | `<name props>` (no closing tag) | `<name props>children</name>` |

`Tags.SerializeShapes` proves all five cases. The lemmas show:

- the decimal text of an integer reads back as that integer, and each canonical
  decimal text is the text of the integer it reads (`Decimal`);
- the colour text reads back as the colour, so two colours print the same only
  when they are equal (`Colors`);
- insertion order of properties and of children is output order (`Tags`);
- `draw_line` adds exactly one self-closing `line` tag under `svg` and changes
  nothing else (`Svg`);
- the exact text of a new image, and of a new image after any sequence of
  `draw_line` calls, which is what `save` returns when the file opens (`Svg`).

Behaviour of the header worth noting:

- A doctype-like tag without children gets no closing tag. The header
  writes `</name>` only when there are children (svglight.h:182-183).
- A `?` tag with children still writes its children and `</name>`. Its
  opening tag still ends in `?>` (svglight.h:174-183).
- The canvas size is fixed at `width="320px"` and `height="240px"`
  (svglight.h:131-132). It is not a constructor parameter.
- `draw_line` is the only drawing operation. Its colour goes into a
  `style="stroke:rgb(...)"` attribute (svglight.h:154).
- Tags have no inner-text field.

## Model

| member | source | states |
|---|---|---|
| Decimal.IntText | svglight.h:58 | The text of an `int` is canonical decimal: it starts with `-` exactly when the number is negative, and otherwise holds only digits with no leading zero. |
| Decimal.ParseIntText | svglight.h:58 | Reading the decimal text of any integer gives back that integer, so `std::to_string(int)` loses nothing. |
| Decimal.IntTextOfParse | svglight.h:58 | Every text that reads as a number is the decimal text of that number. Together with ParseIntText, integers and canonical texts correspond one to one. |
| Decimal.IntTextInjective | svglight.h:58 | Different integers always get different texts. |
| Colors.ToText | svglight.h:188-193 | The definition of `Color::to_string`: `rgb(`, the three channels in decimal separated by commas, `)`. It has no contract of its own; `Colors.ParseToText` and `Colors.ToTextOfParse` characterise it. |
| Colors.ParseToText | svglight.h:188-193 | `rgb(R,G,B)` reads back as the colour it came from. In the classic "C" locale this holds for negative and out-of-range channels too, because nothing is clamped. |
| Colors.ToTextOfParse | svglight.h:188-193 | Every text that reads as a colour is exactly that colour's `rgb(R,G,B)` text. |
| Colors.ToTextInjective | svglight.h:188-193 | Two colours with the same text are the same colour. |
| Colors.BlackText | svglight.h:46 | The default `Color()` prints as `rgb(0,0,0)`. |
| Tags.IntProperty | svglight.h:58 | An `int` property keeps its name, and its value reads back as the number. |
| Tags.FloatProperty | svglight.h:59 | The definition of the `float` constructor: the name and the formatter's text of the value. The formatter is a parameter (see Left out), so there is nothing further to state. |
| Tags.NewTag | svglight.h:71 | The definition of `Tag(name)`: no properties and no children. `Tags.NewTagText` characterises its output. |
| Tags.NewTagText | svglight.h:169-186 | A fresh tag is written as a lone opening tag ending in `?>` for a `?` name, `/>` for a letter and `>` otherwise, with no closing tag. |
| Tags.AddProperty | svglight.h:159-162 | Adds the property at the end. Earlier properties keep their positions, and the name and children are unchanged. |
| Tags.AddChild | svglight.h:164-167 | Adds the child at the end. Earlier children keep their positions, and the name and properties are unchanged. |
| Tags.PropertiesTextAppend | svglight.h:172-173 | The text of two property lists joined is the two texts joined, so properties come out in insertion order, duplicates included. |
| Tags.PropertiesTextCons | svglight.h:172-173 | The first property's ` name="value"` comes first, followed by the rest in order. |
| Tags.ChildrenTextAppend | svglight.h:180-181 | Children come out in insertion order. The text of two child lists joined is the two texts joined. |
| Tags.Serialize | svglight.h:169-186 | The definition of `operator<<` as a function of the tag (with `Tags.ChildrenText`). `Tags.SerializeShapes` characterises it, and `Tags.Write` is proved to write exactly this text. |
| Tags.SerializeShapes | svglight.h:169-186 | The five output shapes. With no children the output is one opening tag ending in `?>` for a `?` name, `/>` for a letter, and `>` otherwise, with no closing tag. With children it is an opening tag ending in `?>` or `>`, then the children in order, then `</name>`. |
| Tags.HeadAddProperty | svglight.h:171-173 | Adding a property extends `<name props` by exactly that property's text. |
| Tags.AddPropertySerialize | svglight.h:159-162 | After adding a property, the output has the new ` name="value"` right after the earlier properties. The rest of the output does not change. |
| Tags.AddChildSerialize | svglight.h:164-167 | After adding a child, the tag is a container. Its opening tag ends in `?>` or `>`, never `/>`, and the new child's text comes after the old children, right before `</name>`. |
| Tags.Write | svglight.h:169-186 | The streaming writer appends exactly the tag's serialisation to the text already in the stream. |
| Tags.WriteOpenTag | svglight.h:171-178 | Writes `<`, the name, every property in order, and then the `?`, `/` or nothing that the name and children call for, followed by `>`. |
| Tags.WriteProperties | svglight.h:172-173 | The property loop appends every property's ` name="value"` in order. |
| Tags.WriteChildren | svglight.h:180-181 | The child loop appends each child's full serialisation in order. |
| Svg.New | svglight.h:117-133 | `?xml` has exactly version, encoding and standalone, in that order. The doctype has no properties. `svg` has exactly version, baseProfile, xmlns, xmlns:xlink, xmlns:ev, width=`320px` and height=`240px`, in that order. No tag has children. |
| Svg.Output | svglight.h:141 | The definition of what `save` streams: the three tags' texts in order. `Svg.NewOutput`, `Svg.DrawLineOutput` and `Svg.DrawLinesOutput` give it exactly. |
| Svg.XmlText | svglight.h:122-124 | The declaration saves as `<?xml` with its three attributes and `?>`. |
| Svg.DoctypeText | svglight.h:119 | The doctype saves as `<` + its declaration + `>`. It neither self-closes nor gets a closing tag. |
| Svg.SvgHead | svglight.h:126-132 | The `svg` opening tag carries the constructor's seven attributes in order. |
| Svg.NewOutput | svglight.h:135-145 | A new image saves as the declaration, then the doctype, then an `svg` that self-closes with `/>`. |
| Svg.LineTag | svglight.h:149-154 | `draw_line` builds a `line` tag with properties x1, y1, x2, y2 and style in that order, and no children. style is `stroke:` + the colour text. |
| Svg.DrawLine | svglight.h:147-157 | Adds exactly one such `line` tag after the existing `svg` children. `xml`, the doctype and the `svg` name and properties are unchanged. |
| Svg.LineSerialize | svglight.h:149-154 | The added line saves as one self-closing `<line .../>` with its five attributes in order. |
| Svg.DrawLineOutput | svglight.h:147-157 | After `draw_line`, the declaration, the doctype, the `svg` attributes and the earlier children's text are unchanged. The `svg` opening tag now ends in `>`, never `/>`. The new line's text follows the earlier children, right before `</svg>`. |
| Svg.SvgShape | svglight.h:174-183 | An `svg` tag with the constructor's attributes self-closes with no children. With children it wraps them in `>` ... `</svg>`. |
| Svg.SvgAfterLines | svglight.h:147-157 | After any sequence of `draw_line` calls on a new `svg`, the lines appear in call order inside the `svg` element. |
| Svg.DrawLinesOutput | svglight.h:135-157 | End to end: a new image, any number of `draw_line` calls, then `save`. The output is the declaration, the doctype, then `svg`, which self-closes with no lines and otherwise holds the lines in call order followed by `</svg>`. |
| Svg.Save | svglight.h:135-145 | The definition of `save`: nothing when the file does not open, otherwise `Some(Output(img))`. `Svg.SaveAfterLines` characterises it. |
| Svg.SaveAfterLines | svglight.h:135-145 | What `save` gives for any image the header can build, i.e. a new `SVG` followed by any `draw_line` calls. It returns failure with nothing written when the file cannot be opened. Otherwise it writes exactly the declaration, the doctype, and `svg` with the constructor's attributes. `svg` self-closes with no lines, or holds the lines in call order followed by `</svg>`. |

## Left out

- File I/O in `save`: opening the `std::ofstream`, `is_open` and `close` (svglight.h:137-143). Whether the file opened is a parameter of `Svg.Save`. Write errors after a successful open are not modelled; the header ignores them and returns `true` anyway.
- Repeated `save` calls: the model's `Save` is a function of the image and returns no new image. So saving never changes the tree, and two saves of the same image give the same text. This needs no separate lemma.
- `std::to_string(float)` (svglight.h:59, used at 150-153): floating-point `%f` formatting is not modelled. `Tags.FloatProperty`, `Svg.LineTag` and `Svg.DrawLine` take the formatter as a parameter `floatText`.
- Svg.DrawLine: a C++ `float` coordinate is a value of an abstract type parameter `F`, so NaN, the infinities and -0.0 are values like any other. Nothing is claimed about their texts beyond their being `floatText`'s output.
- `operator>>` and `SVG::open` (svglight.h:77, 100) are declared but never defined, so there is no behaviour to model.
- `SVG::property` (svglight.h:114) is declared but never defined or used.
- `std::isalpha` is modelled as the "C" locale's ASCII letters A-Z and a-z. Other locales and the undefined behaviour for negative `char` values are left out.
- The empty tag name is kept: its first character is read as the terminating NUL, which is neither `?` nor a letter (`Tags.FirstChar`).
- Colour channels are `Decimal.Int32`, a 32-bit C++ `int`, the usual width. Decimal formatting itself is modelled over all integers.
- Colors.ToText: assumes the classic "C" locale. `Color::to_string` writes through a `std::stringstream` (svglight.h:190-191), which uses the global C++ locale. A locale with digit grouping would print 1000 as `1,000`, and then `ParseToText` and `ToTextInjective` would not hold. `std::to_string(int)` (`Decimal.IntText`, used by `Tags.IntProperty`) formats as `%d`, which never groups digits. A `std::string` is a sequence of bytes; it is modelled as a Dafny `string`, a sequence of Unicode characters, with no encoding step.
- `draw_line`'s default argument `color = Color()` (svglight.h:109): `Svg.DrawLine` always takes a colour, so the default call is `DrawLine(..., Colors.Black, ...)`. `Colors.BlackText` gives that colour's text.
- Concurrency: the header has none and guards none.
