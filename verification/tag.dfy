/**
 The markup tree of the header: `Property` (a name/value pair whose value is
 already text) and `Tag` (a name, ordered properties, ordered children held by
 value), with the two `Tag::add` overloads and the single-line serialiser
 `operator<<(std::ostream&, const Tag&)`.
 */
module Tags {

  import opened Wrappers
  import opened Decimal

  /** An attribute `name="value"`. The value is inserted verbatim, unescaped. */
  datatype Property = Property(name: string, value: string)

  /** An element. Children are owned copies, so the tree has no sharing. */
  datatype Tag = Tag(name: string, properties: seq<Property>, children: seq<Tag>)

  /** `Property(name, int)`: the value is the decimal text of the number. */
  function IntProperty(name: string, n: Int32): (p: Property)
    ensures p.name == name
    ensures ParseInt(p.value) == Some(n)
  {
    ParseIntText(n);
    Property(name, IntText(n))
  }

  /** `Property(name, float)`. A C++ `float` is left abstract as the type
      parameter `F` (so NaN, the infinities and -0.0 are values like any
      other), and `std::to_string(float)` is the caller-supplied `floatText`. */
  function FloatProperty<F>(name: string, x: F, floatText: F -> string): Property {
    Property(name, floatText(x))
  }

  /** `Tag(name)`: no properties, no children. */
  function NewTag(name: string): Tag {
    Tag(name, [], [])
  }

  /** A fresh tag is written as a lone opening tag, closed by `?>`, `/>` or
      `>` according to the first character of its name. */
  lemma NewTagText(name: string)
    ensures Serialize(NewTag(name)) == "<" + name
      + (if FirstChar(name) == '?' then "?" else if IsLetter(FirstChar(name)) then "/" else "") + ">"
  {
    assert Head(NewTag(name)) == "<" + name;
  }

  /** `Tag::add(const Property&)`. */
  function AddProperty(t: Tag, p: Property): (r: Tag)
    ensures r.name == t.name && r.children == t.children
    ensures |r.properties| == |t.properties| + 1
    ensures r.properties[..|t.properties|] == t.properties
    ensures r.properties[|t.properties|] == p
  {
    t.(properties := t.properties + [p])
  }

  /** `Tag::add(const Tag&)`. */
  function AddChild(t: Tag, c: Tag): (r: Tag)
    ensures r.name == t.name && r.properties == t.properties
    ensures |r.children| == |t.children| + 1
    ensures r.children[..|t.children|] == t.children
    ensures r.children[|t.children|] == c
  {
    t.(children := t.children + [c])
  }

  /** `name[0]` of a `const std::string`: the terminating NUL for an empty name. */
  function FirstChar(name: string): char {
    if |name| == 0 then '\0' else name[0]
  }

  /** `std::isalpha` in the "C" locale. */
  predicate IsLetter(c: char) {
    'A' <= c <= 'Z' || 'a' <= c <= 'z'
  }

  /** ` name="value"` */
  function PropertyText(p: Property): string {
    " " + p.name + "=\"" + p.value + "\""
  }

  /** The properties' texts, one after the other. */
  function PropertiesText(ps: seq<Property>): string {
    if |ps| == 0 then "" else PropertiesText(ps[..|ps| - 1]) + PropertyText(ps[|ps| - 1])
  }

  /** What goes between the properties and the `>` of the opening tag. */
  function Marker(t: Tag): string {
    if FirstChar(t.name) == '?' then "?"
    else if IsLetter(FirstChar(t.name)) && |t.children| == 0 then "/"
    else ""
  }

  /** `<name props`, the part of the output that never depends on the shape. */
  function Head(t: Tag): string {
    "<" + t.name + PropertiesText(t.properties)
  }

  /** The opening tag, complete with its `>`. */
  function OpenTag(t: Tag): string {
    Head(t) + Marker(t) + ">"
  }

  /** `</name>`, written only after at least one child. */
  function CloseTag(t: Tag): string {
    if |t.children| == 0 then "" else "</" + t.name + ">"
  }

  /** `operator<<(std::ostream&, const Tag&)` as a function of the tag. */
  function Serialize(t: Tag): string
    decreases t
  {
    OpenTag(t) + ChildrenText(t.children) + CloseTag(t)
  }

  /** The children's serialisations, one after the other. */
  function ChildrenText(cs: seq<Tag>): string
    decreases cs
  {
    if |cs| == 0 then "" else ChildrenText(cs[..|cs| - 1]) + Serialize(cs[|cs| - 1])
  }

  /** Insertion order is output order: the text of a concatenation of
      property lists is the concatenation of their texts. */
  lemma {:induction false} PropertiesTextAppend(a: seq<Property>, b: seq<Property>)
    ensures PropertiesText(a + b) == PropertiesText(a) + PropertiesText(b)
    decreases |b|
  {
    if |b| > 0 {
      var b' := b[..|b| - 1];
      assert (a + b)[..|a + b| - 1] == a + b';
      assert (a + b)[|a + b| - 1] == b[|b| - 1];
      PropertiesTextAppend(a, b');
      Associative(PropertiesText(a), PropertiesText(b'), PropertyText(b[|b| - 1]));
    } else {
      assert a + b == a;
    }
  }

  /** The same for children. */
  lemma {:induction false} ChildrenTextAppend(a: seq<Tag>, b: seq<Tag>)
    ensures ChildrenText(a + b) == ChildrenText(a) + ChildrenText(b)
    decreases |b|
  {
    if |b| > 0 {
      var b' := b[..|b| - 1];
      assert (a + b)[..|a + b| - 1] == a + b';
      assert (a + b)[|a + b| - 1] == b[|b| - 1];
      ChildrenTextAppend(a, b');
      Associative(ChildrenText(a), ChildrenText(b'), Serialize(b[|b| - 1]));
    } else {
      assert a + b == a;
    }
  }

  /** Read from the front: the first property's text comes first, and no
      property is dropped, merged or reordered (duplicates included). */
  lemma PropertiesTextCons(p: Property, ps: seq<Property>)
    ensures PropertiesText([p] + ps) == PropertyText(p) + PropertiesText(ps)
  {
    PropertiesTextAppend([p], ps);
    assert [p][..0] == [];
  }

  /** The five output shapes. A tag without children is a single opening tag
      ending in `?>`, `/>` or `>` by the first character of its name; a tag
      with children is an opening tag ending in `?>` or `>`, the children in
      order, and `</name>`. */
  lemma SerializeShapes(t: Tag)
    ensures |t.children| == 0 && FirstChar(t.name) == '?' ==>
      Serialize(t) == Head(t) + "?" + ">"
    ensures |t.children| == 0 && IsLetter(FirstChar(t.name)) ==>
      Serialize(t) == Head(t) + "/" + ">"
    ensures |t.children| == 0 && FirstChar(t.name) != '?' && !IsLetter(FirstChar(t.name)) ==>
      Serialize(t) == Head(t) + ">"
    ensures |t.children| > 0 && FirstChar(t.name) == '?' ==>
      Serialize(t) == Head(t) + "?" + ">" + ChildrenText(t.children) + ("</" + t.name + ">")
    ensures |t.children| > 0 && FirstChar(t.name) != '?' ==>
      Serialize(t) == Head(t) + ">" + ChildrenText(t.children) + ("</" + t.name + ">")
  {
    if |t.children| == 0 {
      assert ChildrenText(t.children) + CloseTag(t) == "";
    } else if FirstChar(t.name) != '?' {
      assert Head(t) + Marker(t) == Head(t);
    }
  }

  /** Adding a property extends the opening tag's fixed part by its text. */
  lemma HeadAddProperty(t: Tag, p: Property)
    ensures Head(AddProperty(t, p)) == Head(t) + PropertyText(p)
  {
    var r := AddProperty(t, p);
    assert r.properties[..|r.properties| - 1] == t.properties;
  }

  /** `Tag::add(const Property&)` as seen in the output: the new property's
      text lands right after the existing ones and everything after them is
      as before. */
  lemma AddPropertySerialize(t: Tag, p: Property)
    ensures Serialize(t) == Head(t) + Marker(t) + ">" + ChildrenText(t.children) + CloseTag(t)
    ensures Serialize(AddProperty(t, p)) ==
      Head(t) + PropertyText(p) + Marker(t) + ">" + ChildrenText(t.children) + CloseTag(t)
  {
    HeadAddProperty(t, p);
  }

  /** `Tag::add(const Tag&)` as seen in the output: the parent becomes (or
      stays) a container, its opening tag loses any `/`, and the new child's
      text follows the old children, just before the closing tag. */
  lemma AddChildSerialize(t: Tag, c: Tag)
    ensures Serialize(AddChild(t, c)) ==
      Head(t) + (if FirstChar(t.name) == '?' then "?" else "") + ">"
      + (ChildrenText(t.children) + Serialize(c)) + ("</" + t.name + ">")
  {
    var r := AddChild(t, c);
    assert r.children[..|r.children| - 1] == t.children;
  }

  /** The streaming writer: `operator<<`, appending to the text already in
      the stream. Its two loops are `WriteProperties` and `WriteChildren`. */
  method Write(out: string, t: Tag) returns (res: string)
    ensures res == out + Serialize(t)
    decreases t
  {
    res := WriteOpenTag(out, t);
    res := WriteChildren(res, t.children);
    Associative(out, OpenTag(t), ChildrenText(t.children));
    if |t.children| > 0 {
      res := res + "</" + t.name + ">";
    }
    Associative(out, OpenTag(t) + ChildrenText(t.children), CloseTag(t));
  }

  /** The opening tag: name, properties, then `?>`, `/>` or `>`. */
  method WriteOpenTag(out: string, t: Tag) returns (res: string)
    ensures res == out + OpenTag(t)
  {
    res := WriteProperties(out + "<" + t.name, t.properties);
    Associative(out, "<" + t.name, PropertiesText(t.properties));
    Associative(out, Head(t), Marker(t));
    if FirstChar(t.name) == '?' {
      res := res + "?";
    } else if IsLetter(FirstChar(t.name)) && |t.children| == 0 {
      res := res + "/";
    }
    res := res + ">";
    Associative(out, Head(t) + Marker(t), ">");
  }

  /** Regroups a concatenation. Calls to it only steer the verifier: without
      them, string equalities across different groupings run out of resource. */
  lemma Associative(a: string, b: string, c: string)
    ensures a + b + c == a + (b + c)
  {
  }

  /** The loop over the properties of one tag. */
  method WriteProperties(out: string, ps: seq<Property>) returns (res: string)
    ensures res == out + PropertiesText(ps)
  {
    res := out;
    for i := 0 to |ps|
      invariant res == out + PropertiesText(ps[..i])
    {
      assert ps[..i + 1][..i] == ps[..i];
      Associative(out, PropertiesText(ps[..i]), PropertyText(ps[i]));
      res := res + PropertyText(ps[i]);
    }
    assert ps[..|ps|] == ps;
  }

  /** The loop over the children of one tag, each written recursively. */
  method WriteChildren(out: string, cs: seq<Tag>) returns (res: string)
    ensures res == out + ChildrenText(cs)
    decreases cs
  {
    res := out;
    for i := 0 to |cs|
      invariant res == out + ChildrenText(cs[..i])
    {
      assert cs[..i + 1][..i] == cs[..i];
      Associative(out, ChildrenText(cs[..i]), Serialize(cs[i]));
      res := Write(res, cs[i]);
    }
    assert cs[..|cs|] == cs;
  }
}
