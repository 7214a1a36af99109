/**
 The header's `Color`: three `int` channels, unvalidated, rendered by
 `Color::to_string` as CSS functional notation `rgb(R,G,B)`.
 */
module Colors {

  import opened Wrappers
  import opened Decimal

  /** Channels are meant to lie in 0..255 but nothing checks it. */
  datatype Color = Color(r: Int32, g: Int32, b: Int32)

  /** `Color()`: every channel defaults to 0. */
  const Black := Color(0, 0, 0)

  /** `Color::to_string`, in the classic "C" locale. */
  function ToText(c: Color): string {
    "rgb(" + ChannelsText(c) + ")"
  }

  /** `R,G,B`: the channels' decimal texts joined by commas. */
  function ChannelsText(c: Color): string {
    IntText(c.r) + ("," + (IntText(c.g) + ("," + IntText(c.b))))
  }

  /** Position of the first occurrence of `x` in `s`, if any. */
  function IndexOf(s: string, x: char): (r: Option<nat>)
    ensures r.Some? ==> r.value < |s| && s[r.value] == x && x !in s[..r.value]
    ensures r.None? ==> x !in s
  {
    if |s| == 0 then None
    else if s[0] == x then Some(0)
    else match IndexOf(s[1..], x)
      case None => None
      case Some(k) => Some(k + 1)
  }

  /** Reads a canonical decimal that fits a C++ `int`. */
  function ParseChannel(s: string): Option<Int32> {
    match ParseInt(s)
    case Some(n) => if -0x8000_0000 <= n < 0x8000_0000 then Some(n) else None
    case None => None
  }

  /** Cuts `s` at the first `x`: the text before it and the text after it. */
  function SplitAt(s: string, x: char): Option<(string, string)> {
    match IndexOf(s, x)
    case None => None
    case Some(i) => Some((s[..i], s[i + 1..]))
  }

  /** The three comma-separated channels between the parentheses. */
  function ParseChannels(body: string): Option<Color> {
    match SplitAt(body, ',')
    case None => None
    case Some((red, rest)) =>
      match SplitAt(rest, ',')
      case None => None
      case Some((green, blue)) =>
        if ',' in blue then None
        else match (ParseChannel(red), ParseChannel(green), ParseChannel(blue))
          case (Some(r), Some(g), Some(b)) => Some(Color(r, g, b))
          case _ => None
  }

  /** Reads back the text `ToText` produces: `rgb(`, three channels separated
      by commas, `)`. */
  function ParseColor(s: string): Option<Color> {
    if |s| < 5 || s[..4] != "rgb(" || s[|s| - 1] != ')' then None
    else ParseChannels(s[4..|s| - 1])
  }

  lemma SplitAtSeparator(a: string, x: char, b: string)
    requires x !in a
    ensures SplitAt(a + ([x] + b), x) == Some((a, b))
  {
    var s := a + ([x] + b);
    assert s[|a|] == x;
    assert s[..|a|] == a;
    assert s[|a| + 1..] == b;
  }

  lemma SplitAtParts(s: string, x: char, a: string, b: string)
    requires SplitAt(s, x) == Some((a, b))
    ensures s == a + ([x] + b)
  {
    var i := IndexOf(s, x).value;
    assert s == s[..i] + ([s[i]] + s[i + 1..]);
  }

  lemma NoCommaInIntText(n: int)
    ensures ',' !in IntText(n)
  {
  }

  lemma ParseChannelsOfTexts(c: Color)
    ensures ParseChannels(ChannelsText(c)) == Some(c)
  {
    var tr, tg, tb := IntText(c.r), IntText(c.g), IntText(c.b);
    NoCommaInIntText(c.r);
    NoCommaInIntText(c.g);
    NoCommaInIntText(c.b);
    SplitAtSeparator(tr, ',', tg + ("," + tb));
    SplitAtSeparator(tg, ',', tb);
    ParseIntText(c.r);
    ParseIntText(c.g);
    ParseIntText(c.b);
  }

  /** `ParseColor` undoes `ToText`: the rendering loses nothing, negative and
      out-of-range channels included. */
  lemma ParseToText(c: Color)
    ensures ParseColor(ToText(c)) == Some(c)
  {
    var s := ToText(c);
    assert s[..4] == "rgb(" && s[4..|s| - 1] == ChannelsText(c);
    ParseChannelsOfTexts(c);
  }

  /** Every text `ParseColor` accepts is exactly the rendering of the colour
      it reads: with `ParseToText`, `ToText` is a bijection between colours
      and the texts `ParseColor` accepts. */
  lemma ToTextOfParse(s: string, c: Color)
    requires ParseColor(s) == Some(c)
    ensures ToText(c) == s
  {
    var body := s[4..|s| - 1];
    TextsOfParseChannels(body, c);
    ThreeParts(s, 4, |s| - 1);
    assert s[|s| - 1..] == ")";
  }

  /** Cuts `s` into three slices; it only steers the verifier. */
  lemma ThreeParts(s: string, i: nat, j: nat)
    requires i <= j <= |s|
    ensures s == s[..i] + s[i..j] + s[j..]
  {
  }

  lemma TextsOfParseChannels(body: string, c: Color)
    requires ParseChannels(body) == Some(c)
    ensures body == ChannelsText(c)
  {
    var (red, rest) := SplitAt(body, ',').value;
    var (green, blue) := SplitAt(rest, ',').value;
    SplitAtParts(body, ',', red, rest);
    SplitAtParts(rest, ',', green, blue);
    IntTextOfParse(red, c.r);
    IntTextOfParse(green, c.g);
    IntTextOfParse(blue, c.b);
  }

  /** Two colours print the same only when they are the same colour. */
  lemma ToTextInjective(c: Color, d: Color)
    requires ToText(c) == ToText(d)
    ensures c == d
  {
    ParseToText(c);
    ParseToText(d);
  }

  /** `Color()` prints as `rgb(0,0,0)`. */
  lemma BlackText()
    ensures ToText(Black) == "rgb(0,0,0)"
  {
    assert IntText(0) == "0";
  }
}
