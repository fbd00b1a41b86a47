/**
 * Terminal colouring of log lines: a `#RRGGBB` colour is decoded into its
 * three channels and the text is wrapped in a 24-bit ANSI foreground escape.
 * The Rust copy decodes with `u8::from_str_radix` and falls back to the plain
 * text; the Python copies decode with `int(_, 16)`, which accepts more and
 * raises on what it rejects.
 */
module Color {
  import opened Types
  import opened Text
  import opened SoundMap

  /** One colour's channels, each below 256. */
  datatype Rgb = Rgb(red: nat, green: nat, blue: nat)

  predicate IsByteTriple(c: Rgb) { c.red < 256 && c.green < 256 && c.blue < 256 }

  /** `u8::from_str_radix(pair, 16)` on a two-character slice: two hex digits,
      or a `+` followed by one. */
  function ParseHexByte(pair: string): (b: Option<nat>)
    requires |pair| == 2
    ensures b.Some? ==> b.value < 256
    ensures b.Some? <==> IsHexDigit(pair[1]) && (IsHexDigit(pair[0]) || pair[0] == '+')
  {
    if IsHexDigit(pair[0]) && IsHexDigit(pair[1]) then Some(16 * HexDigitValue(pair[0]) + HexDigitValue(pair[1]))
    else if pair[0] == '+' && IsHexDigit(pair[1]) then Some(HexDigitValue(pair[1]))
    else None
  }

  /** `hex_to_rgb`: leading `#`s are dropped, exactly six characters must be
      left, and each pair must decode. */
  function HexToRgb(hex: string): (c: Option<Rgb>)
    ensures c.Some? ==> IsByteTriple(c.value)
    ensures c.Some? ==> |TrimStart(hex, '#')| == 6
  {
    var h := TrimStart(hex, '#');
    if |h| != 6 then None
    else
      match (ParseHexByte(h[0..2]), ParseHexByte(h[2..4]), ParseHexByte(h[4..6]))
      case (Some(r), Some(g), Some(b)) => Some(Rgb(r, g, b))
      case _ => None
  }

  function HexChar(d: nat): (c: char)
    requires d < 16
    ensures IsHexDigit(c) && HexDigitValue(c) == d
  {
    if d < 10 then DigitChar(d) else ('A' as int + d - 10) as char
  }

  /** `#RRGGBB` in upper-case hex: the inverse of `HexToRgb`. */
  function RgbToHex(c: Rgb): (hex: string)
    requires IsByteTriple(c)
    ensures |hex| == 7 && hex[0] == '#'
  {
    ['#', HexChar(c.red / 16), HexChar(c.red % 16), HexChar(c.green / 16), HexChar(c.green % 16),
     HexChar(c.blue / 16), HexChar(c.blue % 16)]
  }

  /** Encoding a colour and decoding it gives it back. */
  lemma HexToRgbRoundTrip(c: Rgb)
    requires IsByteTriple(c)
    ensures HexToRgb(RgbToHex(c)) == Some(c)
  {
    var hex := RgbToHex(c);
    var h := TrimStart(hex, '#');
    assert TrimStart(hex[1..], '#') == hex[1..];
    assert h == hex[1..];
    assert h[0..2] == [hex[1], hex[2]] && h[2..4] == [hex[3], hex[4]] && h[4..6] == [hex[5], hex[6]];
  }

  /** Every colour the registry's palettes use decodes. */
  lemma HexColorDecodes(hex: string)
    requires IsHexColor(hex)
    ensures HexToRgb(hex).Some?
  {
    assert TrimStart(hex[1..], '#') == hex[1..];
    var h := TrimStart(hex, '#');
    assert h == hex[1..];
    assert h[0..2] == [hex[1], hex[2]] && h[2..4] == [hex[3], hex[4]] && h[4..6] == [hex[5], hex[6]];
  }

  /** Any number of leading `#`s is accepted, so a colour written without one
      decodes the same as with one. */
  lemma HexToRgbIgnoresHash(s: string)
    ensures HexToRgb("#" + s) == HexToRgb(s)
  {
    assert ("#" + s)[1..] == s;
  }

  /** Six characters without a leading `#` are decoded as they stand. */
  lemma HexToRgbOfSix(h: string)
    requires |h| == 6 && h[0] != '#'
    ensures HexToRgb(h) == match (ParseHexByte(h[0..2]), ParseHexByte(h[2..4]), ParseHexByte(h[4..6]))
      case (Some(r), Some(g), Some(b)) => Some(Rgb(r, g, b))
      case _ => None
  {
  }

  /** The published examples: red, green and blue decode to their channels
      and a word decodes to nothing. */
  lemma HexToRgbRed()
    ensures HexToRgb("#FF0000") == Some(Rgb(255, 0, 0))
  {
    HexToRgbIgnoresHash("FF0000");
    HexToRgbOfSix("FF0000");
  }

  lemma HexToRgbGreen()
    ensures HexToRgb("#00FF00") == Some(Rgb(0, 255, 0))
  {
    HexToRgbIgnoresHash("00FF00");
    HexToRgbOfSix("00FF00");
  }

  lemma HexToRgbBlue()
    ensures HexToRgb("#0000FF") == Some(Rgb(0, 0, 255))
  {
    HexToRgbIgnoresHash("0000FF");
    HexToRgbOfSix("0000FF");
  }

  lemma HexToRgbRejectsWord()
    ensures HexToRgb("invalid") == None
  {
    assert TrimStart("invalid", '#') == "invalid";
  }

  /** The 24-bit foreground escape around `text`, from the channels' decimal
      renderings, followed by the reset sequence. */
  function AnsiWrap(red: string, green: string, blue: string, text: string): string
  {
    "\U{1B}[38;2;" + red + ";" + green + ";" + blue + "m" + text + "\U{1B}[0m"
  }

  const Reset: string := "\U{1B}[0m"

  /** `colorize`: the plain text when colour is off or the colour does not
      decode, the escaped text otherwise. */
  function Colorize(text: string, hexColor: string, useColor: bool): (line: string)
    ensures !useColor ==> line == text
    ensures useColor && HexToRgb(hexColor).None? ==> line == text
    ensures useColor && HexToRgb(hexColor).Some? ==>
      var c := HexToRgb(hexColor).value;
      line == AnsiWrap(NatToString(c.red), NatToString(c.green), NatToString(c.blue), text)
  {
    if !useColor then text
    else match HexToRgb(hexColor)
      case Some(c) => AnsiWrap(NatToString(c.red), NatToString(c.green), NatToString(c.blue), text)
      case None => text
  }

  /** A coloured line holds the text unchanged between an escape prefix that
      starts with ESC `[` and the reset suffix; it is coloured exactly when
      colour is on and the colour decodes. */
  lemma ColorizeFramesText(text: string, hexColor: string, useColor: bool)
    ensures var line := Colorize(text, hexColor, useColor);
      (line != text <==> useColor && HexToRgb(hexColor).Some?)
    ensures var line := Colorize(text, hexColor, useColor);
      useColor && HexToRgb(hexColor).Some? ==>
        && |line| > |text| + |Reset|
        && line[..2] == "\U{1B}["
        && line[|line| - |Reset|..] == Reset
        && line[|line| - |Reset| - |text|..|line| - |Reset|] == text
  {
    var line := Colorize(text, hexColor, useColor);
    if useColor && HexToRgb(hexColor).Some? {
      var c := HexToRgb(hexColor).value;
      var prefix := "\U{1B}[38;2;" + NatToString(c.red) + ";" + NatToString(c.green) + ";" + NatToString(c.blue) + "m";
      assert line == prefix + text + Reset;
      assert |line| > |text|;
    }
  }

  /** The three fields of a coloured line's escape are decimal numerals that
      read back as the channels the colour decodes to. */
  lemma ColorizeChannelsReadBack(text: string, hexColor: string)
    requires HexToRgb(hexColor).Some?
    ensures var c := HexToRgb(hexColor).value;
      exists red, green, blue ::
        && AllDigits(red) && AllDigits(green) && AllDigits(blue)
        && DigitsValue(red) == c.red && DigitsValue(green) == c.green && DigitsValue(blue) == c.blue
        && Colorize(text, hexColor, true) == "\U{1B}[38;2;" + red + ";" + green + ";" + blue + "m" + text + Reset
  {
    var c := HexToRgb(hexColor).value;
    var red, green, blue := NatToString(c.red), NatToString(c.green), NatToString(c.blue);
    assert Colorize(text, hexColor, true) == "\U{1B}[38;2;" + red + ";" + green + ";" + blue + "m" + text + Reset;
  }

  /** The published examples: with colour off the text is returned as is; with
      colour on it is kept and an escape is added. */
  lemma ColorizeExamples()
    ensures Colorize("Hello", "#FF0000", false) == "Hello"
    ensures Colorize("Hello", "#FF0000", true) == "\U{1B}[38;2;255;0;0mHello\U{1B}[0m"
  {
    HexToRgbRed();
    NatToStringExamples();
  }

  /** The characters Python's `str.isspace` accepts: ASCII tab to carriage
      return, the four separators 0x1C-0x1F, the space, and the Unicode
      spaces and line separators. */
  predicate IsPySpace(c: char)
  {
    || '\t' <= c <= '\r' || '\U{1C}' <= c <= ' '
    || c == '\U{85}' || c == '\U{A0}' || c == '\U{1680}' || '\U{2000}' <= c <= '\U{200A}'
    || c == '\U{2028}' || c == '\U{2029}' || c == '\U{202F}' || c == '\U{205F}' || c == '\U{3000}'
  }

  /** Python's `int(pair, 16)` on a two-character string: surrounding white
      space is dropped, a sign may lead, and what remains must be hex digits;
      anything else raises `ValueError`. */
  function PyParseHexPair(pair: string): (v: PyOutcome<int>)
    requires |pair| == 2
    ensures v.Returned? ==> -16 < v.value < 256
    ensures v.Raised? ==> v.exception == ValueError
    ensures ParseHexByte(pair).Some? ==> v == Returned(ParseHexByte(pair).value)
  {
    var a, b := pair[0], pair[1];
    if IsHexDigit(a) && IsHexDigit(b) then Returned(16 * HexDigitValue(a) + HexDigitValue(b))
    else if a == '+' && IsHexDigit(b) then Returned(HexDigitValue(b))
    else if a == '-' && IsHexDigit(b) then Returned(-(HexDigitValue(b) as int))
    else if IsPySpace(a) && IsHexDigit(b) then Returned(HexDigitValue(b))
    else if IsHexDigit(a) && IsPySpace(b) then Returned(HexDigitValue(a))
    else Raised(ValueError)
  }

  /** White space around one hex digit is dropped, ASCII separators and
      Unicode spaces included; two white-space characters raise. */
  lemma PyParseHexPairWhiteSpace()
    ensures PyParseHexPair("\U{1C}F") == Returned(15)
    ensures PyParseHexPair("A\U{A0}") == Returned(10)
    ensures PyParseHexPair(" \t") == Raised(ValueError)
  {
  }

  /** `str(i)` on a Python int. */
  function IntToString(i: int): (s: string)
    ensures i >= 0 ==> s == NatToString(i)
    ensures i < 0 ==> s == "-" + NatToString(-i)
  {
    if i >= 0 then NatToString(i) else "-" + NatToString(-i)
  }

  /** `colorize_line` (both Python copies): the plain text when colour is off
      or fewer or more than six characters follow the `#`s; otherwise each pair
      goes through `int(_, 16)`, whose failure propagates. */
  function ColorizeLine(text: string, color: string, useColor: bool): (line: PyOutcome<string>)
    ensures !useColor ==> line == Returned(text)
    ensures |TrimStart(color, '#')| != 6 ==> line == Returned(text)
    ensures line.Raised? ==> line.exception == ValueError
  {
    if !useColor then Returned(text)
    else
      var h := TrimStart(color, '#');
      if |h| != 6 then Returned(text)
      else
        match (PyParseHexPair(h[0..2]), PyParseHexPair(h[2..4]), PyParseHexPair(h[4..6]))
        case (Returned(r), Returned(g), Returned(b)) =>
          Returned(AnsiWrap(IntToString(r), IntToString(g), IntToString(b), text))
        case _ => Raised(ValueError)
  }

  /** `colorize_line` on six characters without a leading `#` (the extra
      `#` that every caller's colour carries is dropped first). */
  lemma ColorizeLineOfSix(text: string, h: string)
    requires |h| == 6 && h[0] != '#'
    ensures ColorizeLine(text, "#" + h, true) ==
      match (PyParseHexPair(h[0..2]), PyParseHexPair(h[2..4]), PyParseHexPair(h[4..6]))
      case (Returned(r), Returned(g), Returned(b)) => Returned(AnsiWrap(IntToString(r), IntToString(g), IntToString(b), text))
      case _ => Raised(ValueError)
  {
    assert ("#" + h)[1..] == h;
  }

  /** Where the Rust decoder accepts a colour, both copies print the same line. */
  lemma ColorizeLineAgreesWhenDecodable(text: string, color: string, useColor: bool)
    requires HexToRgb(color).Some?
    ensures ColorizeLine(text, color, useColor) == Returned(Colorize(text, color, useColor))
  {
    var h := TrimStart(color, '#');
    var c := HexToRgb(color).value;
    assert PyParseHexPair(h[0..2]) == Returned(c.red);
    assert PyParseHexPair(h[2..4]) == Returned(c.green);
    assert PyParseHexPair(h[4..6]) == Returned(c.blue);
  }

  /** The copies part ways on six characters that are not all hex digits:
      where a non-hex letter makes the Rust copy print the plain text, the
      Python copies raise. */
  lemma ColorizeLineRaisesOnNonHex(text: string)
    ensures Colorize(text, "#GG0000", true) == text
    ensures ColorizeLine(text, "#GG0000", true) == Raised(ValueError)
  {
    HexToRgbIgnoresHash("GG0000");
    HexToRgbOfSix("GG0000");
    ColorizeLineOfSix(text, "GG0000");
  }

  /** A minus sign before a hex digit is refused by the Rust copy and printed
      by the Python copies as a negative channel. */
  lemma ColorizeLineNegativeChannel(text: string)
    ensures Colorize(text, "#-F0000", true) == text
    ensures ColorizeLine(text, "#-F0000", true) == Returned(AnsiWrap("-15", "0", "0", text))
  {
    HexToRgbIgnoresHash("-F0000");
    HexToRgbOfSix("-F0000");
    PyNegativeChannel(text);
  }

  lemma PyNegativeChannel(text: string)
    ensures ColorizeLine(text, "#-F0000", true) == Returned(AnsiWrap("-15", "0", "0", text))
  {
    var h := "-F0000";
    assert "#-F0000" == "#" + h;
    ColorizeLineOfSix(text, h);
    assert h[0..2] == "-F" && h[2..4] == "00" && h[4..6] == "00";
    PyChannelValues();
  }

  lemma PyChannelValues()
    ensures PyParseHexPair("-F") == Returned(-15) && PyParseHexPair("00") == Returned(0)
    ensures IntToString(-15) == "-15" && IntToString(0) == "0"
  {
    NatToStringExamples();
  }
}
