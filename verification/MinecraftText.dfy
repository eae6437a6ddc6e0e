/** The parser of formatted text: a section sign and one more character is a code, and a section
    sign, an `x` and six such pairs of digits is a colour. Text is a sequence of UTF-16 code
    units, as the program indexes it. */
module MinecraftText {
  import opened Options
  import opened Lines

  newtype Unit = x: int | 0 <= x < 0x10000

  type Text = seq<Unit>

  const SECTION: Unit := 0xA7
  const LETTER_X: Unit := 0x78
  const NEWLINE: Unit := 0x0A

  /** `toLowerCase` of one unit, as far as a code or a digit can tell: besides the ASCII letters
      only the Kelvin sign lower-cases to one of those. Whatever any other unit becomes, it is
      neither a code nor a digit before and after. */
  function ToLower(u: Unit): Unit {
    if 0x41 <= u <= 0x5A then u + 0x20 else if u == 0x212A then 0x6B else u
  }

  predicate IsHexDigit(u: Unit) {
    0x30 <= u <= 0x39 || 0x61 <= u <= 0x66
  }

  /** A named colour stands behind its code, a custom one behind its six digits. */
  datatype Color = Palette(code: Unit) | Custom(digits: Text)

  datatype Style = Style(
    color: Option<Color>,
    bold: bool,
    italic: bool,
    underlined: bool,
    strikethrough: bool,
    obfuscated: bool)

  const RESET := Style(None, false, false, false, false, false)

  datatype Span = Span(style: Style, text: Text, start: nat)

  /** Codes `0`-`9` and `a`-`f` are colours, `k`-`o` switch one thing on, `r` resets, and any
      other changes nothing. */
  function ApplyCode(style: Style, code: Unit): Style {
    if IsHexDigit(code) then RESET.(color := Some(Palette(code)))
    else if code == 0x6B then style.(obfuscated := true)
    else if code == 0x6C then style.(bold := true)
    else if code == 0x6D then style.(strikethrough := true)
    else if code == 0x6E then style.(underlined := true)
    else if code == 0x6F then style.(italic := true)
    else if code == 0x72 then RESET
    else style
  }

  // ---- The grammar ----

  /** A unit of text, a code, or a colour written with six digits. */
  datatype Token = Plain(unit: Unit) | Code(code: Unit) | Hex(digits: Text)

  /** The six digits after the section sign, if all of them are there. */
  ghost predicate HexAt(s: Text) {
    |s| > 13 && s[1] == LETTER_X && forall i :: 1 <= i <= 6 ==> s[2 * i] == SECTION && IsHexDigit(ToLower(s[2 * i + 1]))
  }

  function Digits(s: Text): Text
    requires |s| > 13
  {
    [s[3], s[5], s[7], s[9], s[11], s[13]]
  }

  /** A section sign that is the last unit is text. */
  ghost function Head(s: Text): Token
    requires s != []
  {
    if s[0] != SECTION || |s| == 1 then Plain(s[0])
    else if HexAt(s) then Hex(Digits(s))
    else Code(s[1])
  }

  function Size(t: Token): nat {
    match t
    case Plain(_) => 1
    case Code(_) => 2
    case Hex(digits) => 2 + 2 * |digits|
  }

  ghost function Tokens(s: Text): (tokens: seq<Token>)
    decreases |s|
  {
    if s == [] then [] else [Head(s)] + Tokens(s[Size(Head(s))..])
  }

  /** The text a token was read from. */
  function Show(t: Token): Text {
    match t
    case Plain(u) => [u]
    case Code(c) => [SECTION, c]
    case Hex(d) => [SECTION, LETTER_X] + Escape(d)
  }

  function Escape(digits: Text): Text {
    if digits == [] then [] else [SECTION, digits[0]] + Escape(digits[1..])
  }

  function ShowAll(tokens: seq<Token>): Text {
    if tokens == [] then [] else Show(tokens[0]) + ShowAll(tokens[1..])
  }

  lemma HeadShows(s: Text)
    requires s != []
    ensures Size(Head(s)) <= |s| && Show(Head(s)) == s[..Size(Head(s))]
  {
    if s[0] == SECTION && HexAt(s) {
      HexShows(s);
    }
  }

  lemma HexShows(s: Text)
    requires HexAt(s) && s[0] == SECTION
    ensures Show(Hex(Digits(s))) == s[..14]
  {
    var d := Digits(s);
    assert s[2 * 1] == SECTION && s[2 * 2] == SECTION && s[2 * 3] == SECTION;
    assert s[2 * 4] == SECTION && s[2 * 5] == SECTION && s[2 * 6] == SECTION;
    EscapeSix(d[0], d[1], d[2], d[3], d[4], d[5]);
  }

  lemma EscapeOne(u: Unit, rest: Text)
    ensures Escape([u] + rest) == [SECTION, u] + Escape(rest)
  {
    assert ([u] + rest)[1..] == rest;
  }

  lemma EscapeThree(a: Unit, b: Unit, c: Unit, rest: Text)
    ensures Escape([a, b, c] + rest) == [SECTION, a, SECTION, b, SECTION, c] + Escape(rest)
  {
    EscapeOne(a, [b, c] + rest);
    EscapeOne(b, [c] + rest);
    EscapeOne(c, rest);
    assert [a] + ([b, c] + rest) == [a, b, c] + rest && [b] + ([c] + rest) == [b, c] + rest;
  }

  lemma EscapeSix(a: Unit, b: Unit, c: Unit, d: Unit, e: Unit, f: Unit)
    ensures Escape([a, b, c, d, e, f]) == [SECTION, a, SECTION, b, SECTION, c, SECTION, d, SECTION, e, SECTION, f]
  {
    EscapeThree(a, b, c, [d, e, f]);
    EscapeThree(d, e, f, []);
    assert [a, b, c] + [d, e, f] == [a, b, c, d, e, f];
    assert [d, e, f] + [] == [d, e, f];
  }

  /** The tokens tile the source: shown one after another they are the source. */
  lemma {:induction false} TokensTile(s: Text)
    ensures ShowAll(Tokens(s)) == s
    decreases |s|
  {
    hide Head, Show, Size;
    if s != [] {
      var n := Size(Head(s));
      HeadShows(s);
      SizePositive(Head(s));
      TokensTile(s[n..]);
      assert Tokens(s) == [Head(s)] + Tokens(s[n..]);
      assert Tokens(s)[1..] == Tokens(s[n..]);
      assert ShowAll(Tokens(s)) == s[..n] + s[n..];
    }
  }

  lemma SizePositive(t: Token)
    ensures Size(t) > 0
  {
  }

  /** The style a code leaves. */
  function Applied(style: Style, t: Token): Style {
    match t
    case Plain(_) => style
    case Code(c) => ApplyCode(style, ToLower(c))
    case Hex(d) => RESET.(color := Some(Custom(Lowered(d))))
  }

  function Lowered(digits: Text): Text {
    seq(|digits|, i requires 0 <= i < |digits| => ToLower(digits[i]))
  }

  /** How many units of text the tokens begin with. */
  function PlainRun(tokens: seq<Token>): (n: nat)
    ensures n <= |tokens|
    ensures forall i :: 0 <= i < n ==> tokens[i].Plain?
    ensures n < |tokens| ==> !tokens[n].Plain?
  {
    if tokens == [] || !tokens[0].Plain? then 0 else 1 + PlainRun(tokens[1..])
  }

  function PlainText(tokens: seq<Token>): Text {
    if tokens == [] then [] else (if tokens[0].Plain? then [tokens[0].unit] else []) + PlainText(tokens[1..])
  }

  /** The spans of a token sequence that begins at `at` under the given style: each longest run
      of text is one span, and each code changes the style of what follows. */
  function SpansFrom(tokens: seq<Token>, style: Style, at: nat): seq<Span>
    decreases |tokens|
  {
    if tokens == [] then []
    else if tokens[0].Plain? then
      var n := PlainRun(tokens);
      [Span(style, PlainText(tokens[..n]), at)] + SpansFrom(tokens[n..], style, at + n)
    else SpansFrom(tokens[1..], Applied(style, tokens[0]), at + Size(tokens[0]))
  }

  ghost function Spans(s: Text): seq<Span> {
    SpansFrom(Tokens(s), RESET, 0)
  }

  // ---- The parser ----

  /** `readHexColor`, one pair at a time. */
  method ReadHexColor(source: Text, at: nat) returns (hex: Option<Text>)
    requires 0 < at <= |source|
    ensures hex.Some? <==> HexAt(source[at - 1..])
    ensures hex.Some? ==> hex.value == Lowered(Digits(source[at - 1..]))
  {
    if at == |source| || source[at] != LETTER_X { return None; }
    var digits: Text := [];
    var s := source[at - 1..];
    for index := 1 to 7
      invariant |digits| == index - 1
      invariant index == 1 || 2 * index - 1 < |s|
      invariant forall i :: 1 <= i < index ==> s[2 * i] == SECTION
      invariant forall i :: 1 <= i < index ==> digits[i - 1] == ToLower(s[2 * i + 1])
    {
      var offset := at + index * 2;
      if offset - 1 >= |source| || source[offset - 1] != SECTION { NotHexAt(s, index); return None; }
      if offset >= |source| { return None; }
      assert s[2 * index] == source[offset - 1] && s[2 * index + 1] == source[offset];
      digits := digits + [ToLower(source[offset])];
    }
    var ok := true;
    for i := 0 to 6
      invariant ok <==> forall j :: 0 <= j < i ==> IsHexDigit(digits[j])
    {
      if !IsHexDigit(digits[i]) { ok := false; }
    }
    DigitsRead(s, digits);
    hex := if ok then Some(digits) else None;
  }

  lemma NotHexAt(s: Text, index: nat)
    requires 1 <= index <= 6 && (2 * index >= |s| || s[2 * index] != SECTION)
    ensures !HexAt(s)
  {
  }

  lemma DigitsRead(s: Text, digits: Text)
    requires |s| > 13 && s[1] == LETTER_X && |digits| == 6
    requires forall i :: 1 <= i < 7 ==> s[2 * i] == SECTION && digits[i - 1] == ToLower(s[2 * i + 1])
    ensures HexAt(s) <==> forall j :: 0 <= j < 6 ==> IsHexDigit(digits[j])
    ensures digits == Lowered(Digits(s))
  {
    forall i | 1 <= i <= 6 ensures digits[i - 1] == ToLower(s[2 * i + 1]) {}
    assert digits[0] == ToLower(s[2 * 1 + 1]) && digits[1] == ToLower(s[2 * 2 + 1]) && digits[2] == ToLower(s[2 * 3 + 1]);
    assert digits[3] == ToLower(s[2 * 4 + 1]) && digits[4] == ToLower(s[2 * 5 + 1]) && digits[5] == ToLower(s[2 * 6 + 1]);
  }

  /** What remains to come when `text`, which began at `start`, has not been flushed yet. */
  function Pending(style: Style, text: Text, start: nat, tokens: seq<Token>, at: nat): seq<Span> {
    if text == [] then SpansFrom(tokens, style, at)
    else
      var n := PlainRun(tokens);
      [Span(style, text + PlainText(tokens[..n]), start)] + SpansFrom(tokens[n..], style, at + n)
  }

  function Flushed(style: Style, text: Text, start: nat): seq<Span> {
    if text == [] then [] else [Span(style, text, start)]
  }

  lemma PendingText(style: Style, text: Text, start: nat, tokens: seq<Token>, at: nat)
    requires tokens != [] && tokens[0].Plain? && (text == [] ==> start == at)
    ensures Pending(style, text, start, tokens, at) == Pending(style, text + [tokens[0].unit], start, tokens[1..], at + 1)
  {
    hide SpansFrom;
    var n := PlainRun(tokens);
    assert tokens[..n][1..] == tokens[1..][..n - 1] && tokens[1..][n - 1..] == tokens[n..];
    assert text + [tokens[0].unit] + PlainText(tokens[1..][..n - 1]) == text + PlainText(tokens[..n]);
    if text == [] {
      assert [] + PlainText(tokens[..n]) == PlainText(tokens[..n]);
      SpansFromText(style, tokens, at);
    }
  }

  lemma SpansFromText(style: Style, tokens: seq<Token>, at: nat)
    requires tokens != [] && tokens[0].Plain?
    ensures var n := PlainRun(tokens);
      SpansFrom(tokens, style, at) == [Span(style, PlainText(tokens[..n]), at)] + SpansFrom(tokens[n..], style, at + n)
  {
  }

  lemma PendingCode(style: Style, text: Text, start: nat, tokens: seq<Token>, at: nat)
    requires tokens != [] && !tokens[0].Plain?
    ensures Pending(style, text, start, tokens, at)
         == Flushed(style, text, start) + SpansFrom(tokens[1..], Applied(style, tokens[0]), at + Size(tokens[0]))
  {
    assert text + PlainText(tokens[..0]) == text;
    assert tokens[0..] == tokens;
  }

  method Parse(source: Text) returns (spans: seq<Span>)
    ensures spans == Spans(source)
  {
    hide SpansFrom, Pending, HexAt, Applied, Tokens, PlainRun, ApplyCode, ToLower, Lowered, PlainText, Show, Spans;
    spans := [];
    var style, text, start := RESET, [], 0;
    var index := 0;
    PendingStart(source);
    while index < |source|
      invariant index <= |source| && (text == [] ==> start == index)
      invariant spans + Pending(style, text, start, Tokens(source[index..]), index) == Spans(source)
    {
      ghost var s := source[index..];
      TokensStep(s);
      if source[index] != SECTION || index + 1 == |source| {
        PendingText(style, text, start, Tokens(s), index);
        text := text + [source[index]];
        assert s[1..] == source[index + 1..];
        index := index + 1;
        continue;
      }
      var hex := ReadHexColor(source, index + 1);
      PendingCode(style, text, start, Tokens(s), index);
      spans := spans + Flushed(style, text, start);
      if hex.Some? {
        AppliedHex(style, Digits(s));
        style := RESET.(color := Some(Custom(hex.value)));
        assert s[14..] == source[index + 14..];
        index := index + 14;
      } else {
        AppliedCode(style, source[index + 1]);
        style := ApplyCode(style, ToLower(source[index + 1]));
        assert s[2..] == source[index + 2..];
        index := index + 2;
      }
      text, start := [], index;
      PendingNone(style, start, Tokens(source[index..]), index);
    }
    PendingEnd(style, text, start, index);
    assert source[index..] == [];
    spans := spans + Flushed(style, text, start);
  }

  lemma AppliedHex(style: Style, digits: Text)
    ensures Applied(style, Hex(digits)) == RESET.(color := Some(Custom(Lowered(digits))))
  {
  }

  lemma AppliedCode(style: Style, code: Unit)
    ensures Applied(style, Code(code)) == ApplyCode(style, ToLower(code))
  {
  }

  lemma PendingStart(source: Text)
    ensures Pending(RESET, [], 0, Tokens(source[0..]), 0) == Spans(source)
  {
    assert source[0..] == source;
  }

  lemma PendingNone(style: Style, start: nat, tokens: seq<Token>, at: nat)
    ensures Pending(style, [], start, tokens, at) == SpansFrom(tokens, style, at)
  {
  }

  lemma PendingEnd(style: Style, text: Text, start: nat, at: nat)
    ensures Pending(style, text, start, [], at) == Flushed(style, text, start)
    ensures Tokens([]) == []
  {
    assert text + PlainText([]) == text;
  }

  lemma TokensStep(s: Text)
    requires s != []
    ensures Size(Head(s)) <= |s|
    ensures Tokens(s) != [] && Tokens(s)[0] == Head(s) && Tokens(s)[1..] == Tokens(s[Size(Head(s))..])
  {
    HeadShows(s);
  }
}
