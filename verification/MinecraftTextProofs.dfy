/** What the spans of formatted text are, said without the parser. */
module MinecraftTextProofs {
  import opened Lines
  import opened MinecraftText

  /** The style after the codes among these tokens, applied in order. */
  function Fold(style: Style, tokens: seq<Token>): Style
    decreases |tokens|
  {
    if tokens == [] then style else Fold(Applied(style, tokens[0]), tokens[1..])
  }

  // ---- Each span ----

  /** The span is a piece of the shown tokens, where it says it is, and not empty. */
  ghost predicate Exact(span: Span, shown: Text, at: nat) {
    && span.text != [] && at <= span.start && span.start - at + |span.text| <= |shown|
    && shown[span.start - at..span.start - at + |span.text|] == span.text
  }

  /** The span begins after the first `n` tokens, under the style their codes leave. */
  ghost predicate Styled(span: Span, tokens: seq<Token>, style: Style, at: nat, n: nat) {
    n <= |tokens| && span.start == at + |ShowAll(tokens[..n])| && span.style == Fold(style, tokens[..n])
  }

  ghost predicate SpanOk(span: Span, tokens: seq<Token>, style: Style, at: nat) {
    Exact(span, ShowAll(tokens), at) && exists n: nat :: Styled(span, tokens, style, at, n)
  }

  lemma {:induction false} ShowConcat(a: seq<Token>, b: seq<Token>)
    ensures ShowAll(a + b) == ShowAll(a) + ShowAll(b)
  {
    hide Show;
    if a == [] {
      assert a + b == b;
    } else {
      ShowConcat(a[1..], b);
      assert (a + b)[1..] == a[1..] + b;
      assert Show(a[0]) + (ShowAll(a[1..]) + ShowAll(b)) == Show(a[0]) + ShowAll(a[1..]) + ShowAll(b);
    }
  }

  lemma {:induction false} FoldConcat(style: Style, a: seq<Token>, b: seq<Token>)
    ensures Fold(style, a + b) == Fold(Fold(style, a), b)
    decreases |a|
  {
    if a == [] {
      assert a + b == b;
    } else {
      FoldConcat(Applied(style, a[0]), a[1..], b);
      assert (a + b)[1..] == a[1..] + b;
    }
  }

  /** Units of text show as themselves and leave the style. */
  lemma {:induction false} PlainShows(tokens: seq<Token>, style: Style)
    requires forall i :: 0 <= i < |tokens| ==> tokens[i].Plain?
    ensures ShowAll(tokens) == PlainText(tokens) && |PlainText(tokens)| == |tokens| && Fold(style, tokens) == style
  {
    if tokens != [] { PlainShows(tokens[1..], style); }
  }

  /** A span of the tokens after some others is a span of them all. */
  lemma SpanBehind(span: Span, first: seq<Token>, rest: seq<Token>, style: Style, at: nat)
    requires SpanOk(span, rest, Fold(style, first), at + |ShowAll(first)|)
    ensures SpanOk(span, first + rest, style, at)
  {
    hide Fold, Exact;
    ShowConcat(first, rest);
    ExactBehind(span, ShowAll(first), ShowAll(rest), at);
    var n: nat :| Styled(span, rest, Fold(style, first), at + |ShowAll(first)|, n);
    assert (first + rest)[..|first| + n] == first + rest[..n];
    ShowConcat(first, rest[..n]);
    FoldConcat(style, first, rest[..n]);
    assert Styled(span, first + rest, style, at, |first| + n);
  }

  lemma ExactBehind(span: Span, first: Text, rest: Text, at: nat)
    requires Exact(span, rest, at + |first|)
    ensures Exact(span, first + rest, at)
  {
    var k := span.start - at - |first|;
    assert (first + rest)[|first| + k..|first| + k + |span.text|] == rest[k..k + |span.text|];
  }

  lemma {:induction false} SpansAre(tokens: seq<Token>, style: Style, at: nat)
    ensures forall i :: 0 <= i < |SpansFrom(tokens, style, at)| ==> SpanOk(SpansFrom(tokens, style, at)[i], tokens, style, at)
    decreases |tokens|
  {
    hide SpanOk, Fold, ShowAll, PlainText, Applied;
    var spans := SpansFrom(tokens, style, at);
    if tokens == [] {
    } else if tokens[0].Plain? {
      var n := PlainRun(tokens);
      FirstSpan(tokens, style, at);
      SpansAre(tokens[n..], style, at + n);
      PlainShows(tokens[..n], style);
      assert tokens[..n] + tokens[n..] == tokens;
      forall i | 0 < i < |spans| ensures SpanOk(spans[i], tokens, style, at) {
        assert spans[i] == SpansFrom(tokens[n..], style, at + n)[i - 1];
        SpanBehind(spans[i], tokens[..n], tokens[n..], style, at);
      }
    } else {
      SpansAre(tokens[1..], Applied(style, tokens[0]), at + Size(tokens[0]));
      OneToken(tokens[0], style);
      assert [tokens[0]] + tokens[1..] == tokens;
      assert spans == SpansFrom(tokens[1..], Applied(style, tokens[0]), at + Size(tokens[0]));
      forall i | 0 <= i < |spans| ensures SpanOk(spans[i], tokens, style, at) {
        assert SpanOk(spans[i], tokens[1..], Applied(style, tokens[0]), at + Size(tokens[0]));
        SpanBehind(spans[i], [tokens[0]], tokens[1..], style, at);
      }
    }
  }

  lemma FirstSpan(tokens: seq<Token>, style: Style, at: nat)
    requires tokens != [] && tokens[0].Plain?
    ensures SpanOk(SpansFrom(tokens, style, at)[0], tokens, style, at)
  {
    hide Fold;
    var n := PlainRun(tokens);
    PlainShows(tokens[..n], style);
    ShowConcat(tokens[..n], tokens[n..]);
    assert tokens[..n] + tokens[n..] == tokens;
    SpansFromText(style, tokens, at);
    var span := SpansFrom(tokens, style, at)[0];
    assert span.start == at && span.text == ShowAll(tokens[..n]) && |span.text| == n > 0;
    assert ShowAll(tokens)[0..n] == ShowAll(tokens[..n]);
    assert ShowAll(tokens)[..n] == ShowAll(tokens[..n]);
    assert Styled(span, tokens, style, at, 0) by {
      assert tokens[..0] == [];
      FoldNone(style);
    }
  }

  lemma FoldNone(style: Style)
    ensures Fold(style, []) == style && ShowAll([]) == []
  {
  }

  lemma OneToken(t: Token, style: Style)
    ensures Fold(style, [t]) == Applied(style, t)
    ensures |ShowAll([t])| == Size(t)
  {
    assert [t][1..] == [];
    FoldNone(Applied(style, t));
    assert Show(t) + [] == Show(t);
    if t.Hex? { EscapeSize(t.digits); }
  }

  lemma {:induction false} EscapeSize(digits: Text)
    ensures |Escape(digits)| == 2 * |digits|
  {
    if digits != [] { EscapeSize(digits[1..]); }
  }

  /** Every span is a non-empty piece of the source, exactly where it says it starts, under the
      style of the codes before it. */
  lemma SpansExact(source: Text)
    ensures ShowAll(Tokens(source)) == source
    ensures forall i :: 0 <= i < |Spans(source)| ==> SpanOk(Spans(source)[i], Tokens(source), RESET, 0)
  {
    hide SpanOk, SpansFrom;
    SpansAre(Tokens(source), RESET, 0);
    TokensTile(source);
  }

  /** A colour or a reset: what the style was before is forgotten. */
  predicate Forgets(t: Token) {
    t.Hex? || (t.Code? && (IsHexDigit(ToLower(t.code)) || ToLower(t.code) == 0x72))
  }

  /** The style a span has is decided by the codes from the last colour or reset on; as in the
      game, a colour drops what was switched on before it. */
  lemma LastColorDecides(x: Style, y: Style, a: seq<Token>, t: Token, b: seq<Token>)
    requires Forgets(t)
    ensures Fold(x, a + [t] + b) == Fold(y, [t] + b)
  {
    assert a + [t] + b == a + ([t] + b);
    FoldConcat(x, a, [t] + b);
    assert ([t] + b)[1..] == b;
  }

  function Switches(style: Style): seq<bool> {
    [style.bold, style.italic, style.underlined, style.strikethrough, style.obfuscated]
  }

  /** Until then nothing is switched off and the colour stays. */
  lemma {:induction false} FormatsOnlyAdd(style: Style, tokens: seq<Token>)
    requires forall i :: 0 <= i < |tokens| ==> !Forgets(tokens[i])
    ensures Fold(style, tokens).color == style.color
    ensures forall i :: 0 <= i < 5 && Switches(style)[i] ==> Switches(Fold(style, tokens))[i]
    decreases |tokens|
  {
    if tokens != [] { FormatsOnlyAdd(Applied(style, tokens[0]), tokens[1..]); }
  }

  // ---- All spans together ----

  ghost predicate Ordered(spans: seq<Span>, from: nat) {
    && (forall i :: 0 <= i < |spans| ==> from <= spans[i].start)
    && (forall i, j :: 0 <= i < j < |spans| ==> spans[i].start + |spans[i].text| < spans[j].start)
  }

  lemma {:induction false} SpansFromOrdered(tokens: seq<Token>, style: Style, at: nat)
    ensures Ordered(SpansFrom(tokens, style, at), at)
    ensures tokens != [] && !tokens[0].Plain? ==> Ordered(SpansFrom(tokens, style, at), at + 1)
    decreases |tokens|
  {
    hide Applied, PlainText;
    if tokens == [] {
    } else if tokens[0].Plain? {
      var n := PlainRun(tokens);
      SpansFromOrdered(tokens[n..], style, at + n);
      PlainShows(tokens[..n], style);
    } else {
      SpansFromOrdered(tokens[1..], Applied(style, tokens[0]), at + Size(tokens[0]));
      OrderedWeaker(SpansFrom(tokens, style, at), at + Size(tokens[0]), at + 1);
    }
  }

  lemma OrderedWeaker(spans: seq<Span>, from: nat, lower: nat)
    requires Ordered(spans, from) && lower <= from
    ensures Ordered(spans, lower)
  {
  }

  /** Starts strictly increase, and between two spans there is always a code. */
  lemma StartsIncrease(source: Text)
    ensures forall i, j :: 0 <= i < j < |Spans(source)| ==>
      Spans(source)[i].start + |Spans(source)[i].text| < Spans(source)[j].start
  {
    hide SpansFrom;
    SpansFromOrdered(Tokens(source), RESET, 0);
  }

  function Texts(spans: seq<Span>): Text {
    if spans == [] then [] else spans[0].text + Texts(spans[1..])
  }

  function CodeSize(tokens: seq<Token>): nat {
    if tokens == [] then 0 else (if tokens[0].Plain? then 0 else Size(tokens[0])) + CodeSize(tokens[1..])
  }

  lemma {:induction false} PlainConcat(a: seq<Token>, b: seq<Token>)
    ensures PlainText(a + b) == PlainText(a) + PlainText(b)
  {
    if a == [] {
      assert a + b == b;
    } else {
      PlainConcat(a[1..], b);
      assert (a + b)[1..] == a[1..] + b;
      var first := if a[0].Plain? then [a[0].unit] else [];
      assert first + (PlainText(a[1..]) + PlainText(b)) == first + PlainText(a[1..]) + PlainText(b);
    }
  }

  lemma {:induction false} TextsArePlain(tokens: seq<Token>, style: Style, at: nat)
    ensures Texts(SpansFrom(tokens, style, at)) == PlainText(tokens)
    decreases |tokens|
  {
    hide Applied;
    if tokens == [] {
    } else if tokens[0].Plain? {
      var n := PlainRun(tokens);
      TextsArePlain(tokens[n..], style, at + n);
      PlainConcat(tokens[..n], tokens[n..]);
      assert tokens[..n] + tokens[n..] == tokens;
    } else {
      TextsArePlain(tokens[1..], Applied(style, tokens[0]), at + Size(tokens[0]));
    }
  }

  lemma {:induction false} SizesAddUp(tokens: seq<Token>)
    ensures |PlainText(tokens)| + CodeSize(tokens) == |ShowAll(tokens)|
  {
    if tokens != [] {
      SizesAddUp(tokens[1..]);
      OneToken(tokens[0], RESET);
      assert Show(tokens[0]) + [] == Show(tokens[0]);
      assert ShowAll([tokens[0]]) == Show(tokens[0]) + ShowAll([tokens[0]][1..]);
    }
  }

  ghost function Strip(source: Text): Text {
    Texts(Spans(source))
  }

  /** Spans and codes together are the whole source: the spans hold every unit of text, in
      order, and their lengths and the codes' add up to the source's. */
  lemma SpansTile(source: Text)
    ensures Strip(source) == PlainText(Tokens(source)) && ShowAll(Tokens(source)) == source
    ensures |Strip(source)| + CodeSize(Tokens(source)) == |source|
  {
    hide SpansFrom;
    TextsArePlain(Tokens(source), RESET, 0);
    TokensTile(source);
    SizesAddUp(Tokens(source));
  }

  // ---- Stripping ----

  /** A section sign nowhere but at the very end. */
  ghost predicate SignLastOnly(s: Text) {
    forall i :: 0 <= i < |s| - 1 ==> s[i] != SECTION
  }

  lemma {:induction false} PlainSigns(s: Text)
    ensures SignLastOnly(PlainText(Tokens(s)))
    ensures s != [] && PlainText(Tokens(s)) != [] && s[|s| - 1] != SECTION ==>
      PlainText(Tokens(s))[|PlainText(Tokens(s))| - 1] != SECTION
    decreases |s|
  {
    hide HexAt;
    if s != [] {
      TokensStep(s);
      var tail := s[Size(Head(s))..];
      PlainSigns(tail);
      SizePositive(Head(s));
    }
  }

  lemma {:induction false} LastOnlyIsPlain(s: Text)
    requires SignLastOnly(s)
    ensures PlainText(Tokens(s)) == s
    decreases |s|
  {
    hide HexAt;
    if s != [] {
      TokensStep(s);
      assert |s| > 1 ==> s[0] != SECTION;
      LastOnlyIsPlain(s[1..]);
      assert [s[0]] + s[1..] == s;
    }
  }

  /** Stripping changes nothing exactly if there is no code to strip, and stripping twice is
      stripping once. */
  lemma StripIdempotent(source: Text)
    ensures Strip(source) == source <==> SignLastOnly(source)
    ensures Strip(Strip(source)) == Strip(source) && SignLastOnly(Strip(source))
  {
    hide SpansFrom, Tokens, PlainText, ShowAll;
    SpansTile(source);
    SpansTile(Strip(source));
    PlainSigns(source);
    LastOnlyIsPlain(Strip(source));
    if SignLastOnly(source) { LastOnlyIsPlain(source); }
  }

  /** `stripFormatting`. */
  method StripFormatting(source: Text) returns (text: Text)
    ensures text == Strip(source)
  {
    var spans := Parse(source);
    text := Texts(spans);
  }

  // ---- Console lines ----

  datatype ConsoleLine = ConsoleLine(key: nat, text: Text)

  /** One final newline is dropped before splitting. */
  function Body(output: Text): Text {
    if output != [] && output[|output| - 1] == NEWLINE then output[..|output| - 1] else output
  }

  function Length(lines: seq<ConsoleLine>): nat {
    if lines == [] then 0 else Length(lines[..|lines| - 1]) + |lines[|lines| - 1].text|
  }

  function Whole(lines: seq<ConsoleLine>): Text {
    if lines == [] then [] else Whole(lines[..|lines| - 1]) + lines[|lines| - 1].text
  }

  /** Each line ends in a newline and holds no other, and its key is where it begins. */
  ghost predicate LineOk(lines: seq<ConsoleLine>, i: nat)
    requires i < |lines|
  {
    && lines[i].text != [] && lines[i].text[|lines[i].text| - 1] == NEWLINE
    && NEWLINE !in lines[i].text[..|lines[i].text| - 1]
    && lines[i].key == Length(lines[..i])
  }

  /** The lines in a row are the output, with the final newline it may lack. */
  method ConsoleLines(output: Text) returns (lines: seq<ConsoleLine>)
    ensures Whole(lines) == Body(output) + [NEWLINE]
    ensures Whole(lines) == if output != [] && output[|output| - 1] == 0x0A then output else output + [0x0A]
    ensures forall i :: 0 <= i < |lines| ==> LineOk(lines, i)
  {
    lines := [];
    var parts := Parts(Body(output), NEWLINE);
    var offset := 0;
    for n := 0 to |parts|
      invariant |lines| == n && offset == Length(lines)
      invariant Whole(lines) == Ended(parts[..n])
      invariant forall i :: 0 <= i < n ==> LineOk(lines, i)
    {
      ghost var before := lines;
      var line := ConsoleLine(offset, parts[n] + [NEWLINE]);
      lines := lines + [line];
      assert lines[..n] == before;
      forall i | 0 <= i < n + 1 ensures LineOk(lines, i) {
        if i < n {
          assert LineOk(before, i);
          assert lines[..i] == before[..i];
        } else {
          assert line.text[..|line.text| - 1] == parts[n];
        }
      }
      assert parts[..n + 1][..n] == parts[..n];
      offset := offset + |parts[n]| + 1;
    }
    assert parts[..|parts|] == parts;
    EndedJoins(parts);
    JoinParts(Body(output), NEWLINE);
  }

  function Ended(parts: seq<Text>): Text {
    if parts == [] then [] else Ended(parts[..|parts| - 1]) + (parts[|parts| - 1] + [NEWLINE])
  }

  lemma {:induction false} EndedJoins(parts: seq<Text>)
    requires parts != []
    ensures Ended(parts) == Join(parts, NEWLINE) + [NEWLINE]
  {
    if |parts| > 1 {
      var front := parts[..|parts| - 1];
      EndedJoins(front);
      JoinLast(front, parts[|parts| - 1]);
      assert parts == front + [parts[|parts| - 1]];
    }
  }

  lemma {:induction false} JoinLast(parts: seq<Text>, last: Text)
    requires parts != []
    ensures Join(parts + [last], NEWLINE) == Join(parts, NEWLINE) + [NEWLINE] + last
  {
    if |parts| > 1 {
      JoinLast(parts[1..], last);
      assert (parts + [last])[1..] == parts[1..] + [last];
    } else {
      assert (parts + [last])[1..] == [last];
    }
  }

  /** So two lines never share a key. */
  lemma KeysIncrease(lines: seq<ConsoleLine>, i: nat, j: nat)
    requires i < j < |lines| && forall k :: 0 <= k < |lines| ==> LineOk(lines, k)
    ensures lines[i].key < lines[j].key
    decreases j
  {
    assert LineOk(lines, i) && LineOk(lines, j) && LineOk(lines, j - 1);
    assert lines[..j][..j - 1] == lines[..j - 1];
    if i < j - 1 { KeysIncrease(lines, i, j - 1); }
  }
}
