/** What formatted text means, character by character: which codes switch what, and which texts
    are read as which tokens. */
module MinecraftTextStyles {
  import opened Options
  import opened MinecraftText
  import opened MinecraftTextProofs

  /** `0`-`9`, `A`-`F`, `a`-`f`. */
  predicate IsHex(u: Unit) {
    0x30 <= u <= 0x39 || 0x41 <= u <= 0x46 || 0x61 <= u <= 0x66
  }

  function Small(u: Unit): Unit {
    if 0x41 <= u <= 0x46 then u + 0x20 else u
  }

  /** A colour in either form, or a reset (`R`, `r`). */
  predicate Clears(t: Token) {
    t.Hex? || (t.Code? && (IsHex(t.code) || t.code == 0x52 || t.code == 0x72))
  }

  /** The colour such a token leaves. */
  function ColorLeft(t: Token): Option<Color>
    requires Clears(t)
  {
    match t
    case Hex(digits) => Some(Custom(seq(|digits|, i requires 0 <= i < |digits| => Small(digits[i]))))
    case Code(code) => if IsHex(code) then Some(Palette(Small(code))) else None
  }

  /** One of these codes comes after the last colour or reset. */
  ghost predicate SwitchedOn(tokens: seq<Token>, codes: set<Unit>) {
    exists i :: 0 <= i < |tokens| && tokens[i].Code? && tokens[i].code in codes
                && forall k :: i < k < |tokens| ==> !Clears(tokens[k])
  }

  /** The last colour or reset decides the colour. */
  ghost predicate ColoredBy(color: Option<Color>, tokens: seq<Token>) {
    && (forall i :: 0 <= i < |tokens| && Clears(tokens[i]) && (forall k :: i < k < |tokens| ==> !Clears(tokens[k])) ==>
          color == ColorLeft(tokens[i]))
    && ((forall i :: 0 <= i < |tokens| ==> !Clears(tokens[i])) ==> color == None)
  }

  /** And `l`, `o`, `n`, `m`, `k` after it, in either case, switch on bold, italic, underlined,
      strikethrough, obfuscated. The Kelvin sign is a `k` too. */
  ghost predicate StyledBy(style: Style, tokens: seq<Token>) {
    && ColoredBy(style.color, tokens)
    && (style.bold <==> SwitchedOn(tokens, {0x6C, 0x4C}))
    && (style.italic <==> SwitchedOn(tokens, {0x6F, 0x4F}))
    && (style.underlined <==> SwitchedOn(tokens, {0x6E, 0x4E}))
    && (style.strikethrough <==> SwitchedOn(tokens, {0x6D, 0x4D}))
    && (style.obfuscated <==> SwitchedOn(tokens, {0x6B, 0x4B, 0x212A}))
  }

  /** Colours are written with six digits. */
  ghost predicate DigitsOk(tokens: seq<Token>) {
    forall i :: 0 <= i < |tokens| ==> DigitsAre(tokens[i])
  }

  predicate DigitsAre(t: Token) {
    t.Hex? ==> |t.digits| == 6 && forall j :: 0 <= j < 6 ==> IsHex(t.digits[j])
  }

  lemma ClearsApplied(style: Style, t: Token)
    requires DigitsAre(t) && Clears(t)
    ensures Applied(style, t) == Style(ColorLeft(t), false, false, false, false, false)
  {
    hide IsHex, ToLower, IsHexDigit;
    if t.Hex? {
      forall j | 0 <= j < 6 ensures ToLower(t.digits[j]) == Small(t.digits[j]) { Lowers(t.digits[j]); }
      assert Lowered(t.digits) == seq(|t.digits|, i requires 0 <= i < |t.digits| => Small(t.digits[i]));
    } else {
      Lowers(t.code);
    }
  }

  /** What lower-casing does to a code or a digit. */
  lemma Lowers(u: Unit)
    ensures IsHexDigit(ToLower(u)) <==> IsHex(u)
    ensures IsHex(u) ==> ToLower(u) == Small(u)
    ensures ToLower(u) == 0x72 <==> u == 0x52 || u == 0x72
    ensures ToLower(u) == 0x6C <==> u == 0x6C || u == 0x4C
    ensures ToLower(u) == 0x6F <==> u == 0x6F || u == 0x4F
    ensures ToLower(u) == 0x6E <==> u == 0x6E || u == 0x4E
    ensures ToLower(u) == 0x6D <==> u == 0x6D || u == 0x4D
    ensures ToLower(u) == 0x6B <==> u == 0x6B || u == 0x4B || u == 0x212A
  {
  }

  lemma OthersApplied(style: Style, t: Token)
    requires !Clears(t)
    ensures var r := Applied(style, t);
      && r.color == style.color
      && (r.bold <==> style.bold || (t.Code? && t.code in {0x6C, 0x4C}))
      && (r.italic <==> style.italic || (t.Code? && t.code in {0x6F, 0x4F}))
      && (r.underlined <==> style.underlined || (t.Code? && t.code in {0x6E, 0x4E}))
      && (r.strikethrough <==> style.strikethrough || (t.Code? && t.code in {0x6D, 0x4D}))
      && (r.obfuscated <==> style.obfuscated || (t.Code? && t.code in {0x6B, 0x4B, 0x212A}))
  {
    hide IsHex, ToLower, IsHexDigit;
    if t.Code? { Lowers(t.code); }
  }

  lemma SwitchedMore(front: seq<Token>, t: Token, codes: set<Unit>)
    ensures SwitchedOn(front + [t], codes) <==> (t.Code? && t.code in codes) || (!Clears(t) && SwitchedOn(front, codes))
  {
    hide Clears;
    var all := front + [t];
    if SwitchedOn(front, codes) && !Clears(t) {
      var i :| 0 <= i < |front| && front[i].Code? && front[i].code in codes && forall k :: i < k < |front| ==> !Clears(front[k]);
      assert all[i] == front[i];
    }
    if t.Code? && t.code in codes { assert all[|front|] == t; }
    if SwitchedOn(all, codes) && !(t.Code? && t.code in codes) {
      var i :| 0 <= i < |all| && all[i].Code? && all[i].code in codes && forall k :: i < k < |all| ==> !Clears(all[k]);
      assert i < |front| && all[|front|] == t;
      forall k | i < k < |front| ensures !Clears(front[k]) { assert all[k] == front[k]; }
      assert front[i] == all[i];
    }
  }

  lemma SwitchedLater(front: seq<Token>, t: Token)
    ensures SwitchedOn(front + [t], {0x6C, 0x4C}) <==> (t.Code? && t.code in {0x6C, 0x4C}) || (!Clears(t) && SwitchedOn(front, {0x6C, 0x4C}))
    ensures SwitchedOn(front + [t], {0x6F, 0x4F}) <==> (t.Code? && t.code in {0x6F, 0x4F}) || (!Clears(t) && SwitchedOn(front, {0x6F, 0x4F}))
    ensures SwitchedOn(front + [t], {0x6E, 0x4E}) <==> (t.Code? && t.code in {0x6E, 0x4E}) || (!Clears(t) && SwitchedOn(front, {0x6E, 0x4E}))
    ensures SwitchedOn(front + [t], {0x6D, 0x4D}) <==> (t.Code? && t.code in {0x6D, 0x4D}) || (!Clears(t) && SwitchedOn(front, {0x6D, 0x4D}))
    ensures SwitchedOn(front + [t], {0x6B, 0x4B, 0x212A}) <==>
      (t.Code? && t.code in {0x6B, 0x4B, 0x212A}) || (!Clears(t) && SwitchedOn(front, {0x6B, 0x4B, 0x212A}))
  {
    hide SwitchedOn, Clears;
    SwitchedMore(front, t, {0x6C, 0x4C});
    SwitchedMore(front, t, {0x6F, 0x4F});
    SwitchedMore(front, t, {0x6E, 0x4E});
    SwitchedMore(front, t, {0x6D, 0x4D});
    SwitchedMore(front, t, {0x6B, 0x4B, 0x212A});
  }

  lemma ColoredMore(color: Option<Color>, front: seq<Token>, t: Token)
    requires ColoredBy(color, front)
    ensures ColoredBy(if Clears(t) then ColorLeft(t) else color, front + [t])
  {
    hide Clears, ColorLeft;
    var all := front + [t];
    assert all[|front|] == t;
    forall i | 0 <= i < |all| && Clears(all[i]) && (forall k :: i < k < |all| ==> !Clears(all[k]))
      ensures (if Clears(t) then ColorLeft(t) else color) == ColorLeft(all[i])
    {
      if i < |front| {
        assert all[i] == front[i] && !Clears(t);
        forall k | i < k < |front| ensures !Clears(front[k]) { assert all[k] == front[k]; }
      }
    }
    if forall i :: 0 <= i < |all| ==> !Clears(all[i]) {
      forall i | 0 <= i < |front| ensures !Clears(front[i]) { assert all[i] == front[i]; }
    }
  }

  /** The style that is left after any tokens is the one these rules give. */
  lemma {:induction false} FoldStyled(tokens: seq<Token>)
    requires DigitsOk(tokens)
    ensures StyledBy(Fold(RESET, tokens), tokens)
    decreases |tokens|
  {
    hide Applied, Clears, SwitchedOn, ColorLeft, DigitsAre;
    if tokens != [] {
      var n := |tokens| - 1;
      var front, t := tokens[..n], tokens[n];
      assert tokens == front + [t];
      FoldStyled(front);
      FoldConcat(RESET, front, [t]);
      FoldOne(Fold(RESET, front), t);
      SwitchedLater(front, t);
      ColoredMore(Fold(RESET, front).color, front, t);
      if Clears(t) {
        ClearsApplied(Fold(RESET, front), t);
        NoSwitch(t);
      } else {
        OthersApplied(Fold(RESET, front), t);
      }
    } else {
      NoneSwitched();
    }
  }

  lemma FoldOne(style: Style, t: Token)
    ensures Fold(style, [t]) == Applied(style, t)
  {
    assert [t][1..] == [];
  }

  lemma NoneSwitched()
    ensures forall codes :: !SwitchedOn([], codes)
  {
  }

  /** No colour and no reset is one of the switches. */
  lemma NoSwitch(t: Token)
    requires Clears(t)
    ensures t.Code? ==> t.code !in {0x6C, 0x4C} && t.code !in {0x6F, 0x4F} && t.code !in {0x6E, 0x4E} && t.code !in {0x6D, 0x4D}
    ensures t.Code? ==> t.code !in {0x6B, 0x4B, 0x212A}
  {
  }

  lemma {:induction false} DigitsRead(s: Text)
    ensures DigitsOk(Tokens(s))
    decreases |s|
  {
    hide HexAt, DigitsAre;
    if s != [] {
      TokensStep(s);
      SizePositive(Head(s));
      DigitsRead(s[Size(Head(s))..]);
      HeadDigits(s);
      assert Tokens(s) == [Head(s)] + Tokens(s)[1..];
    }
  }

  lemma HeadDigits(s: Text)
    requires s != []
    ensures DigitsAre(Head(s))
  {
    if HexAt(s) {
      assert IsHexDigit(ToLower(s[2 * 1 + 1])) && IsHexDigit(ToLower(s[2 * 2 + 1])) && IsHexDigit(ToLower(s[2 * 3 + 1]));
      assert IsHexDigit(ToLower(s[2 * 4 + 1])) && IsHexDigit(ToLower(s[2 * 5 + 1])) && IsHexDigit(ToLower(s[2 * 6 + 1]));
    }
  }

  ghost predicate SpanStyled(span: Span, tokens: seq<Token>, n: nat) {
    n <= |tokens| && span.start == |ShowAll(tokens[..n])| && StyledBy(span.style, tokens[..n])
  }

  /** Every span has the style that the codes before it give by these rules. */
  lemma SpansStyled(source: Text, i: nat)
    requires i < |Spans(source)|
    ensures exists n: nat :: SpanStyled(Spans(source)[i], Tokens(source), n)
  {
    hide Fold, StyledBy, Spans, Exact, DigitsAre;
    var tokens := Tokens(source);
    SpansExact(source);
    DigitsRead(source);
    assert SpanOk(Spans(source)[i], tokens, RESET, 0);
    var n: nat :| Styled(Spans(source)[i], tokens, RESET, 0, n);
    FoldStyled(tokens[..n]);
    assert SpanStyled(Spans(source)[i], tokens, n);
  }

  // ---- Which texts are read as which tokens ----

  /** Six codes that are digits follow. */
  ghost predicate SixFollow(tokens: seq<Token>, i: nat) {
    i + 6 < |tokens| && forall k :: i < k <= i + 6 ==> tokens[k].Code? && IsHex(tokens[k].code)
  }

  /** A section sign is text only at the very end; `x` is a code only if no six digits follow it;
      and a colour has six digits. */
  ghost predicate ReadableAt(tokens: seq<Token>, i: nat)
    requires i < |tokens|
  {
    match tokens[i]
    case Plain(u) => u != 0xA7 || i == |tokens| - 1
    case Code(c) => !(c == 0x78 && SixFollow(tokens, i))
    case Hex(_) => DigitsAre(tokens[i])
  }

  ghost predicate Readable(tokens: seq<Token>) {
    forall i :: 0 <= i < |tokens| ==> ReadableAt(tokens, i)
  }

  lemma ReadableTail(tokens: seq<Token>)
    requires Readable(tokens) && tokens != []
    ensures Readable(tokens[1..])
  {
    hide IsHex, DigitsAre;
    forall i | 0 <= i < |tokens[1..]| ensures ReadableAt(tokens[1..], i) {
      assert ReadableAt(tokens, i + 1);
      if SixFollow(tokens[1..], i) {
        forall k | i + 1 < k <= i + 7 ensures tokens[k].Code? && IsHex(tokens[k].code) {
          assert tokens[1..][k - 1] == tokens[k];
        }
      }
    }
  }

  /** The text goes on with `m` pairs of a section sign and a digit. */
  ghost predicate Pairs(s: Text, m: nat) {
    2 * m <= |s| && forall k :: 0 <= k < m ==> s[2 * k] == 0xA7 && IsHex(s[2 * k + 1])
  }

  /** Such pairs are shown by codes only. */
  lemma {:induction false} PairsAreCodes(tokens: seq<Token>, m: nat)
    requires Readable(tokens) && Pairs(ShowAll(tokens), m)
    ensures m <= |tokens| && forall k :: 0 <= k < m ==> tokens[k].Code? && IsHex(tokens[k].code)
    decreases m
  {
    hide IsHex, DigitsAre, Readable;
    if m > 0 {
      var s := ShowAll(tokens);
      assert s[2 * 0] == 0xA7 && IsHex(s[2 * 0 + 1]);
      FirstPair(tokens);
      var tail := tokens[1..];
      ReadableTail(tokens);
      assert s[2..] == ShowAll(tail);
      forall k | 0 <= k < m - 1 ensures ShowAll(tail)[2 * k] == 0xA7 && IsHex(ShowAll(tail)[2 * k + 1]) {
        assert s[2 * (k + 1)] == 0xA7 && IsHex(s[2 * (k + 1) + 1]);
      }
      PairsAreCodes(tail, m - 1);
      forall k | 0 <= k < m ensures tokens[k].Code? && IsHex(tokens[k].code) {
        if k > 0 { assert tokens[k] == tail[k - 1]; }
      }
    }
  }

  lemma FirstPair(tokens: seq<Token>)
    requires Readable(tokens) && |ShowAll(tokens)| > 1 && ShowAll(tokens)[0] == 0xA7 && IsHex(ShowAll(tokens)[1])
    ensures tokens != [] && tokens[0].Code? && tokens[0].code == ShowAll(tokens)[1]
    ensures ShowAll(tokens)[2..] == ShowAll(tokens[1..])
  {
    hide SixFollow;
    var s := ShowAll(tokens);
    assert ReadableAt(tokens, 0);
    assert s == Show(tokens[0]) + ShowAll(tokens[1..]);
    assert |tokens| == 1 ==> |ShowAll(tokens[1..])| == 0;
    assert !IsHex(LETTER_X);
  }

  /** The text of readable tokens is read back as those tokens. */
  lemma {:induction false} ReadsBack(tokens: seq<Token>)
    requires Readable(tokens)
    ensures Tokens(ShowAll(tokens)) == tokens
  {
    hide HexAt, Readable, Show, Head;
    if tokens != [] {
      var s := ShowAll(tokens);
      ReadableTail(tokens);
      ReadsBack(tokens[1..]);
      HeadBack(tokens);
      ShowSize(tokens[0]);
      assert s[Size(tokens[0])..] == ShowAll(tokens[1..]);
      TokensStep(s);
      assert Tokens(s) == [Tokens(s)[0]] + Tokens(s)[1..];
    }
  }

  lemma ShowSize(t: Token)
    ensures |Show(t)| == Size(t) && Size(t) > 0
  {
    OneToken(t, RESET);
    assert [t][1..] == [];
    assert Show(t) + [] == Show(t);
  }

  lemma HeadBack(tokens: seq<Token>)
    requires tokens != [] && Readable(tokens)
    ensures ShowAll(tokens) != [] && Head(ShowAll(tokens)) == tokens[0]
  {
    hide HexAt, Readable;
    var s := ShowAll(tokens);
    ReadableHead(tokens);
    ShowSize(tokens[0]);
    match tokens[0]
    case Plain(u) =>
      if |tokens| == 1 { assert ShowAll(tokens[1..]) == []; }
    case Code(c) =>
      if HexAt(s) {
        HexHasPairs(s);
        assert s[2..] == ShowAll(tokens[1..]);
        ReadableTail(tokens);
        PairsAreCodes(tokens[1..], 6);
        SixAfter(tokens);
      }
    case Hex(d) =>
      HexBack(d, ShowAll(tokens[1..]));
  }

  lemma ReadableHead(tokens: seq<Token>)
    requires tokens != [] && Readable(tokens)
    ensures ReadableAt(tokens, 0)
  {
  }

  lemma HexHasPairs(s: Text)
    requires HexAt(s)
    ensures s[1] == 0x78 && Pairs(s[2..], 6)
  {
    forall k | 0 <= k < 6 ensures s[2..][2 * k] == 0xA7 && IsHex(s[2..][2 * k + 1]) {
      assert s[2 * (k + 1)] == SECTION && IsHexDigit(ToLower(s[2 * (k + 1) + 1]));
    }
  }

  lemma SixAfter(tokens: seq<Token>)
    requires |tokens| > 6 && forall k :: 0 <= k < 6 ==> tokens[1..][k].Code? && IsHex(tokens[1..][k].code)
    ensures SixFollow(tokens, 0)
  {
    forall k | 0 < k <= 6 ensures tokens[k].Code? && IsHex(tokens[k].code) { assert tokens[k] == tokens[1..][k - 1]; }
  }

  lemma HexBack(d: Text, rest: Text)
    requires |d| == 6 && forall j :: 0 <= j < 6 ==> IsHex(d[j])
    ensures var s := Show(Hex(d)) + rest; HexAt(s) && s[0] == SECTION && Digits(s) == d
  {
    hide IsHex, HexAt, ToLower, IsHexDigit, Escape;
    var s := Show(Hex(d)) + rest;
    EscapeSix(d[0], d[1], d[2], d[3], d[4], d[5]);
    assert d == [d[0], d[1], d[2], d[3], d[4], d[5]];
    assert |s| > 13 && Digits(s) == d;
    forall j | 0 <= j < 6 ensures IsHexDigit(ToLower(d[j])) { Lowers(d[j]); }
    DigitsMakeHex(s);
  }

  lemma DigitsMakeHex(s: Text)
    requires |s| > 13 && s[1] == LETTER_X
    requires s[2] == s[4] == s[6] == s[8] == s[10] == s[12] == SECTION
    requires forall j :: 0 <= j < 6 ==> IsHexDigit(ToLower(Digits(s)[j]))
    ensures HexAt(s)
  {
    hide ToLower, IsHexDigit;
    forall i | 1 <= i <= 6 ensures s[2 * i] == SECTION && IsHexDigit(ToLower(s[2 * i + 1])) {
      assert Digits(s)[i - 1] == s[2 * i + 1];
    }
  }

  /** What is read is readable. */
  lemma {:induction false} TokensReadable(s: Text)
    ensures Readable(Tokens(s))
    decreases |s|
  {
    hide HexAt, ReadableAt;
    if s != [] {
      TokensStep(s);
      SizePositive(Head(s));
      var tokens := Tokens(s);
      var tail := s[Size(Head(s))..];
      TokensReadable(tail);
      HeadReadable(s);
      forall i | 0 <= i < |tokens| ensures ReadableAt(tokens, i) {
        if i > 0 { ReadableLater(tokens, i); }
      }
    }
  }

  lemma ReadableLater(tokens: seq<Token>, i: nat)
    requires 0 < i < |tokens| && ReadableAt(tokens[1..], i - 1)
    ensures ReadableAt(tokens, i)
  {
    hide IsHex, DigitsAre;
    if SixFollow(tokens, i) {
      forall k | i - 1 < k <= i + 5 ensures tokens[1..][k].Code? && IsHex(tokens[1..][k].code) {
        assert tokens[k + 1].Code?;
      }
    }
  }

  lemma HeadReadable(s: Text)
    requires s != []
    ensures Tokens(s) != [] && ReadableAt(Tokens(s), 0)
  {
    hide HexAt, SixFollow, DigitsAre;
    var tokens := Tokens(s);
    TokensStep(s);
    TokensTile(s);
    HeadDigits(s);
    match tokens[0]
    case Plain(u) =>
      if u == 0xA7 {
        assert s[1..] == [];
        assert tokens[1..] == [];
      }
    case Code(c) =>
      if c == 0x78 && SixFollow(tokens, 0) {
        CodesAreHex(s, tokens);
      }
    case Hex(_) =>
  }

  lemma CodesAreHex(s: Text, tokens: seq<Token>)
    requires tokens != [] && tokens[0] == Code(0x78) && ShowAll(tokens) == s && SixFollow(tokens, 0)
    ensures HexAt(s)
  {
    hide IsHex, ToLower, IsHexDigit;
    CodesShow(tokens, 7);
    assert s[2 * 0 + 1] == LETTER_X;
    forall i | 1 <= i <= 6 ensures s[2 * i] == SECTION && IsHexDigit(ToLower(s[2 * i + 1])) {
      Lowers(tokens[i].code);
    }
  }

  lemma {:induction false} CodesShow(tokens: seq<Token>, m: nat)
    requires m <= |tokens| && forall k :: 0 <= k < m ==> tokens[k].Code?
    ensures 2 * m <= |ShowAll(tokens)|
    ensures forall k :: 0 <= k < m ==> ShowAll(tokens)[2 * k] == SECTION && ShowAll(tokens)[2 * k + 1] == tokens[k].code
  {
    if m > 0 {
      CodesShow(tokens[1..], m - 1);
      var s, tail := ShowAll(tokens), ShowAll(tokens[1..]);
      assert s == [SECTION, tokens[0].code] + tail;
      forall k | 0 <= k < m ensures s[2 * k] == SECTION && s[2 * k + 1] == tokens[k].code {
        if k > 0 { assert s[2 * k] == tail[2 * (k - 1)] && s[2 * k + 1] == tail[2 * (k - 1) + 1]; }
      }
    }
  }

  /** Tokens are read back from their text exactly if they are readable: these are all the texts
      of codes and colours there are. */
  lemma ReadsBackExactly(tokens: seq<Token>)
    ensures Tokens(ShowAll(tokens)) == tokens <==> Readable(tokens)
  {
    hide Tokens, ShowAll, Readable;
    TokensReadable(ShowAll(tokens));
    if Readable(tokens) { ReadsBack(tokens); }
  }
}
