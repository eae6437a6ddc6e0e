/** How the setup script and the commands shown to an administrator quote a word for the shell,
    and a reader of shell words after sections 2.2.1 (escape character) and 2.2.2 (single
    quotes) of the POSIX.1-2017 Shell Command Language. */
module ShellQuoting {
  import opened Lines

  // ---- The reader ----

  /** Section 2.2: characters that stand for themselves only when quoted, always or under some
      circumstances. */
  predicate IsSpecial(c: char) {
    c in "|&;<>()$`\\\"' \t\n*?[#~=%"
  }

  /** A word and what follows it; or a quote that is never closed; or a character whose meaning
      is outside the two sections. */
  datatype Read = Word(text: string, rest: string) | Unclosed | Beyond

  function Prefixed(text: string, read: Read): Read {
    if read.Word? then Word(text + read.text, read.rest) else read
  }

  /** The rest of a word that has begun. An escaped newline is removed, any other escaped
      character stands for itself. */
  function ReadRest(s: string): Read
    decreases |s|
  {
    if s == "" || IsBlank(s[0]) || s[0] == '\n' then Word("", s)
    else if s[0] == '\'' then ReadQuoted(s[1..])
    else if s[0] == '\\' then
      if |s| == 1 then Beyond
      else if s[1] == '\n' then ReadRest(s[2..])
      else Prefixed([s[1]], ReadRest(s[2..]))
    else if IsSpecial(s[0]) then Beyond
    else Prefixed([s[0]], ReadRest(s[1..]))
  }

  /** Inside single quotes every character stands for itself up to the closing quote. */
  function ReadQuoted(s: string): Read
    decreases |s|
  {
    if s == "" then Unclosed
    else if s[0] == '\'' then ReadRest(s[1..])
    else Prefixed([s[0]], ReadQuoted(s[1..]))
  }

  /** Blanks between words, and escaped newlines there, are skipped. */
  function SkipBlanks(s: string): (r: string)
    ensures |r| <= |s|
    ensures r == "" || !IsBlank(r[0])
    decreases |s|
  {
    if s != "" && IsBlank(s[0]) then SkipBlanks(s[1..])
    else if |s| > 1 && s[0] == '\\' && s[1] == '\n' then SkipBlanks(s[2..])
    else s
  }

  lemma ReadShrinks(s: string)
    ensures ReadRest(s).Word? ==> |ReadRest(s).rest| <= |s|
    ensures ReadQuoted(s).Word? ==> |ReadQuoted(s).rest| <= |s|
    decreases |s|
  {
    if s != "" {
      ReadShrinks(s[1..]);
      if |s| > 1 { ReadShrinks(s[2..]); }
    }
  }

  /** A word that starts with anything but a blank or a newline takes up at least one character. */
  lemma ReadProgress(t: string)
    requires t != "" && !IsBlank(t[0]) && t[0] != '\n'
    ensures ReadRest(t).Word? ==> |ReadRest(t).rest| < |t|
  {
    ReadShrinks(t[1..]);
    if |t| > 1 { ReadShrinks(t[2..]); }
  }

  /** The words of one command line, if every character of it is within the two sections. */
  datatype Line = Words(words: seq<string>) | Unread

  function ReadLine(s: string): Line
    decreases |s|
  {
    var t := SkipBlanks(s);
    if t == "" || t[0] == '\n' then Words([])
    else
      var read := ReadRest(t);
      ReadProgress(t);
      if !read.Word? then Unread
      else
        var tail := ReadLine(read.rest);
        if tail.Words? then Words([read.text] + tail.words) else Unread
  }

  // ---- The writer ----

  /** `value.replace(/'/g, "'\\''")`. */
  function Escaped(s: string): string {
    if s == "" then "" else (if s[0] == '\'' then "'\\''" else [s[0]]) + Escaped(s[1..])
  }

  function SingleQuote(s: string): string {
    "'" + Escaped(s) + "'"
  }

  predicate IsWordChar(c: char) {
    'A' <= c <= 'Z' || 'a' <= c <= 'z' || '0' <= c <= '9' || c == '_'
  }

  /** `/^[A-Za-z0-9_][A-Za-z0-9._-]*$/`. */
  predicate IsShellWord(s: string) {
    && s != "" && IsWordChar(s[0])
    && forall i :: 0 < i < |s| ==> IsWordChar(s[i]) || s[i] == '.' || s[i] == '-'
  }

  function AccountWord(account: string): string {
    if IsShellWord(account) then account else SingleQuote(account)
  }

  function LingerCommand(account: string): string {
    "sudo loginctl enable-linger " + AccountWord(account)
  }

  // ---- Round trips ----

  /** A word can end here. */
  predicate Ends(rest: string) {
    rest == "" || IsBlank(rest[0]) || rest[0] == '\n'
  }

  /** What stands for a quote: close, escaped quote, open again. */
  lemma EscapeReads(tail: string)
    ensures ReadQuoted("'\\''" + tail) == Prefixed("'", ReadQuoted(tail))
  {
    hide IsSpecial;
    var text, escape := "'\\''" + tail, "\\''" + tail;
    assert text[1..] == escape && escape[2..] == "'" + tail && ("'" + tail)[1..] == tail;
    assert ReadRest("'" + tail) == ReadQuoted(tail);
    assert ReadRest(escape) == Prefixed(['\''], ReadRest("'" + tail));
  }

  lemma {:induction false} QuotedReads(s: string, rest: string)
    requires Ends(rest)
    ensures ReadQuoted(Escaped(s) + "'" + rest) == Word(s, rest)
  {
    var text := Escaped(s) + "'" + rest;
    if s == "" {
      assert text[1..] == rest;
    } else {
      QuotedReads(s[1..], rest);
      var tail := Escaped(s[1..]) + "'" + rest;
      if s[0] == '\'' {
        assert text == "'\\''" + tail;
        EscapeReads(tail);
      } else {
        assert text[1..] == tail;
      }
      assert [s[0]] + s[1..] == s;
    }
  }

  /** Any string at all comes back from its quoted form as one word. */
  lemma SingleQuoteReads(s: string, rest: string)
    requires Ends(rest)
    ensures ReadRest(SingleQuote(s) + rest) == Word(s, rest)
  {
    QuotedReads(s, rest);
    assert (SingleQuote(s) + rest)[1..] == Escaped(s) + "'" + rest;
  }

  lemma PlainChar(c: char)
    requires IsWordChar(c) || c == '.' || c == '-'
    ensures !IsSpecial(c) && !IsBlank(c) && c != '\n' && c != '\'' && c != '\\'
  {
  }

  lemma {:induction false} BareReads(s: string, rest: string)
    requires Ends(rest) && forall i :: 0 <= i < |s| ==> IsWordChar(s[i]) || s[i] == '.' || s[i] == '-'
    ensures ReadRest(s + rest) == Word(s, rest)
  {
    hide IsSpecial, IsWordChar;
    if s == "" {
      assert s + rest == rest;
    } else {
      PlainChar(s[0]);
      BareReads(s[1..], rest);
      assert (s + rest)[1..] == s[1..] + rest;
      assert [s[0]] + s[1..] == s;
    }
  }

  /** So does any account name, quoted or bare. */
  lemma AccountWordReads(account: string, rest: string)
    requires Ends(rest)
    ensures ReadRest(AccountWord(account) + rest) == Word(account, rest)
  {
    if IsShellWord(account) { BareReads(account, rest); } else { SingleQuoteReads(account, rest); }
  }

  /** Two values never share a quoted form. */
  lemma AccountWordInjective(a: string, b: string)
    requires AccountWord(a) == AccountWord(b)
    ensures a == b
  {
    AccountWordReads(a, "");
    AccountWordReads(b, "");
  }

  const UPPER := "ABCDEFGHIJKLMNOPQRSTUVWXYZ"
  const LOWER := "abcdefghijklmnopqrstuvwxyz"
  const DIGITS := "0123456789"

  lemma UpperExactly(c: char)
    ensures c in UPPER <==> 'A' <= c <= 'Z'
  {
    if 'A' <= c <= 'Z' { assert UPPER[c as int - 'A' as int] == c; }
  }

  lemma LowerExactly(c: char)
    ensures c in LOWER <==> 'a' <= c <= 'z'
  {
    if 'a' <= c <= 'z' { assert LOWER[c as int - 'a' as int] == c; }
  }

  lemma DigitsExactly(c: char)
    ensures c in DIGITS <==> '0' <= c <= '9'
  {
    if '0' <= c <= '9' { assert DIGITS[c as int - '0' as int] == c; }
  }

  /** A character that may stand anywhere in a bare word. */
  predicate IsPlain(c: char) {
    c in UPPER || c in LOWER || c in DIGITS || c == '_'
  }

  lemma PlainExactly(c: char)
    ensures IsPlain(c) <==> IsWordChar(c)
  {
    UpperExactly(c);
    LowerExactly(c);
    DigitsExactly(c);
  }

  /** An account is shown bare exactly if it is not empty, begins with a letter, a digit or an
      underscore, and has nothing else but dots and hyphens after that. */
  lemma BareExactly(account: string)
    ensures AccountWord(account) == account <==>
      && account != "" && IsPlain(account[0])
      && forall i :: 0 < i < |account| ==> IsPlain(account[i]) || account[i] == '.' || account[i] == '-'
  {
    hide IsWordChar, IsPlain;
    forall c: char ensures IsPlain(c) <==> IsWordChar(c) { PlainExactly(c); }
    if !IsShellWord(account) { EscapedLonger(account); }
  }

  lemma {:induction false} EscapedLonger(s: string)
    ensures |Escaped(s)| >= |s|
  {
    if s != "" { EscapedLonger(s[1..]); }
  }

  // ---- Whole lines ----

  function Spaced(words: seq<string>): string {
    if words == [] then "" else if |words| == 1 then AccountWord(words[0]) else AccountWord(words[0]) + " " + Spaced(words[1..])
  }

  lemma AccountWordStarts(a: string, rest: string)
    ensures AccountWord(a) != "" && AccountWord(a)[0] != '\n'
    ensures SkipBlanks(AccountWord(a) + rest) == AccountWord(a) + rest
  {
    var c := AccountWord(a)[0];
    assert c == '\'' || IsWordChar(c);
  }

  lemma LineStarts(word: string, rest: string)
    requires Ends(rest)
    ensures ReadLine(AccountWord(word) + rest) ==
      var tail := ReadLine(rest); if tail.Words? then Words([word] + tail.words) else Unread
  {
    hide AccountWord, ReadRest, SkipBlanks;
    AccountWordReads(word, rest);
    AccountWordStarts(word, rest);
  }

  lemma SpaceSkipped(s: string)
    ensures ReadLine(" " + s) == ReadLine(s)
  {
    hide ReadRest;
    assert (" " + s)[1..] == s;
    assert SkipBlanks(" " + s) == SkipBlanks(s);
  }

  /** A command line of quoted words is read back as exactly those words. */
  lemma {:induction false} SpacedReads(words: seq<string>)
    ensures ReadLine(Spaced(words)) == Words(words)
  {
    hide AccountWord, ReadRest, ReadLine, SkipBlanks;
    if words == [] {
      EmptyLine();
    } else if |words| == 1 {
      EmptyLine();
      LineStarts(words[0], "");
      assert AccountWord(words[0]) + "" == AccountWord(words[0]);
      assert words == [words[0]] + [];
    } else {
      SpacedReads(words[1..]);
      SpaceSkipped(Spaced(words[1..]));
      LineStarts(words[0], " " + Spaced(words[1..]));
      assert AccountWord(words[0]) + (" " + Spaced(words[1..])) == AccountWord(words[0]) + " " + Spaced(words[1..]);
      assert [words[0]] + words[1..] == words;
    }
  }

  lemma EmptyLine()
    ensures ReadLine("") == Words([])
  {
  }

  /** The command for keeping an account's instances running passes exactly that account. */
  lemma LingerCommandReads(account: string)
    ensures ReadLine(LingerCommand(account)) == Words(["sudo", "loginctl", "enable-linger", account])
  {
    hide ReadLine, ReadRest, IsShellWord, SingleQuote;
    var words := ["sudo", "loginctl", "enable-linger", account];
    SpacedReads(words);
    FixedWords();
    var a := AccountWord(account);
    SpacedTwice("enable-linger", account, []);
    SpacedTwice("loginctl", "enable-linger", [account]);
    SpacedTwice("sudo", "loginctl", ["enable-linger", account]);
    assert ["sudo", "loginctl"] + ["enable-linger", account] == words;
    assert ["loginctl", "enable-linger"] + [account] == ["loginctl"] + ["enable-linger", account];
    assert ["enable-linger", account] + [] == ["enable-linger"] + [account];
    assert Spaced([account]) == a;
    SameCommand(a);
  }

  lemma SameCommand(a: string)
    ensures "sudo" + " " + ("loginctl" + " " + ("enable-linger" + " " + a)) == "sudo loginctl enable-linger " + a
  {
  }

  lemma FixedWords()
    ensures AccountWord("sudo") == "sudo" && AccountWord("loginctl") == "loginctl"
    ensures AccountWord("enable-linger") == "enable-linger"
  {
    hide SingleQuote;
    assert IsShellWord("sudo");
    assert IsShellWord("loginctl");
    assert IsShellWord("enable-linger");
  }

  lemma SpacedTwice(a: string, b: string, rest: seq<string>)
    ensures Spaced([a, b] + rest) == AccountWord(a) + " " + Spaced([b] + rest)
  {
    hide AccountWord;
    assert ([a, b] + rest)[1..] == [b] + rest;
  }
}
