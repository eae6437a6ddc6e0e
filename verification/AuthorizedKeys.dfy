/** The step of the host setup that authorises a key: an awk scan over `authorized_keys` for
    the first record that carries the key, and an append when there is none. */
module AuthorizedKeys {
  import opened Lines

  // ---- Splitting ----

  /** How many characters of the string come before its first blank. */
  function WordEnd(s: string): (n: nat)
    ensures n <= |s|
    ensures forall i :: 0 <= i < n ==> !IsBlank(s[i])
    ensures n < |s| ==> IsBlank(s[n])
  {
    if s == "" || IsBlank(s[0]) then 0 else 1 + WordEnd(s[1..])
  }

  /** How many blanks the string starts with. */
  function BlankEnd(s: string): (n: nat)
    ensures n <= |s|
    ensures forall i :: 0 <= i < n ==> IsBlank(s[i])
    ensures n < |s| ==> !IsBlank(s[n])
  {
    if s == "" || !IsBlank(s[0]) then 0 else 1 + BlankEnd(s[1..])
  }

  /** `split(s, f, /[ \t]+/)`: every run of blanks separates, so a leading or a trailing run
      leaves an empty field. */
  function Fields(s: string): (f: seq<string>)
    ensures |f| > 0
    ensures forall i :: 0 <= i < |f| ==> forall j :: 0 <= j < |f[i]| ==> !IsBlank(f[i][j])
    decreases |s|
  {
    var n := WordEnd(s);
    if n == |s| then [s] else [s[..n]] + Fields(s[n + BlankEnd(s[n..])..])
  }

  /** `split(s, t, ",")`: every comma separates; the empty string has no piece at all. */
  function Pieces(s: string): (p: seq<string>)
    ensures s == "" <==> p == []
    ensures forall i :: 0 <= i < |p| ==> ',' !in p[i]
  {
    if s == "" then [] else Parts(s, ',')
  }

  function Squeeze(s: string): string {
    if s == "" then "" else (if IsBlank(s[0]) then "" else [s[0]]) + Squeeze(s[1..])
  }

  function Concat(parts: seq<string>): string {
    if parts == [] then "" else parts[0] + Concat(parts[1..])
  }

  /** Splitting into fields drops the blanks and nothing else, and only the first and the last
      field can be empty. */
  lemma {:induction false} FieldsKeepAll(s: string)
    ensures Concat(Fields(s)) == Squeeze(s)
    ensures forall i :: 0 < i < |Fields(s)| - 1 ==> Fields(s)[i] != ""
    ensures |Fields(s)| > 1 && Fields(s)[0] == "" ==> s != "" && IsBlank(s[0])
    decreases |s|
  {
    var n := WordEnd(s);
    SqueezeWord(s, n);
    if n < |s| {
      var m := n + BlankEnd(s[n..]);
      SqueezeBlanks(s[n..], BlankEnd(s[n..]));
      assert s[n..][BlankEnd(s[n..])..] == s[m..];
      FieldsKeepAll(s[m..]);
      assert Fields(s) == [s[..n]] + Fields(s[m..]);
      assert Fields(s)[1..] == Fields(s[m..]);
      assert m < |s| ==> !IsBlank(s[m]) by { assert m < |s| ==> s[m] == s[n..][BlankEnd(s[n..])]; }
    } else {
      assert s[..n] == s && [s][1..] == [];
    }
  }

  lemma {:induction false} SqueezeWord(s: string, n: nat)
    requires n <= |s| && forall i :: 0 <= i < n ==> !IsBlank(s[i])
    ensures Squeeze(s) == s[..n] + Squeeze(s[n..])
  {
    if n > 0 {
      SqueezeWord(s[1..], n - 1);
      assert s[1..][n - 1..] == s[n..] && [s[0]] + s[1..][..n - 1] == s[..n];
    }
  }

  lemma {:induction false} SqueezeBlanks(s: string, n: nat)
    requires n <= |s| && forall i :: 0 <= i < n ==> IsBlank(s[i])
    ensures Squeeze(s) == Squeeze(s[n..])
  {
    if n > 0 {
      SqueezeBlanks(s[1..], n - 1);
      assert s[1..][n - 1..] == s[n..];
    }
  }

  /** What differs between awks and between values: what a value assigned on the command line
      becomes, where a backslash begins an escape, and which fields equal it, where two that
      look like numbers are compared as numbers. */
  datatype Awk = Awk(value: string -> string, same: (string, string) -> bool)

  /** How everything awk can read as a number begins. */
  predicate MayBeNumber(s: string) {
    s != "" && s[0] in " \t+-.0123456789iInN"
  }

  /** How every number begins that is not equal to itself. */
  predicate MayBeNan(s: string) {
    s != "" && s[0] in " \t+-nN"
  }

  /** A value without a backslash is itself; a field equals itself unless it can be read as no
      number at all, and another one only if both can be read as numbers. */
  ghost predicate Standard(awk: Awk) {
    && (forall s :: '\\' !in s ==> awk.value(s) == s)
    && (forall s :: !MayBeNan(s) ==> awk.same(s, s))
    && (forall s, t :: awk.same(s, t) && s != t ==> MayBeNumber(s) && MayBeNumber(t))
  }

  // ---- One record ----

  predicate IsKeyType(s: string) {
    "ssh-" <= s || "ecdsa-" <= s || "sk-" <= s
  }

  predicate IsComment(record: string) {
    var n := BlankEnd(record);
    n < |record| && record[n] == '#'
  }

  predicate IsEmpty(record: string) {
    BlankEnd(record) == |record|
  }

  /** The first field that names a key type. */
  ghost predicate TypeAt(f: seq<string>, k: nat) {
    k < |f| && IsKeyType(f[k]) && forall i :: 0 <= i < k ==> !IsKeyType(f[i])
  }

  /** The record is a key line, and the field after its key type is the blob. */
  ghost predicate Carries(awk: Awk, record: string, blob: string) {
    && !IsComment(record) && !IsEmpty(record)
    && exists k: nat :: TypeAt(Fields(record), k) && k + 1 < |Fields(record)| && awk.same(Fields(record)[k + 1], blob)
  }

  const HARMLESS: seq<string> := [
    "pty", "no-pty", "agent-forwarding", "no-agent-forwarding", "X11-forwarding", "no-X11-forwarding", "user-rc",
    "no-user-rc"]

  /** The options before the key type, as one comma-separated list, name only what the manager
      can live with; an option with a quote or a value never does. */
  ghost predicate Permits(options: seq<string>) {
    options == [] ||
    (&& (forall i :: 0 <= i < |options| ==> '"' !in options[i] && '=' !in options[i])
     && var tokens := Pieces(Join(options, ','));
     && (forall i :: 0 <= i < |tokens| ==> tokens[i] in HARMLESS || tokens[i] == "restrict" || tokens[i] == "port-forwarding")
     && ("restrict" in tokens ==> "port-forwarding" in tokens))
  }

  ghost predicate Clean(record: string) {
    exists k: nat :: TypeAt(Fields(record), k) && Permits(Fields(record)[..k])
  }

  // ---- The scan ----

  /** What the scan prints: whether some record carries the key, whether that record is clean,
      and its line number if it is not. */
  datatype Info = Info(present: bool, clean: bool, badline: nat)

  /** The first record that carries the blob; an empty blob is carried by none. */
  ghost predicate FirstAt(awk: Awk, records: seq<string>, blob: string, i: nat) {
    && blob != "" && i < |records| && Carries(awk, records[i], blob)
    && forall j :: 0 <= j < i ==> !Carries(awk, records[j], blob)
  }

  ghost predicate NoneCarries(awk: Awk, records: seq<string>, blob: string) {
    blob == "" || forall i :: 0 <= i < |records| ==> !Carries(awk, records[i], blob)
  }

  /** The scan's answer is about the first record that carries the blob and no other. */
  ghost predicate Found(awk: Awk, records: seq<string>, blob: string, info: Info) {
    if NoneCarries(awk, records, blob) then info == Info(false, false, 0)
    else exists i: nat :: FirstAt(awk, records, blob, i) && info == Info(true, Clean(records[i]), if Clean(records[i]) then 0 else i + 1)
  }

  lemma FirstIsOne(awk: Awk, records: seq<string>, blob: string, i: nat, j: nat)
    requires FirstAt(awk, records, blob, i) && FirstAt(awk, records, blob, j)
    ensures i == j
  {
    hide Carries;
  }

  lemma FoundIsOne(awk: Awk, records: seq<string>, blob: string, a: Info, b: Info)
    requires Found(awk, records, blob, a) && Found(awk, records, blob, b)
    ensures a == b
  {
    hide Carries, Clean;
    if !NoneCarries(awk, records, blob) {
      var i: nat :| FirstAt(awk, records, blob, i) && a == Info(true, Clean(records[i]), if Clean(records[i]) then 0 else i + 1);
      var j: nat :| FirstAt(awk, records, blob, j) && b == Info(true, Clean(records[j]), if Clean(records[j]) then 0 else j + 1);
      FirstIsOne(awk, records, blob, i, j);
    }
  }

  /** The `for` loop that looks for the key type; `k == |f|` when there is none. */
  method FindType(f: seq<string>) returns (k: nat)
    ensures k <= |f| && (k < |f| ==> TypeAt(f, k))
    ensures k == |f| ==> forall i :: 0 <= i < |f| ==> !IsKeyType(f[i])
  {
    k := 0;
    while k < |f| && !IsKeyType(f[k])
      invariant k <= |f|
      invariant forall i :: 0 <= i < k ==> !IsKeyType(f[i])
    {
      k := k + 1;
    }
  }

  /** The loops that classify the options of a record whose key type is field `k`. */
  method ReadOptions(f: seq<string>, k: nat) returns (isClean: bool)
    requires k < |f|
    ensures isClean <==> Permits(f[..k])
  {
    var dangerous := false;
    for i := 0 to k
      invariant dangerous <==> exists j :: 0 <= j < i && ('"' in f[j] || '=' in f[j])
    {
      if '"' in f[i] || '=' in f[i] { dangerous := true; }
    }
    if k == 0 { return true; }
    if dangerous { return false; }
    var opts := JoinOptions(f[..k]);
    var tokens := Pieces(opts);
    isClean := CheckTokens(tokens);
  }

  method JoinOptions(options: seq<string>) returns (opts: string)
    requires options != []
    ensures opts == Join(options, ',')
  {
    opts := options[0];
    for i := 1 to |options|
      invariant opts == Join(options[..i], ',')
    {
      JoinMore(options[..i], options[i], ',');
      assert options[..i] + [options[i]] == options[..i + 1];
      opts := opts + "," + options[i];
    }
    assert options[..|options|] == options;
  }

  method CheckTokens(tokens: seq<string>) returns (isClean: bool)
    ensures isClean <==>
      && (forall i :: 0 <= i < |tokens| ==> tokens[i] in HARMLESS || tokens[i] == "restrict" || tokens[i] == "port-forwarding")
      && ("restrict" in tokens ==> "port-forwarding" in tokens)
  {
    var ok, hasRestrict, hasPortForwarding := true, false, false;
    for i := 0 to |tokens|
      invariant ok <==> forall j :: 0 <= j < i ==> tokens[j] in HARMLESS || tokens[j] == "restrict" || tokens[j] == "port-forwarding"
      invariant hasRestrict <==> "restrict" in tokens[..i]
      invariant hasPortForwarding <==> "port-forwarding" in tokens[..i]
    {
      var t := tokens[i];
      assert tokens[..i + 1] == tokens[..i] + [t];
      if t == "restrict" {
        hasRestrict := true;
      } else if t == "port-forwarding" {
        hasPortForwarding := true;
      } else if t !in HARMLESS {
        ok := false;
      }
    }
    assert tokens[..|tokens|] == tokens;
    isClean := ok && (!hasRestrict || hasPortForwarding);
  }

  lemma {:induction false} JoinMore(parts: seq<string>, last: string, at: char)
    requires parts != []
    ensures Join(parts + [last], at) == Join(parts, at) + [at] + last
  {
    if |parts| > 1 {
      JoinMore(parts[1..], last, at);
      assert (parts + [last])[1..] == parts[1..] + [last];
    } else {
      assert (parts + [last])[1..] == [last];
    }
  }

  lemma TypeIsOne(f: seq<string>, k: nat, j: nat)
    requires TypeAt(f, k) && TypeAt(f, j)
    ensures k == j
  {
  }

  /** The whole awk program, record by record. */
  method Scan(awk: Awk, records: seq<string>, blob: string) returns (info: Info)
    ensures Found(awk, records, blob, info)
  {
    hide Permits, Fields, IsComment, IsEmpty;
    info := Info(false, false, 0);
    if blob == "" { return; }
    var decided := false;
    var nr := 0;
    while nr < |records|
      invariant nr <= |records|
      invariant decided == info.present
      invariant !decided ==> info == Info(false, false, 0) && NoneCarries(awk, records[..nr], blob)
      invariant decided ==> Found(awk, records, blob, info) && !NoneCarries(awk, records, blob)
    {
      var record := records[nr];
      nr := nr + 1;
      if IsComment(record) || IsEmpty(record) || decided { continue; }
      var f := Fields(record);
      var k := FindType(f);
      if k == |f| || k + 1 == |f| || !awk.same(f[k + 1], blob) {
        NotCarried(awk, record, blob, k);
        continue;
      }
      decided := true;
      var isClean := ReadOptions(f, k);
      info := Info(true, isClean, if isClean then 0 else nr);
      assert Carries(awk, record, blob);
      CleanAt(record, k);
      assert FirstAt(awk, records, blob, nr - 1);
    }
    assert records[..nr] == records;
  }

  lemma NotCarried(awk: Awk, record: string, blob: string, k: nat)
    requires k <= |Fields(record)| && (k < |Fields(record)| ==> TypeAt(Fields(record), k))
    requires k == |Fields(record)| ==> forall i :: 0 <= i < |Fields(record)| ==> !IsKeyType(Fields(record)[i])
    requires k < |Fields(record)| ==> k + 1 == |Fields(record)| || !awk.same(Fields(record)[k + 1], blob)
    ensures !Carries(awk, record, blob)
  {
    hide Fields, IsKeyType;
    forall j: nat | TypeAt(Fields(record), j) ensures j == k {
      if k < |Fields(record)| { TypeIsOne(Fields(record), j, k); }
    }
  }

  lemma CleanAt(record: string, k: nat)
    requires TypeAt(Fields(record), k)
    ensures Clean(record) == Permits(Fields(record)[..k])
  {
    hide Fields, IsKeyType, Permits;
    if Clean(record) {
      var j: nat :| TypeAt(Fields(record), j) && Permits(Fields(record)[..j]);
      TypeIsOne(Fields(record), j, k);
    }
  }

  // ---- Reading the key itself ----

  /** `awk "{print $2}"` on a one-line key: its second word, or nothing. */
  function Material(key: string): string {
    var words := Fields(key[BlankEnd(key)..]);
    if |words| > 1 then words[1] else ""
  }

  /** What the scan looks for. */
  function Blob(awk: Awk, key: string): string {
    awk.value(Material(key))
  }

  /** The key's own record, once it is in the file, is found again. */
  ghost predicate FindsItself(awk: Awk, key: string) {
    Blob(awk, key) != "" && Carries(awk, key, Blob(awk, key))
  }

  /** A key that starts with a key type is found by its own record exactly if its blob is there
      and awk takes it as equal to itself, and then its record is clean. */
  lemma OwnRecordExactly(awk: Awk, key: string)
    requires IsKeyType(key)
    ensures FindsItself(awk, key) <==> Blob(awk, key) != "" && |Fields(key)| > 1 && awk.same(Material(key), Blob(awk, key))
    ensures Clean(key)
  {
    hide Fields, Permits;
    assert !IsBlank(key[0]) && key[0] != '#';
    assert BlankEnd(key) == 0 && key[0..] == key;
    FirstField(key);
    assert TypeAt(Fields(key), 0);
    CleanAt(key, 0);
    assert Permits([]) by { NoOptions(); }
    assert Fields(key)[..0] == [];
    forall k: nat | TypeAt(Fields(key), k) ensures k == 0 { TypeIsOne(Fields(key), k, 0); }
  }

  /** The key starts with a key type and has a blob that awk leaves as it is. */
  predicate Ordinary(key: string) {
    IsKeyType(key) && Material(key) != "" && '\\' !in Material(key) && !MayBeNan(Material(key))
  }

  /** So every such key is. */
  lemma OwnRecord(awk: Awk, key: string)
    requires Standard(awk) && Ordinary(key)
    ensures FindsItself(awk, key) && Clean(key)
  {
    hide Fields, Carries, Clean;
    OwnRecordExactly(awk, key);
    assert !IsBlank(key[0]) && BlankEnd(key) == 0 && key[0..] == key;
  }

  lemma NoOptions()
    ensures Permits([])
  {
  }

  lemma FirstField(key: string)
    requires IsKeyType(key)
    ensures IsKeyType(Fields(key)[0])
  {
    hide IsBlank, WordEnd;
    var n := WordEnd(key);
    assert Fields(key)[0] == key[..n];
    assert forall i :: 0 <= i < |key| && key[i] in "ecdsha-k" ==> !IsBlank(key[i]) by { NotBlank(key); }
    var prefix := if "ssh-" <= key then "ssh-" else if "ecdsa-" <= key then "ecdsa-" else "sk-";
    assert forall i :: 0 <= i < |prefix| ==> key[i] == prefix[i];
    assert |prefix| <= n;
  }

  lemma NotBlank(s: string)
    ensures forall i :: 0 <= i < |s| && s[i] in "ecdsha-k" ==> !IsBlank(s[i])
  {
  }

  // ---- Appending ----

  /** The append step: a final newline is put right first. */
  function Appended(file: string, key: string): string {
    (if file != "" && file[|file| - 1] != '\n' then file + "\n" else file) + key + "\n"
  }

  /** Appending turns the file's records into the old ones followed by the key, whether or not
      the file ended in a newline. */
  lemma AppendRecords(file: string, key: string)
    requires '\n' !in key
    ensures Records(Appended(file, key)) == Records(file) + [key]
  {
    hide Parts;
    var r := Appended(file, key);
    PartsWhole(key, '\n');
    PartsWhole("", '\n');
    PartsConcat(key, "", '\n');
    assert key + "\n" + "" == key + "\n";
    if file == "" {
      assert r == key + "\n";
    } else if file[|file| - 1] != '\n' {
      PartsConcat(file, key + "\n", '\n');
      assert r == file + "\n" + (key + "\n");
      LastPart(file);
    } else {
      var body := file[..|file| - 1];
      PartsConcat(body, key + "\n", '\n');
      PartsConcat(body, "", '\n');
      assert body + "\n" + "" == file;
      assert r == body + "\n" + (key + "\n");
    }
  }

  // ---- The step ----

  datatype Outcome = LeftAlone | Blocked(line: nat) | Added

  /** What the step does to the file, and what it reports. */
  ghost predicate Authorised(awk: Awk, before: string, key: string, outcome: Outcome, after: string) {
    var records, blob := Records(before), Blob(awk, key);
    if NoneCarries(awk, records, blob) then outcome == Added && before <= after && Records(after) == records + [key]
    else
      && after == before
      && exists i: nat :: FirstAt(awk, records, blob, i) && outcome == if Clean(records[i]) then LeftAlone else Blocked(i + 1)
  }

  class KeyFile {
    var content: string

    method Authorise(awk: Awk, key: string) returns (outcome: Outcome)
      requires '\n' !in key
      modifies this
      ensures Authorised(awk, old(content), key, outcome, content)
    {
      var info := Scan(awk, Records(content), Blob(awk, key));
      if info.present && info.clean {
        outcome := LeftAlone;
      } else if info.present {
        outcome := Blocked(info.badline);
      } else {
        AppendRecords(content, key);
        if content != "" && content[|content| - 1] != '\n' {
          content := content + "\n";
        }
        content := content + key + "\n";
        outcome := Added;
      }
    }
  }

  /** The outcome depends on the first record that carries the key, and on nothing else. */
  lemma FirstRecordDecides(awk: Awk, a: string, b: string, key: string, i: nat, j: nat, x: Outcome, y: Outcome, after: string, later: string)
    requires Authorised(awk, a, key, x, after) && Authorised(awk, b, key, y, later)
    requires FirstAt(awk, Records(a), Blob(awk, key), i) && FirstAt(awk, Records(b), Blob(awk, key), j)
    requires Records(a)[i] == Records(b)[j]
    ensures after == a && later == b
    ensures (x == LeftAlone <==> y == LeftAlone) && (x == Blocked(i + 1) <==> y == Blocked(j + 1)) && x != Added && y != Added
  {
    hide Carries, Clean, Records, Blob;
    FirstIsOutcome(awk, a, key, i, x, after);
    FirstIsOutcome(awk, b, key, j, y, later);
  }

  lemma FirstIsOutcome(awk: Awk, a: string, key: string, i: nat, x: Outcome, after: string)
    requires Authorised(awk, a, key, x, after) && FirstAt(awk, Records(a), Blob(awk, key), i)
    ensures after == a && x == if Clean(Records(a)[i]) then LeftAlone else Blocked(i + 1)
  {
    hide Carries, Clean, Records, Blob;
    var j: nat :| FirstAt(awk, Records(a), Blob(awk, key), j) && x == if Clean(Records(a)[j]) then LeftAlone else Blocked(j + 1);
    FirstIsOne(awk, Records(a), Blob(awk, key), i, j);
  }

  lemma FirstExists(awk: Awk, records: seq<string>, blob: string)
    requires !NoneCarries(awk, records, blob)
    ensures exists i: nat :: FirstAt(awk, records, blob, i)
  {
    hide Carries;
    var n: nat :| n < |records| && Carries(awk, records[n], blob);
    var i := 0;
    while !Carries(awk, records[i], blob)
      invariant i <= n
      invariant forall j :: 0 <= j < i ==> !Carries(awk, records[j], blob)
      decreases n - i
    {
      i := i + 1;
    }
    assert FirstAt(awk, records, blob, i);
  }

  /** A second run leaves the file as the first left it exactly if some record of the file
      carried the key already, or the key's own record does. */
  lemma IdempotentExactly(awk: Awk, before: string, key: string, first: Outcome, mid: string, second: Outcome, after: string)
    requires Authorised(awk, before, key, first, mid) && Authorised(awk, mid, key, second, after)
    ensures after == mid <==> !NoneCarries(awk, Records(before), Blob(awk, key)) || FindsItself(awk, key)
    ensures first == Added && FindsItself(awk, key) ==> second == if Clean(key) then LeftAlone else Blocked(|Records(mid)|)
    ensures first != Added ==> second == first
  {
    hide Carries, Clean, Records, Blob;
    var records, blob := Records(before), Blob(awk, key);
    if NoneCarries(awk, records, blob) {
      if FindsItself(awk, key) {
        assert FirstAt(awk, Records(mid), blob, |records|);
        FirstIsOutcome(awk, mid, key, |records|, second, after);
      } else {
        assert NoneCarries(awk, Records(mid), blob);
        assert |Records(after)| == |Records(mid)| + 1;
      }
    } else {
      FirstExists(awk, records, blob);
      var i: nat :| FirstAt(awk, records, blob, i);
      FirstIsOutcome(awk, before, key, i, first, mid);
      FirstIsOutcome(awk, mid, key, i, second, after);
    }
  }

  /** The step is idempotent for every ordinary key. */
  lemma Idempotent(awk: Awk, before: string, key: string, first: Outcome, mid: string, second: Outcome, after: string)
    requires Authorised(awk, before, key, first, mid) && Authorised(awk, mid, key, second, after)
    requires Standard(awk) && Ordinary(key)
    ensures after == mid && (first == Added ==> second == LeftAlone)
  {
    hide Authorised, Carries, Clean, Records, Blob, Ordinary;
    OwnRecord(awk, key);
    IdempotentExactly(awk, before, key, first, mid, second, after);
  }

  /** The file after each of a series of runs with one key. */
  ghost predicate Runs(awk: Awk, files: seq<string>, outcomes: seq<Outcome>, key: string) {
    |files| == |outcomes| + 1 && forall i :: 0 <= i < |outcomes| ==> Authorised(awk, files[i], key, outcomes[i], files[i + 1])
  }

  function Repeat(key: string, n: nat): seq<string> {
    if n == 0 then [] else Repeat(key, n - 1) + [key]
  }

  /** A key no record carries, its own record neither, is appended once more by every run. */
  lemma {:induction false} AppendedEveryRun(awk: Awk, files: seq<string>, outcomes: seq<Outcome>, key: string, n: nat)
    requires Runs(awk, files, outcomes, key) && n < |files|
    requires NoneCarries(awk, Records(files[0]), Blob(awk, key)) && !FindsItself(awk, key)
    ensures Records(files[n]) == Records(files[0]) + Repeat(key, n)
    ensures NoneCarries(awk, Records(files[n]), Blob(awk, key))
  {
    hide Carries, Clean, Records, Blob;
    if n > 0 {
      AppendedEveryRun(awk, files, outcomes, key, n - 1);
      assert Authorised(awk, files[n - 1], key, outcomes[n - 1], files[n - 1 + 1]);
    }
  }

  const OPTION_FIRST := "no-pty ssh-rsa A"

  /** Such a key exists: with an option before its type, the key's second word is the type, which
      no awk takes for the field after it. */
  lemma OptionFirstIsLost(awk: Awk)
    requires Standard(awk)
    ensures !FindsItself(awk, OPTION_FIRST)
  {
    hide Permits, Fields, Material, IsComment, IsEmpty;
    assert !awk.same("A", "ssh-rsa") by { assert !MayBeNumber("A") && "A" != "ssh-rsa"; }
    var key := OPTION_FIRST;
    OptionFields();
    assert awk.value("ssh-rsa") == "ssh-rsa";
    if IsKeyType("no-pty") { FirstLetter("no-pty"); }
    assert "ssh-rsa"[..4] == "ssh-";
    assert TypeAt(Fields(key), 1);
    forall k: nat | TypeAt(Fields(key), k) ensures k == 1 { TypeIsOne(Fields(key), k, 1); }
  }

  lemma FirstLetter(s: string)
    requires IsKeyType(s)
    ensures s[0] == 's' || s[0] == 'e'
  {
    assert "ssh-"[0] == 's' && "ecdsa-"[0] == 'e' && "sk-"[0] == 's';
  }

  lemma OptionFields()
    ensures Fields(OPTION_FIRST) == ["no-pty", "ssh-rsa", "A"] && Material(OPTION_FIRST) == "ssh-rsa"
  {
    hide Fields, WordEnd;
    var key := OPTION_FIRST;
    WordThen("no-pty", "ssh-rsa A");
    WordThen("ssh-rsa", "A");
    WordOnly("A");
    assert "no-pty" + " " + "ssh-rsa A" == key && "ssh-rsa" + " " + "A" == "ssh-rsa A";
    assert BlankEnd(key) == 0 && key[0..] == key;
  }

  lemma {:induction false} WordEnds(word: string, rest: string)
    requires (forall i :: 0 <= i < |word| ==> !IsBlank(word[i])) && (rest != "" ==> IsBlank(rest[0]))
    ensures WordEnd(word + rest) == |word|
  {
    if word == "" {
      assert word + rest == rest;
    } else {
      WordEnds(word[1..], rest);
      assert (word + rest)[1..] == word[1..] + rest;
    }
  }

  lemma WordThen(word: string, rest: string)
    requires (forall i :: 0 <= i < |word| ==> !IsBlank(word[i])) && rest != "" && !IsBlank(rest[0])
    ensures Fields(word + " " + rest) == [word] + Fields(rest)
  {
    var s := word + " " + rest;
    assert s == word + (" " + rest);
    WordEnds(word, " " + rest);
    assert s[|word|..] == " " + rest && (" " + rest)[1..] == rest;
    assert BlankEnd(" " + rest) == 1 && s[|word| + 1..] == rest && s[..|word|] == word;
  }

  lemma WordOnly(word: string)
    requires forall i :: 0 <= i < |word| ==> !IsBlank(word[i])
    ensures Fields(word) == [word]
  {
    WordEnds(word, "");
    assert word + "" == word;
  }

  /** Any number of runs with an ordinary key leave one file, whose records are those it
      had before, followed by the key if none of them carried it. */
  lemma {:induction false} SettledAfterOne(awk: Awk, files: seq<string>, outcomes: seq<Outcome>, key: string, n: nat)
    requires Runs(awk, files, outcomes, key) && 0 < n < |files|
    requires Standard(awk) && Ordinary(key)
    ensures files[n] == files[1]
    ensures Records(files[n]) == Records(files[0]) + if NoneCarries(awk, Records(files[0]), Blob(awk, key)) then [key] else []
  {
    hide Carries, Clean, Records, Blob, Ordinary, FirstAt, NoneCarries;
    assert Authorised(awk, files[0], key, outcomes[0], files[0 + 1]);
    if n > 1 {
      SettledAfterOne(awk, files, outcomes, key, n - 1);
      assert Authorised(awk, files[n - 2], key, outcomes[n - 2], files[n - 2 + 1]);
      assert Authorised(awk, files[n - 1], key, outcomes[n - 1], files[n - 1 + 1]);
      Idempotent(awk, files[n - 2], key, outcomes[n - 2], files[n - 1], outcomes[n - 1], files[n]);
    }
  }

  // ---- Records in so many words ----

  /** A record is skipped as a comment exactly if its first character that is no space or tab is
      `#`, and as empty exactly if it has no such character. */
  lemma SkippedExactly(record: string)
    ensures IsComment(record) <==>
      exists n :: 0 <= n < |record| && record[n] == '#' && forall i :: 0 <= i < n ==> record[i] == ' ' || record[i] == '\t'
    ensures IsEmpty(record) <==> forall i :: 0 <= i < |record| ==> record[i] == ' ' || record[i] == '\t'
  {
    var n := BlankEnd(record);
    if m :| 0 <= m < |record| && record[m] == '#' && forall i :: 0 <= i < m ==> record[i] == ' ' || record[i] == '\t' {
      assert m == n;
    }
  }

  /** One word, at which a record of a key can begin or go on. */
  predicate IsWord(s: string) {
    s != "" && s[0] != '#' && forall i :: 0 <= i < |s| ==> s[i] != ' ' && s[i] != '\t'
  }

  /** The three ways a key type begins. */
  predicate NamesType(s: string) {
    (|s| >= 4 && s[..4] == "ssh-") || (|s| >= 6 && s[..6] == "ecdsa-") || (|s| >= 3 && s[..3] == "sk-")
  }

  lemma TypesExactly(s: string)
    ensures IsKeyType(s) <==> NamesType(s)
  {
    if |s| >= 4 && s[..4] == "ssh-" { assert "ssh-" <= s; }
    if |s| >= 6 && s[..6] == "ecdsa-" { assert "ecdsa-" <= s; }
    if |s| >= 3 && s[..3] == "sk-" { assert "sk-" <= s; }
  }

  /** What may follow the blob. */
  predicate IsTail(tail: string) {
    tail == "" || IsBlank(tail[0])
  }

  lemma BlobFields(blob: string, tail: string)
    requires IsWord(blob) && IsTail(tail)
    ensures Fields(blob + tail)[0] == blob
  {
    WordEnds(blob, tail);
    assert (blob + tail)[..|blob|] == blob;
  }

  lemma KeyFields(kind: string, blob: string, tail: string)
    requires IsWord(kind) && IsWord(blob) && IsTail(tail)
    ensures var f := Fields(kind + " " + (blob + tail)); |f| > 1 && f[0] == kind && f[1] == blob
  {
    BlobFields(blob, tail);
    WordThen(kind, blob + tail);
  }

  lemma WordIsRecord(word: string, rest: string)
    requires IsWord(word)
    ensures !IsComment(word + rest) && !IsEmpty(word + rest)
  {
    var record := word + rest;
    assert record[0] == word[0];
    assert BlankEnd(record) == 0;
  }

  /** A record without options carries exactly the keys awk takes for its blob, and is clean. */
  lemma PlainRecord(awk: Awk, kind: string, blob: string, tail: string, material: string)
    requires IsWord(kind) && NamesType(kind) && IsWord(blob) && IsTail(tail)
    ensures var record := kind + " " + blob + tail; (Carries(awk, record, material) <==> awk.same(blob, material)) && Clean(record)
  {
    hide Fields, IsKeyType, IsComment, IsEmpty, Permits, NamesType;
    var record := kind + " " + blob + tail;
    assert record == kind + " " + (blob + tail);
    assert record == kind + (" " + (blob + tail));
    WordIsRecord(kind, " " + (blob + tail));
    KeyFields(kind, blob, tail);
    TypesExactly(kind);
    assert TypeAt(Fields(record), 0);
    forall k: nat | TypeAt(Fields(record), k) ensures k == 0 { TypeIsOne(Fields(record), k, 0); }
    CleanAt(record, 0);
    assert Fields(record)[..0] == [];
    NoOptions();
  }

  predicate IsGap(s: string) {
    s != "" && forall i :: 0 <= i < |s| ==> s[i] == ' ' || s[i] == '\t'
  }

  lemma GapEnds(gap: string, rest: string)
    requires IsGap(gap) && (rest == "" || !IsBlank(rest[0]))
    ensures BlankEnd(gap + rest) == |gap| && WordEnd(gap + rest) == 0
  {
    var s := gap + rest;
    assert s[0] == gap[0];
    assert forall i :: 0 <= i < |gap| ==> s[i] == gap[i];
    assert rest != "" ==> s[|gap|] == rest[0];
  }

  lemma GapFields(gap: string, rest: string)
    requires IsGap(gap) && rest != "" && !IsBlank(rest[0])
    ensures Fields(gap + rest) == [""] + Fields(rest)
  {
    var s := gap + rest;
    GapEnds(gap, rest);
    assert s[..0] == "" && s[0..] == s && s[|gap|..] == rest;
  }

  /** Blanks in front change nothing: the empty field before them is no option. */
  lemma IndentedRecord(awk: Awk, gap: string, kind: string, blob: string, tail: string, material: string)
    requires IsGap(gap) && IsWord(kind) && NamesType(kind) && IsWord(blob) && IsTail(tail)
    ensures var record := gap + (kind + " " + blob + tail); (Carries(awk, record, material) <==> awk.same(blob, material)) && Clean(record)
  {
    hide Fields, IsKeyType, Permits, NamesType, IsGap;
    var key := kind + " " + blob + tail;
    var record := gap + key;
    assert key == kind + " " + (blob + tail) && key[0] == kind[0];
    GapEnds(gap, key);
    assert record[|gap|] == key[0];
    KeyFields(kind, blob, tail);
    GapFields(gap, key);
    var f := Fields(record);
    assert f[0] == "" && f[1] == kind && f[2] == blob;
    TypesExactly(kind);
    TypesExactly("");
    assert !NamesType("") by { NoTypeEmpty(); }
    assert TypeAt(f, 1);
    forall k: nat | TypeAt(f, k) ensures k == 1 { TypeIsOne(f, k, 1); }
    CleanAt(record, 1);
    assert f[..1] == [""];
    NoOption();
  }

  lemma NoTypeEmpty()
    ensures !NamesType("")
  {
  }

  lemma NoOption()
    ensures Permits([""])
  {
    assert Join([""], ',') == "";
  }

  /** What the scan looks for is the key's second word, whatever blanks come before the first. */
  lemma MaterialExactly(gap: string, first: string, second: string, tail: string)
    requires (gap == "" || IsGap(gap)) && IsWord(first) && IsWord(second) && IsTail(tail)
    ensures Material(gap + (first + " " + second + tail)) == second
  {
    hide Fields;
    var rest := first + " " + second + tail;
    var key := gap + rest;
    assert rest == first + " " + (second + tail) && rest[0] == first[0];
    KeyFields(first, second, tail);
    if gap == "" {
      assert key == rest && BlankEnd(rest) == 0 && rest[0..] == rest;
    } else {
      GapEnds(gap, rest);
      assert key[|gap|..] == rest;
    }
  }

  /** The options a manager can live with, by name. */
  predicate LetsManagerIn(option: string) {
    option == "pty" || option == "no-pty" || option == "agent-forwarding" || option == "no-agent-forwarding" ||
    option == "X11-forwarding" || option == "no-X11-forwarding" || option == "user-rc" || option == "no-user-rc" ||
    option == "restrict" || option == "port-forwarding"
  }

  /** A record with options in front carries the same keys. It is clean exactly if no option has a
      quote or a value, each is one of ten, and port forwarding is allowed if it is restricted. */
  lemma OptionsRecord(awk: Awk, options: string, kind: string, blob: string, tail: string, material: string)
    requires IsWord(options) && !NamesType(options) && IsWord(kind) && NamesType(kind) && IsWord(blob) && IsTail(tail)
    ensures var record := options + " " + (kind + " " + blob + tail); var list := Parts(options, ',');
      && (Carries(awk, record, material) <==> awk.same(blob, material))
      && (Clean(record) <==>
            && '"' !in options && '=' !in options && (forall i :: 0 <= i < |list| ==> LetsManagerIn(list[i]))
            && ("restrict" in list ==> "port-forwarding" in list))
  {
    hide Fields, IsKeyType, IsComment, IsEmpty, Permits, NamesType, LetsManagerIn, Parts;
    var key := kind + " " + blob + tail;
    var record := options + " " + key;
    assert key == kind + " " + (blob + tail) && key == kind + (" " + (blob + tail));
    assert record == options + (" " + key);
    WordIsRecord(options, " " + key);
    KeyFields(kind, blob, tail);
    assert key[0] == kind[0];
    WordThen(options, key);
    var f := Fields(record);
    assert f[0] == options && f[1] == kind && f[2] == blob;
    TypesExactly(options);
    TypesExactly(kind);
    assert TypeAt(f, 1);
    forall k: nat | TypeAt(f, k) ensures k == 1 { TypeIsOne(f, k, 1); }
    CleanAt(record, 1);
    assert f[..1] == [options];
    PermitsExactly(options);
  }

  lemma PermitsExactly(options: string)
    requires options != ""
    ensures var list := Parts(options, ',');
      Permits([options]) <==>
        && '"' !in options && '=' !in options && (forall i :: 0 <= i < |list| ==> LetsManagerIn(list[i]))
        && ("restrict" in list ==> "port-forwarding" in list)
  {
    hide Parts;
    var list := Parts(options, ',');
    assert Join([options], ',') == options && Pieces(options) == list;
    forall i | 0 <= i < |list|
      ensures (list[i] in HARMLESS || list[i] == "restrict" || list[i] == "port-forwarding") <==> LetsManagerIn(list[i])
    {
      HarmlessExactly(list[i]);
    }
  }

  lemma HarmlessExactly(option: string)
    ensures (option in HARMLESS || option == "restrict" || option == "port-forwarding") <==> LetsManagerIn(option)
  {
    assert HARMLESS[0] == "pty" && HARMLESS[1] == "no-pty" && HARMLESS[2] == "agent-forwarding";
    assert HARMLESS[3] == "no-agent-forwarding" && HARMLESS[4] == "X11-forwarding" && HARMLESS[5] == "no-X11-forwarding";
    assert HARMLESS[6] == "user-rc" && HARMLESS[7] == "no-user-rc";
  }
}
