/** The choice of a new range of subordinate ids from `/etc/subuid` and `/etc/subgid`. */
module SubordinateRanges {
  import opened Options
  import opened Lines

  const FLOOR := 100_000
  const SIZE := 65_536

  // ---- Numbers ----

  predicate IsDigit(c: char) {
    '0' <= c <= '9'
  }

  /** `/^[0-9]+$/`. */
  predicate IsNumber(s: string) {
    s != "" && forall i :: 0 <= i < |s| ==> IsDigit(s[i])
  }

  function Value(s: string): nat
    requires forall i :: 0 <= i < |s| ==> IsDigit(s[i])
  {
    if s == "" then 0
    else
      assert IsDigit(s[|s| - 1]);
      Value(s[..|s| - 1]) * 10 + (s[|s| - 1] as int - '0' as int)
  }

  function Decimal(n: nat): (s: string)
    ensures IsNumber(s)
  {
    var digit := ['0' + (n % 10) as char];
    if n < 10 then digit else Decimal(n / 10) + digit
  }

  lemma {:induction false} DecimalValue(n: nat)
    ensures Value(Decimal(n)) == n
  {
    if n >= 10 {
      DecimalValue(n / 10);
      assert Decimal(n)[..|Decimal(n)| - 1] == Decimal(n / 10);
    } else {
      assert Decimal(n)[..0] == "";
    }
  }

  // ---- Ranges ----

  datatype Range = Range(first: nat, count: nat) {
    ghost predicate Has(id: int) {
      first <= id < first + count
    }
  }

  /** The range a record grants: three fields, the last two of them numbers. */
  function Granted(record: string): Option<Range> {
    var f := Parts(record, ':');
    if |f| == 3 && IsNumber(f[1]) && IsNumber(f[2]) then Some(Range(Value(f[1]), Value(f[2]))) else None
  }

  /** Every range the records grant ends at or below `top`. */
  ghost predicate Below(records: seq<string>, top: nat) {
    forall i :: 0 <= i < |records| && Granted(records[i]).Some? ==>
      Granted(records[i]).value.first + Granted(records[i]).value.count <= top
  }

  /** `top` is where the last of the ranges ends, or 0 if there is none. */
  ghost predicate IsTop(records: seq<string>, top: nat) {
    && Below(records, top)
    && (top == 0 || exists i :: 0 <= i < |records| && Granted(records[i]).Some?
                      && top == Granted(records[i]).value.first + Granted(records[i]).value.count)
  }

  /** The end of the highest range in the concatenated files, and no less than the floor. */
  ghost predicate Chosen(subuid: string, subgid: string, start: nat) {
    && FLOOR <= start && (start == FLOOR || IsTop(Records(subuid + subgid), start))
    && Below(Records(subuid + subgid), start)
  }

  /** The awk program. */
  method ChooseStart(subuid: string, subgid: string) returns (start: nat)
    ensures Chosen(subuid, subgid, start)
  {
    hide Granted;
    var records := Records(subuid + subgid);
    var top: nat := 0;
    for n := 0 to |records|
      invariant IsTop(records[..n], top)
    {
      var range := Granted(records[n]);
      assert records[..n + 1] == records[..n] + [records[n]];
      if range.Some? {
        var end := range.value.first + range.value.count;
        TopMore(records[..n], records[n], top, end);
        if end > top { top := end; }
      } else {
        TopSame(records[..n], records[n], top);
      }
    }
    assert records[..|records|] == records;
    start := if top > FLOOR then top else FLOOR;
  }

  lemma TopMore(records: seq<string>, record: string, top: nat, end: nat)
    requires IsTop(records, top) && Granted(record).Some?
    requires end == Granted(record).value.first + Granted(record).value.count
    ensures IsTop(records + [record], if end > top then end else top)
  {
    hide Granted;
    var all := records + [record];
    if end > top {
      assert all[|records|] == record;
    } else if top != 0 {
      var i :| 0 <= i < |records| && Granted(records[i]).Some? && top == Granted(records[i]).value.first + Granted(records[i]).value.count;
      assert all[i] == records[i];
    }
  }

  lemma TopSame(records: seq<string>, record: string, top: nat)
    requires IsTop(records, top) && Granted(record).None?
    ensures IsTop(records + [record], top)
  {
    hide Granted;
    var all := records + [record];
    if top != 0 {
      var i :| 0 <= i < |records| && Granted(records[i]).Some? && top == Granted(records[i]).value.first + Granted(records[i]).value.count;
      assert all[i] == records[i];
    }
  }

  // ---- The text of a record ----

  /** A name, a first id and a count, between two colons. */
  ghost predicate IsEntry(record: string, name: string, first: string, count: string) {
    record == name + ":" + first + ":" + count && ':' !in name && IsNumber(first) && IsNumber(count)
  }

  lemma EntryParts(name: string, first: string, count: string)
    requires ':' !in name && IsNumber(first) && IsNumber(count)
    ensures Parts(name + ":" + first + ":" + count, ':') == [name, first, count]
  {
    hide IsNumber;
    NoColon(first);
    NoColon(count);
    PartsConcat(name, first + ":" + count, ':');
    PartsConcat(first, count, ':');
    PartsWhole(name, ':');
    PartsWhole(first, ':');
    PartsWhole(count, ':');
    assert name + ":" + first + ":" + count == name + ":" + (first + ":" + count);
  }

  /** A record grants a range exactly if it is such a text, and then the range its two numbers
      say. */
  lemma GrantsExactly(record: string, range: Range)
    ensures Granted(record) == Some(range) <==>
      exists name, first, count :: IsEntry(record, name, first, count) && range == Range(Value(first), Value(count))
  {
    hide IsNumber, Value;
    var f := Parts(record, ':');
    if |f| == 3 && IsNumber(f[1]) && IsNumber(f[2]) {
      JoinParts(record, ':');
      JoinThree(f, ':');
      assert IsEntry(record, f[0], f[1], f[2]);
    }
    forall name, first, count | IsEntry(record, name, first, count) ensures f == [name, first, count] {
      EntryParts(name, first, count);
    }
  }

  lemma JoinThree(f: seq<string>, at: char)
    requires |f| == 3
    ensures Join(f, at) == f[0] + [at] + f[1] + [at] + f[2]
  {
    assert f[1..][1..] == [f[2]];
    assert Join(f[1..], at) == f[1] + [at] + f[2];
  }

  /** The new range begins behind every range either file grants in so many words, and not below
      100000; it is 100000 or the end of one of them. */
  lemma StartsBehind(subuid: string, subgid: string, start: nat, name: string, first: nat, count: nat)
    requires Chosen(subuid, subgid, start) && Separate(subuid) && ':' !in name
    ensures var record := name + ":" + Decimal(first) + ":" + Decimal(count);
      record in Records(subuid) || record in Records(subgid) ==> first + count <= start
    ensures start >= 100_000
    ensures start == 100_000 || exists record, name, first, count ::
      record in Records(subuid + subgid) && IsEntry(record, name, first, count) && start == Value(first) + Value(count)
  {
    hide Granted, Records, Separate, Decimal, Value;
    BelowBoth(subuid, subgid, start);
    DecimalValue(first);
    DecimalValue(count);
    var record := name + ":" + Decimal(first) + ":" + Decimal(count);
    assert IsEntry(record, name, Decimal(first), Decimal(count));
    GrantsExactly(record, Range(first, count));
    if start != FLOOR {
      var records := Records(subuid + subgid);
      var i :| 0 <= i < |records| && Granted(records[i]).Some?
               && start == Granted(records[i]).value.first + Granted(records[i]).value.count;
      GrantsExactly(records[i], Granted(records[i]).value);
      assert records[i] in records;
    }
  }

  // ---- Safety ----

  /** None of the ids from `start` on is in a range the file grants. */
  ghost predicate Disjoint(file: string, start: nat) {
    forall i, id :: 0 <= i < |Records(file)| && Granted(Records(file)[i]).Some? && Granted(Records(file)[i]).value.Has(id) ==>
      !(start <= id < start + SIZE)
  }

  lemma ChosenIsOne(subuid: string, subgid: string, a: nat, b: nat)
    requires Chosen(subuid, subgid, a) && Chosen(subuid, subgid, b)
    ensures a == b
  {
    hide Granted, Records;
  }

  /** The first file keeps its last record apart from the second file's first one: it is empty,
      or ends in a newline, or ends in a line without a colon, which no range can have. */
  predicate Separate(file: string) {
    file == "" || file[|file| - 1] == '\n' || |Parts(LastLine(file), ':')| == 1
  }

  function LastLine(file: string): string {
    var p := Parts(file, '\n');
    p[|p| - 1]
  }

  /** With such a first file, the new range meets no range of either file. */
  lemma SeparateIsSafe(subuid: string, subgid: string, start: nat)
    requires Chosen(subuid, subgid, start) && Separate(subuid)
    ensures Disjoint(subuid, start) && Disjoint(subgid, start)
  {
    hide Granted, Records, Separate;
    BelowBoth(subuid, subgid, start);
    BelowDisjoint(subuid, start);
    BelowDisjoint(subgid, start);
  }

  lemma BelowDisjoint(file: string, start: nat)
    requires Below(Records(file), start)
    ensures Disjoint(file, start)
  {
    hide Granted, Records;
  }

  /** The concatenated files, as records: the two lists in a row, or glued at the seam. */
  lemma Concatenated(a: string, b: string)
    ensures a == "" || a[|a| - 1] == '\n' ==> Records(a + b) == Records(a) + Records(b)
    ensures a != "" && a[|a| - 1] != '\n' && b != "" ==>
      && Records(b) != [] && Records(a) != [] && Records(a)[|Records(a)| - 1] == LastLine(a)
      && Records(a + b) == Records(a)[..|Records(a)| - 1] + [LastLine(a) + Records(b)[0]] + Records(b)[1..]
  {
    hide Parts;
    if a == "" {
      assert a + b == b;
    } else if a[|a| - 1] == '\n' {
      var body := a[..|a| - 1];
      PartsConcat(body, b, '\n');
      PartsConcat(body, "", '\n');
      PartsWhole("", '\n');
      assert body + "\n" + b == a + b && body + "\n" + "" == a;
      var p, q := Parts(body, '\n'), Parts(b, '\n');
      assert (p + q)[..|p + q| - 1] == p + q[..|q| - 1];
      if b == "" { assert Records(a + b) == p; }
    } else if b != "" {
      PartsGlue(a, b, '\n');
      LastPart(a);
      FirstRecord(b);
      var p, q := Parts(a, '\n'), Parts(b, '\n');
      var g := Glue(p, q);
      if q[|q| - 1] == "" {
        assert |q| > 1;
        assert g[..|g| - 1] == p[..|p| - 1] + [p[|p| - 1] + q[0]] + q[..|q| - 1][1..];
      }
    }
  }

  lemma FirstRecord(b: string)
    requires b != ""
    ensures Records(b) != [] && Records(b)[0] == Parts(b, '\n')[0]
    ensures |Parts(b, '\n')| == 1 ==> Parts(b, '\n')[0] != ""
  {
    JoinParts(b, '\n');
  }

  /** Gluing a prefix without a colon in front of a record leaves the range it grants. */
  lemma PrefixKeepsRange(prefix: string, record: string)
    requires |Parts(prefix, ':')| == 1
    ensures Granted(prefix + record) == Granted(record)
  {
    PartsGlue(prefix, record, ':');
  }

  lemma ShortGrantsNone(record: string)
    requires |Parts(record, ':')| != 3
    ensures Granted(record).None?
  {
  }

  lemma BelowBoth(a: string, b: string, top: nat)
    requires Separate(a) && Below(Records(a + b), top)
    ensures Below(Records(a), top) && Below(Records(b), top)
  {
    hide Granted, Records, LastLine;
    Concatenated(a, b);
    var r := Records(a + b);
    if a == "" || a[|a| - 1] == '\n' {
      forall i | 0 <= i < |Records(a)| ensures Records(a)[i] == r[i] {}
      forall i | 0 <= i < |Records(b)| ensures Records(b)[i] == r[|Records(a)| + i] {}
    } else if b == "" {
      assert a + b == a;
      assert Records(b) == [] by { NoRecords(); }
    } else {
      var n := |Records(a)| - 1;
      ShortGrantsNone(LastLine(a));
      PrefixKeepsRange(LastLine(a), Records(b)[0]);
      forall i | 0 <= i < n ensures Records(a)[i] == r[i] {}
      forall i | 0 < i < |Records(b)| ensures Records(b)[i] == r[n + i] {}
      assert r[n] == LastLine(a) + Records(b)[0];
    }
  }

  lemma NoRecords()
    ensures Records("") == []
  {
  }

  // ---- The family of unsafe files ----

  /** A group file that grants one range, at the very place that `subuid` leaves free. */
  function Spoiler(start: nat): string {
    "x:" + Decimal(start) + ":" + Decimal(SIZE) + "\n"
  }

  lemma SpoilerGrants(start: nat)
    ensures var record := "x:" + Decimal(start) + ":" + Decimal(SIZE);
      Spoiler(start) != "" && Records(Spoiler(start)) == [record] && |Parts(record, ':')| == 3 && Granted(record) == Some(Range(start, SIZE))
  {
    hide Decimal, Value, IsNumber;
    var first, count := Decimal(start), Decimal(SIZE);
    var record := "x:" + first + ":" + count;
    NoColon(first);
    NoColon(count);
    EntryParts("x", first, count);
    assert "x" + ":" + first + ":" + count == record;
    PartsConcat(record, "", '\n');
    PartsWhole(record, '\n');
    PartsWhole("", '\n');
    assert record + "\n" + "" == Spoiler(start);
    assert [record] + [""] == [record, ""] && [record, ""][..1] == [record];
    DecimalValue(start);
    DecimalValue(SIZE);
  }

  lemma NoColon(s: string)
    requires IsNumber(s)
    ensures ':' !in s && '\n' !in s
  {
  }

  /** With any other first file there is a second one whose range the new range meets. */
  lemma NotSeparateIsUnsafe(subuid: string) returns (subgid: string, start: nat)
    requires !Separate(subuid)
    ensures Chosen(subuid, subgid, start) && !Disjoint(subgid, start)
  {
    hide Granted, Records, LastLine, Spoiler;
    var n := |Records(subuid)| - 1;
    EndsUnfinished(subuid);
    var kept := Records(subuid)[..n];
    start := StartAfter(kept);
    subgid := Spoiler(start);
    SpoilerGrants(start);
    var record := Records(subgid)[0];
    Concatenated(subuid, subgid);
    PartsGlue(LastLine(subuid), record, ':');
    ShortGrantsNone(LastLine(subuid) + record);
    var all := Records(subuid + subgid);
    assert all == kept + [LastLine(subuid) + record];
    SameTop(kept, LastLine(subuid) + record, start);
    assert Granted(Records(subgid)[0]).value.Has(start);
  }

  lemma EndsUnfinished(file: string)
    requires !Separate(file)
    ensures file != "" && file[|file| - 1] != '\n' && |Parts(LastLine(file), ':')| > 1
    ensures |Records(file)| > 0
  {
    LastPart(file);
  }

  /** Where the awk program would start if these were all the records. */
  ghost function StartAfter(records: seq<string>): (start: nat)
    ensures FLOOR <= start && Below(records, start) && (start == FLOOR || IsTop(records, start))
  {
    hide Granted;
    if records == [] then FLOOR
    else
      var front, last := records[..|records| - 1], records[|records| - 1];
      var before := StartAfter(front);
      assert records == front + [last];
      if Granted(last).Some? && Granted(last).value.first + Granted(last).value.count > before
      then
        TopIs(front, last, before);
        Granted(last).value.first + Granted(last).value.count
      else
        StaysBelow(front, last, before);
        before
  }

  lemma TopIs(front: seq<string>, last: string, before: nat)
    requires Below(front, before) && Granted(last).Some?
    requires Granted(last).value.first + Granted(last).value.count > before
    ensures IsTop(front + [last], Granted(last).value.first + Granted(last).value.count)
  {
    hide Granted;
    assert (front + [last])[|front|] == last;
  }

  lemma StaysBelow(front: seq<string>, last: string, before: nat)
    requires Below(front, before)
    requires Granted(last).Some? ==> Granted(last).value.first + Granted(last).value.count <= before
    ensures Below(front + [last], before)
    ensures IsTop(front, before) ==> IsTop(front + [last], before)
  {
    hide Granted;
    if IsTop(front, before) && before != 0 {
      var i :| 0 <= i < |front| && Granted(front[i]).Some? && before == Granted(front[i]).value.first + Granted(front[i]).value.count;
      assert (front + [last])[i] == front[i];
    }
  }

  lemma SameTop(kept: seq<string>, record: string, start: nat)
    requires Granted(record).None? && Below(kept, start) && (start == FLOOR || IsTop(kept, start))
    ensures Below(kept + [record], start) && (start == FLOOR || IsTop(kept + [record], start))
  {
    hide Granted;
    StaysBelow(kept, record, start);
  }

  /** The range is safe whatever the second file holds exactly if the first file keeps its last
      record apart. */
  lemma SafeExactly(subuid: string)
    ensures Separate(subuid) <==>
      forall subgid, start :: Chosen(subuid, subgid, start) ==> Disjoint(subuid, start) && Disjoint(subgid, start)
  {
    hide Granted, Records, Separate, Chosen, Disjoint;
    if Separate(subuid) {
      forall subgid, start: nat | Chosen(subuid, subgid, start) ensures Disjoint(subuid, start) && Disjoint(subgid, start) {
        SeparateIsSafe(subuid, subgid, start);
      }
    } else {
      var subgid, start := NotSeparateIsUnsafe(subuid);
    }
  }
}
