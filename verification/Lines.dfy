/** Splitting a text at a character, and the records awk sees in a file. */
module Lines {

  predicate IsBlank(c: char) {
    c == ' ' || c == '\t'
  }

  function Parts<T(==)>(s: seq<T>, at: T): (p: seq<seq<T>>)
    ensures |p| > 0
    ensures forall i :: 0 <= i < |p| ==> at !in p[i]
  {
    if s == [] then [[]]
    else
      var rest := Parts(s[1..], at);
      if s[0] == at then [[]] + rest else [[s[0]] + rest[0]] + rest[1..]
  }

  function Join<T>(parts: seq<seq<T>>, at: T): seq<T> {
    if |parts| == 0 then [] else if |parts| == 1 then parts[0] else parts[0] + [at] + Join(parts[1..], at)
  }

  /** Splitting loses nothing. */
  lemma {:induction false} JoinParts<T>(s: seq<T>, at: T)
    ensures Join(Parts(s, at), at) == s
  {
    if s != [] {
      JoinParts(s[1..], at);
      var rest := Parts(s[1..], at);
      if s[0] == at {
        assert ([[]] + rest)[1..] == rest;
      } else {
        assert ([[s[0]] + rest[0]] + rest[1..])[1..] == rest[1..];
        assert s == [s[0]] + s[1..];
      }
    }
  }

  lemma {:induction false} PartsWhole<T>(s: seq<T>, at: T)
    requires at !in s
    ensures Parts(s, at) == [s]
  {
    if s != [] {
      PartsWhole(s[1..], at);
      assert [s[0]] + s[1..] == s;
    }
  }

  function Glue<T>(p: seq<seq<T>>, q: seq<seq<T>>): (r: seq<seq<T>>)
    requires p != [] && q != []
    ensures r != []
  {
    p[..|p| - 1] + [p[|p| - 1] + q[0]] + q[1..]
  }

  lemma GlueMore<T>(first: seq<T>, p: seq<seq<T>>, q: seq<seq<T>>)
    requires p != [] && q != []
    ensures Glue([first] + p, q) == [first] + Glue(p, q)
  {
    assert ([first] + p)[..|p|] == [first] + p[..|p| - 1];
  }

  lemma GlueHead<T>(c: T, p: seq<seq<T>>, q: seq<seq<T>>)
    requires p != [] && q != []
    ensures Glue([[c] + p[0]] + p[1..], q) == [[c] + Glue(p, q)[0]] + Glue(p, q)[1..]
  {
    if |p| == 1 {
      assert [c] + p[0] + q[0] == [c] + (p[0] + q[0]);
    } else {
      GlueMore([c] + p[0], p[1..], q);
      GlueMore(p[0], p[1..], q);
      assert p == [p[0]] + p[1..];
    }
  }

  /** What comes before and after a seam becomes one part. */
  lemma {:induction false} PartsGlue<T>(a: seq<T>, b: seq<T>, at: T)
    ensures Parts(a + b, at) == Glue(Parts(a, at), Parts(b, at))
  {
    hide Glue;
    var q := Parts(b, at);
    if a == [] {
      assert a + b == b;
      GlueEmpty(q);
    } else {
      PartsGlue(a[1..], b, at);
      assert (a + b)[1..] == a[1..] + b;
      if a[0] == at { GlueMore([], Parts(a[1..], at), q); } else { GlueHead(a[0], Parts(a[1..], at), q); }
    }
  }

  lemma GlueEmpty<T>(q: seq<seq<T>>)
    requires q != []
    ensures Glue([[]], q) == q
  {
    assert [] + q[0] == q[0];
  }

  lemma PartsConcat<T>(a: seq<T>, b: seq<T>, at: T)
    ensures Parts(a + [at] + b, at) == Parts(a, at) + Parts(b, at)
  {
    var p, q := Parts(a, at), Parts(b, at);
    assert a + [at] + b == a + ([at] + b);
    assert ([at] + b)[1..] == b;
    PartsGlue(a, [at] + b, at);
    assert p[|p| - 1] + [] == p[|p| - 1];
    assert Glue(p, [[]] + q) == p + q;
  }

  /** The records awk reads from a file: its lines, where a final newline ends the last line
      and does not begin another. */
  function Records(file: string): (r: seq<string>)
    ensures forall i :: 0 <= i < |r| ==> '\n' !in r[i]
  {
    if file == "" then []
    else
      var lines := Parts(file, '\n');
      if lines[|lines| - 1] == "" then lines[..|lines| - 1] else lines
  }

  /** A file that does not end in a newline ends in a record that is not empty. */
  lemma {:induction false} LastPart(file: string)
    requires file != "" && file[|file| - 1] != '\n'
    ensures var p := Parts(file, '\n'); p[|p| - 1] != ""
  {
    if |file| > 1 { LastPart(file[1..]); }
  }
}
