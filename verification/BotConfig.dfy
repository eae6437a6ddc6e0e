/** Whether a bot setting does anything: the walk along the settings it depends on. */
module BotConfig {
  import opened Options

  type Key = string
  type Setting = string

  datatype Value = Text(text: string) | Entries(entries: seq<string>)

  datatype Dependency =
    | OnInstance(keys: seq<Key>, settings: seq<Setting>)
    | OnKey(keys: seq<Key>, required: Key)

  /** Every setting has a label and a client default. */
  datatype Catalogue = Catalogue(
    table: seq<Dependency>,
    keyLabel: Key -> string,
    clientDefault: Key -> Value,
    settingLabel: Setting -> string)

  datatype Unmet = Unmet(needs: seq<string>)

  function DependencyAt(table: seq<Dependency>, key: Key): (i: nat)
    ensures i <= |table|
    ensures i < |table| ==> key in table[i].keys
    ensures forall j :: 0 <= j < i ==> key !in table[j].keys
  {
    if table == [] || key in table[0].keys then 0 else 1 + DependencyAt(table[1..], key)
  }

  /** The first entry that lists the key. */
  function DependencyFor(table: seq<Dependency>, key: Key): Option<Dependency> {
    var i := DependencyAt(table, key);
    if i < |table| then Some(table[i]) else None
  }

  function EffectiveValue(cat: Catalogue, draft: map<Key, Value>, key: Key): Value {
    if key in draft then draft[key] else cat.clientDefault(key)
  }

  // ---- The whole chain ----

  /** The key after `n` steps along the chain, as long as it goes on. */
  function KeyAt(table: seq<Dependency>, key: Key, n: nat): Option<Key> {
    if n == 0 then Some(key)
    else
      var before := KeyAt(table, key, n - 1);
      if before.None? then None
      else
        var dependency := DependencyFor(table, before.value);
        if dependency.Some? && dependency.value.OnKey? then Some(dependency.value.required) else None
  }

  /** The key is set to `true`, or not set at all where that is what it defaults to. */
  predicate IsOn(cat: Catalogue, draft: map<Key, Value>, key: Key) {
    (key in draft && draft[key] == Text("true")) || (key !in draft && cat.clientDefault(key) == Text("true"))
  }

  lemma EffectiveIsOn(cat: Catalogue, draft: map<Key, Value>, key: Key)
    ensures EffectiveValue(cat, draft, key) == Text("true") <==> IsOn(cat, draft, key)
  {
  }

  /** What the key itself depends on is there. */
  predicate Met(cat: Catalogue, draft: map<Key, Value>, on: set<Setting>, key: Key) {
    var dependency := DependencyFor(cat.table, key);
    dependency.Some? ==>
      match dependency.value
      case OnInstance(_, settings) => forall i :: 0 <= i < |settings| ==> settings[i] in on
      case OnKey(_, required) => IsOn(cat, draft, required)
  }

  ghost predicate MetAt(cat: Catalogue, draft: map<Key, Value>, on: set<Setting>, key: Key, n: nat) {
    var current := KeyAt(cat.table, key, n);
    current.Some? ==> Met(cat, draft, on, current.value)
  }

  ghost predicate FirstUnmet(cat: Catalogue, draft: map<Key, Value>, on: set<Setting>, key: Key, n: nat) {
    !MetAt(cat, draft, on, key, n) && forall i :: 0 <= i < n ==> MetAt(cat, draft, on, key, i)
  }

  function Missing(settings: seq<Setting>, on: set<Setting>): (missing: seq<Setting>)
    ensures missing == [] <==> forall i :: 0 <= i < |settings| ==> settings[i] in on
    ensures forall s :: s in missing <==> s in settings && s !in on
    ensures |missing| <= |settings|
  {
    if settings == [] then [] else (if settings[0] in on then [] else [settings[0]]) + Missing(settings[1..], on)
  }

  /** What is missing is told in the order of the settings. */
  lemma {:induction false} MissingInOrder(a: seq<Setting>, b: seq<Setting>, on: set<Setting>)
    ensures Missing(a + b, on) == Missing(a, on) + Missing(b, on)
  {
    hide Missing;
    if a == [] {
      assert a + b == b;
      assert Missing([], on) == [];
    } else {
      MissingInOrder(a[1..], b, on);
      MissingFirst(a, on);
      MissingFirst(a + b, on);
      assert (a + b)[1..] == a[1..] + b;
      InARow(if a[0] in on then [] else [a[0]], Missing(a[1..], on), Missing(b, on));
    }
  }

  lemma InARow(a: seq<Setting>, b: seq<Setting>, c: seq<Setting>)
    ensures a + (b + c) == a + b + c
  {
  }

  lemma MissingFirst(settings: seq<Setting>, on: set<Setting>)
    requires settings != []
    ensures Missing(settings, on) == (if settings[0] in on then [] else [settings[0]]) + Missing(settings[1..], on)
  {
  }

  function Labels(cat: Catalogue, settings: seq<Setting>): seq<string> {
    seq(|settings|, i requires 0 <= i < |settings| => cat.settingLabel(settings[i]))
  }

  /** The labels of what the key lacks. */
  ghost predicate Reports(cat: Catalogue, on: set<Setting>, key: Key, unmet: Unmet) {
    var dependency := DependencyFor(cat.table, key);
    && dependency.Some?
    && match dependency.value
       case OnInstance(_, settings) =>
         && |unmet.needs| == |Missing(settings, on)|
         && forall i :: 0 <= i < |unmet.needs| ==> unmet.needs[i] == cat.settingLabel(Missing(settings, on)[i])
       case OnKey(_, required) => unmet.needs == [cat.keyLabel(required)]
  }

  /** The walk takes one step more than the table has entries, whatever the chain does. It says
      there is nothing unmet exactly if nothing on the whole chain is, however long or cyclic
      the chain; otherwise it reports the first key on it that lacks something. */
  method UnmetDependency(cat: Catalogue, draft: map<Key, Value>, on: set<Setting>, key: Key) returns (unmet: Option<Unmet>)
    ensures unmet.None? <==> forall n: nat :: MetAt(cat, draft, on, key, n)
    ensures unmet.Some? ==>
      exists n: nat :: FirstUnmet(cat, draft, on, key, n) && Reports(cat, on, KeyAt(cat.table, key, n).value, unmet.value)
  {
    hide EffectiveValue, IsOn, DependencyFor, Missing;
    var current := key;
    for step := 0 to |cat.table| + 1
      invariant KeyAt(cat.table, key, step) == Some(current)
      invariant forall i :: 0 <= i < step ==> MetAt(cat, draft, on, key, i)
    {
      var dependency := DependencyFor(cat.table, current);
      if dependency.None? {
        EndOfChain(cat, draft, on, key, step);
        return None;
      }
      match dependency.value {
        case OnInstance(_, settings) =>
          var missing := Missing(settings, on);
          if missing == [] {
            EndOfChain(cat, draft, on, key, step);
            return None;
          }
          assert FirstUnmet(cat, draft, on, key, step);
          return Some(Unmet(Labels(cat, missing)));
        case OnKey(_, required) =>
          EffectiveIsOn(cat, draft, required);
          if EffectiveValue(cat, draft, required) != Text("true") {
            assert FirstUnmet(cat, draft, on, key, step);
            return Some(Unmet([cat.keyLabel(required)]));
          }
          current := required;
      }
    }
    unmet := None;
    WalkedOut(cat, draft, on, key);
  }

  /** A chain that ends after `n` met keys has no others. */
  lemma EndOfChain(cat: Catalogue, draft: map<Key, Value>, on: set<Setting>, key: Key, n: nat)
    requires forall i :: 0 <= i <= n ==> MetAt(cat, draft, on, key, i)
    requires KeyAt(cat.table, key, n + 1).None?
    ensures forall i: nat :: MetAt(cat, draft, on, key, i)
  {
    hide Met, DependencyFor;
    forall i: nat ensures MetAt(cat, draft, on, key, i) {
      if i > n { StaysEnded(cat.table, key, n + 1, i); }
    }
  }

  lemma {:induction false} StaysEnded(table: seq<Dependency>, key: Key, n: nat, i: nat)
    requires KeyAt(table, key, n).None? && n <= i
    ensures KeyAt(table, key, i).None?
    decreases i
  {
    if n < i { StaysEnded(table, key, n, i - 1); }
  }

  // ---- The bound is enough ----

  /** More numbers than there are values for them: two are equal. */
  lemma {:induction false} Pigeonhole(s: seq<nat>, m: nat) returns (i: nat, j: nat)
    requires |s| == m + 1 && forall k :: 0 <= k < |s| ==> s[k] < m
    ensures i < j < |s| && s[i] == s[j]
    decreases m
  {
    var last := |s| - 1;
    if exists k :: 0 <= k < last && s[k] == s[last] {
      var k :| 0 <= k < last && s[k] == s[last];
      i, j := k, last;
    } else {
      // Put the greatest value in the last one's place, so that only smaller values remain.
      var t := seq(last, k requires 0 <= k < last => if s[k] == m - 1 then s[last] else s[k]);
      i, j := Pigeonhole(t, m - 1);
    }
  }

  /** The entry of the table that the key after `n` steps falls under. */
  function EntryAt(table: seq<Dependency>, key: Key, n: nat): nat {
    var current := KeyAt(table, key, n);
    if current.Some? then DependencyAt(table, current.value) else |table|
  }

  /** Two places on the chain with one entry are followed by the same keys. */
  lemma {:induction false} SameOnwards(table: seq<Dependency>, key: Key, i: nat, j: nat, n: nat)
    requires EntryAt(table, key, i) == EntryAt(table, key, j) < |table| && n > 0
    ensures KeyAt(table, key, i + n) == KeyAt(table, key, j + n)
    decreases n
  {
    if n > 1 { SameOnwards(table, key, i, j, n - 1); }
  }

  /** A chain that repeats itself goes on as it went before. */
  lemma {:induction false} Folded(cat: Catalogue, draft: map<Key, Value>, on: set<Setting>, key: Key, i: nat, j: nat, n: nat)
    requires i < j && EntryAt(cat.table, key, i) == EntryAt(cat.table, key, j) < |cat.table|
    requires forall k :: 0 <= k <= j ==> MetAt(cat, draft, on, key, k)
    ensures MetAt(cat, draft, on, key, n)
    decreases n
  {
    hide Met, KeyAt, EntryAt;
    if n > j {
      SameOnwards(cat.table, key, i, j, n - j);
      Folded(cat, draft, on, key, i, j, n - (j - i));
    }
  }

  lemma {:induction false} EarlierKeys(table: seq<Dependency>, key: Key, n: nat, i: nat)
    requires KeyAt(table, key, n).Some? && i < n
    ensures EntryAt(table, key, i) < |table|
    decreases n
  {
    if i < n - 1 { EarlierKeys(table, key, n - 1, i); }
  }

  /** A walk that is still going when it stops has met some entry twice. */
  lemma WalkedOut(cat: Catalogue, draft: map<Key, Value>, on: set<Setting>, key: Key)
    requires forall i :: 0 <= i < |cat.table| + 1 ==> MetAt(cat, draft, on, key, i)
    requires KeyAt(cat.table, key, |cat.table| + 1).Some?
    ensures forall n: nat :: MetAt(cat, draft, on, key, n)
  {
    hide Met, KeyAt, EntryAt;
    var m := |cat.table|;
    var entries := seq(m + 1, k requires 0 <= k < m + 1 => EntryAt(cat.table, key, k));
    forall k | 0 <= k < m + 1 ensures entries[k] < m { EarlierKeys(cat.table, key, m + 1, k); }
    var i, j := Pigeonhole(entries, m);
    forall n: nat ensures MetAt(cat, draft, on, key, n) {
      Folded(cat, draft, on, key, i, j, n);
    }
  }
}
