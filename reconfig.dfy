/**
 * docker/reconfig.rb: turns a Jenkins-generated configuration, a JSON array of `key`/`value`
 * entries, into nested JSON. Each key is split on "_"; every segment but the last names a nested
 * object (created on first use), and the value is stored under the last segment.
 *
 * Reading the file, parsing and printing JSON are not modelled: the script's input is the parsed
 * document and its output the nested configuration it would print.
 */
module Reconfig {
  import opened Wrappers

  /** The separator. */
  const Sep: char := '_'

  /** One element of the input array. */
  datatype Entry<V> = Entry(key: string, value: V)

  /** The parsed input document: an array of entries, or anything else. */
  datatype Document<V> = EntryArray(entries: seq<Entry<V>>) | NotAnArray

  /** A value of the nested configuration: a stored value, or a nested object. */
  datatype Node<V> = Leaf(value: V) | Branch(children: map<string, Node<V>>)

  /**
   * The nested configuration: the objects and values under string keys, and the value stored under
   * Ruby's nil key, which is where a key that splits into nothing (empty, or separators only) goes.
   * The nil key is a key of its own, apart from the string "".
   */
  datatype Config<V> = Config(named: map<string, Node<V>>, nilKey: Option<V>)

  /** How the script ends: it prints the nested configuration, exits with a message, or raises. */
  datatype ScriptOutcome<V> =
    | Printed(config: Config<V>)
    | Exit(status: nat, message: string)
    | Raised

  // ---------------------------------------------------------------- splitting keys

  predicate NoSep(s: string) {
    forall i :: 0 <= i < |s| ==> s[i] != Sep
  }

  /** Every segment between separators, empty ones included. */
  function Segments(s: string): (r: seq<string>)
    ensures |r| >= 1
  {
    if s == [] then [""]
    else
      var rest := Segments(s[1..]);
      if s[0] == Sep then [""] + rest else [[s[0]] + rest[0]] + rest[1..]
  }

  /** The segments joined back with the separator. */
  function Join(segs: seq<string>): string {
    if segs == [] then ""
    else if |segs| == 1 then segs[0]
    else segs[0] + [Sep] + Join(segs[1..])
  }

  /** Splitting and joining are inverse: the segments rebuild the key, and none holds a separator. */
  lemma {:induction false} SegmentsJoin(s: string)
    ensures Join(Segments(s)) == s
    ensures forall i :: 0 <= i < |Segments(s)| ==> NoSep(Segments(s)[i])
  {
    if s != [] {
      SegmentsJoin(s[1..]);
      var rest := Segments(s[1..]);
      if s[0] == Sep {
        assert Join(Segments(s)) == "" + [Sep] + Join(rest);
      } else {
        assert Segments(s)[0] == [s[0]] + rest[0];
        if |rest| == 1 {
          assert Join(Segments(s)) == [s[0]] + rest[0];
        } else {
          assert Join(rest) == rest[0] + [Sep] + Join(rest[1..]);
          assert Segments(s)[1..] == rest[1..];
        }
        assert s == [s[0]] + s[1..];
      }
    }
  }

  /** A separator-free word followed by a separator contributes exactly that word. */
  lemma {:induction false} SegmentsOfWord(a: string, b: string)
    requires NoSep(a)
    ensures Segments(a) == [a]
    ensures Segments(a + [Sep] + b) == [a] + Segments(b)
  {
    if a != [] {
      SegmentsOfWord(a[1..], b);
      assert (a + [Sep] + b)[1..] == a[1..] + [Sep] + b;
      assert [a[0]] + a[1..] == a;
    } else {
      assert a + [Sep] + b == [Sep] + b;
    }
  }

  /** Drops the empty segments at the end, as Ruby's `String#split` does. */
  function TrimTrailing(segs: seq<string>): (r: seq<string>)
    ensures r <= segs
    ensures r == [] || r[|r| - 1] != ""
    ensures forall i | |r| <= i < |segs| :: segs[i] == ""
  {
    if segs != [] && segs[|segs| - 1] == "" then TrimTrailing(segs[..|segs| - 1]) else segs
  }

  /** `key.split("_")`. */
  function Split(key: string): (r: seq<string>)
    ensures r <= Segments(key)
    ensures r == [] || r[|r| - 1] != ""
    ensures forall i | |r| <= i < |Segments(key)| :: Segments(key)[i] == ""
  {
    TrimTrailing(Segments(key))
  }

  // ---------------------------------------------------------------- storing one entry

  /**
   * Storing `v` at `path` raises when a proper prefix of the path already holds a stored value
   * (Ruby then indexes into that value instead of a nested object).
   */
  predicate Blocked<V>(t: map<string, Node<V>>, path: seq<string>)
    decreases |path|
  {
    |path| > 1 && path[0] in t && (t[path[0]].Leaf? || Blocked(t[path[0]].children, path[1..]))
  }

  /**
   * `keys[0...-1].inject(newconfig) { |acc, h| acc[h] }[keys.last] = value` on the auto-vivifying
   * hash: the intermediate objects are looked up or created, and the last segment is overwritten.
   */
  function Insert<V>(t: map<string, Node<V>>, path: seq<string>, v: V): (r: Option<map<string, Node<V>>>)
    requires |path| >= 1
    ensures r.None? <==> Blocked(t, path)
    ensures r.Some? ==> r.value.Keys == t.Keys + {path[0]}
    ensures r.Some? ==> forall k :: k in t && k != path[0] ==> r.value[k] == t[k]
    decreases |path|
  {
    if |path| == 1 then Some(t[path[0] := Leaf(v)])
    else
      var child := if path[0] in t then t[path[0]] else Branch(map[]);
      if child.Leaf? then None
      else match Insert(child.children, path[1..], v)
        case None => None
        case Some(c) => Some(t[path[0] := Branch(c)])
  }

  /** The value stored at `path`, if any. */
  function Lookup<V>(t: map<string, Node<V>>, path: seq<string>): Option<V>
    requires |path| >= 1
    decreases |path|
  {
    if path[0] !in t then None
    else if |path| == 1 then (if t[path[0]].Leaf? then Some(t[path[0]].value) else None)
    else if t[path[0]].Leaf? then None
    else Lookup(t[path[0]].children, path[1..])
  }

  /** Two paths that part ways: neither is a prefix of the other. */
  predicate Diverge(p: seq<string>, q: seq<string>) {
    |p| >= 1 && |q| >= 1 && (p[0] != q[0] || Diverge(p[1..], q[1..]))
  }

  /** After a store, the path holds the stored value. */
  lemma {:induction false} InsertThenLookup<V>(t: map<string, Node<V>>, path: seq<string>, v: V)
    requires |path| >= 1 && Insert(t, path, v).Some?
    ensures Lookup(Insert(t, path, v).value, path) == Some(v)
    decreases |path|
  {
    if |path| > 1 {
      var child := if path[0] in t then t[path[0]] else Branch(map[]);
      InsertThenLookup(child.children, path[1..], v);
    }
  }

  /** A store leaves every path that parts ways with it as it was. */
  lemma {:induction false} InsertKeepsOthers<V>(t: map<string, Node<V>>, path: seq<string>, v: V, q: seq<string>)
    requires |path| >= 1 && Insert(t, path, v).Some? && Diverge(path, q)
    ensures Lookup(Insert(t, path, v).value, q) == Lookup(t, q)
    decreases |path|
  {
    if path[0] == q[0] {
      var child := if path[0] in t then t[path[0]] else Branch(map[]);
      InsertKeepsOthers(child.children, path[1..], v, q[1..]);
    }
  }

  /** Storing twice at the same path is storing the second value: a later entry overwrites an earlier one. */
  lemma {:induction false} InsertOverwrites<V>(t: map<string, Node<V>>, path: seq<string>, v1: V, v2: V)
    requires |path| >= 1 && Insert(t, path, v1).Some?
    ensures Insert(Insert(t, path, v1).value, path, v2) == Insert(t, path, v2)
    decreases |path|
  {
    if |path| > 1 {
      var child := if path[0] in t then t[path[0]] else Branch(map[]);
      var c1 := Insert(child.children, path[1..], v1).value;
      InsertOverwrites(child.children, path[1..], v1, v2);
      assert Insert(t, path, v1).value[path[0]] == Branch(c1);
      if Insert(child.children, path[1..], v2).Some? {
        var c2 := Insert(child.children, path[1..], v2).value;
        assert Insert(t, path, v1).value[path[0] := Branch(c2)] == t[path[0] := Branch(c2)];
      }
    } else {
      assert Insert(t, path, v1).value[path[0] := Leaf(v2)] == t[path[0] := Leaf(v2)];
    }
  }

  /** A key without separator lands at the top level. */
  lemma SingleSegmentAtTop<V>(c: Config<V>, key: string, v: V)
    requires key != "" && NoSep(key)
    ensures Split(key) == [key]
    ensures Store(c, key, v) == Some(c.(named := c.named[key := Leaf(v)]))
  {
    SegmentsOfWord(key, "");
  }

  /**
   * Storing one entry: a key that splits into nothing sets the nil key; any other key is stored at
   * its split path among the named entries, which raises exactly when that path is blocked.
   */
  function Store<V>(c: Config<V>, key: string, v: V): (r: Option<Config<V>>)
    ensures Split(key) == [] ==> r == Some(c.(nilKey := Some(v)))
    ensures Split(key) != [] ==> (r.None? <==> Blocked(c.named, Split(key)))
    ensures Split(key) != [] && r.Some? ==>
      r.value.nilKey == c.nilKey && Lookup(r.value.named, Split(key)) == Some(v)
  {
    if Split(key) == [] then Some(c.(nilKey := Some(v)))
    else match Insert(c.named, Split(key), v)
      case None => None
      case Some(t) => InsertThenLookup(c.named, Split(key), v); Some(c.(named := t))
  }

  // ---------------------------------------------------------------- the whole script

  /** The nested configuration the entries build, in order; None when some entry raises. */
  function Build<V>(entries: seq<Entry<V>>): Option<Config<V>> {
    if entries == [] then Some(Config(map[], None))
    else
      var before := Build(entries[..|entries| - 1]);
      var e := entries[|entries| - 1];
      if before.None? then None else Store(before.value, e.key, e.value)
  }

  /** Once an entry raised, the whole build has. */
  lemma {:induction false} BuildKeepsFailure<V>(entries: seq<Entry<V>>, i: nat)
    requires i <= |entries| && Build(entries[..i]).None?
    ensures Build(entries).None?
    decreases |entries| - i
  {
    if i < |entries| {
      assert entries[..i + 1][..i] == entries[..i];
      BuildKeepsFailure(entries, i + 1);
    } else {
      assert entries[..i] == entries;
    }
  }

  /** The last entry's value is stored under its key (the nil key, or its split path), whatever came before. */
  lemma LastEntryWins<V>(entries: seq<Entry<V>>, e: Entry<V>)
    requires Build(entries + [e]).Some?
    ensures Split(e.key) == [] ==> Build(entries + [e]).value.nilKey == Some(e.value)
    ensures Split(e.key) != [] ==> Lookup(Build(entries + [e]).value.named, Split(e.key)) == Some(e.value)
  {
    assert (entries + [e])[..|entries|] == entries;
  }

  /**
   * A key made of separators only and a key starting with a separator are kept apart, in either
   * order: the first goes under the nil key, the second below the string key "".
   */
  lemma NilKeyKeptApart<V>(x: V, y: V)
    ensures Build([Entry("", x), Entry("_a", y)]) == Some(Config(map["" := Branch(map["a" := Leaf(y)])], Some(x)))
    ensures Build([Entry("_a", y), Entry("_", x)]) == Some(Config(map["" := Branch(map["a" := Leaf(y)])], Some(x)))
  {
    SegmentsOfWord("a", "");
    SegmentsOfWord("", "a");
    assert "_a" == "" + [Sep] + "a";
    assert Segments("_a") == ["", "a"];
    assert Split("_a") == ["", "a"];
    assert Segments("_") == ["", ""];
    assert Split("_") == [];
    assert Split("") == [];
    assert ["", "a"][1..] == ["a"];
    assert Insert(map[], ["a"], y) == Some(map["a" := Leaf(y)]);
    assert Insert(map[], ["", "a"], y) == Some(map["" := Branch(map["a" := Leaf(y)])]);
    BuildSnoc([], Entry("", x));
    BuildSnoc([Entry("", x)], Entry("_a", y));
    assert [] + [Entry("", x)] == [Entry("", x)];
    assert [Entry("", x)] + [Entry("_a", y)] == [Entry("", x), Entry("_a", y)];
    BuildSnoc([], Entry("_a", y));
    BuildSnoc([Entry("_a", y)], Entry("_", x));
    assert [] + [Entry("_a", y)] == [Entry("_a", y)];
    assert [Entry("_a", y)] + [Entry("_", x)] == [Entry("_a", y), Entry("_", x)];
  }

  const NoArgumentMessage: string := "No config file specified!"

  function CannotProcessMessage(file: string): string {
    "Cannot process config file " + file + ", aborting!"
  }

  /** The script, given its arguments and the parsed contents of the file the first one names. */
  method Run<V>(args: seq<string>, document: Document<V>) returns (r: ScriptOutcome<V>)
    ensures args == [] ==> r == Exit(1, NoArgumentMessage)
    ensures args != [] && document.NotAnArray? ==> r == Exit(1, CannotProcessMessage(args[0]))
    ensures args != [] && document.EntryArray? ==>
      r == (if Build(document.entries).Some? then Printed(Build(document.entries).value) else Raised)
  {
    if |args| == 0 {
      return Exit(1, NoArgumentMessage);
    }
    if document.NotAnArray? {
      return Exit(1, CannotProcessMessage(args[0]));
    }
    var entries := document.entries;
    var newconfig: Config<V> := Config(map[], None);
    for i := 0 to |entries|
      invariant Build(entries[..i]) == Some(newconfig)
    {
      assert entries[..i + 1][..i] == entries[..i];
      var stored := Store(newconfig, entries[i].key, entries[i].value);
      if stored.None? {
        BuildKeepsFailure(entries, i + 1);
        return Raised;
      }
      newconfig := stored.value;
    }
    assert entries[..|entries|] == entries;
    return Printed(newconfig);
  }

  /** Building one more entry stores it on top of what the earlier entries built. */
  lemma BuildSnoc<V>(entries: seq<Entry<V>>, e: Entry<V>)
    ensures Build(entries + [e]) ==
      if Build(entries).None? then None else Store(Build(entries).value, e.key, e.value)
  {
    assert (entries + [e])[..|entries|] == entries;
  }

  /** The first entry of the example's shape: the nested objects are created on the way. */
  lemma ShapeFirst<V>(a: string, b: string, c: string, v: V)
    requires a != "" && b != "" && c != "" && NoSep(a) && NoSep(b) && NoSep(c)
    ensures Build([Entry(a + "_" + b + "_" + c, v)]) == Some(Config(map[a := Branch(map[b := Branch(map[c := Leaf(v)])])], None))
  {
    SplitsInThree(a, b, c);
    BuildSnoc([], Entry(a + "_" + b + "_" + c, v));
    assert [a, b, c][1..] == [b, c] && [b, c][1..] == [c];
    assert Insert(map[], [c], v) == Some(map[c := Leaf(v)]);
    assert Insert(map[], [b, c], v) == Some(map[b := Branch(map[c := Leaf(v)])]);
    assert [] + [Entry(a + "_" + b + "_" + c, v)] == [Entry(a + "_" + b + "_" + c, v)];
  }

  /** A further entry below the same two objects joins the innermost object. */
  lemma ShapeNext<V>(a: string, b: string, c: string, v: V, inner: map<string, Node<V>>)
    requires a != "" && b != "" && c != "" && NoSep(a) && NoSep(b) && NoSep(c)
    ensures Split(a + "_" + b + "_" + c) == [a, b, c]
    ensures Insert(map[a := Branch(map[b := Branch(inner)])], [a, b, c], v) ==
      Some(map[a := Branch(map[b := Branch(inner[c := Leaf(v)])])])
  {
    SplitsInThree(a, b, c);
    var t := map[a := Branch(map[b := Branch(inner)])];
    assert [a, b, c][1..] == [b, c] && [b, c][1..] == [c];
    assert Insert(inner, [c], v) == Some(inner[c := Leaf(v)]);
    assert map[b := Branch(inner)][b := Branch(inner[c := Leaf(v)])] == map[b := Branch(inner[c := Leaf(v)])];
    assert Insert(map[b := Branch(inner)], [b, c], v) == Some(map[b := Branch(inner[c := Leaf(v)])]);
    assert Insert(t, [a, b, c], v) == Some(t[a := Branch(map[b := Branch(inner[c := Leaf(v)])])]);
    assert t[a := Branch(map[b := Branch(inner[c := Leaf(v)])])] == map[a := Branch(map[b := Branch(inner[c := Leaf(v)])])];
  }

  /** Three keys below the same two objects build one innermost object holding all three. */
  lemma ShapeThree<V>(a: string, b: string, c1: string, c2: string, c3: string, v1: V, v2: V, v3: V)
    requires a != "" && b != "" && c1 != "" && c2 != "" && c3 != ""
    requires NoSep(a) && NoSep(b) && NoSep(c1) && NoSep(c2) && NoSep(c3)
    ensures Build([Entry(a + "_" + b + "_" + c1, v1), Entry(a + "_" + b + "_" + c2, v2), Entry(a + "_" + b + "_" + c3, v3)]) ==
      Some(Config(map[a := Branch(map[b := Branch(map[c1 := Leaf(v1)][c2 := Leaf(v2)][c3 := Leaf(v3)])])], None))
  {
    var e1, e2 := Entry(a + "_" + b + "_" + c1, v1), Entry(a + "_" + b + "_" + c2, v2);
    var e3 := Entry(a + "_" + b + "_" + c3, v3);
    var inner1 := map[c1 := Leaf(v1)];
    var inner2 := inner1[c2 := Leaf(v2)];
    ShapeFirst(a, b, c1, v1);
    ShapeNext(a, b, c2, v2, inner1);
    BuildStep([e1], e2, map[a := Branch(map[b := Branch(inner1)])], map[a := Branch(map[b := Branch(inner2)])]);
    assert [e1] + [e2] == [e1, e2];
    ShapeNext(a, b, c3, v3, inner2);
    BuildStep([e1, e2], e3, map[a := Branch(map[b := Branch(inner2)])], map[a := Branch(map[b := Branch(inner2[c3 := Leaf(v3)])])]);
    assert [e1, e2] + [e3] == [e1, e2, e3];
  }

  /**
   * The shape of the example in the script's header: three keys below the same two objects and one
   * top-level key.
   */
  lemma ExampleShape<V>(a: string, b: string, c1: string, c2: string, c3: string, d: string, v1: V, v2: V, v3: V, v4: V)
    requires a != "" && b != "" && c1 != "" && c2 != "" && c3 != "" && d != ""
    requires NoSep(a) && NoSep(b) && NoSep(c1) && NoSep(c2) && NoSep(c3) && NoSep(d)
    ensures Build([Entry(a + "_" + b + "_" + c1, v1), Entry(a + "_" + b + "_" + c2, v2),
                   Entry(a + "_" + b + "_" + c3, v3), Entry(d, v4)]) ==
      Some(Config(map[a := Branch(map[b := Branch(map[c1 := Leaf(v1)][c2 := Leaf(v2)][c3 := Leaf(v3)])])][d := Leaf(v4)], None))
  {
    var e1, e2 := Entry(a + "_" + b + "_" + c1, v1), Entry(a + "_" + b + "_" + c2, v2);
    var e3, e4 := Entry(a + "_" + b + "_" + c3, v3), Entry(d, v4);
    var t := map[a := Branch(map[b := Branch(map[c1 := Leaf(v1)][c2 := Leaf(v2)][c3 := Leaf(v3)])])];
    ShapeThree(a, b, c1, c2, c3, v1, v2, v3);
    SingleSegmentAtTop(Config(t, None), d, v4);
    BuildStep([e1, e2, e3], e4, t, t[d := Leaf(v4)]);
    assert [e1, e2, e3] + [e4] == [e1, e2, e3, e4];
  }

  /** One more entry, inserted into what the entries before it built. */
  lemma BuildStep<V>(entries: seq<Entry<V>>, e: Entry<V>, before: map<string, Node<V>>, after: map<string, Node<V>>)
    requires Build(entries) == Some(Config(before, None)) && Split(e.key) != [] && Insert(before, Split(e.key), e.value) == Some(after)
    ensures Build(entries + [e]) == Some(Config(after, None))
  {
    BuildSnoc(entries, e);
  }

  lemma ExampleWords()
    ensures NoSep("accounts") && NoSep("test") && NoSep("region") && NoSep("key") && NoSep("secret") && NoSep("port")
    ensures "accounts" + "_" + "test" + "_" + "region" == "accounts_test_region"
    ensures "accounts" + "_" + "test" + "_" + "key" == "accounts_test_key"
    ensures "accounts" + "_" + "test" + "_" + "secret" == "accounts_test_secret"
  {
  }

  /** The example in the script's header. */
  lemma DocumentedExample()
    ensures Build([Entry("accounts_test_region", "us-east-1"), Entry("accounts_test_key", "KEY"),
                   Entry("accounts_test_secret", "SECRET"), Entry("port", "8080")]) ==
      Some(Config(map[
        "accounts" := Branch(map["test" := Branch(map[
          "region" := Leaf("us-east-1"), "key" := Leaf("KEY"), "secret" := Leaf("SECRET")])]),
        "port" := Leaf("8080")], None))
  {
    ExampleWords();
    ExampleShape("accounts", "test", "region", "key", "secret", "port", "us-east-1", "KEY", "SECRET", "8080");
  }

  lemma SplitsInThree(a: string, b: string, c: string)
    requires a != "" && b != "" && c != "" && NoSep(a) && NoSep(b) && NoSep(c)
    ensures Split(a + "_" + b + "_" + c) == [a, b, c]
  {
    SegmentsOfWord(b, c);
    SegmentsOfWord(c, "");
    SegmentsOfWord(a, b + "_" + c);
    assert a + "_" + b + "_" + c == a + [Sep] + (b + [Sep] + c);
    assert Segments(a + "_" + b + "_" + c) == [a, b, c];
  }
}
