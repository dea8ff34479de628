/** Bringing a config file up to date: the settings it lacks are added, and
    nothing in it is touched. */
module Reconcile {
  import opened Wrappers

  /** Anything that is not a table is a leaf, whatever it holds. */
  datatype Item = Leaf(text: string) | Table(entries: Entries)

  datatype Entry = Entry(key: string, item: Item)

  /** A table in the order it is written. */
  type Entries = seq<Entry>

  /** The table whose contents belong to the user. */
  const USER_OWNED: string := "commands"

  function PathOf(prefix: string, key: string): string {
    if prefix == "" then key else prefix + "." + key
  }

  function Lookup(es: Entries, key: string): (r: Option<Item>)
    ensures r.Some? ==> exists i :: 0 <= i < |es| && es[i] == Entry(key, r.value)
  {
    if es == [] then None
    else if es[0].key == key then Some(es[0].item)
    else
      var r := Lookup(es[1..], key);
      assert forall i :: 0 < i < |es| ==> es[i] == es[1..][i - 1];
      r
  }

  function Update(es: Entries, key: string, item: Item): (r: Entries)
    ensures |r| == |es|
  {
    if es == [] then []
    else if es[0].key == key then [Entry(key, item)] + es[1..]
    else [es[0]] + Update(es[1..], key, item)
  }

  predicate UniqueKeys(es: Entries) {
    forall i, j :: 0 <= i < j < |es| ==> es[i].key != es[j].key
  }

  /** No table says a key twice: what a parser accepts. */
  predicate Parsed(es: Entries) {
    UniqueKeys(es) && forall e :: e in es && e.item.Table? ==> Parsed(e.item.entries)
  }

  // ------------------------------------------------------------------- the merge

  /** The settings of `from` into `into`, and the paths added, in order. */
  function Merge(into: Entries, from: Entries, prefix: string): (Entries, seq<string>)
    decreases from
  {
    if from == [] then (into, []) else
      var (front, e) := (Merge(into, from[..|from| - 1], prefix), from[|from| - 1]);
      var path := PathOf(prefix, e.key);
      var have := Lookup(front.0, e.key);
      if have.None? then (front.0 + [e], front.1 + [path])
      else if path == USER_OWNED || have.value.Leaf? || e.item.Leaf? then front
      else
        var inner := Merge(have.value.entries, e.item.entries, path);
        (Update(front.0, e.key, Table(inner.0)), front.1 + inner.1)
  }

  method MergeTable(into: Entries, from: Entries, prefix: string) returns (out: Entries, added: seq<string>)
    ensures (out, added) == Merge(into, from, prefix)
    decreases from
  {
    out, added := into, [];
    for i := 0 to |from|
      invariant (out, added) == Merge(into, from[..i], prefix)
    {
      assert from[..i + 1][..i] == from[..i];
      var e := from[i];
      var path := PathOf(prefix, e.key);
      var have := Lookup(out, e.key);
      if have.None? {
        out := out + [e];
        added := added + [path];
      } else if path == USER_OWNED {
        continue;
      } else if have.value.Table? && e.item.Table? {
        var inner, more := MergeTable(have.value.entries, e.item.entries, path);
        out := Update(out, e.key, Table(inner));
        added := added + more;
      }
    }
    assert from[..|from|] == from;
  }

  function UnknownIn(e: Entry, reference: Entries, prefix: string): seq<string>
    decreases e
  {
    var path := PathOf(prefix, e.key);
    var known := Lookup(reference, e.key);
    if path == USER_OWNED then []
    else if known.None? then [path]
    else if e.item.Table? && known.value.Table? then Unknown(e.item.entries, known.value.entries, path)
    else []
  }

  /** Settings the file has that the schema does not. */
  function Unknown(doc: Entries, reference: Entries, prefix: string): seq<string>
    decreases doc
  {
    if doc == [] then [] else
      Unknown(doc[..|doc| - 1], reference, prefix) + UnknownIn(doc[|doc| - 1], reference, prefix)
  }

  method CollectUnknown(doc: Entries, reference: Entries, prefix: string) returns (out: seq<string>)
    ensures out == Unknown(doc, reference, prefix)
    decreases doc
  {
    out := [];
    for i := 0 to |doc|
      invariant out == Unknown(doc[..i], reference, prefix)
    {
      assert doc[..i + 1][..i] == doc[..i];
      var e := doc[i];
      var path := PathOf(prefix, e.key);
      if path == USER_OWNED { continue; }
      var known := Lookup(reference, e.key);
      if known.None? {
        out := out + [path];
      } else if e.item.Table? && known.value.Table? {
        var more := CollectUnknown(e.item.entries, known.value.entries, path);
        out := out + more;
      }
    }
    assert doc[..|doc|] == doc;
  }

  // ------------------------------------------------------------- tables by lookup

  lemma {:induction false} LookupFinds(es: Entries, i: nat)
    requires UniqueKeys(es) && i < |es|
    ensures Lookup(es, es[i].key) == Some(es[i].item)
  {
    if i > 0 {
      assert UniqueKeys(es[1..]);
      LookupFinds(es[1..], i - 1);
    }
  }

  lemma {:induction false} LookupMisses(es: Entries, key: string)
    requires forall e :: e in es ==> e.key != key
    ensures Lookup(es, key) == None
  {
    if es != [] { LookupMisses(es[1..], key); }
  }

  lemma {:induction false} LookupAppended(es: Entries, e: Entry, key: string)
    ensures Lookup(es + [e], key) ==
      if Lookup(es, key).Some? then Lookup(es, key) else if e.key == key then Some(e.item) else None
  {
    if es == [] {
      assert es + [e] == [e];
    } else {
      assert (es + [e])[1..] == es[1..] + [e];
      LookupAppended(es[1..], e, key);
    }
  }

  lemma {:induction false} LookupUpdated(es: Entries, key: string, item: Item, k: string)
    ensures Lookup(Update(es, key, item), k) == if k == key && Lookup(es, key).Some? then Some(item) else Lookup(es, k)
  {
    if es != [] {
      if es[0].key == key {
        assert Update(es, key, item)[1..] == es[1..];
      } else {
        assert Update(es, key, item)[1..] == Update(es[1..], key, item);
        LookupUpdated(es[1..], key, item, k);
      }
    }
  }

  /** What stands under a key both tables know. */
  function Blend(have: Option<Item>, want: Item, path: string): Item {
    if have.None? then want
    else if path == USER_OWNED || have.value.Leaf? || want.Leaf? then have.value
    else Table(Merge(have.value.entries, want.entries, path).0)
  }

  lemma {:induction false} MergedLookup(into: Entries, from: Entries, prefix: string, k: string)
    requires UniqueKeys(from)
    ensures Lookup(Merge(into, from, prefix).0, k) ==
      if Lookup(from, k).None? then Lookup(into, k)
      else Some(Blend(Lookup(into, k), Lookup(from, k).value, PathOf(prefix, k)))
  {
    if from != [] {
      var (rest, e) := (from[..|from| - 1], from[|from| - 1]);
      var front := Merge(into, rest, prefix).0;
      MergedLookup(into, rest, prefix, k);
      assert from == rest + [e];
      LookupAppended(rest, e, k);
      if k == e.key {
        LookupMisses(rest, k);
      }
      var have := Lookup(front, e.key);
      if have.None? {
        LookupAppended(front, e, k);
      } else if !(PathOf(prefix, e.key) == USER_OWNED || have.value.Leaf? || e.item.Leaf?) {
        LookupUpdated(front, e.key, Table(Merge(have.value.entries, e.item.entries, PathOf(prefix, e.key)).0), k);
      }
    }
  }

  // ------------------------------------------------------------------- by paths

  /** What stands at a path of keys. */
  function Get(es: Entries, path: seq<string>): Option<Item>
    requires path != []
  {
    var here := Lookup(es, path[0]);
    if |path| == 1 || here.None? then here
    else if here.value.Leaf? then None
    else Get(here.value.entries, path[1..])
  }

  /** On the way to a setting stands something the merge does not go into: the
      user's own table, or a key the file uses for something else. */
  predicate Blocked(into: Entries, prefix: string, path: seq<string>)
    requires path != []
  {
    var here := Lookup(into, path[0]);
    var at := PathOf(prefix, path[0]);
    |path| > 1 && here.Some?
    && (at == USER_OWNED || here.value.Leaf? || Blocked(here.value.entries, at, path[1..]))
  }

  /** What the merge leaves at a path. */
  predicate Lands(into: Entries, from: Entries, prefix: string, path: seq<string>)
    requires path != []
  {
    var (have, want, got) := (Get(into, path), Get(from, path), Get(Merge(into, from, prefix).0, path));
    if have.Some? then got.Some? && (if have.value.Leaf? then got == have else got.value.Table?)
    else if Blocked(into, prefix, path) then got.None?
    else got == want
  }

  lemma ParsedInside(es: Entries, key: string)
    requires Parsed(es) && Lookup(es, key).Some? && Lookup(es, key).value.Table?
    ensures Parsed(Lookup(es, key).value.entries)
  {
    var i :| 0 <= i < |es| && es[i] == Entry(key, Lookup(es, key).value);
    assert es[i] in es;
  }

  /** At every path: a value the file had is the value it has; a setting it
      lacked is the reference's, unless something of the file's own is in the
      way; and nothing else appears. */
  lemma {:induction false} EveryPath(into: Entries, from: Entries, prefix: string, path: seq<string>)
    requires Parsed(from) && path != []
    ensures Lands(into, from, prefix, path)
    decreases |path|
  {
    MergedLookup(into, from, prefix, path[0]);
    var (have, want) := (Lookup(into, path[0]), Lookup(from, path[0]));
    var at := PathOf(prefix, path[0]);
    if |path| > 1 && have.Some? && want.Some? && have.value.Table? && want.value.Table? && at != USER_OWNED {
      ParsedInside(from, path[0]);
      EveryPath(have.value.entries, want.value.entries, at, path[1..]);
    }
  }

  /** The keys of a table, as they are written. */
  function Keys(es: Entries): seq<string> {
    seq(|es|, i requires 0 <= i < |es| => es[i].key)
  }

  lemma {:induction false} UpdatedKeys(es: Entries, key: string, item: Item)
    ensures Keys(Update(es, key, item)) == Keys(es)
  {
    if es != [] && es[0].key != key {
      UpdatedKeys(es[1..], key, item);
      assert Keys(es) == [es[0].key] + Keys(es[1..]);
      assert Keys(Update(es, key, item)) == [es[0].key] + Keys(Update(es[1..], key, item));
    }
  }

  /** The file keeps the order it was written in; what is new comes after it. */
  lemma {:induction false} OrderKept(into: Entries, from: Entries, prefix: string)
    ensures Keys(into) <= Keys(Merge(into, from, prefix).0)
  {
    if from != [] {
      var (rest, e) := (from[..|from| - 1], from[|from| - 1]);
      OrderKept(into, rest, prefix);
      var front := Merge(into, rest, prefix).0;
      var (have, path) := (Lookup(front, e.key), PathOf(prefix, e.key));
      if have.None? {
        assert Keys(front + [e]) == Keys(front) + [e.key];
      } else if !(path == USER_OWNED || have.value.Leaf? || e.item.Leaf?) {
        UpdatedKeys(front, e.key, Table(Merge(have.value.entries, e.item.entries, path).0));
      }
    }
  }

  // ------------------------------------------------------- reported when changed

  function Size(es: Entries): nat {
    if es == [] then 0 else Size(es[1..]) + 1 + if es[0].item.Table? then Size(es[0].item.entries) else 0
  }

  lemma {:induction false} SizeAppended(es: Entries, e: Entry)
    ensures Size(es + [e]) >= Size(es) + 1
  {
    if es == [] {
      assert es + [e] == [e];
    } else {
      assert (es + [e])[1..] == es[1..] + [e];
      SizeAppended(es[1..], e);
    }
  }

  lemma {:induction false} SizeUpdated(es: Entries, key: string, a: Entries, b: Entries, n: nat)
    requires Lookup(es, key) == Some(Table(a)) && Size(b) >= Size(a) + n
    ensures Size(Update(es, key, Table(b))) >= Size(es) + n
  {
    if es[0].key == key {
      assert Update(es, key, Table(b))[1..] == es[1..];
    } else {
      assert Update(es, key, Table(b))[1..] == Update(es[1..], key, Table(b));
      SizeUpdated(es[1..], key, a, b, n);
    }
  }

  lemma {:induction false} EachAddedCounts(into: Entries, from: Entries, prefix: string)
    ensures Size(Merge(into, from, prefix).0) >= Size(into) + |Merge(into, from, prefix).1|
    decreases from
  {
    if from != [] {
      var (rest, e) := (from[..|from| - 1], from[|from| - 1]);
      EachAddedCounts(into, rest, prefix);
      var front := Merge(into, rest, prefix).0;
      var (have, path) := (Lookup(front, e.key), PathOf(prefix, e.key));
      if have.None? {
        SizeAppended(front, e);
      } else if !(path == USER_OWNED || have.value.Leaf? || e.item.Leaf?) {
        EachAddedCounts(have.value.entries, e.item.entries, path);
        var inner := Merge(have.value.entries, e.item.entries, path);
        SizeUpdated(front, e.key, have.value.entries, inner.0, |inner.1|);
      }
    }
  }

  lemma {:induction false} UpdateSame(es: Entries, key: string)
    requires Lookup(es, key).Some?
    ensures Update(es, key, Lookup(es, key).value) == es
  {
    if es[0].key != key { UpdateSame(es[1..], key); }
  }

  lemma {:induction false} NothingAdded(into: Entries, from: Entries, prefix: string)
    requires Merge(into, from, prefix).1 == []
    ensures Merge(into, from, prefix).0 == into
    decreases from
  {
    if from != [] {
      var (rest, e) := (from[..|from| - 1], from[|from| - 1]);
      var front := Merge(into, rest, prefix);
      NothingAdded(into, rest, prefix);
      var (have, path) := (Lookup(front.0, e.key), PathOf(prefix, e.key));
      if !(path == USER_OWNED || have.value.Leaf? || e.item.Leaf?) {
        NothingAdded(have.value.entries, e.item.entries, path);
        UpdateSame(into, e.key);
      }
    }
  }

  /** Nothing is reported exactly when nothing was changed. */
  lemma ReportedIffChanged(into: Entries, from: Entries, prefix: string)
    ensures Merge(into, from, prefix).1 == [] <==> Merge(into, from, prefix).0 == into
  {
    EachAddedCounts(into, from, prefix);
    if Merge(into, from, prefix).1 == [] { NothingAdded(into, from, prefix); }
  }

  // ------------------------------------------------------------------ idempotence

  /** Nothing is left to add. */
  predicate Settled(m: Entries, from: Entries, prefix: string)
    decreases from
  {
    forall e :: e in from ==>
      var (have, path) := (Lookup(m, e.key), PathOf(prefix, e.key));
      have.Some? && (path == USER_OWNED || have.value.Leaf? || e.item.Leaf?
                     || Settled(have.value.entries, e.item.entries, path))
  }

  lemma {:induction false} SettledStays(m: Entries, from: Entries, prefix: string)
    requires Settled(m, from, prefix)
    ensures Merge(m, from, prefix) == (m, [])
    decreases from
  {
    if from != [] {
      var (rest, e) := (from[..|from| - 1], from[|from| - 1]);
      assert e in from && forall x :: x in rest ==> x in from;
      SettledStays(m, rest, prefix);
      var (have, path) := (Lookup(m, e.key), PathOf(prefix, e.key));
      if !(path == USER_OWNED || have.value.Leaf? || e.item.Leaf?) {
        SettledStays(have.value.entries, e.item.entries, path);
        UpdateSame(m, e.key);
        var none: seq<string> := [];
        assert none + none == none;
      }
    }
  }

  lemma {:induction false} SettledSelf(es: Entries, prefix: string)
    requires Parsed(es)
    ensures Settled(es, es, prefix)
    decreases es
  {
    forall e | e in es
      ensures Lookup(es, e.key) == Some(e.item) && (e.item.Table? ==> Settled(e.item.entries, e.item.entries, PathOf(prefix, e.key))) {
      var i :| 0 <= i < |es| && es[i] == e;
      LookupFinds(es, i);
      if e.item.Table? { SettledSelf(e.item.entries, PathOf(prefix, e.key)); }
    }
  }

  lemma {:induction false} MergeSettles(into: Entries, from: Entries, prefix: string)
    requires Parsed(from)
    ensures Settled(Merge(into, from, prefix).0, from, prefix)
    decreases from
  {
    var m := Merge(into, from, prefix).0;
    forall e | e in from
      ensures var (have, path) := (Lookup(m, e.key), PathOf(prefix, e.key));
        have.Some? && (path == USER_OWNED || have.value.Leaf? || e.item.Leaf?
                       || Settled(have.value.entries, e.item.entries, path)) {
      var i :| 0 <= i < |from| && from[i] == e;
      LookupFinds(from, i);
      MergedLookup(into, from, prefix, e.key);
      var (had, path) := (Lookup(into, e.key), PathOf(prefix, e.key));
      if had.None? {
        if e.item.Table? { SettledSelf(e.item.entries, path); }
      } else if !(path == USER_OWNED || had.value.Leaf? || e.item.Leaf?) {
        MergeSettles(had.value.entries, e.item.entries, path);
      }
    }
  }

  /** Merging again adds nothing. */
  lemma Idempotent(into: Entries, from: Entries, prefix: string)
    requires Parsed(from)
    ensures Merge(Merge(into, from, prefix).0, from, prefix) == (Merge(into, from, prefix).0, [])
  {
    MergeSettles(into, from, prefix);
    SettledStays(Merge(into, from, prefix).0, from, prefix);
  }

  // ----------------------------------------------------------------- unknown keys

  lemma {:induction false} NothingUnknownInSelf(es: Entries, reference: Entries, prefix: string)
    requires Parsed(reference) && forall e :: e in es ==> e in reference
    ensures Unknown(es, reference, prefix) == []
    decreases es
  {
    if es != [] {
      var e := es[|es| - 1];
      NothingUnknownInSelf(es[..|es| - 1], reference, prefix);
      KnownEntry(e, reference, prefix);
    }
  }

  lemma {:induction false} KnownEntry(e: Entry, reference: Entries, prefix: string)
    requires Parsed(reference) && e in reference
    ensures UnknownIn(e, reference, prefix) == []
    decreases e
  {
    var i :| 0 <= i < |reference| && reference[i] == e;
    LookupFinds(reference, i);
    if e.item.Table? { NothingUnknownInSelf(e.item.entries, e.item.entries, PathOf(prefix, e.key)); }
  }

  lemma UnknownLast(es: Entries, e: Entry, reference: Entries, prefix: string)
    ensures Unknown(es + [e], reference, prefix) == Unknown(es, reference, prefix) + UnknownIn(e, reference, prefix)
  {
    var all := es + [e];
    assert all[..|all| - 1] == es && all[|all| - 1] == e;
  }

  lemma {:induction false} UnknownConcat(a: Entries, b: Entries, reference: Entries, prefix: string)
    ensures Unknown(a + b, reference, prefix) == Unknown(a, reference, prefix) + Unknown(b, reference, prefix)
    decreases |b|
  {
    if b == [] {
      assert a + b == a;
      assert Unknown(a, reference, prefix) + [] == Unknown(a, reference, prefix);
    } else {
      var (front, e) := (b[..|b| - 1], b[|b| - 1]);
      assert a + b == a + front + [e] && b == front + [e];
      UnknownConcat(a, front, reference, prefix);
      UnknownLast(a + front, e, reference, prefix);
      UnknownLast(front, e, reference, prefix);
      Regrouped(Unknown(a, reference, prefix), Unknown(front, reference, prefix), UnknownIn(e, reference, prefix));
    }
  }

  lemma Regrouped(x: seq<string>, y: seq<string>, z: seq<string>)
    ensures x + y + z == x + (y + z)
  {
  }

  lemma UnknownOne(e: Entry, reference: Entries, prefix: string)
    ensures Unknown([e], reference, prefix) == UnknownIn(e, reference, prefix)
  {
    var one := [e];
    assert one[..|one| - 1] == [];
  }

  lemma UnknownFirst(e: Entry, es: Entries, reference: Entries, prefix: string)
    ensures Unknown([e] + es, reference, prefix) == UnknownIn(e, reference, prefix) + Unknown(es, reference, prefix)
  {
    UnknownConcat([e], es, reference, prefix);
    UnknownOne(e, reference, prefix);
  }

  lemma {:induction false} UnknownUpdated(es: Entries, key: string, item: Item, reference: Entries, prefix: string)
    requires Lookup(es, key).Some?
    requires UnknownIn(Entry(key, item), reference, prefix) == UnknownIn(Entry(key, Lookup(es, key).value), reference, prefix)
    ensures Unknown(Update(es, key, item), reference, prefix) == Unknown(es, reference, prefix)
  {
    assert es == [es[0]] + es[1..];
    UnknownFirst(es[0], es[1..], reference, prefix);
    if es[0].key == key {
      assert es[0] == Entry(key, Lookup(es, key).value);
      UnknownFirst(Entry(key, item), es[1..], reference, prefix);
    } else {
      UnknownUpdated(es[1..], key, item, reference, prefix);
      UnknownFirst(es[0], Update(es[1..], key, item), reference, prefix);
    }
  }

  /** A setting that is added is a known one. */
  lemma AddedIsKnown(front: Entries, from: Entries, n: nat, prefix: string)
    requires Parsed(from) && n < |from|
    ensures Unknown(front + [from[n]], from, prefix) == Unknown(front, from, prefix)
  {
    UnknownLast(front, from[n], from, prefix);
    KnownEntry(from[n], from, prefix);
  }

  /** What was unknown in a file is unknown after the update, and nothing else. */
  lemma {:induction false} UnknownUnchanged(into: Entries, from: Entries, n: nat, prefix: string)
    requires Parsed(from) && n <= |from|
    ensures Unknown(Merge(into, from[..n], prefix).0, from, prefix) == Unknown(into, from, prefix)
    decreases from, n
  {
    if n > 0 {
      UnknownUnchanged(into, from, n - 1, prefix);
      assert from[..n][..n - 1] == from[..n - 1];
      var (front, e) := (Merge(into, from[..n - 1], prefix).0, from[n - 1]);
      var (have, path) := (Lookup(front, e.key), PathOf(prefix, e.key));
      if have.None? {
        AddedIsKnown(front, from, n - 1, prefix);
      } else if !(path == USER_OWNED || have.value.Leaf? || e.item.Leaf?) {
        LookupFinds(from, n - 1);
        assert e in from;
        UnknownUnchanged(have.value.entries, e.item.entries, |e.item.entries|, path);
        assert e.item.entries[..|e.item.entries|] == e.item.entries;
        UnknownUpdated(front, e.key, Table(Merge(have.value.entries, e.item.entries, path).0), from, prefix);
      }
    }
  }
}
