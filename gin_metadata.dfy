/** Metadata: the per-request map from key to an ordered list of values. Go's Metadata is a map
    (a reference), so it is a class here whose `entries` the methods update in place. */
module GinMetadata {
  import opened Strings

  type Entries = map<string, seq<string>>

  /** m[key] in Go: the stored list, or the empty (nil) list for a missing key. */
  function ValuesOf(m: Entries, key: string): seq<string>
  {
    if key in m then m[key] else []
  }

  /** Metadata.Get on the map itself: look up the lower-cased key and return its first value,
      or "" when the key is missing or its list is empty. */
  function Lookup(m: Entries, key: string): (r: string)
    ensures r == "" || r in ValuesOf(m, ToLower(key))
    ensures ToLower(key) !in m ==> r == ""
    ensures |ValuesOf(m, ToLower(key))| > 0 ==> r == ValuesOf(m, ToLower(key))[0]
    ensures |ValuesOf(m, ToLower(key))| == 0 ==> r == ""
  {
    var k := ToLower(key);
    if k in m && |m[k]| > 0 then m[k][0] else ""
  }

  /** Metadata.Set on the map itself. */
  function SetEntry(m: Entries, key: string, val: string): Entries
  {
    m[ToLower(key) := [val]]
  }

  /** After Set(k, v), Get with any key equal to k ignoring case returns v. */
  lemma SetThenGet(m: Entries, key: string, other: string, val: string)
    requires ToLower(other) == ToLower(key)
    ensures Lookup(SetEntry(m, key, val), other) == val
  {
  }

  /** Set replaces the lower-cased key's list by exactly [val] and leaves every other entry alone. */
  lemma SetOnlyTouchesItsKey(m: Entries, key: string, val: string)
    ensures SetEntry(m, key, val)[ToLower(key)] == [val]
    ensures SetEntry(m, key, val).Keys == m.Keys + {ToLower(key)}
    ensures forall k :: k in m && k != ToLower(key) ==> SetEntry(m, key, val)[k] == m[k]
  {
  }

  // ---- Join ----

  /** `m` appended onto `acc` for the keys in `done` only (the inner loop of Join, part way). */
  function AppendKeys(acc: Entries, m: Entries, done: set<string>): Entries
    requires done <= m.Keys
  {
    map k | k in acc.Keys + done :: ValuesOf(acc, k) + (if k in done then m[k] else [])
  }

  /** One step of Join: every list of `m` appended to the list under the same key. */
  function Append(acc: Entries, m: Entries): Entries
  {
    AppendKeys(acc, m, m.Keys)
  }

  /** The result of Join(ms...), the way the loop builds it: left to right. */
  function JoinAll(ms: seq<Entries>): Entries
  {
    if |ms| == 0 then map[] else Append(JoinAll(ms[..|ms| - 1]), ms[|ms| - 1])
  }

  /** The values a key has across the inputs, in argument order. */
  function ValuesAcross(ms: seq<Entries>, key: string): seq<string>
  {
    if |ms| == 0 then [] else ValuesOf(ms[0], key) + ValuesAcross(ms[1..], key)
  }

  lemma {:induction false} ValuesAcrossAppend(a: seq<Entries>, b: seq<Entries>, key: string)
    ensures ValuesAcross(a + b, key) == ValuesAcross(a, key) + ValuesAcross(b, key)
  {
    if |a| > 0 {
      assert (a + b)[0] == a[0];
      assert (a + b)[1..] == a[1..] + b;
      ValuesAcrossAppend(a[1..], b, key);
    } else {
      assert a + b == b;
    }
  }

  /** The list a key has after one Append step. */
  lemma AppendKeysValue(acc: Entries, m: Entries, done: set<string>, key: string)
    requires done <= m.Keys
    ensures key in AppendKeys(acc, m, done) <==> key in acc || key in done
    ensures ValuesOf(AppendKeys(acc, m, done), key) == ValuesOf(acc, key) + (if key in done then m[key] else [])
  {
    if key !in acc && key !in done {
      assert ValuesOf(acc, key) + [] == [];
    }
  }

  /** Join's list for a key is the concatenation of the inputs' lists for it, in argument order. */
  lemma {:induction false} JoinValues(ms: seq<Entries>, key: string)
    ensures ValuesOf(JoinAll(ms), key) == ValuesAcross(ms, key)
  {
    if |ms| > 0 {
      var init := ms[..|ms| - 1];
      var last := ms[|ms| - 1];
      JoinValues(init, key);
      AppendKeysValue(JoinAll(init), last, last.Keys, key);
      assert ValuesOf(JoinAll(ms), key) == ValuesAcross(init, key) + ValuesOf(last, key);
      ValuesAcrossAppend(init, [last], key);
      assert init + [last] == ms;
      assert [last][1..] == [];
      assert ValuesAcross([last], key) == ValuesOf(last, key) + ValuesAcross([], key);
    }
  }

  /** Join's key set is the union of the inputs' key sets; keys are kept as given. */
  lemma {:induction false} JoinKeys(ms: seq<Entries>, key: string)
    ensures key in JoinAll(ms) <==> exists i :: 0 <= i < |ms| && key in ms[i]
  {
    if |ms| > 0 {
      var init := ms[..|ms| - 1];
      var last := ms[|ms| - 1];
      JoinKeys(init, key);
      AppendKeysValue(JoinAll(init), last, last.Keys, key);
      if key in JoinAll(ms) && key !in last {
        var i :| 0 <= i < |init| && key in init[i];
        assert key in ms[i];
      }
      if exists i :: 0 <= i < |ms| && key in ms[i] {
        var i :| 0 <= i < |ms| && key in ms[i];
        if i < |ms| - 1 {
          assert key in init[i];
        }
      }
    }
  }

  /** Join is append-only: each input's list for a key sits, whole and in place, between the
      lists of the inputs before it and those after it. */
  lemma ValuesAcrossCons(x: Entries, rest: seq<Entries>, key: string)
    ensures ValuesAcross([x] + rest, key) == ValuesOf(x, key) + ValuesAcross(rest, key)
  {
    assert ([x] + rest)[1..] == rest;
  }

  lemma JoinKeepsEveryValue(ms: seq<Entries>, i: int, key: string)
    requires 0 <= i < |ms|
    ensures ValuesOf(JoinAll(ms), key)
         == ValuesAcross(ms[..i], key) + ValuesOf(ms[i], key) + ValuesAcross(ms[i + 1..], key)
  {
    var before, rest := ms[..i], ms[i + 1..];
    var tail := [ms[i]] + rest;
    assert ms == before + tail;
    JoinValues(ms, key);
    ValuesAcrossAppend(before, tail, key);
    ValuesAcrossCons(ms[i], rest, key);
  }

  /** Two sources with [a] and [b] under one key join to [a, b]. */
  lemma JoinTwo(key: string, a: string, b: string)
    ensures JoinAll([map[key := [a]], map[key := [b]]])[key] == [a, b]
  {
    var ms := [map[key := [a]], map[key := [b]]];
    JoinValues(ms, key);
    JoinKeys(ms, key);
    assert key in ms[0];
    assert ms[1..] == [map[key := [b]]];
    assert ms[1..][1..] == [];
    assert ValuesAcross(ms[1..], key) == [b] + ValuesAcross([], key);
    assert ValuesAcross(ms, key) == [a] + [b];
  }

  /** The first input's list comes first: a key set by Set in the first input keeps that value
      at the head, and Get returns it, whatever later inputs add. */
  lemma JoinFirstValueWins(ms: seq<Entries>, key: string, val: string)
    requires |ms| > 0 && key in ms[0] && ms[0][key] == [val] && ToLower(key) == key
    ensures Lookup(JoinAll(ms), key) == val
  {
    JoinValues(ms, key);
    JoinKeys(ms, key);
  }

  class Metadata {
    var entries: Entries

    constructor ()
      ensures entries == map[]
    {
      entries := map[];
    }

    /** Set: store exactly [val] under the lower-cased key. */
    method Set(key: string, val: string)
      modifies this
      ensures entries == SetEntry(old(entries), key, val)
    {
      entries := entries[ToLower(key) := [val]];
    }

    /** Get: the first value under the lower-cased key, or "". */
    function Get(key: string): (r: string)
      reads this
      ensures r == "" || r in ValuesOf(entries, ToLower(key))
      ensures |ValuesOf(entries, ToLower(key))| > 0 ==> r == ValuesOf(entries, ToLower(key))[0]
      ensures |ValuesOf(entries, ToLower(key))| == 0 ==> r == ""
    {
      Lookup(entries, key)
    }
  }

  function EntriesOf(mds: seq<Metadata>): (r: seq<Entries>)
    reads mds
    ensures |r| == |mds| && forall i :: 0 <= i < |mds| ==> r[i] == mds[i].entries
  {
    seq(|mds|, i requires 0 <= i < |mds| reads mds => mds[i].entries)
  }

  lemma AppendKeysNone(acc: Entries, m: Entries)
    ensures AppendKeys(acc, m, {}) == acc
  {
    forall k | k in acc
      ensures AppendKeys(acc, m, {})[k] == acc[k]
    {
      assert ValuesOf(acc, k) + [] == acc[k];
    }
  }

  lemma AppendKeysStep(acc: Entries, m: Entries, done: set<string>, k: string)
    requires done <= m.Keys && k in m && k !in done
    ensures AppendKeys(acc, m, done)[k := ValuesOf(AppendKeys(acc, m, done), k) + m[k]]
         == AppendKeys(acc, m, done + {k})
  {
    var before := AppendKeys(acc, m, done);
    var stepped := before[k := ValuesOf(before, k) + m[k]];
    var after := AppendKeys(acc, m, done + {k});
    AppendKeysValue(acc, m, done, k);
    assert stepped.Keys == after.Keys;
    forall x | x in after
      ensures stepped[x] == after[x]
    {
      if x == k {
        assert ValuesOf(acc, k) + [] == ValuesOf(acc, k);
      }
    }
  }

  /** The body of Join's outer loop: append every list of `m` onto `out`, key by key, in the
      order the map iteration happens to choose (the result does not depend on it). */
  method AppendInto(out: Metadata, m: Entries)
    modifies out
    ensures out.entries == Append(old(out.entries), m)
  {
    var todo := m.Keys;
    ghost var acc := out.entries;
    AppendKeysNone(acc, m);
    assert m.Keys - todo == {};
    while todo != {}
      invariant todo <= m.Keys
      invariant out.entries == AppendKeys(acc, m, m.Keys - todo)
      decreases todo
    {
      var k :| k in todo;
      AppendKeysStep(acc, m, m.Keys - todo, k);
      out.entries := out.entries[k := ValuesOf(out.entries, k) + m[k]];
      assert m.Keys - (todo - {k}) == (m.Keys - todo) + {k};
      todo := todo - {k};
    }
  }

  /** Join: a fresh map where every input's lists are appended, input by input. The inputs
      are not modified (nothing but the fresh result is). */
  method Join(mds: seq<Metadata>) returns (out: Metadata)
    ensures fresh(out)
    ensures out.entries == JoinAll(EntriesOf(mds))
  {
    ghost var all := EntriesOf(mds);
    out := new Metadata();
    var i := 0;
    while i < |mds|
      invariant 0 <= i <= |mds|
      invariant fresh(out)
      invariant all == EntriesOf(mds)
      invariant out.entries == JoinAll(all[..i])
    {
      AppendInto(out, mds[i].entries);
      assert all[..i + 1][..i] == all[..i];
      i := i + 1;
    }
    assert all[..|mds|] == all;
  }

  /** Whether a header key survives NewMetadata's prefix filter. */
  predicate UnderPrefix(key: string, prefix: string)
  {
    HasPrefix(ToLower(key), ToLower(prefix) + "-")
  }

  /** With the empty prefix, exactly the keys that start with "-" survive. */
  lemma EmptyPrefixKeepsDashKeys(key: string)
    ensures UnderPrefix(key, "") <==> |key| > 0 && key[0] == '-'
  {
    assert ToLower("") == "";
  }

  /** What NewMetadata may return for `m` and `prefix`: the entries whose lower-cased key starts
      with lower(prefix) + "-", stored under the lower-cased key with their values unchanged. When
      two keys lower-case alike, the one the map iteration reaches last wins, so which value
      survives is left open. */
  predicate FromHeader(m: Entries, prefix: string, e: Entries)
  {
    e.Keys == (set k | k in m && UnderPrefix(k, prefix) :: ToLower(k)) &&
    forall lk :: lk in e ==> exists k :: k in m && ToLower(k) == lk && e[lk] == m[k]
  }

  /** NewMetadata: the filtered, lower-cased copy of a header map. */
  method NewMetadata(m: Entries, prefix: string) returns (md: Metadata)
    ensures fresh(md)
    ensures FromHeader(m, prefix, md.entries)
  {
    md := new Metadata();
    var p := ToLower(prefix);
    var todo := m.Keys;
    while todo != {}
      invariant todo <= m.Keys
      invariant md.entries.Keys == set k | k in m.Keys - todo && UnderPrefix(k, prefix) :: ToLower(k)
      invariant forall lk :: lk in md.entries ==> exists k :: k in m && ToLower(k) == lk && md.entries[lk] == m[k]
      decreases todo
    {
      var k :| k in todo;
      var lk := ToLower(k);
      if HasPrefix(lk, p + "-") {
        md.entries := md.entries[lk := m[k]];
      }
      todo := todo - {k};
    }
  }
}
