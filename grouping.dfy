/** Grouping of script names by their next colon-delimited segment.

    At the root, the script table is first filtered (the name ":" and names
    whose text before the first colon is empty are dropped) and then split
    into `scriptsWithColons`, an insertion-ordered map from left side to the
    entries under it, and `scriptsWithoutColons`. At a nested level the same
    split is applied to the part of each name after `currentPrefix + ":"`.
    Both splits are specified here once, over a sequence of entries and an
    offset `k`: the number of leading characters of each name that have
    already been resolved (0 at the root, `|currentPrefix| + 1` below it). */
module Grouping {
  import opened Segments

  /** One row of the manifest's script table. */
  datatype Entry = Entry(name: string, command: string)

  /** An insertion-ordered JavaScript `Map` from a segment to the entries
      grouped under it: `order` is the key order the `Map` iterates in,
      `members` its lookup. */
  datatype Groups = Groups(order: seq<string>, members: map<string, seq<Entry>>)

  predicate WellFormed(g: Groups) {
    forall key | key in g.order :: key in g.members
  }

  function Init<T>(s: seq<T>): seq<T>
    requires s != []
  {
    s[..|s| - 1]
  }

  function Last<T>(s: seq<T>): T
    requires s != []
  {
    s[|s| - 1]
  }

  lemma InitOfSnoc<T>(s: seq<T>, x: T)
    ensures Init(s + [x]) == s && Last(s + [x]) == x
  {
    assert (s + [x])[..|s|] == s;
  }

  /** The part of the entry's name not yet resolved: `name.substring(k)`. */
  function Rest(e: Entry, k: nat): string {
    Suffix(e.name, k)
  }

  /** The entry sits in a group at this level (`remaining.includes(":")`). */
  predicate Grouped(e: Entry, k: nat) {
    HasColon(Rest(e, k))
  }

  /** The group an entry sits in (`remaining.split(":")[0]`). */
  function KeyOf(e: Entry, k: nat): string {
    FirstSegment(Rest(e, k))
  }

  /** Root filter (index.js:25-34): the entry is neither ":" nor a name whose
      left side is empty. */
  predicate Kept(e: Entry) {
    e.name != ":" && !(HasColon(e.name) && FirstSegment(e.name) == "")
  }

  /** The entries that survive the root filter, in table order. */
  function Filtered(t: seq<Entry>): (r: seq<Entry>)
    ensures |r| <= |t|
    ensures forall e {:trigger e in r} :: e in r <==> e in t && Kept(e)
  {
    if t == [] then []
    else Filtered(Init(t)) + (if Kept(Last(t)) then [Last(t)] else [])
  }

  /** Filtering a table twice is filtering it once. */
  lemma {:induction false} FilteredOfSurvivors(t: seq<Entry>)
    ensures Filtered(Filtered(t)) == Filtered(t)
  {
    if t != [] {
      var e := Last(t);
      InitOfSnoc(Init(t), e);
      var f' := Filtered(Init(t));
      FilteredOfSurvivors(Init(t));
      if Kept(e) {
        InitOfSnoc(f', e);
        assert Filtered(t) == f' + [e];
        assert Filtered(f' + [e]) == Filtered(f') + [e];
        assert Filtered(f') == f';
      } else {
        assert Filtered(t) == f';
      }
    }
  }

  /** The entries that are leaves at this level, in their original order. */
  function Directs(es: seq<Entry>, k: nat): (r: seq<Entry>)
    ensures |r| <= |es|
    ensures forall e {:trigger e in r} :: e in r <==> e in es && !Grouped(e, k)
  {
    if es == [] then []
    else Directs(Init(es), k) + (if Grouped(Last(es), k) then [] else [Last(es)])
  }

  /** The entries of the group keyed `key` at this level, in their original
      order. */
  function Members(es: seq<Entry>, k: nat, key: string): (r: seq<Entry>)
    ensures |r| <= |es|
    ensures forall e {:trigger e in r} :: e in r <==> e in es && Grouped(e, k) && KeyOf(e, k) == key
  {
    if es == [] then []
    else
      var e := Last(es);
      Members(Init(es), k, key) + (if Grouped(e, k) && KeyOf(e, k) == key then [e] else [])
  }

  /** The group keys at this level, each once, in order of first appearance. */
  function Keys(es: seq<Entry>, k: nat): (r: seq<string>)
    ensures forall key {:trigger key in r} :: key in r <==> Members(es, k, key) != []
  {
    if es == [] then []
    else
      var ks := Keys(Init(es), k);
      var e := Last(es);
      assert forall key :: Members(es, k, key) != [] <==>
        Members(Init(es), k, key) != [] || (Grouped(e, k) && KeyOf(e, k) == key);
      if Grouped(e, k) && KeyOf(e, k) !in ks then ks + [KeyOf(e, k)] else ks
  }

  /** No key is listed twice. */
  ghost predicate Distinct(keys: seq<string>) {
    forall i, j | 0 <= i < j < |keys| :: keys[i] != keys[j]
  }

  lemma {:induction false} KeysDistinct(es: seq<Entry>, k: nat)
    ensures Distinct(Keys(es, k))
  {
    if es != [] {
      KeysDistinct(Init(es), k);
    }
  }

  /** `g` is the grouping of `es` at offset `k`: its keys in first-appearance
      order, and under each key exactly that key's members in table order. */
  ghost predicate IsGroupingOf(g: Groups, es: seq<Entry>, k: nat) {
    && g.order == Keys(es, k)
    && (forall key :: key in g.members <==> key in g.order)
    && (forall key | key in g.members :: g.members[key] == Members(es, k, key))
  }

  /** The grouping at this level, as index.js builds it in its `Map`. */
  function GroupsOf(es: seq<Entry>, k: nat): (g: Groups)
    ensures IsGroupingOf(g, es, k)
  {
    Groups(Keys(es, k), map key | key in Keys(es, k) :: Members(es, k, key))
  }

  /** A grouping is determined by the entries it groups. */
  lemma GroupingIsUnique(g: Groups, es: seq<Entry>, k: nat)
    requires IsGroupingOf(g, es, k)
    ensures g == GroupsOf(es, k)
  {
    assert g.members == GroupsOf(es, k).members;
  }

  /** What the grouping holds: every listed group is non-empty and holds
      only entries grouped under its key, and every grouped entry sits in
      the group of its key. */
  lemma GroupContents(es: seq<Entry>, k: nat)
    ensures var g := GroupsOf(es, k);
      && (forall key | key in g.members :: g.members[key] != [])
      && (forall key, e | key in g.members && e in g.members[key] ::
            e in es && Grouped(e, k) && KeyOf(e, k) == key)
      && (forall e | e in es && Grouped(e, k) :: KeyOf(e, k) in g.members && e in g.members[KeyOf(e, k)])
  {
    var g := GroupsOf(es, k);
    forall e | e in es && Grouped(e, k)
      ensures KeyOf(e, k) in g.members && e in g.members[KeyOf(e, k)]
    {
      assert e in Members(es, k, KeyOf(e, k));
    }
  }

  /** The number of entries held by the groups named in `keys`. */
  function GroupTotal(es: seq<Entry>, k: nat, keys: seq<string>): nat {
    if keys == [] then 0
    else GroupTotal(es, k, Init(keys)) + |Members(es, k, Last(keys))|
  }

  /** Appending one entry to the table adds it to its own group and to no
      other: the keyed total grows by one exactly when its group is among
      `keys`. */
  lemma {:induction false} GroupTotalSnoc(es: seq<Entry>, k: nat, e: Entry, keys: seq<string>)
    requires Distinct(keys)
    ensures GroupTotal(es + [e], k, keys) ==
      GroupTotal(es, k, keys) + (if Grouped(e, k) && KeyOf(e, k) in keys then 1 else 0)
  {
    InitOfSnoc(es, e);
    if keys != [] {
      GroupTotalSnoc(es, k, e, Init(keys));
      var x := Last(keys);
      assert keys == Init(keys) + [x];
      assert x !in Init(keys) by {
        forall i | 0 <= i < |Init(keys)| ensures Init(keys)[i] != x {
          assert keys[i] != keys[|keys| - 1];
        }
      }
    }
  }

  /** Partition: every entry is either direct or in exactly one group, so the
      direct list and the groups together hold exactly as many entries as
      the level (index.js:23-42 at the root, 110-121 below it). */
  lemma {:induction false} PartitionCount(es: seq<Entry>, k: nat)
    ensures |Directs(es, k)| + GroupTotal(es, k, Keys(es, k)) == |es|
  {
    if es != [] {
      var init, e := Init(es), Last(es);
      assert es == init + [e];
      PartitionCount(init, k);
      var ks := Keys(init, k);
      KeysDistinct(init, k);
      GroupTotalSnoc(init, k, e, ks);
      if Grouped(e, k) && KeyOf(e, k) !in ks {
        assert Keys(es, k) == ks + [KeyOf(e, k)];
        InitOfSnoc(ks, KeyOf(e, k));
        assert Members(init, k, KeyOf(e, k)) == [];
        assert Members(es, k, KeyOf(e, k)) == [e];
      }
    }
  }

  /** A level with at least one entry has at least one group or direct entry. */
  lemma LevelNotEmpty(es: seq<Entry>, k: nat)
    requires es != []
    ensures |Keys(es, k)| + |Directs(es, k)| >= 1
  {
    var e := Last(es);
    if Grouped(e, k) {
      assert e in Members(es, k, KeyOf(e, k));
      assert KeyOf(e, k) in Keys(es, k);
    } else {
      assert e in Directs(es, k);
    }
  }

  /** One more entry can only append to the keys. */
  lemma KeysGrow(es: seq<Entry>, k: nat)
    requires es != []
    ensures Keys(Init(es), k) <= Keys(es, k)
  {
  }

  /** Grouping the first `n` entries yields a prefix of the full key order: a
      key that shows up earlier in the table is listed earlier. */
  lemma {:induction false} KeysFirstAppearance(es: seq<Entry>, k: nat, n: nat)
    requires n <= |es|
    ensures Keys(es[..n], k) <= Keys(es, k)
    decreases |es|
  {
    if n < |es| {
      var before := Init(es);
      KeysFirstAppearance(before, k, n);
      assert before[..n] == es[..n];
      KeysGrow(es, k);
    } else {
      assert es[..n] == es;
    }
  }

  /** The first segment of a name in a root group never holds a colon, and
      every member of the group keyed `key` starts with `key + ":"`. */
  lemma RootGroupUnderKey(es: seq<Entry>, key: string)
    ensures forall e | e in Members(es, 0, key) :: StartsWith(e.name, key + ":")
  {
    forall e | e in Members(es, 0, key) ensures StartsWith(e.name, key + ":") {
      assert Rest(e, 0) == e.name;
      KeyColonPrefix(e.name, key);
    }
  }

  lemma KeysSnoc(es: seq<Entry>, k: nat, e: Entry)
    ensures Keys(es + [e], k) ==
      if Grouped(e, k) && KeyOf(e, k) !in Keys(es, k) then Keys(es, k) + [KeyOf(e, k)] else Keys(es, k)
    ensures Directs(es + [e], k) == Directs(es, k) + (if Grouped(e, k) then [] else [e])
    ensures forall key :: Members(es + [e], k, key) ==
                          Members(es, k, key) + (if Grouped(e, k) && KeyOf(e, k) == key then [e] else [])
  {
    InitOfSnoc(es, e);
  }

  /** `if (!groups.has(key)) groups.set(key, []); groups.get(key).push(e)`,
      shared by both grouping loops (index.js:35-38 and 114-117): the
      grouping stays exact for the table extended by `e`. */
  method AddToGroup(g: Groups, key: string, e: Entry, ghost es: seq<Entry>, ghost k: nat)
    returns (g': Groups)
    requires IsGroupingOf(g, es, k)
    requires Grouped(e, k) && KeyOf(e, k) == key
    ensures IsGroupingOf(g', es + [e], k)
    ensures Directs(es + [e], k) == Directs(es, k)
  {
    KeysSnoc(es, k, e);
    assert key in g.members <==> Members(es, k, key) != [];
    g' := g;
    if key !in g'.members {
      g' := Groups(g'.order + [key], g'.members[key := []]);
    }
    assert g'.members[key] == Members(es, k, key);
    g' := Groups(g'.order, g'.members[key := g'.members[key] + [e]]);
    assert g'.order == Keys(es + [e], k);
    forall x | x in g'.members ensures g'.members[x] == Members(es + [e], k, x) {
      if x != key {
        assert x in g.members;
      }
    }
    forall x ensures x in g'.members <==> x in g'.order {
      if x != key {
        assert x in g'.members <==> x in g.members;
      }
    }
  }

  /** Appending an entry that is not grouped leaves the grouping as it is. */
  lemma DirectKeepsGrouping(g: Groups, es: seq<Entry>, k: nat, e: Entry)
    requires IsGroupingOf(g, es, k)
    requires !Grouped(e, k)
    ensures IsGroupingOf(g, es + [e], k)
    ensures Directs(es + [e], k) == Directs(es, k) + [e]
  {
    KeysSnoc(es, k, e);
  }

  lemma FilteredSnoc(t: seq<Entry>, i: nat)
    requires i < |t|
    ensures var e := t[i];
      Filtered(t[..i + 1]) ==
        if e.name != ":" && (HasColon(e.name) ==> FirstSegment(e.name) != "")
        then Filtered(t[..i]) + [e] else Filtered(t[..i])
    ensures Grouped(t[i], 0) == HasColon(t[i].name) && KeyOf(t[i], 0) == FirstSegment(t[i].name)
  {
    assert t[..i + 1] == t[..i] + [t[i]];
    InitOfSnoc(t[..i], t[i]);
    assert Rest(t[i], 0) == t[i].name;
    assert Filtered(t[..i]) + [] == Filtered(t[..i]);
  }

  /** The root loop of index.js:20-42: one pass over the table that skips the
      filtered names and pushes each surviving entry into its left side's
      group or onto the list of names without a colon. */
  method PartitionScripts(t: seq<Entry>) returns (scriptsWithColons: Groups, scriptsWithoutColons: seq<Entry>)
    ensures IsGroupingOf(scriptsWithColons, Filtered(t), 0)
    ensures scriptsWithColons == GroupsOf(Filtered(t), 0)
    ensures scriptsWithoutColons == Directs(Filtered(t), 0)
  {
    scriptsWithColons := Groups([], map[]);
    scriptsWithoutColons := [];
    var i := 0;
    while i < |t|
      invariant i <= |t|
      invariant IsGroupingOf(scriptsWithColons, Filtered(t[..i]), 0)
      invariant scriptsWithoutColons == Directs(Filtered(t[..i]), 0)
    {
      var e := t[i];
      ghost var done := Filtered(t[..i]);
      FilteredSnoc(t, i);
      if e.name == ":" {
        // a bare colon is skipped
      } else if HasColon(e.name) {
        var leftSide := FirstSegment(e.name);
        if leftSide != "" {
          scriptsWithColons := AddToGroup(scriptsWithColons, leftSide, e, done, 0);
        }
      } else {
        DirectKeepsGrouping(scriptsWithColons, done, 0, e);
        scriptsWithoutColons := scriptsWithoutColons + [e];
      }
      i := i + 1;
    }
    assert t[..i] == t;
    GroupingIsUnique(scriptsWithColons, Filtered(t), 0);
  }

  /** The body of the nested grouping loop (index.js:111-120): the entry
      goes into the group of the segment after the prefix when more colons
      follow, and onto the direct list otherwise. */
  method PlaceEntry(nextLevelGroups: Groups, directScripts: seq<Entry>, e: Entry, k: nat, ghost done: seq<Entry>)
    returns (nextLevelGroups': Groups, directScripts': seq<Entry>)
    requires IsGroupingOf(nextLevelGroups, done, k) && directScripts == Directs(done, k)
    ensures IsGroupingOf(nextLevelGroups', done + [e], k)
    ensures directScripts' == Directs(done + [e], k)
  {
    var remaining := Rest(e, k);
    if HasColon(remaining) {
      var nextLevel := FirstSegment(remaining);
      nextLevelGroups' := AddToGroup(nextLevelGroups, nextLevel, e, done, k);
      directScripts' := directScripts;
    } else {
      DirectKeepsGrouping(nextLevelGroups, done, k, e);
      nextLevelGroups', directScripts' := nextLevelGroups, directScripts + [e];
    }
  }

  /** The nested grouping loop of index.js:107-121, over the entries still
      under `currentPrefix`. */
  method GroupNextLevel(remainingScripts: seq<Entry>, currentPrefix: string)
    returns (nextLevelGroups: Groups, directScripts: seq<Entry>)
    ensures IsGroupingOf(nextLevelGroups, remainingScripts, |currentPrefix| + 1)
    ensures nextLevelGroups == GroupsOf(remainingScripts, |currentPrefix| + 1)
    ensures directScripts == Directs(remainingScripts, |currentPrefix| + 1)
  {
    var k := |currentPrefix| + 1;
    nextLevelGroups := Groups([], map[]);
    directScripts := [];
    ghost var done: seq<Entry> := [];
    var i := 0;
    while i < |remainingScripts|
      invariant i <= |remainingScripts|
      invariant done == remainingScripts[..i]
      invariant IsGroupingOf(nextLevelGroups, done, k)
      invariant directScripts == Directs(done, k)
    {
      nextLevelGroups, directScripts :=
        PlaceEntry(nextLevelGroups, directScripts, remainingScripts[i], k, done);
      done := done + [remainingScripts[i]];
      i := i + 1;
    }
    assert done == remainingScripts;
    GroupingIsUnique(nextLevelGroups, remainingScripts, k);
  }
}
