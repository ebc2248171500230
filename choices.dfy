/** The menu choices offered at each level of the drill-down.

    A choice is kept as structured data rather than as the rendered label:
    a folder label carries the segment and the number of scripts under it
    (rendered `segment / ... [n scripts]`), a path label carries the part of
    the name still to show and the script's command (rendered
    `path — command`). The value says what selecting the choice does:
    descend into a longer prefix, or pick a script by its full name. */
module Choices {
  import opened Segments
  import opened Grouping

  datatype Label = Folder(segment: string, count: nat) | Path(path: string, command: string)

  datatype Target = ToPrefix(prefix: string) | ToScript(scriptName: string)

  datatype Choice = Choice(name: Label, value: Target)

  /** What index.js:59-87 needs of `scriptsWithColons`: a group for the left
      side of every kept name that holds a colon. */
  ghost predicate CoversLeftSides(t: seq<Entry>, g: Groups) {
    forall e | e in t && Kept(e) && HasColon(e.name) :: FirstSegment(e.name) in g.members
  }

  /** The first-level choices, in table order: a folder at the first
      appearance of each left side, counting that side's group in `g`, and
      a script choice at the position of each kept name without a colon
      (index.js:54-87). */
  function RootChoices(t: seq<Entry>, g: Groups): (r: seq<Choice>)
    requires CoversLeftSides(t, g)
    ensures forall c | c in r :: c.value.ToPrefix? ==>
      c.value.prefix in g.members && c.name == Folder(c.value.prefix, |g.members[c.value.prefix]|)
  {
    if t == [] then []
    else
      var e := Last(t);
      assert Init(t) + [e] == t;
      RootChoices(Init(t), g) +
        if !Kept(e) then []
        else if HasColon(e.name) then
          var leftSide := FirstSegment(e.name);
          if leftSide in Keys(Filtered(Init(t)), 0) then []
          else [Choice(Folder(leftSide, |g.members[leftSide]|), ToPrefix(leftSide))]
        else [Choice(Path(e.name, e.command), ToScript(e.name))]
  }

  /** What one more entry adds to the first-level choices. */
  lemma RootChoicesSnoc(done: seq<Entry>, e: Entry, g: Groups)
    requires CoversLeftSides(done + [e], g)
    ensures CoversLeftSides(done, g)
    ensures RootChoices(done + [e], g) == RootChoices(done, g) +
      if !Kept(e) then []
      else if HasColon(e.name) then
        (if FirstSegment(e.name) in Keys(Filtered(done), 0) then []
         else [Choice(Folder(FirstSegment(e.name), |g.members[FirstSegment(e.name)]|),
                      ToPrefix(FirstSegment(e.name)))])
      else [Choice(Path(e.name, e.command), ToScript(e.name))]
  {
    InitOfSnoc(done, e);
  }

  /** One more entry adds its left side, if it has one, to those seen. */
  lemma SeenSnoc(done: seq<Entry>, e: Entry)
    ensures forall x :: x in Keys(Filtered(done + [e]), 0) <==>
      x in Keys(Filtered(done), 0) || (Kept(e) && HasColon(e.name) && x == FirstSegment(e.name))
  {
    InitOfSnoc(done, e);
    assert Rest(e, 0) == e.name;
    KeysSnoc(Filtered(done), 0, e);
    if !Kept(e) {
      assert Filtered(done + [e]) == Filtered(done);
    }
  }

  /** The second loop of index.js:54-87: one pass over the table, skipping the
      filtered names, offering each left side once at its first appearance
      (tracked in `seenLeftSides`) and each name without a colon in place. */
  method FirstLevelChoices(t: seq<Entry>, scriptsWithColons: Groups) returns (firstLevelChoices: seq<Choice>)
    requires CoversLeftSides(t, scriptsWithColons)
    ensures firstLevelChoices == RootChoices(t, scriptsWithColons)
  {
    firstLevelChoices := [];
    var seenLeftSides: set<string> := {};
    ghost var done: seq<Entry> := [];
    var i := 0;
    while i < |t|
      invariant i <= |t| && done == t[..i]
      invariant CoversLeftSides(done, scriptsWithColons)
      invariant firstLevelChoices == RootChoices(done, scriptsWithColons)
      invariant forall x :: x in seenLeftSides <==> x in Keys(Filtered(done), 0)
    {
      var e := t[i];
      assert t[..i + 1] == done + [e];
      RootChoicesSnoc(done, e, scriptsWithColons);
      SeenSnoc(done, e);
      if e.name == ":" {
      } else if HasColon(e.name) {
        var leftSide := FirstSegment(e.name);
        if leftSide != "" && leftSide !in seenLeftSides {
          seenLeftSides := seenLeftSides + {leftSide};
          firstLevelChoices := firstLevelChoices +
            [Choice(Folder(leftSide, |scriptsWithColons.members[leftSide]|), ToPrefix(leftSide))];
        }
      } else {
        firstLevelChoices := firstLevelChoices + [Choice(Path(e.name, e.command), ToScript(e.name))];
      }
      done := done + [e];
      i := i + 1;
    }
    assert done == t;
  }

  /** The prefixes the choices descend into, in menu order. */
  function PrefixTargets(cs: seq<Choice>): seq<string> {
    if cs == [] then []
    else PrefixTargets(Init(cs)) + if Last(cs).value.ToPrefix? then [Last(cs).value.prefix] else []
  }

  /** The script names the choices run, in menu order. */
  function ScriptTargets(cs: seq<Choice>): seq<string> {
    if cs == [] then []
    else ScriptTargets(Init(cs)) + if Last(cs).value.ToScript? then [Last(cs).value.scriptName] else []
  }

  function Names(es: seq<Entry>): seq<string> {
    if es == [] then [] else Names(Init(es)) + [Last(es).name]
  }

  lemma {:induction false} PrefixTargetIndex(cs: seq<Choice>, x: string)
    requires x in PrefixTargets(cs)
    ensures exists i :: 0 <= i < |cs| && cs[i].value == ToPrefix(x)
  {
    assert cs == Init(cs) + [Last(cs)];
    if x in PrefixTargets(Init(cs)) {
      PrefixTargetIndex(Init(cs), x);
      var i :| 0 <= i < |Init(cs)| && Init(cs)[i].value == ToPrefix(x);
      assert cs[i] == Init(cs)[i];
    } else {
      assert cs[|cs| - 1].value == ToPrefix(x);
    }
  }

  lemma {:induction false} ScriptTargetIndex(cs: seq<Choice>, x: string)
    requires x in ScriptTargets(cs)
    ensures exists i :: 0 <= i < |cs| && cs[i].value == ToScript(x)
  {
    assert cs == Init(cs) + [Last(cs)];
    if x in ScriptTargets(Init(cs)) {
      ScriptTargetIndex(Init(cs), x);
      var i :| 0 <= i < |Init(cs)| && Init(cs)[i].value == ToScript(x);
      assert cs[i] == Init(cs)[i];
    } else {
      assert cs[|cs| - 1].value == ToScript(x);
    }
  }

  lemma {:induction false} NamesMember(es: seq<Entry>, e: Entry)
    requires e in es
    ensures e.name in Names(es)
  {
    assert es == Init(es) + [Last(es)];
    if e != Last(es) {
      NamesMember(Init(es), e);
    }
  }

  /** The first level reads only the surviving names: the filtered-out ones
      are skipped by both `continue`s (index.js:62-71). */
  lemma {:induction false} RootChoicesOfFiltered(t: seq<Entry>, g: Groups)
    requires CoversLeftSides(t, g)
    ensures CoversLeftSides(Filtered(t), g)
    ensures RootChoices(t, g) == RootChoices(Filtered(t), g)
  {
    if t != [] {
      var e := Last(t);
      var t' := Init(t);
      InitOfSnoc(t', e);
      assert t == t' + [e];
      RootChoicesSnoc(t', e, g);
      RootChoicesOfFiltered(t', g);
      var f' := Filtered(t');
      if Kept(e) {
        assert Filtered(t) == f' + [e];
        assert CoversLeftSides(f' + [e], g);
        FilteredOfSurvivors(t');
        RootChoicesSnoc(f', e, g);
        assert Keys(Filtered(f'), 0) == Keys(Filtered(t'), 0);
      } else {
        assert Filtered(t) == f';
      }
    }
  }

  /** Every choice either descends or runs a script. */
  lemma {:induction false} TargetsCount(cs: seq<Choice>)
    ensures |PrefixTargets(cs)| + |ScriptTargets(cs)| == |cs|
  {
    if cs != [] {
      TargetsCount(Init(cs));
    }
  }

  /** The first level lists each left side once, in order of first
      appearance (index.js:56-57, 72-79). */
  lemma {:induction false} RootPrefixTargets(t: seq<Entry>, g: Groups)
    requires CoversLeftSides(t, g)
    ensures PrefixTargets(RootChoices(t, g)) == Keys(Filtered(t), 0)
  {
    if t != [] {
      var e := Last(t);
      assert t == Init(t) + [e];
      RootPrefixTargets(Init(t), g);
      FilteredSnoc(t, |t| - 1);
      assert t[..|t|] == t;
      var f := Filtered(Init(t));
      var before := RootChoices(Init(t), g);
      if !Kept(e) {
        assert Filtered(t) == f;
        assert RootChoices(t, g) == before;
      } else {
        assert Filtered(t) == f + [e];
        KeysSnoc(f, 0, e);
        if HasColon(e.name) {
          var leftSide := FirstSegment(e.name);
          if leftSide in Keys(f, 0) {
            assert RootChoices(t, g) == before;
          } else {
            var c := Choice(Folder(leftSide, |g.members[leftSide]|), ToPrefix(leftSide));
            assert RootChoices(t, g) == before + [c];
            InitOfSnoc(before, c);
          }
        } else {
          var c := Choice(Path(e.name, e.command), ToScript(e.name));
          assert RootChoices(t, g) == before + [c];
          InitOfSnoc(before, c);
        }
      }
    }
  }

  /** The first level lists each surviving name without a colon, in table
      order (index.js:80-86). */
  lemma {:induction false} RootScriptTargets(t: seq<Entry>, g: Groups)
    requires CoversLeftSides(t, g)
    ensures ScriptTargets(RootChoices(t, g)) == Names(Directs(Filtered(t), 0))
  {
    if t != [] {
      var e := Last(t);
      assert t == Init(t) + [e];
      RootScriptTargets(Init(t), g);
      FilteredSnoc(t, |t| - 1);
      assert t[..|t|] == t;
      var f := Filtered(Init(t));
      var before := RootChoices(Init(t), g);
      if !Kept(e) {
        assert Filtered(t) == f;
        assert RootChoices(t, g) == before;
      } else {
        assert Filtered(t) == f + [e];
        KeysSnoc(f, 0, e);
        if HasColon(e.name) {
          assert Directs(Filtered(t), 0) == Directs(f, 0);
          var leftSide := FirstSegment(e.name);
          if leftSide in Keys(f, 0) {
            assert RootChoices(t, g) == before;
          } else {
            var c := Choice(Folder(leftSide, |g.members[leftSide]|), ToPrefix(leftSide));
            assert RootChoices(t, g) == before + [c];
            InitOfSnoc(before, c);
            assert ScriptTargets(before + [c]) == ScriptTargets(before) + [];
          }
        } else {
          var c := Choice(Path(e.name, e.command), ToScript(e.name));
          assert RootChoices(t, g) == before + [c];
          InitOfSnoc(before, c);
          assert Directs(Filtered(t), 0) == Directs(f, 0) + [e];
          InitOfSnoc(Directs(f, 0), e);
          assert Names(Directs(f, 0) + [e]) == Names(Directs(f, 0)) + [e.name];
        }
      }
    }
  }

  /** The first level is built in one pass over the table: the choices
      of any leading part of the table come first, unchanged, so each
      choice sits where its entry first contributes one. With the two
      lemmas above applied to `t[..n]`, this fixes how folders and script
      choices interleave (index.js:56-87). */
  lemma {:induction false} RootChoicesPrefix(t: seq<Entry>, g: Groups, n: nat)
    requires n <= |t| && CoversLeftSides(t, g)
    ensures CoversLeftSides(t[..n], g)
    ensures RootChoices(t[..n], g) <= RootChoices(t, g)
    decreases |t|
  {
    if n < |t| {
      assert t == Init(t) + [Last(t)];
      RootChoicesSnoc(Init(t), Last(t), g);
      RootChoicesPrefix(Init(t), g, n);
      assert Init(t)[..n] == t[..n];
    } else {
      assert t[..n] == t;
    }
  }

  /** One first-level choice per left side and per name without a colon. */
  lemma RootChoicesCount(t: seq<Entry>, g: Groups)
    requires CoversLeftSides(t, g)
    ensures |RootChoices(t, g)| == |Keys(Filtered(t), 0)| + |Directs(Filtered(t), 0)|
  {
    RootPrefixTargets(t, g);
    RootScriptTargets(t, g);
    TargetsCount(RootChoices(t, g));
    NamesLength(Directs(Filtered(t), 0));
  }

  lemma {:induction false} NamesLength(es: seq<Entry>)
    ensures |Names(es)| == |es|
  {
    if es != [] {
      NamesLength(Init(es));
    }
  }

  /** Every first-level script choice shows the script's full name and its
      own command (index.js:82-85). */
  lemma {:induction false} RootScriptLabels(t: seq<Entry>, g: Groups)
    requires CoversLeftSides(t, g)
    ensures forall c | c in RootChoices(t, g) && c.value.ToScript? ::
      c.name.Path? && c.name.path == c.value.scriptName &&
      Entry(c.name.path, c.name.command) in Directs(Filtered(t), 0)
  {
    if t != [] {
      var e := Last(t);
      assert t == Init(t) + [e];
      RootScriptLabels(Init(t), g);
      FilteredSnoc(t, |t| - 1);
      var f := Filtered(Init(t));
      if Kept(e) {
        KeysSnoc(f, 0, e);
      }
    }
  }

  /** The choice for one next-level group (index.js:127-151). A group of one
      script shows that script's remaining path and command, a larger group
      shows as a folder with its size. A lone script whose remaining path
      holds a colon leads on to `currentPrefix:nextLevel`; one without a
      colon is offered for running, a case grouping never produces
      (LevelGroupChoice). */
  function GroupChoice(currentPrefix: string, nextLevel: string, scripts: seq<Entry>): Choice {
    if |scripts| == 1 then
      var remaining := Suffix(scripts[0].name, |currentPrefix| + 1);
      if HasColon(remaining) then
        Choice(Path(remaining, scripts[0].command), ToPrefix(currentPrefix + ":" + nextLevel))
      else
        Choice(Path(remaining, scripts[0].command), ToScript(scripts[0].name))
    else
      Choice(Folder(nextLevel, |scripts|), ToPrefix(currentPrefix + ":" + nextLevel))
  }

  /** The choice for a script with no further colon (index.js:154-160). */
  function DirectChoice(currentPrefix: string, e: Entry): Choice {
    Choice(Path(Suffix(e.name, |currentPrefix| + 1), e.command), ToScript(e.name))
  }

  /** The choices of a nested level: one per group in the `Map`'s order,
      then one per direct script in order (index.js:123-160). */
  function ChoicesOf(currentPrefix: string, g: Groups, directScripts: seq<Entry>): seq<Choice>
    requires WellFormed(g)
  {
    seq(|g.order|, i requires 0 <= i < |g.order| =>
          GroupChoice(currentPrefix, g.order[i], g.members[g.order[i]])) +
    seq(|directScripts|, j requires 0 <= j < |directScripts| => DirectChoice(currentPrefix, directScripts[j]))
  }

  /** The choices offered for the scripts `es` below `currentPrefix`. */
  function LevelChoices(es: seq<Entry>, currentPrefix: string): seq<Choice> {
    var k := |currentPrefix| + 1;
    ChoicesOf(currentPrefix, GroupsOf(es, k), Directs(es, k))
  }

  /** The two loops of index.js:123-160, building the choices of a nested
      level from its groups and its direct scripts. */
  method BuildLevelChoices(currentPrefix: string, nextLevelGroups: Groups, directScripts: seq<Entry>)
    returns (choices: seq<Choice>)
    requires WellFormed(nextLevelGroups)
    ensures choices == ChoicesOf(currentPrefix, nextLevelGroups, directScripts)
  {
    ghost var spec := ChoicesOf(currentPrefix, nextLevelGroups, directScripts);
    var n := |nextLevelGroups.order|;
    choices := [];
    var i := 0;
    while i < n
      invariant i <= n
      invariant choices == spec[..i]
    {
      var nextLevel := nextLevelGroups.order[i];
      var scripts := nextLevelGroups.members[nextLevel];
      if |scripts| == 1 {
        var remaining := Suffix(scripts[0].name, |currentPrefix| + 1);
        if HasColon(remaining) {
          choices := choices + [Choice(Path(remaining, scripts[0].command), ToPrefix(currentPrefix + ":" + nextLevel))];
        } else {
          choices := choices + [Choice(Path(remaining, scripts[0].command), ToScript(scripts[0].name))];
        }
      } else {
        choices := choices + [Choice(Folder(nextLevel, |scripts|), ToPrefix(currentPrefix + ":" + nextLevel))];
      }
      assert spec[..i + 1] == spec[..i] + [spec[i]];
      i := i + 1;
    }
    var j := 0;
    while j < |directScripts|
      invariant j <= |directScripts|
      invariant choices == spec[..n + j]
    {
      var e := directScripts[j];
      var scriptName := Suffix(e.name, |currentPrefix| + 1);
      choices := choices + [Choice(Path(scriptName, e.command), ToScript(e.name))];
      assert spec[..n + j + 1] == spec[..n + j] + [spec[n + j]];
      j := j + 1;
    }
    assert spec[..n + j] == spec;
  }

  /** A nested level has one choice per group and one per direct script,
      and at least one choice when any script is left (index.js:123-160). */
  lemma LevelChoicesCount(es: seq<Entry>, currentPrefix: string)
    ensures |LevelChoices(es, currentPrefix)| ==
      |Keys(es, |currentPrefix| + 1)| + |Directs(es, |currentPrefix| + 1)|
    ensures es != [] ==> |LevelChoices(es, currentPrefix)| >= 1
  {
    if es != [] {
      LevelNotEmpty(es, |currentPrefix| + 1);
    }
  }

  /** The i-th group of a nested level is offered as a step into
      `currentPrefix:key`: as a folder counting its scripts when it holds
      several, and showing the lone script's remaining path when it holds
      one. Since a script sits in a group only when its remaining path holds
      a colon, the branch of index.js:138-144 that would run a lone grouped
      script directly is never taken. */
  lemma LevelGroupChoice(es: seq<Entry>, currentPrefix: string, i: nat)
    requires i < |Keys(es, |currentPrefix| + 1)|
    ensures var k := |currentPrefix| + 1;
      var key := Keys(es, k)[i];
      var members := Members(es, k, key);
      var c := LevelChoices(es, currentPrefix)[i];
      && members != []
      && c.value == ToPrefix(currentPrefix + ":" + key)
      && c.name == if |members| == 1 then Path(Rest(members[0], k), members[0].command)
                   else Folder(key, |members|)
  {
    var k := |currentPrefix| + 1;
    var key := Keys(es, k)[i];
    assert key in Keys(es, k);
    var members := Members(es, k, key);
    if |members| == 1 {
      assert members[0] in members;
    }
  }

  /** After the groups, a nested level offers each direct script in order,
      showing its remaining path, which holds no colon, and running it by its
      full name (index.js:153-160). */
  lemma LevelDirectChoice(es: seq<Entry>, currentPrefix: string, j: nat)
    requires j < |Directs(es, |currentPrefix| + 1)|
    ensures var k := |currentPrefix| + 1;
      var d := Directs(es, k)[j];
      var c := LevelChoices(es, currentPrefix)[|Keys(es, k)| + j];
      && d in es
      && c == Choice(Path(Rest(d, k), d.command), ToScript(d.name))
      && !HasColon(Rest(d, k))
  {
    var k := |currentPrefix| + 1;
    assert Directs(es, k)[j] in Directs(es, k);
  }
}
