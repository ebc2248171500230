/** The selection session: the root prompt, then the drill-down loop that
    regroups the remaining scripts under the current prefix, auto-selects a
    lone choice and otherwise prompts, until a script is chosen.

    The interactive prompt is modelled by `answers`, the indices the user
    picks at the successive prompts, in order; running out of answers, or an
    index outside the menu, stands for the user cancelling the prompt. */
module Navigator {
  import opened Segments
  import opened Grouping
  import opened Choices

  /** `remainingScripts.filter(({ name }) => name.startsWith(prefix + ":"))` */
  function Narrow(es: seq<Entry>, prefix: string): (r: seq<Entry>)
    ensures |r| <= |es|
    ensures forall e {:trigger e in r} :: e in r <==> e in es && StartsWith(e.name, prefix + ":")
  {
    if es == [] then []
    else
      assert es == Init(es) + [Last(es)];
      Narrow(Init(es), prefix) + if StartsWith(Last(es).name, prefix + ":") then [Last(es)] else []
  }

  /** Every script left lies below `prefix`. */
  ghost predicate AllUnder(es: seq<Entry>, prefix: string) {
    forall e | e in es :: StartsWith(e.name, prefix + ":")
  }

  /** The length of the longest name among `es`. */
  function MaxLen(es: seq<Entry>): (m: nat)
    ensures forall e | e in es :: |e.name| <= m
  {
    if es == [] then 0
    else
      assert es == Init(es) + [Last(es)];
      var m := MaxLen(Init(es));
      if |Last(es).name| > m then |Last(es).name| else m
  }

  lemma {:induction false} MaxLenSubset(a: seq<Entry>, b: seq<Entry>)
    requires forall e | e in a :: e in b
    ensures MaxLen(a) <= MaxLen(b)
  {
    if a != [] {
      assert a == Init(a) + [Last(a)];
      MaxLenSubset(Init(a), b);
    }
  }

  /** Below `prefix`, a name lies below `prefix:key` exactly when it sits in
      the group `key` of the next level. */
  lemma EntryUnderKey(e: Entry, prefix: string, key: string)
    requires StartsWith(e.name, prefix + ":")
    requires ':' !in key
    ensures StartsWith(e.name, prefix + ":" + key + ":") <==>
      Grouped(e, |prefix| + 1) && KeyOf(e, |prefix| + 1) == key
  {
    PrefixThenRest(e.name, prefix + ":", key + ":");
    assert prefix + ":" + key + ":" == (prefix + ":") + (key + ":");
    KeyColonPrefix(Rest(e, |prefix| + 1), key);
  }

  /** Narrowing the scripts below `prefix` to `prefix:key` keeps exactly the
      group `key` of the next level, in order: the `filter` of
      index.js:171-173 and 190 recovers the group that the `Map` of
      index.js:107-121 built. */
  lemma {:induction false} NarrowIsGroup(es: seq<Entry>, prefix: string, key: string)
    requires AllUnder(es, prefix)
    requires ':' !in key
    ensures Narrow(es, prefix + ":" + key) == Members(es, |prefix| + 1, key)
  {
    if es != [] {
      assert es == Init(es) + [Last(es)];
      NarrowIsGroup(Init(es), prefix, key);
      EntryUnderKey(Last(es), prefix, key);
      KeysSnoc(Init(es), |prefix| + 1, Last(es));
    }
  }

  /** Descending into a prefix choice of a nested level leaves a non-empty
      set of scripts, all below the new prefix, which is strictly longer
      while no name grows: the drill-down cannot go on forever. */
  lemma Descend(es: seq<Entry>, prefix: string, i: nat)
    requires es != [] && AllUnder(es, prefix)
    requires i < |LevelChoices(es, prefix)|
    requires LevelChoices(es, prefix)[i].value.ToPrefix?
    ensures var p := LevelChoices(es, prefix)[i].value.prefix;
      && i < |Keys(es, |prefix| + 1)|
      && p == prefix + ":" + Keys(es, |prefix| + 1)[i]
      && Narrow(es, p) == Members(es, |prefix| + 1, Keys(es, |prefix| + 1)[i])
      && Narrow(es, p) != [] && AllUnder(Narrow(es, p), p)
      && 0 <= MaxLen(Narrow(es, p)) - |p| < MaxLen(es) - |prefix|
  {
    var k := |prefix| + 1;
    LevelChoicesCount(es, prefix);
    if i >= |Keys(es, k)| {
      LevelDirectChoice(es, prefix, i - |Keys(es, k)|);
      assert false;
    } else {
      LevelGroupChoice(es, prefix, i);
      var key := Keys(es, k)[i];
      var members := Members(es, k, key);
      assert members[0] in members;
      assert ':' !in key;
      var p := prefix + ":" + key;
      NarrowIsGroup(es, prefix, key);
      var n := Narrow(es, p);
      MaxLenSubset(n, es);
      assert n[0] in n;
    }
  }

  datatype Outcome =
    | NoScripts          // the manifest has no scripts (index.js:13-16)
    | NoValidScripts     // every script was filtered out (index.js:45-50)
    | Aborted            // the user cancelled a prompt
    | Selected(scriptName: string)

  /** How a session ends, and how many prompts it showed. */
  datatype Session = Session(outcome: Outcome, prompts: nat)

  /** `prompts` more prompts shown before the session `s`. */
  function After(prompts: nat, s: Session): Session {
    Session(s.outcome, s.prompts + prompts)
  }

  /** The drill-down loop of index.js:105-192 from the scripts left below
      `currentPrefix`: a level with one choice follows it without a prompt
      (index.js:162-176); otherwise the next answer picks a choice
      (index.js:178-191). */
  function Drill(remainingScripts: seq<Entry>, currentPrefix: string, answers: seq<nat>): (s: Session)
    requires remainingScripts != [] && AllUnder(remainingScripts, currentPrefix)
    ensures s.outcome.Selected? || s.outcome == Aborted
    ensures s.outcome.Selected? ==> exists e :: e in remainingScripts && e.name == s.outcome.scriptName
    decreases MaxLen(remainingScripts) - |currentPrefix|
  {
    var choices := LevelChoices(remainingScripts, currentPrefix);
    LevelChoicesCount(remainingScripts, currentPrefix);
    if |choices| == 1 then
      Follow(remainingScripts, currentPrefix, 0, answers, 0)
    else if answers == [] || answers[0] >= |choices| then
      Session(Aborted, 1)
    else
      Follow(remainingScripts, currentPrefix, answers[0], answers[1..], 1)
  }

  /** Taking choice `i` of the level after `prompts` prompts at it. */
  function Follow(remainingScripts: seq<Entry>, currentPrefix: string, i: nat, answers: seq<nat>, prompts: nat): (s: Session)
    requires remainingScripts != [] && AllUnder(remainingScripts, currentPrefix)
    requires i < |LevelChoices(remainingScripts, currentPrefix)|
    ensures s.outcome.Selected? || s.outcome == Aborted
    ensures s.outcome.Selected? ==> exists e :: e in remainingScripts && e.name == s.outcome.scriptName
    decreases MaxLen(remainingScripts) - |currentPrefix|, 0
  {
    match LevelChoices(remainingScripts, currentPrefix)[i].value
    case ToScript(scriptName) =>
      ScriptChoiceNamesEntry(remainingScripts, currentPrefix, i);
      Session(Selected(scriptName), prompts)
    case ToPrefix(p) =>
      Descend(remainingScripts, currentPrefix, i);
      After(prompts, Drill(Narrow(remainingScripts, p), p, answers))
  }

  /** A script choice of a nested level runs one of the level's scripts. */
  lemma ScriptChoiceNamesEntry(es: seq<Entry>, prefix: string, i: nat)
    requires i < |LevelChoices(es, prefix)|
    requires LevelChoices(es, prefix)[i].value.ToScript?
    ensures exists e :: e in es && e.name == LevelChoices(es, prefix)[i].value.scriptName
  {
    var k := |prefix| + 1;
    LevelChoicesCount(es, prefix);
    if i < |Keys(es, k)| {
      LevelGroupChoice(es, prefix, i);
      assert false;
    } else {
      LevelDirectChoice(es, prefix, i - |Keys(es, k)|);
      var d := Directs(es, k)[i - |Keys(es, k)|];
      assert d in es && d.name == LevelChoices(es, prefix)[i].value.scriptName;
    }
  }

  /** Every surviving name with a colon has its left side's group. */
  lemma RootCovers(t: seq<Entry>)
    ensures CoversLeftSides(t, GroupsOf(Filtered(t), 0))
  {
    var f := Filtered(t);
    forall e | e in t && Kept(e) && HasColon(e.name)
      ensures FirstSegment(e.name) in GroupsOf(f, 0).members
    {
      assert Rest(e, 0) == e.name;
      assert e in Members(f, 0, FirstSegment(e.name));
      assert FirstSegment(e.name) in Keys(f, 0);
    }
  }

  /** The group behind a first-level folder is non-empty and lies below its
      left side. */
  lemma RootGroup(t: seq<Entry>, p: string)
    requires p in GroupsOf(Filtered(t), 0).members
    ensures GroupsOf(Filtered(t), 0).members[p] != []
    ensures AllUnder(GroupsOf(Filtered(t), 0).members[p], p)
  {
    RootGroupUnderKey(Filtered(t), p);
  }

  /** A whole session over the script table `t` (index.js:11-193): the two
      error exits, the first-level prompt, which is always shown, and the
      drill-down below a chosen left side. */
  function Selection(t: seq<Entry>, answers: seq<nat>): Session {
    if t == [] then Session(NoScripts, 0)
    else
      var f := Filtered(t);
      var scriptsWithColons := GroupsOf(f, 0);
      var scriptsWithoutColons := Directs(f, 0);
      if |scriptsWithColons.order| + |scriptsWithoutColons| == 0 then Session(NoValidScripts, 0)
      else
        RootCovers(t);
        var firstLevelChoices := RootChoices(t, scriptsWithColons);
        if answers == [] || answers[0] >= |firstLevelChoices| then Session(Aborted, 1)
        else
          var firstSelection := firstLevelChoices[answers[0]];
          assert firstSelection in firstLevelChoices;
          match firstSelection.value
          case ToScript(scriptName) => Session(Selected(scriptName), 1)
          case ToPrefix(p) =>
            RootGroup(t, p);
            After(1, Drill(scriptsWithColons.members[p], p, answers[1..]))
  }

  /** One pass of index.js:106-160: regroup the scripts left below
      `currentPrefix` and build the menu of the level. */
  method LevelMenu(remainingScripts: seq<Entry>, currentPrefix: string) returns (choices: seq<Choice>)
    ensures choices == LevelChoices(remainingScripts, currentPrefix)
  {
    var nextLevelGroups, directScripts := GroupNextLevel(remainingScripts, currentPrefix);
    choices := BuildLevelChoices(currentPrefix, nextLevelGroups, directScripts);
  }

  /** What one level of the drill-down does with the answers. */
  lemma DrillUnfold(es: seq<Entry>, prefix: string, answers: seq<nat>)
    requires es != [] && AllUnder(es, prefix)
    ensures var n := |LevelChoices(es, prefix)|;
      && n >= 1
      && (n == 1 ==> Drill(es, prefix, answers) == Follow(es, prefix, 0, answers, 0))
      && (n != 1 && (answers == [] || answers[0] >= n) ==> Drill(es, prefix, answers) == Session(Aborted, 1))
      && (n != 1 && answers != [] && answers[0] < n ==>
            Drill(es, prefix, answers) == Follow(es, prefix, answers[0], answers[1..], 1))
  {
    LevelChoicesCount(es, prefix);
  }

  /** What taking choice `i` of a level does. */
  lemma FollowUnfold(es: seq<Entry>, prefix: string, i: nat, answers: seq<nat>, prompts: nat)
    requires es != [] && AllUnder(es, prefix)
    requires i < |LevelChoices(es, prefix)|
    ensures var v := LevelChoices(es, prefix)[i].value;
      && (v.ToScript? ==> Follow(es, prefix, i, answers, prompts) == Session(Selected(v.scriptName), prompts))
      && (v.ToPrefix? ==>
            && Narrow(es, v.prefix) != [] && AllUnder(Narrow(es, v.prefix), v.prefix)
            && 0 <= MaxLen(Narrow(es, v.prefix)) - |v.prefix| < MaxLen(es) - |prefix|
            && Follow(es, prefix, i, answers, prompts) ==
                 After(prompts, Drill(Narrow(es, v.prefix), v.prefix, answers)))
  {
    if LevelChoices(es, prefix)[i].value.ToPrefix? {
      Descend(es, prefix, i);
    }
  }

  /** One iteration of the loop of index.js:105-192 with the answers still
      unused in `rest`: either the session ends here (`finished`, with the
      prompts of this level in `shown`), or it goes on below `nextPrefix`
      with the scripts `nextScripts` and the answers after the first
      `used`. */
  method DrillStep(remainingScripts: seq<Entry>, currentPrefix: string, rest: seq<nat>)
    returns (finished: bool, outcome: Outcome, shown: nat, nextScripts: seq<Entry>, nextPrefix: string, used: nat)
    requires remainingScripts != [] && AllUnder(remainingScripts, currentPrefix)
    ensures finished ==> Drill(remainingScripts, currentPrefix, rest) == Session(outcome, shown)
    ensures !finished ==>
      && used <= |rest|
      && nextScripts != [] && AllUnder(nextScripts, nextPrefix)
      && 0 <= MaxLen(nextScripts) - |nextPrefix| < MaxLen(remainingScripts) - |currentPrefix|
      && Drill(remainingScripts, currentPrefix, rest) == After(shown, Drill(nextScripts, nextPrefix, rest[used..]))
  {
    var choices := LevelMenu(remainingScripts, currentPrefix);
    DrillUnfold(remainingScripts, currentPrefix, rest);
    var i: nat;
    if |choices| == 1 {
      i, shown, used := 0, 0, 0;
    } else {
      if |rest| == 0 || rest[0] >= |choices| {
        return true, Aborted, 1, [], "", 0;
      }
      i, shown, used := rest[0], 1, 1;
    }
    FollowUnfold(remainingScripts, currentPrefix, i, rest[used..], shown);
    var selection := choices[i];
    if selection.value.ToScript? {
      return true, Selected(selection.value.scriptName), shown, [], "", 0;
    }
    finished, outcome := false, Aborted;
    nextPrefix := selection.value.prefix;
    nextScripts := Narrow(remainingScripts, nextPrefix);
  }

  /** The `while (true)` loop of index.js:105-192, started from the scripts
      below `prefix`, with its prompts answered from `answers`. */
  method DrillDown(scripts: seq<Entry>, prefix: string, answers: seq<nat>)
    returns (outcome: Outcome, prompts: nat)
    requires scripts != [] && AllUnder(scripts, prefix)
    ensures Session(outcome, prompts) == Drill(scripts, prefix, answers)
  {
    var remainingScripts := scripts;
    var currentPrefix := prefix;
    var rest := answers;
    prompts := 0;
    while true
      invariant remainingScripts != [] && AllUnder(remainingScripts, currentPrefix)
      invariant Drill(scripts, prefix, answers) == After(prompts, Drill(remainingScripts, currentPrefix, rest))
      decreases MaxLen(remainingScripts) - |currentPrefix|
    {
      var finished, result, shown, nextScripts, nextPrefix, used := DrillStep(remainingScripts, currentPrefix, rest);
      prompts := prompts + shown;
      if finished {
        outcome := result;
        break;
      }
      remainingScripts, currentPrefix, rest := nextScripts, nextPrefix, rest[used..];
    }
  }

  /** The program's control flow from the script table to the chosen script:
      the root partition and menu, then the drill-down below a chosen left
      side, with the interactive prompts answered from `answers`. */
  method SelectScript(t: seq<Entry>, answers: seq<nat>) returns (outcome: Outcome, prompts: nat)
    ensures Session(outcome, prompts) == Selection(t, answers)
  {
    if |t| == 0 {
      return NoScripts, 0;
    }
    var scriptsWithColons, scriptsWithoutColons := PartitionScripts(t);
    var totalScripts := |scriptsWithColons.order| + |scriptsWithoutColons|;
    if totalScripts == 0 {
      return NoValidScripts, 0;
    }
    RootCovers(t);
    var firstLevelChoices := FirstLevelChoices(t, scriptsWithColons);
    if |answers| == 0 || answers[0] >= |firstLevelChoices| {
      return Aborted, 1;
    }
    var firstSelection := firstLevelChoices[answers[0]].value;
    if firstSelection.ToScript? {
      return Selected(firstSelection.scriptName), 1;
    }
    var currentPrefix := firstSelection.prefix;
    assert firstLevelChoices[answers[0]] in firstLevelChoices;
    RootGroup(t, currentPrefix);
    var remainingScripts := scriptsWithColons.members[currentPrefix];
    var below;
    outcome, below := DrillDown(remainingScripts, currentPrefix, answers[1..]);
    prompts := below + 1;
  }

  /** The two error exits happen before any prompt: "No scripts found"
      exactly for an empty table, "No valid scripts found" exactly when every
      name is filtered out (index.js:13-16, 44-50). Otherwise the first-level
      prompt is always shown, even when it offers a single choice. */
  lemma SessionErrors(t: seq<Entry>, answers: seq<nat>)
    ensures Selection(t, answers).outcome == NoScripts <==> t == []
    ensures Selection(t, answers).outcome == NoValidScripts <==> t != [] && Filtered(t) == []
    ensures t == [] || Filtered(t) == [] ==> Selection(t, answers).prompts == 0
    ensures Filtered(t) != [] ==> Selection(t, answers).prompts >= 1
  {
    if Filtered(t) != [] {
      LevelNotEmpty(Filtered(t), 0);
    }
  }

  /** A selected script is always a name of the table that survived the
      root filter. */
  lemma SelectedIsKept(t: seq<Entry>, answers: seq<nat>)
    ensures Selection(t, answers).outcome.Selected? ==>
      exists e :: e in t && Kept(e) && e.name == Selection(t, answers).outcome.scriptName
  {
    var s := Selection(t, answers);
    if s.outcome.Selected? {
      var f := Filtered(t);
      var g := GroupsOf(f, 0);
      RootCovers(t);
      RootScriptLabels(t, g);
      var c := RootChoices(t, g)[answers[0]];
      assert c in RootChoices(t, g);
      if c.value.ToScript? {
        assert Entry(c.name.path, c.name.command) in Directs(f, 0);
      } else {
        RootGroup(t, c.value.prefix);
        var e :| e in g.members[c.value.prefix] && e.name == s.outcome.scriptName;
        assert e in f;
      }
    }
  }

  /** A lone script below `prefix` is reached through every remaining level
      without a prompt (index.js:162-176). */
  lemma {:induction false} LoneScriptNeedsNoPrompt(e: Entry, prefix: string, answers: seq<nat>)
    requires StartsWith(e.name, prefix + ":")
    ensures Drill([e], prefix, answers) == Session(Selected(e.name), 0)
    decreases |e.name| - |prefix|
  {
    var k := |prefix| + 1;
    assert [e] == [] + [e];
    KeysSnoc([], k, e);
    DrillUnfold([e], prefix, answers);
    FollowUnfold([e], prefix, 0, answers, 0);
    if Grouped(e, k) {
      LevelGroupChoice([e], prefix, 0);
      Descend([e], prefix, 0);
      var p := prefix + ":" + KeyOf(e, k);
      assert Narrow([e], p) == [e];
      LoneScriptNeedsNoPrompt(e, p, answers);
    } else {
      LevelDirectChoice([e], prefix, 0);
    }
  }

  /** The first-level menu of a table holding one surviving script: its
      folder, counting one script, or the script itself. */
  lemma RootOfOne(e: Entry)
    requires Kept(e)
    ensures var g := GroupsOf(Filtered([e]), 0);
      && CoversLeftSides([e], g)
      && RootChoices([e], g) ==
           (if HasColon(e.name) then [Choice(Folder(FirstSegment(e.name), 1), ToPrefix(FirstSegment(e.name)))]
            else [Choice(Path(e.name, e.command), ToScript(e.name))])
      && (HasColon(e.name) ==> g.members[FirstSegment(e.name)] == [e])
  {
    var t := [e];
    FilteredSnoc(t, 0);
    assert t[..1] == t && t[..0] == [];
    assert Filtered(t) == [] + [e];
    KeysSnoc([], 0, e);
    RootCovers(t);
    assert Init(t) == [] && Last(t) == e;
  }

  /** A table with one surviving script, whatever filtered-out names it
      also holds, still shows the first-level prompt; picking its only
      choice runs it with no further prompt. */
  lemma SingleScript(t: seq<Entry>, e: Entry, answers: seq<nat>)
    requires Filtered(t) == [e]
    ensures Selection(t, answers) ==
      if answers == [] || answers[0] != 0 then Session(Aborted, 1) else Session(Selected(e.name), 1)
  {
    assert e in Filtered(t) && t != [];
    RootOfOne(e);
    var g := GroupsOf(Filtered(t), 0);
    RootCovers(t);
    RootChoicesOfFiltered(t, g);
    assert RootChoices(t, g) == RootChoices([e], g);
    SessionErrors(t, answers);
    if answers != [] && answers[0] == 0 && HasColon(e.name) {
      var key := FirstSegment(e.name);
      RootGroupUnderKey(Filtered(t), key);
      LoneScriptNeedsNoPrompt(e, key, answers[1..]);
    }
  }

  /** Every prompt of the drill-down lengthens the prefix by a segment, so a
      session below `prefix` shows at most as many prompts as the longest
      remaining name has characters beyond it. */
  lemma {:induction false} DrillPromptBound(es: seq<Entry>, prefix: string, answers: seq<nat>)
    requires es != [] && AllUnder(es, prefix)
    ensures Drill(es, prefix, answers).prompts <= MaxLen(es) - |prefix|
    decreases MaxLen(es) - |prefix|
  {
    var n := |LevelChoices(es, prefix)|;
    DrillUnfold(es, prefix, answers);
    assert es[0] in es;
    if n == 1 || (answers != [] && answers[0] < n) {
      var i := if n == 1 then 0 else answers[0];
      var rest := if n == 1 then answers else answers[1..];
      FollowUnfold(es, prefix, i, rest, if n == 1 then 0 else 1);
      var v := LevelChoices(es, prefix)[i].value;
      if v.ToPrefix? {
        DrillPromptBound(Narrow(es, v.prefix), v.prefix, rest);
      }
    }
  }

  /** A whole session, its first-level prompt included, never shows more
      prompts than the longest script name has characters (one when every
      name is empty). */
  lemma SelectionPromptBound(t: seq<Entry>, answers: seq<nat>)
    ensures Selection(t, answers).prompts <= if MaxLen(t) == 0 then 1 else MaxLen(t)
  {
    var f := Filtered(t);
    var g := GroupsOf(f, 0);
    if t != [] && |g.order| + |Directs(f, 0)| != 0 {
      assert t[0] in t;
      RootCovers(t);
      var r := RootChoices(t, g);
      if answers != [] && answers[0] < |r| && r[answers[0]].value.ToPrefix? {
        var p := r[answers[0]].value.prefix;
        assert r[answers[0]] in r;
        RootGroup(t, p);
        var members := g.members[p];
        DrillPromptBound(members, p, answers[1..]);
        MaxLenSubset(members, t);
        assert members[0] in members;
        assert p != [];
      }
    }
  }

  /** Every script left below `prefix` is offered at its level: a script
      choice runs it, or a prefix choice narrows to a set that keeps it
      (index.js:110-160, 171-173, 189-190). */
  lemma LevelOffers(es: seq<Entry>, prefix: string, e: Entry)
    requires AllUnder(es, prefix) && e in es
    ensures exists i ::
      && 0 <= i < |LevelChoices(es, prefix)|
      && (|| LevelChoices(es, prefix)[i].value == ToScript(e.name)
          || (LevelChoices(es, prefix)[i].value.ToPrefix? &&
              e in Narrow(es, LevelChoices(es, prefix)[i].value.prefix)))
  {
    var k := |prefix| + 1;
    LevelChoicesCount(es, prefix);
    if Grouped(e, k) {
      var key := KeyOf(e, k);
      assert e in Members(es, k, key);
      assert key in Keys(es, k);
      var i :| 0 <= i < |Keys(es, k)| && Keys(es, k)[i] == key;
      LevelGroupChoice(es, prefix, i);
      EntryUnderKey(e, prefix, key);
      assert e in Narrow(es, prefix + ":" + key);
    } else {
      assert e in Directs(es, k);
      var j :| 0 <= j < |Directs(es, k)| && Directs(es, k)[j] == e;
      LevelDirectChoice(es, prefix, j);
      assert LevelChoices(es, prefix)[|Keys(es, k)| + j].value == ToScript(e.name);
    }
  }

  /** Every surviving script is offered on the first-level menu: its own
      script choice, or the folder whose group holds it (index.js:54-87,
      102-103). */
  lemma RootOffers(t: seq<Entry>, e: Entry)
    requires e in t && Kept(e)
    ensures CoversLeftSides(t, GroupsOf(Filtered(t), 0))
    ensures var g := GroupsOf(Filtered(t), 0);
      var r := RootChoices(t, g);
      exists i ::
        && 0 <= i < |r|
        && (|| r[i].value == ToScript(e.name)
            || (r[i].value.ToPrefix? && r[i].value.prefix in g.members && e in g.members[r[i].value.prefix]))
  {
    var f := Filtered(t);
    var g := GroupsOf(f, 0);
    RootCovers(t);
    var r := RootChoices(t, g);
    assert Rest(e, 0) == e.name;
    if HasColon(e.name) {
      var key := FirstSegment(e.name);
      assert e in Members(f, 0, key);
      assert key in Keys(f, 0);
      RootPrefixTargets(t, g);
      PrefixTargetIndex(r, key);
      var i :| 0 <= i < |r| && r[i].value == ToPrefix(key);
      assert e in g.members[key];
    } else {
      assert e in Directs(f, 0);
      NamesMember(Directs(f, 0), e);
      RootScriptTargets(t, g);
      ScriptTargetIndex(r, e.name);
    }
  }
}
