# colon: the namespace grouping and drill-down resolver

`colon` is an interactive picker for the scripts of a `package.json`. It
groups script names by their colon-separated segments (`build:prod`,
`build:dev`) and lets the user drill down through menus until exactly one
script is chosen, which it then runs with `npm run`. This project models the
resolver in `index.js` and proves properties of it:

- the root partition: the `":"` name and names with an empty first segment
  are dropped, other names with a colon are grouped under their first
  segment, and the rest become direct entries;
- the two error exits: no scripts, and no script left after filtering;
- the first-level menu, built in declaration order;
- the nested `while (true)` loop, which regroups the remaining scripts under
  the current prefix, builds the menu (groups first, then direct scripts),
  selects a lone choice without a prompt and otherwise prompts, then narrows
  to the chosen prefix.

The script table is a sequence of `(name, command)` entries in the order
`Object.entries` yields them. The interactive prompt is a sequence of
answers. Each answer is the index of the choice picked at one prompt. Running
out of answers, or giving an index outside the menu, stands for the user
cancelling. A session ends in an `Outcome`:
- `NoScripts`;
- `NoValidScripts`;
- `Aborted`;
- `Selected(name)`.

The model also counts the prompts shown, so that the auto-selection and
termination claims can be stated.

Modules, one per file:
- `Segments` (`segments.dfy`): the string operations `includes(":")`,
  `split(":")[0]`, `substring` and `startsWith`.
- `Grouping` (`grouping.dfy`):
  - the specification of the partition: `Filtered`, `Keys`, `Members`,
    `Directs` and `GroupsOf`;
  - the two grouping loops that build an insertion-ordered `Map` and a list,
    modelled as the `Groups` value (key order plus lookup).
- `Choices` (`choices.dfy`): the first-level and nested menus, as
  specification functions and as the loops that build them.
- `Navigator` (`navigator.dfy`):
  - the session as functions (`Selection`, `Drill`, `Follow`);
  - the program itself as methods (`SelectScript`, `DrillDown`) proved equal
    to them;
  - the properties of a session.

Each loop of `index.js` is a method with a `while` loop. Its invariants tie
the variables of the JavaScript (`scriptsWithColons`, `seenLeftSides`,
`choices`, `currentPrefix`, `remainingScripts`) to the specification
functions. The `while (true)` drill-down terminates because the longest
remaining name minus the prefix length strictly decreases.

Three behaviours of `index.js` are worth stating outright:
- The first-level menu is always shown, even when it holds one choice
  (index.js:90-93). Only nested levels auto-select (index.js:162-176).
  - A table holding only `build:prod:fast` takes one prompt.
  - A table of `:foo`, `:` and `bar` also takes one prompt, since both
    other names are filtered out.
  - `Navigator.SingleScript` states this for every table with one surviving
    script.
- A colon-free script keeps its own place on the first-level menu, even when
  its name is also a left side. With `test`, `test:watch`, `test:ci` and
  `build`, the first level lists `test`, then the `test` folder of 2
  scripts, then `build`. `Choices.RootChoicesPrefix` states the general
  rule: the choices of every leading part of the table come first on the
  menu. Applied to each leading part together with
  `Choices.RootScriptTargets` and `Choices.RootPrefixTargets`, it places
  every choice where its entry first contributes one.
- At nested levels, a single-member group whose remaining part has no colon
  would be a script choice (index.js:138-144). That branch is kept in the
  model and proved unreachable (`Choices.LevelGroupChoice`): every grouped
  entry's remaining part holds a colon.

## Model

| member | source | states |
|---|---|---|
| Segments.HasColon | index.js:29 | `includes(":")`, also at index.js:66, 112 and 132; `Segments.FirstSegment` and `Segments.KeyColonPrefix` state what it means for the first segment |
| Segments.FirstSegment | index.js:30 | `split(":")[0]` holds no colon and is the whole name when the name has none |
| Segments.FirstSegmentOf | index.js:30 | the first segment of `key:rest` is `key` when `key` has no colon |
| Segments.Suffix | index.js:111 | `substring(k)` has the length of the name minus `k`, or is empty past the end |
| Segments.StartsWith | index.js:172 | `startsWith`, also at index.js:190; `Segments.KeyColonPrefix`, `Segments.PrefixThenRest` and `Navigator.Narrow` state what it selects |
| Segments.KeyColonPrefix | index.js:171-173 | a name starts with `key:` exactly when it has a colon and its first segment is `key` |
| Segments.PrefixThenRest | index.js:111 | below a prefix `a`, starting with `a + b` is the same as the remaining part starting with `b` |
| Grouping.Rest | index.js:111 | `name.substring(currentPrefix.length + 1)`, also at index.js:131 and 155; `Segments.Suffix` gives its length and `Segments.PrefixThenRest` ties it to `startsWith` |
| Grouping.Grouped | index.js:112 | whether the remaining part holds a colon; `Grouping.Directs` and `Grouping.Members` state that it splits a level into direct entries and group members |
| Grouping.KeyOf | index.js:113 | the group key `remaining.split(":")[0]`; `Grouping.GroupContents` and `Navigator.EntryUnderKey` state which group each entry lands in and that it matches `startsWith(prefix:key:)` |
| Grouping.Kept | index.js:25-34 | which names survive the root filter; `Grouping.Filtered` and `Grouping.FilteredSnoc` state its effect |
| Grouping.Filtered | index.js:25-34 | the surviving entries are exactly those that are not `":"` and do not have an empty first segment |
| Grouping.FilteredOfSurvivors | index.js:25-34 | filtering the survivors again removes nothing |
| Grouping.Directs | index.js:39-40 | the direct entries of a level are exactly those whose remaining part has no colon |
| Grouping.Members | index.js:35-38 | a group holds exactly the entries with a colon whose first remaining segment is its key |
| Grouping.Keys | index.js:35-36 | a key is listed exactly when its group is non-empty |
| Grouping.KeysDistinct | index.js:35-36 | no key is listed twice |
| Grouping.KeysFirstAppearance | index.js:35-36 | the keys of any prefix of the table are a prefix of the keys: keys come in first-appearance order |
| Grouping.GroupContents | index.js:35-38 | every group of the map is non-empty and holds only entries grouped under its key, and every grouped entry sits in its key's group |
| Grouping.PartitionCount | index.js:23-42 | direct entries plus all group members add up to the table: every entry lands in exactly one place |
| Grouping.LevelNotEmpty | index.js:45-50 | a non-empty table has at least one group or direct entry |
| Grouping.RootGroupUnderKey | index.js:102-103 | every member of the root group `key` starts with `key:` |
| Grouping.AddToGroup | index.js:114-117 | creating the group when absent and pushing the entry keeps the map equal to the grouping of the entries so far |
| Grouping.DirectKeepsGrouping | index.js:39-40 | a direct entry leaves the grouping unchanged and extends the direct list |
| Grouping.FilteredSnoc | index.js:25-34 | one more entry joins the survivors exactly when it is neither `":"` nor has an empty first segment |
| Grouping.PartitionScripts | index.js:20-42 | the root loop builds exactly the grouping and direct list of the surviving entries |
| Grouping.PlaceEntry | index.js:110-121 | one pass of the nested grouping loop keeps its map and list equal to those of the entries seen |
| Grouping.GroupNextLevel | index.js:107-121 | the nested loop builds exactly the grouping and direct list of the remaining scripts at the next segment |
| Choices.RootChoices | index.js:54-87 | every first-level folder is a known left side whose displayed count is its group's size |
| Choices.SeenSnoc | index.js:58-74 | `seenLeftSides` grows by the left side of each surviving colon name |
| Choices.FirstLevelChoices | index.js:54-87 | the loop builds exactly the first-level menu |
| Choices.RootPrefixTargets | index.js:72-79 | the folders of the first level are the distinct left sides, once each, in first-appearance order |
| Choices.RootScriptTargets | index.js:80-86 | the script choices of the first level are the colon-free names, in declaration order |
| Choices.RootChoicesPrefix | index.js:56-87 | the first-level choices of any leading part of the table are a prefix of the whole menu, so folders and script choices interleave in table order |
| Choices.RootChoicesCount | index.js:54-87 | the first level has one choice per left side plus one per colon-free name |
| Choices.RootScriptLabels | index.js:82-85 | each first-level script choice is labelled with its own name and command and runs a surviving direct entry |
| Choices.RootChoicesOfFiltered | index.js:62-71 | the first-level menu depends only on the surviving names |
| Choices.BuildLevelChoices | index.js:123-160 | the loops build exactly the nested menu: group choices, then direct-script choices |
| Choices.ChoicesOf | index.js:123-160 | the nested menu built from a grouping and a direct list; `Choices.BuildLevelChoices` is proved equal to it, and `Choices.LevelGroupChoice`, `Choices.LevelDirectChoice` and `Choices.LevelChoicesCount` state its shape |
| Choices.GroupChoice | index.js:127-151 | the choice for one group; `Choices.LevelGroupChoice` states its shape |
| Choices.DirectChoice | index.js:153-160 | the choice for one direct script; `Choices.LevelDirectChoice` states its shape |
| Choices.LevelChoices | index.js:106-160 | the nested menu of the scripts left below a prefix; `Navigator.LevelMenu`, `Choices.LevelChoicesCount`, `Choices.LevelGroupChoice` and `Choices.LevelDirectChoice` state it |
| Choices.LevelChoicesCount | index.js:123-160 | a nested menu has one choice per group plus one per direct script, and at least one when scripts remain |
| Choices.LevelGroupChoice | index.js:126-151 | group `i` becomes a prefix choice for `prefix:key`: a path label for a single member, a folder with the group size otherwise; the script branch is unreachable |
| Choices.LevelDirectChoice | index.js:153-160 | direct script `j` follows the groups, runs its full name and is labelled with its colon-free remaining part |
| Navigator.Narrow | index.js:171-173 | narrowing keeps exactly the scripts that start with `prefix:` |
| Navigator.EntryUnderKey | index.js:111-113 | below `prefix`, a name starts with `prefix:key:` exactly when it is grouped under `key` at the next level |
| Navigator.NarrowIsGroup | index.js:189-190 | narrowing to `prefix:key` yields exactly the group `key` the level built, in order |
| Navigator.Descend | index.js:168-174 | a prefix choice leads to a non-empty set of scripts below the longer prefix, with the longest name minus the prefix strictly smaller |
| Navigator.Drill | index.js:105-192 | the drill-down ends in a selection or a cancellation, and a selection names one of the remaining scripts |
| Navigator.Follow | index.js:163-191 | taking a choice ends in a selection or a cancellation, and a selection names one of the level's scripts |
| Navigator.ScriptChoiceNamesEntry | index.js:154-159 | a nested script choice names one of the level's scripts |
| Navigator.RootCovers | index.js:73-76 | every surviving colon name's left side has a group to count |
| Navigator.RootGroup | index.js:102-103 | the group entered from the first level is non-empty and lies below its left side |
| Navigator.LevelMenu | index.js:106-160 | one pass of grouping and choice building yields exactly the nested menu |
| Navigator.DrillStep | index.js:106-191 | one iteration of the loop either finishes with the drill-down's outcome or continues from a strictly smaller state |
| Navigator.DrillDown | index.js:102-192 | the `while (true)` loop terminates with the outcome and prompt count of the drill-down |
| Navigator.SelectScript | index.js:11-193 | the whole program ends with the outcome and prompt count of the session |
| Navigator.Selection | index.js:11-193 | the session over a script table; `Navigator.SelectScript` is proved equal to it and the lemmas below state its properties |
| Navigator.SessionErrors | index.js:13-50 | no scripts and nothing left after filtering are reported exactly in those cases without a prompt; otherwise at least one prompt is shown |
| Navigator.SelectedIsKept | index.js:95-190 | a selected name is the unmodified name of a surviving entry of the table |
| Navigator.RootOffers | index.js:54-87 | every surviving script is offered on the first-level menu, by its own script choice or by the folder whose group holds it |
| Navigator.LevelOffers | index.js:110-173 | every script left below a prefix is offered at its level, by a script choice that runs it or a prefix choice whose narrowing keeps it |
| Navigator.LoneScriptNeedsNoPrompt | index.js:162-176 | below the first level, a single script is selected with no prompt, through any depth of auto-descent |
| Navigator.RootOfOne | index.js:54-87 | a one-entry table of a surviving script has a first level of exactly one choice: its folder counting one script, or the script |
| Navigator.SingleScript | index.js:89-103 | a table whose only surviving script is `e`, whatever else it holds, takes one prompt: answering 0 selects `e`, anything else cancels |
| Navigator.DrillPromptBound | index.js:105-192 | the drill-down shows at most as many prompts as the longest remaining name exceeds the prefix |
| Navigator.SelectionPromptBound | index.js:89-192 | a session shows at most as many prompts as the longest name has characters, or one prompt when every name is empty |

## Left out

- Reading `package.json` and `JSON.parse` (index.js:7-11): the script table
  is an input sequence. A missing `scripts` field is the empty table.
- The order of `Object.entries`, which puts integer-like keys first: the
  input sequence is taken to be in iteration order already.
- `console.error`, `console.log` and `process.exit` (index.js:14-15, 48-49,
  196, 200): an outcome value instead.
- The `select` prompts and their `await` (index.js:90-93, 179-182): a
  sequence of answers instead. The terminal UI and the cancellation
  exception are not modelled.
- `execSync("npm run …")` and passing on its exit status (index.js:195-201):
  a subprocess. The model ends at the selected name.
- The label text (the em dash and `" / ... [n scripts]"`): labels are
  structured values holding the segment and count, or the remaining path
  and command.
- Duplicate names cannot occur in a JavaScript object. The model does not
  assume unique names, and none of its properties needs them.
- Navigator.SelectedIsKept: its converse is proved level by level
  (`Navigator.RootOffers`, `Navigator.LevelOffers`). It is not chained into
  one lemma saying that some answers select a given surviving script: that
  needs an induction over the drill-down joined to the first level, which
  this model does not carry out.
