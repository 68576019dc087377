# Hyper-key layer builders for Karabiner-Elements

This project models the rule builders of a Karabiner-Elements configuration
script, `utils.ts`. The script describes "Hyper" layers in shorthand. Hyper is
the chord command + control + shift + option on one hand. The builders expand
that shorthand into complex-modification rules:

- a key bound to a **direct mapping** becomes one rule whose manipulators fire
  on Hyper + key;
- a key bound to a **sublayer** becomes a rule with a *toggle* manipulator and
  one manipulator per command entry. The toggle sets the variable
  `hyper_sublayer_<key>` to 1 while Hyper + key is held and back to 0 on
  release. Each command entry fires on its own key with any modifiers, but
  only while that variable is 1;
- a toggle fires only while the variable of every *other* key of the
  description is 0. So at most one sublayer is active at a time.

`open` and `app` are shorthands for layer commands that run `open …` in a
shell. The right-hand builders (`createRightHyperSubLayer(s)`) are copies of
the left-hand ones with `right_*` modifiers and "Right Hyper" descriptions. The
model has one definition over a `Side` and a thin wrapper for each of the four
exported builders.

Modules:

- `KarabinerTypes` (`karabiner_types.dfy`): the records the builders read and
  write (manipulators, conditions, events, rules) and the shorthand's values.
- `Utils` (`utils.dfy`): the builders themselves.
- `SublayerProperties` (`sublayer_properties.dfy`): the properties that relate
  several builders. These are the order of the generated manipulators, the
  guard on every toggle, the mutual exclusion of sublayers, and the agreement
  of the left- and right-hand builders.
- `RulesExample` (`rules_example.dfy`): an excerpt of the layer description
  that `rules.ts` passes to `createHyperSubLayers`, with facts about its rules.

A JavaScript object is an ordered mapping here: `seq<(KeyCode, V)>`, in the
order `Object.keys` enumerates it. A direct mapping is an object with a `to`
field or an array. The builders test this with `"to" in value ||
Array.isArray(value)`; the model makes it the tag `Direct` / `Sublayer` of
`LayerValue`. A layer command is either one entry or an array of alternative
entries (`Command`).

## Model

| member | source | states |
|---|---|---|
| Utils.VariableName | utils.ts:155-157 | the variable of a key is the prefix `hyper_sublayer_` followed by the key itself |
| Utils.VariableNameInjective | utils.ts:155-157 | two keys have the same variable exactly when they are the same key |
| Utils.Open | utils.ts:162-171 | the command has exactly one event, the shell command `open ` + argument; its description is `Open ` + argument; it sets no type, trigger, release events or conditions |
| Utils.App | utils.ts:179-181 | `app(name)` is `open("-a '" + name + ".app'")`, so its shell command is `open -a '<name>.app'` |
| Utils.AppInjective | utils.ts:179-181 | different application names give different commands, and equal names give equal ones |
| Utils.OtherSublayersOff | utils.ts:66-72 | the toggle's guard is no longer than the variable list; every entry is `variable_if` = 0 on a variable other than the toggle's own |
| Utils.OtherSublayersOffNames | utils.ts:66-72 | the guard tests variable v for 0 if and only if v is in the list and is not the toggle's own variable |
| Utils.OtherSublayersOffLength | utils.ts:66-72 | the guard has one condition per list element except the occurrences of the toggle's own variable |
| Utils.SublayerCommand | utils.ts:85-95 | a command entry becomes a basic manipulator on its key with mandatory `any`; its conditions are the sublayer variable = 1 followed by the entry's own conditions (none if absent); description, events and untouched fields are kept |
| Utils.CommandManipulators | utils.ts:76-97 | there is one manipulator per entry of every command, and each is a basic `any`-modifier manipulator first guarded by the sublayer variable = 1 |
| Utils.HyperSubLayer | utils.ts:22-99 | the first manipulator is the toggle, with its description, Hyper trigger, sets to 1 on press and 0 on release. Its guard is `variable_if` = 0 on exactly the other variables, one per occurrence. After it come the command manipulators |
| Utils.CreateHyperSubLayer | utils.ts:22-99 | the toggle is described `Toggle Hyper sublayer <key>` and triggered by key + left command/control/shift/option; then come the command manipulators |
| Utils.CreateRightHyperSubLayer | utils.ts:183-255 | the same as the left-hand builder, with `Toggle Right Hyper sublayer <key>` and the four right-hand modifiers |
| Utils.DirectManipulator | utils.ts:134-139 | a direct-mapping entry becomes a basic manipulator on Hyper + key; its conditions are exactly the entry's; every other field is kept |
| Utils.DirectManipulators | utils.ts:119-141 | one manipulator per entry of a direct mapping (a single entry or an array), in the entries' order |
| Utils.AllVariables | utils.ts:109-111 | the variable list has one variable per key of the description, in key order |
| Utils.HyperSubLayers | utils.ts:106-153 | one rule per key, in key order, each built against the variables of all keys |
| Utils.CreateHyperSubLayers | utils.ts:106-153 | one rule per key. A direct mapping gives `Hyper Key + <key>` and its Hyper manipulators; a sublayer gives `Hyper Key sublayer "<key>"` and the left-hand sublayer built against all keys' variables |
| Utils.CreateRightHyperSubLayers | utils.ts:257-299 | the same with `Right Hyper Key + <key>`, `Right Hyper Key sublayer "<key>"` and the right-hand builders |
| KarabinerTypes.Keys | utils.ts:109-111 | the keys of an ordered mapping, one per entry, in order |
| SublayerProperties.OtherSublayersOffAppend | utils.ts:66-72 | filtering and mapping keep the list order: the guard of a concatenation is the concatenation of the guards |
| SublayerProperties.OtherSublayersOffWithoutOwn | utils.ts:66-72 | when the own variable is not in the list, the guard tests every variable of the list for 0, in order |
| SublayerProperties.OtherSublayersOffSplit | utils.ts:66-72 | when the own variable occurs once, at position i, the guard tests everything before i and then everything after it |
| SublayerProperties.VariableUniqueAt | utils.ts:109-111 | a key that occurs once in the description has a variable that occurs once in the variable list |
| SublayerProperties.CommandManipulatorsAt | utils.ts:76-97 | entry j of the command at position k becomes the manipulator at position (entries of the commands before k) + j. So manipulators follow the commands' key order, then each array's order |
| SublayerProperties.ToggleGuardsEveryOtherKey | utils.ts:63-72 | the toggle of the sublayer at position i is guarded, in key order, by `variable_if` = 0 on the variable of every other key, direct mappings included. That is one condition fewer than there are keys |
| SublayerProperties.SublayerTogglesExclusive | utils.ts:63-72 | while the variable of any other key is set, the toggle of a sublayer has a failing condition, so no second sublayer can be opened |
| SublayerProperties.SublayerToggleEnabled | utils.ts:63-72 | conversely, while the variable of every other key is 0, no condition of a sublayer's toggle fails |
| SublayerProperties.SublayerToggleEnabledAtStartup | utils.ts:49-50 | at startup no variable is set (all read 0), so no condition of any sublayer's toggle fails |
| SublayerProperties.SublayerCommandsNeedTheirLayer | utils.ts:80-94 | every command manipulator of a sublayer has a failing condition unless that sublayer's variable is 1 |
| SublayerProperties.RightSubLayerMatchesLeft | utils.ts:183-255 | the right-hand sublayer differs from the left-hand one only in the toggle's description and modifiers |
| SublayerProperties.RightRuleDescriptions | utils.ts:257-299 | every right-hand rule's description is its left-hand twin's with `Right ` in front |
| SublayerProperties.RightSubLayersMatchLeft | utils.ts:257-299 | for every key, the right-hand rule has as many manipulators as the left-hand one. They have the same type, events, conditions, untouched fields and trigger key. Where the triggers differ, it is left against right Hyper modifiers |
| RulesExample.ExcerptKeys | rules.ts:764-821 | the excerpt's keys are 7, o, a, s in enumeration order; o is a sublayer and the others are direct mappings |
| RulesExample.DirectMappingOfSeven | rules.ts:766-772 | Hyper + 7 becomes the rule `Hyper Key + 7`, with one basic manipulator that sends the up arrow |
| RulesExample.ExcerptVariables | rules.ts:764-821 | the variables of the excerpt's keys are `hyper_sublayer_7`, `_o`, `_a` and `_s` |
| RulesExample.OpenLayerToggle | rules.ts:764-821 | with the keys 7, o, a, s, the toggle of the "open" layer requires the variables of 7, a and s to be 0, in that order |
| RulesExample.OpenOnePassword | rules.ts:775-776 | Hyper + O then 1 is the `app("1Password")` command as a basic `any`-modifier manipulator guarded by `hyper_sublayer_o` = 1 |
| RulesExample.RaycastLayerOrder | rules.ts:1078-1098 | in the Raycast layer the integer-like keys 1 and 2, written last, produce the first command manipulators, before l |

## Left out

- The order of object keys is an input. The description is a sequence in
  JavaScript's enumeration order (integer-like keys first, ascending, then
  string keys in insertion order); the model does not compute that order.
- The shape test `"to" in value || Array.isArray(value)` (utils.ts:119) is
  replaced by the `Direct`/`Sublayer` tag of a layer value, which the caller
  chooses. On two kinds of value the tag and the test disagree, and there the
  model builds a different rule than the source:
  - a `Direct(Single(e))` whose entry has no `to` field: the model builds a
    `Hyper Key + <key>` rule, but the source builds a sublayer whose commands
    are the entry's field names;
  - a `Sublayer` with a command key named `to`: the model builds a sublayer,
    but the source takes the direct branch and spreads the whole command
    object into one manipulator.
- JSON itself is not modelled: field order, serialisation, the TypeScript types
  of the `./types` module (`./types` is not part of this model), and events and
  conditions other than `set_variable`, `shell_command`, key events and
  `variable_if`. Those pass through unchanged as opaque text.
- The conditions spread of a direct mapping
  (`...(entry.conditions ? {...} : {})`) copies the entry's own field. It is
  modelled as keeping `conditions`. A present array is truthy even when empty,
  and a non-array `conditions` value is not modelled.
- A key event's `modifiers` field is a plain list, so an absent field and an
  empty list are the same value. The builders only pass key events through.
- The `console.log` calls of `createHyperSubLayers` (output only).
- The remapping daemon's evaluation of conditions is not modelled beyond
  `VariableValue`/`Fails` (a variable never set reads as 0). These are used
  only to state the mutual exclusion of sublayers and that commands need their
  layer. Timing, key-up ordering and "first matching manipulator wins" are
  not modelled.
- The rest of `rules.ts` (the other rules, writing `karabiner.json` to disk),
  `rules/` and `md.config.js` are not part of this model.
- `RulesExample` is an excerpt: the first four (7, o, a, s) of the nine
  top-level keys of the description, the "open" sublayer cut to its first two
  commands, and separately the Raycast layer r cut to its first three commands
  in enumeration order (1 and 2, then l).
- SublayerProperties.ToggleGuardsEveryOtherKey and
  SublayerProperties.SublayerTogglesExclusive assume the description's keys are
  distinct: the key at position i in the first, and two different keys in the
  second. Keys of a JavaScript object always are, but a sequence need not be.
