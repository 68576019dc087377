/** The rule builders of the configuration script: they expand a shorthand
    description of Hyper-key layers into Karabiner complex-modification rules.
    The left-hand builders (Hyper = left command + control + shift + option)
    and their right-hand twins differ only in the modifiers and in the words
    of the descriptions, so both are one definition over `Side`. */
module Utils {
  import opened KarabinerTypes

  const VariablePrefix: string := "hyper_sublayer_"

  /** The variable that is 1 exactly while the sublayer of `key` is held. Both
      the left- and the right-hand builders use this one name. */
  function VariableName(key: KeyCode): (name: string)
    ensures |name| == |VariablePrefix| + |key|
    ensures name[..|VariablePrefix|] == VariablePrefix
    ensures name[|VariablePrefix|..] == key
  {
    VariablePrefix + key
  }

  /** Distinct keys get distinct variables, so filtering a list of variables
      by name removes exactly one key's variable. */
  lemma VariableNameInjective(a: KeyCode, b: KeyCode)
    ensures VariableName(a) == VariableName(b) <==> a == b
  {
    if VariableName(a) == VariableName(b) {
      assert a == VariableName(a)[|VariablePrefix|..];
    }
  }

  /** A layer command that runs `open <what>` in a shell. */
  function Open(what: string): (c: Manipulator)
    ensures c.to.Some? && |c.to.value| == 1 && c.to.value[0].ShellCommand?
    ensures |c.to.value[0].command| == 5 + |what|
    ensures c.to.value[0].command[..5] == "open " && c.to.value[0].command[5..] == what
    ensures c.description.Some? && |c.description.value| == 5 + |what|
    ensures c.description.value[..5] == "Open " && c.description.value[5..] == what
    ensures c.kind.None? && c.from.None? && c.toAfterKeyUp.None? && c.conditions.None? && c.rest == []
  {
    Manipulator(Some("Open " + what), None, None, Some([ShellCommand("open " + what)]), None, None, [])
  }

  /** A layer command that opens the application bundle `<name>.app`. */
  function App(name: string): (c: Manipulator)
    ensures c == Open("-a '" + name + ".app'")
    ensures c.to == Some([ShellCommand("open -a '" + name + ".app'")])
  {
    assert "open " + ("-a '" + name + ".app'") == "open -a '" + name + ".app'" by {
      assert "open " + "-a '" == "open -a '";
    }
    Open("-a '" + name + ".app'")
  }

  /** Different application names give different shell commands. */
  lemma AppInjective(a: string, b: string)
    ensures App(a) == App(b) <==> a == b
  {
    if App(a) == App(b) {
      var ca := App(a).to.value[0].command;
      var cb := App(b).to.value[0].command;
      assert ca == cb;
      assert |a| == |b| by { assert |ca| == 14 + |a| && |cb| == 14 + |b|; }
      assert a == ca[9..9 + |a|];
      assert b == cb[9..9 + |b|];
    }
  }

  /** The toggle's guard: one `variable_if == 0` condition per variable of
      `variables` other than `own`, in the order of `variables`. */
  function OtherSublayersOff(own: string, variables: seq<string>): (conds: seq<Condition>)
    ensures |conds| <= |variables|
    ensures forall i :: 0 <= i < |conds| ==> conds[i].VariableIf? && conds[i].value == 0 && conds[i].name != own
  {
    if variables == [] then []
    else
      assert variables == [variables[0]] + variables[1..];
      if variables[0] == own then OtherSublayersOff(own, variables[1..])
      else [VariableIf(variables[0], 0)] + OtherSublayersOff(own, variables[1..])
  }

  /** The toggle's guard names exactly the variables of the list other than
      `own`. */
  lemma {:induction false} OtherSublayersOffNames(own: string, variables: seq<string>, v: string)
    ensures VariableIf(v, 0) in OtherSublayersOff(own, variables) <==> v in variables && v != own
  {
    if variables != [] {
      OtherSublayersOffNames(own, variables[1..], v);
      assert v in variables <==> v == variables[0] || v in variables[1..];
    }
  }

  /** The toggle's guard has one condition per occurrence of a variable other
      than `own`: one fewer than the list when `own` occurs in it once. */
  lemma {:induction false} OtherSublayersOffLength(own: string, variables: seq<string>)
    ensures |OtherSublayersOff(own, variables)| == |variables| - multiset(variables)[own]
  {
    if variables != [] {
      assert variables == [variables[0]] + variables[1..];
      OtherSublayersOffLength(own, variables[1..]);
    }
  }

  /** The caller's conditions of an entry, or none (`entry.conditions || []`). */
  function ConditionsOrEmpty(e: Manipulator): seq<Condition>
  {
    if e.conditions.Some? then e.conditions.value else []
  }

  /** One command entry of a sublayer turned into a manipulator: triggered by
      `key` with any modifiers, guarded first by the sublayer variable being 1,
      every other field of the entry kept. */
  function SublayerCommand(variable: string, key: KeyCode, e: Manipulator): (m: Manipulator)
    ensures m.kind == Some("basic")
    ensures m.from == Some(FromEvent(key, ["any"]))
    ensures m.conditions.Some? && |m.conditions.value| == 1 + |ConditionsOrEmpty(e)|
    ensures m.conditions.value[0] == VariableIf(variable, 1)
    ensures m.conditions.value[1..] == ConditionsOrEmpty(e)
    ensures m.description == e.description && m.to == e.to && m.toAfterKeyUp == e.toAfterKeyUp && m.rest == e.rest
  {
    e.(kind := Some("basic"),
       from := Some(FromEvent(key, ["any"])),
       conditions := Some([VariableIf(variable, 1)] + ConditionsOrEmpty(e)))
  }

  /** The number of entries over all commands (an array counts its elements,
      a single entry counts one). */
  function EntryCount(commands: seq<(KeyCode, Command)>): nat
  {
    if commands == [] then 0 else |Entries(commands[0].1)| + EntryCount(commands[1..])
  }

  /** The entries of one command, each turned into a sublayer manipulator. */
  function SublayerCommands(variable: string, key: KeyCode, c: Command): seq<Manipulator>
  {
    var es := Entries(c);
    seq(|es|, i requires 0 <= i < |es| => SublayerCommand(variable, key, es[i]))
  }

  /** `m` is a basic manipulator triggered by some key with any modifiers,
      whose first condition is that `variable` is 1. */
  predicate IsSublayerCommand(m: Manipulator, variable: string)
  {
    && m.kind == Some("basic")
    && m.from.Some? && m.from.value.mandatory == ["any"]
    && m.conditions.Some? && |m.conditions.value| > 0
    && m.conditions.value[0] == VariableIf(variable, 1)
  }

  /** All command manipulators of a sublayer, in command-key order. */
  function CommandManipulators(variable: string, commands: seq<(KeyCode, Command)>): (ms: seq<Manipulator>)
    ensures |ms| == EntryCount(commands)
    ensures forall i :: 0 <= i < |ms| ==> IsSublayerCommand(ms[i], variable)
  {
    if commands == [] then []
    else
      var rest := CommandManipulators(variable, commands[1..]);
      SublayerCommands(variable, commands[0].0, commands[0].1) + rest
  }

  /** The four modifiers that make up the Hyper chord on each hand. */
  function HyperModifiers(side: Side): seq<string>
  {
    match side
    case Left => ["left_command", "left_control", "left_shift", "left_option"]
    case Right => ["right_command", "right_control", "right_shift", "right_option"]
  }

  /** The description of the toggle manipulator of a sublayer. */
  function ToggleDescription(side: Side, key: KeyCode): string
  {
    match side
    case Left => "Toggle Hyper sublayer " + key
    case Right => "Toggle Right Hyper sublayer " + key
  }

  /** The description of the rule for a direct mapping. */
  function DirectDescription(side: Side, key: KeyCode): string
  {
    match side
    case Left => "Hyper Key + " + key
    case Right => "Right Hyper Key + " + key
  }

  /** The description of the rule for a sublayer. */
  function SublayerDescription(side: Side, key: KeyCode): string
  {
    match side
    case Left => "Hyper Key sublayer \"" + key + "\""
    case Right => "Right Hyper Key sublayer \"" + key + "\""
  }

  /** The manipulator that holds the sublayer of `key` open: Hyper + key sets
      the sublayer variable to 1, releasing the key sets it back to 0, and it
      fires only while every other sublayer variable is 0. */
  function ToggleManipulator(side: Side, key: KeyCode, allVariables: seq<string>): Manipulator
  {
    var variable := VariableName(key);
    Manipulator(
      Some(ToggleDescription(side, key)),
      Some("basic"),
      Some(FromEvent(key, HyperModifiers(side))),
      Some([SetVariable(variable, 1)]),
      Some([SetVariable(variable, 0)]),
      Some(OtherSublayersOff(variable, allVariables)),
      [])
  }

  /** The manipulators of one sublayer: the toggle, then one manipulator per
      command entry. */
  function HyperSubLayer(side: Side, key: KeyCode, commands: seq<(KeyCode, Command)>, allVariables: seq<string>)
    : (ms: seq<Manipulator>)
    ensures |ms| == 1 + EntryCount(commands)
    ensures ms[0].description == Some(ToggleDescription(side, key))
    ensures ms[0].kind == Some("basic")
    ensures ms[0].from == Some(FromEvent(key, HyperModifiers(side)))
    ensures ms[0].to == Some([SetVariable(VariableName(key), 1)])
    ensures ms[0].toAfterKeyUp == Some([SetVariable(VariableName(key), 0)])
    ensures ms[0].conditions.Some?
    ensures forall i :: 0 <= i < |ms[0].conditions.value| ==>
      ms[0].conditions.value[i].VariableIf? && ms[0].conditions.value[i].value == 0
    ensures forall v :: VariableIf(v, 0) in ms[0].conditions.value <==> v in allVariables && v != VariableName(key)
    ensures |ms[0].conditions.value| == |allVariables| - multiset(allVariables)[VariableName(key)]
    ensures ms[1..] == CommandManipulators(VariableName(key), commands)
    ensures forall i :: 1 <= i < |ms| ==> IsSublayerCommand(ms[i], VariableName(key))
  {
    OtherSublayersOffLength(VariableName(key), allVariables);
    assert forall v :: VariableIf(v, 0) in OtherSublayersOff(VariableName(key), allVariables)
                     <==> v in allVariables && v != VariableName(key) by {
      forall v ensures VariableIf(v, 0) in OtherSublayersOff(VariableName(key), allVariables)
                       <==> v in allVariables && v != VariableName(key) {
        OtherSublayersOffNames(VariableName(key), allVariables, v);
      }
    }
    var ms := [ToggleManipulator(side, key, allVariables)] + CommandManipulators(VariableName(key), commands);
    assert forall i :: 1 <= i < |ms| ==> ms[i] in ms[1..];
    ms
  }

  /** The left-hand sublayer builder. */
  function CreateHyperSubLayer(key: KeyCode, commands: seq<(KeyCode, Command)>, allVariables: seq<string>)
    : (ms: seq<Manipulator>)
    ensures |ms| == 1 + EntryCount(commands)
    ensures ms[0].description == Some("Toggle Hyper sublayer " + key)
    ensures ms[0].from == Some(FromEvent(key, ["left_command", "left_control", "left_shift", "left_option"]))
    ensures ms[1..] == CommandManipulators(VariableName(key), commands)
  {
    HyperSubLayer(Left, key, commands, allVariables)
  }

  /** The right-hand sublayer builder. */
  function CreateRightHyperSubLayer(key: KeyCode, commands: seq<(KeyCode, Command)>, allVariables: seq<string>)
    : (ms: seq<Manipulator>)
    ensures |ms| == 1 + EntryCount(commands)
    ensures ms[0].description == Some("Toggle Right Hyper sublayer " + key)
    ensures ms[0].from == Some(FromEvent(key, ["right_command", "right_control", "right_shift", "right_option"]))
    ensures ms[1..] == CommandManipulators(VariableName(key), commands)
  {
    HyperSubLayer(Right, key, commands, allVariables)
  }

  /** One entry of a direct mapping turned into a manipulator triggered by
      Hyper + `key`. A `conditions` field is present only when the entry had
      one, and then it is the entry's own. */
  function DirectManipulator(side: Side, key: KeyCode, e: Manipulator): (m: Manipulator)
    ensures m.kind == Some("basic")
    ensures m.from == Some(FromEvent(key, HyperModifiers(side)))
    ensures m.conditions == e.conditions
    ensures m.description == e.description && m.to == e.to && m.toAfterKeyUp == e.toAfterKeyUp && m.rest == e.rest
  {
    e.(kind := Some("basic"),
       from := Some(FromEvent(key, HyperModifiers(side))),
       conditions := if e.conditions.Some? then e.conditions else None)
  }

  /** The entries of a direct mapping, each turned into a manipulator
      triggered by Hyper + `key`, in the entries' order. */
  function DirectManipulators(side: Side, key: KeyCode, c: Command): (ms: seq<Manipulator>)
    ensures |ms| == |Entries(c)|
    ensures forall i :: 0 <= i < |ms| ==> ms[i] == DirectManipulator(side, key, Entries(c)[i])
  {
    var es := Entries(c);
    seq(|es|, i requires 0 <= i < |es| => DirectManipulator(side, key, es[i]))
  }

  /** The variables of all keys of the layer description, in key order. */
  function AllVariables(layers: seq<(KeyCode, LayerValue)>): (vs: seq<string>)
    ensures |vs| == |layers|
    ensures forall i :: 0 <= i < |layers| ==> vs[i] == VariableName(layers[i].0)
  {
    var keys := Keys(layers);
    seq(|keys|, i requires 0 <= i < |keys| => VariableName(keys[i]))
  }

  /** The rule for one key of the layer description. */
  function LayerRule(side: Side, key: KeyCode, value: LayerValue, allVariables: seq<string>): Rule
  {
    match value
    case Direct(c) => Rule(DirectDescription(side, key), DirectManipulators(side, key, c))
    case Sublayer(commands) => Rule(SublayerDescription(side, key), HyperSubLayer(side, key, commands, allVariables))
  }

  /** All rules of a layer description: one per key, in key order, every
      sublayer's toggle guarded against the variables of ALL keys (direct
      ones included). */
  function HyperSubLayers(side: Side, layers: seq<(KeyCode, LayerValue)>): (rules: seq<Rule>)
    ensures |rules| == |layers|
    ensures forall i :: 0 <= i < |layers| ==>
      rules[i] == LayerRule(side, layers[i].0, layers[i].1, AllVariables(layers))
  {
    var allVariables := AllVariables(layers);
    seq(|layers|, i requires 0 <= i < |layers| => LayerRule(side, layers[i].0, layers[i].1, allVariables))
  }

  /** The left-hand builder for a whole layer description: one rule per
      key, in key order. */
  function CreateHyperSubLayers(layers: seq<(KeyCode, LayerValue)>): (rules: seq<Rule>)
    ensures |rules| == |layers|
    ensures forall i :: 0 <= i < |layers| && layers[i].1.Direct? ==>
      rules[i] == Rule("Hyper Key + " + layers[i].0, DirectManipulators(Left, layers[i].0, layers[i].1.command))
    ensures forall i :: 0 <= i < |layers| && layers[i].1.Sublayer? ==>
      rules[i] == Rule("Hyper Key sublayer \"" + layers[i].0 + "\"",
                       CreateHyperSubLayer(layers[i].0, layers[i].1.commands, AllVariables(layers)))
  {
    HyperSubLayers(Left, layers)
  }

  /** The right-hand builder for a whole layer description: one rule per
      key, in key order. */
  function CreateRightHyperSubLayers(layers: seq<(KeyCode, LayerValue)>): (rules: seq<Rule>)
    ensures |rules| == |layers|
    ensures forall i :: 0 <= i < |layers| && layers[i].1.Direct? ==>
      rules[i] == Rule("Right Hyper Key + " + layers[i].0, DirectManipulators(Right, layers[i].0, layers[i].1.command))
    ensures forall i :: 0 <= i < |layers| && layers[i].1.Sublayer? ==>
      rules[i] == Rule("Right Hyper Key sublayer \"" + layers[i].0 + "\"",
                       CreateRightHyperSubLayer(layers[i].0, layers[i].1.commands, AllVariables(layers)))
  {
    HyperSubLayers(Right, layers)
  }
}
