/** Properties of the rule builders that relate several of them: the order of
    the generated manipulators, the guard every toggle carries, the mutual
    exclusion of sublayers it produces, and the agreement of the left- and
    right-hand builders. */
module SublayerProperties {
  import opened KarabinerTypes
  import opened Utils

  /** No other key of the description equals the key at position `i`. The
      keys of a layer description are the keys of a JavaScript object, so
      this holds at every position. */
  predicate KeyUniqueAt<V>(layers: seq<(KeyCode, V)>, i: nat)
  {
    i < |layers| && forall j :: 0 <= j < |layers| && j != i ==> layers[j].0 != layers[i].0
  }

  /** `variable_if == 0` for each of `variables`, in order. */
  function AllOff(variables: seq<string>): (conds: seq<Condition>)
    ensures |conds| == |variables|
    ensures forall i :: 0 <= i < |variables| ==> conds[i] == VariableIf(variables[i], 0)
  {
    seq(|variables|, i requires 0 <= i < |variables| => VariableIf(variables[i], 0))
  }

  /** The toggle's guard keeps the order of the variable list: filtering and
      mapping a concatenation is concatenating the filtered and mapped parts. */
  lemma {:induction false} OtherSublayersOffAppend(own: string, a: seq<string>, b: seq<string>)
    ensures OtherSublayersOff(own, a + b) == OtherSublayersOff(own, a) + OtherSublayersOff(own, b)
  {
    if a == [] {
      assert a + b == b;
    } else {
      var ab := a + b;
      assert ab != [] && ab[0] == a[0] && ab[1..] == a[1..] + b;
      OtherSublayersOffAppend(own, a[1..], b);
      if a[0] == own {
        assert OtherSublayersOff(own, ab) == OtherSublayersOff(own, ab[1..]);
        assert OtherSublayersOff(own, a) == OtherSublayersOff(own, a[1..]);
      } else {
        var c := VariableIf(a[0], 0);
        assert OtherSublayersOff(own, ab) == [c] + OtherSublayersOff(own, ab[1..]);
        assert OtherSublayersOff(own, a) == [c] + OtherSublayersOff(own, a[1..]);
      }
    }
  }

  /** Without its own variable in the list, the toggle is guarded by every
      variable of the list, in order. */
  lemma {:induction false} OtherSublayersOffWithoutOwn(own: string, variables: seq<string>)
    requires own !in variables
    ensures OtherSublayersOff(own, variables) == AllOff(variables)
  {
    if variables != [] {
      OtherSublayersOffWithoutOwn(own, variables[1..]);
      assert AllOff(variables) == [VariableIf(variables[0], 0)] + AllOff(variables[1..]);
    }
  }

  /** A key that occurs once has a variable that occurs once. */
  lemma VariableUniqueAt(layers: seq<(KeyCode, LayerValue)>, i: nat)
    requires KeyUniqueAt(layers, i)
    ensures AllVariables(layers)[i] !in AllVariables(layers)[..i]
    ensures AllVariables(layers)[i] !in AllVariables(layers)[i + 1..]
  {
    var vs := AllVariables(layers);
    forall j | 0 <= j < |layers| && j != i ensures vs[j] != vs[i] {
      VariableNameInjective(layers[j].0, layers[i].0);
    }
  }

  /** The entries of the first `k` commands are those of the first command
      and of the `k - 1` commands after it. */
  lemma EntryCountPrefix(commands: seq<(KeyCode, Command)>, k: nat)
    requires 0 < k <= |commands|
    ensures EntryCount(commands[..k]) == |Entries(commands[0].1)| + EntryCount(commands[1..][..k - 1])
  {
    assert commands[..k] != [] && commands[..k][0] == commands[0];
    assert commands[..k][1..] == commands[1..][..k - 1];
  }

  /** The manipulators of the first command come first, in entry order. */
  lemma CommandManipulatorsHead(variable: string, commands: seq<(KeyCode, Command)>, j: nat)
    requires commands != [] && j < |Entries(commands[0].1)|
    ensures j < |CommandManipulators(variable, commands)|
    ensures CommandManipulators(variable, commands)[j] == SublayerCommand(variable, commands[0].0, Entries(commands[0].1)[j])
  {
    var head := SublayerCommands(variable, commands[0].0, commands[0].1);
    assert CommandManipulators(variable, commands) == head + CommandManipulators(variable, commands[1..]);
  }

  /** After them come the manipulators of the remaining commands. */
  lemma CommandManipulatorsTail(variable: string, commands: seq<(KeyCode, Command)>, x: nat)
    requires commands != [] && x < |CommandManipulators(variable, commands[1..])|
    ensures |Entries(commands[0].1)| + x < |CommandManipulators(variable, commands)|
    ensures CommandManipulators(variable, commands)[|Entries(commands[0].1)| + x]
         == CommandManipulators(variable, commands[1..])[x]
  {
    var head := SublayerCommands(variable, commands[0].0, commands[0].1);
    assert CommandManipulators(variable, commands) == head + CommandManipulators(variable, commands[1..]);
  }

  /** Position of each command manipulator: entry `j` of the command at
      position `k` sits after all entries of the commands before it. So the
      manipulators follow the commands' order, and an array keeps its order. */
  lemma {:induction false} CommandManipulatorsAt(
    variable: string, commands: seq<(KeyCode, Command)>, k: nat, j: nat)
    requires k < |commands| && j < |Entries(commands[k].1)|
    ensures EntryCount(commands[..k]) + j < |CommandManipulators(variable, commands)|
    ensures CommandManipulators(variable, commands)[EntryCount(commands[..k]) + j]
         == SublayerCommand(variable, commands[k].0, Entries(commands[k].1)[j])
  {
    if k == 0 {
      assert commands[..0] == [];
      CommandManipulatorsHead(variable, commands, j);
    } else {
      CommandManipulatorsAt(variable, commands[1..], k - 1, j);
      EntryCountPrefix(commands, k);
      CommandManipulatorsTail(variable, commands, EntryCount(commands[1..][..k - 1]) + j);
    }
  }

  /** Dropping the only occurrence of the element at position `i` leaves the
      elements before it followed by those after it. */
  lemma OtherSublayersOffSplit(variables: seq<string>, i: nat)
    requires i < |variables|
    requires variables[i] !in variables[..i] && variables[i] !in variables[i + 1..]
    ensures OtherSublayersOff(variables[i], variables) == AllOff(variables[..i]) + AllOff(variables[i + 1..])
  {
    var own := variables[i];
    assert variables == (variables[..i] + [own]) + variables[i + 1..];
    OtherSublayersOffAppend(own, variables[..i] + [own], variables[i + 1..]);
    OtherSublayersOffAppend(own, variables[..i], [own]);
    OtherSublayersOffWithoutOwn(own, variables[..i]);
    OtherSublayersOffWithoutOwn(own, variables[i + 1..]);
  }

  /** The toggle of the sublayer at position `i` is guarded, in key order, by
      `variable_if == 0` on the variable of every OTHER key of the
      description, direct mappings included, and never by its own. */
  lemma ToggleGuardsEveryOtherKey(side: Side, layers: seq<(KeyCode, LayerValue)>, i: nat)
    requires KeyUniqueAt(layers, i) && layers[i].1.Sublayer?
    ensures HyperSubLayers(side, layers)[i].manipulators[0].conditions
         == Some(AllOff(AllVariables(layers)[..i]) + AllOff(AllVariables(layers)[i + 1..]))
    ensures |HyperSubLayers(side, layers)[i].manipulators[0].conditions.value| == |layers| - 1
  {
    var vs := AllVariables(layers);
    var toggle := HyperSubLayers(side, layers)[i].manipulators[0];
    assert toggle == ToggleManipulator(side, layers[i].0, vs);
    VariableUniqueAt(layers, i);
    OtherSublayersOffSplit(vs, i);
  }

  /** The value of a variable in a state of the remapping daemon: variables
      never set read as 0. */
  function VariableValue(state: map<string, int>, name: string): int
  {
    if name in state then state[name] else 0
  }

  /** A `variable_if` condition that is false in `state`, whatever the other
      conditions of its manipulator are. */
  predicate Fails(c: Condition, state: map<string, int>)
  {
    c.VariableIf? && VariableValue(state, c.name) != c.value
  }

  /** Only one sublayer at a time: while the variable of another key is set,
      the toggle of the sublayer at position `i` has a failing condition. */
  lemma SublayerTogglesExclusive(
    side: Side, layers: seq<(KeyCode, LayerValue)>, i: nat, j: nat, state: map<string, int>)
    requires i < |layers| && j < |layers| && layers[i].0 != layers[j].0 && layers[i].1.Sublayer?
    requires VariableValue(state, VariableName(layers[j].0)) != 0
    ensures exists c :: c in HyperSubLayers(side, layers)[i].manipulators[0].conditions.value && Fails(c, state)
  {
    var vs := AllVariables(layers);
    var toggle := HyperSubLayers(side, layers)[i].manipulators[0];
    VariableNameInjective(layers[i].0, layers[j].0);
    assert vs[j] in vs;
    assert VariableIf(vs[j], 0) in toggle.conditions.value;
  }

  /** Conversely, while the variable of every other key is 0 no condition of
      the toggle of the sublayer at position `i` fails. */
  lemma SublayerToggleEnabled(
    side: Side, layers: seq<(KeyCode, LayerValue)>, i: nat, state: map<string, int>)
    requires i < |layers| && layers[i].1.Sublayer?
    requires forall j :: 0 <= j < |layers| && layers[j].0 != layers[i].0 ==>
      VariableValue(state, VariableName(layers[j].0)) == 0
    ensures forall c :: c in HyperSubLayers(side, layers)[i].manipulators[0].conditions.value ==> !Fails(c, state)
  {
    var vs := AllVariables(layers);
    var own := VariableName(layers[i].0);
    var conds := HyperSubLayers(side, layers)[i].manipulators[0].conditions.value;
    forall c | c in conds ensures !Fails(c, state) {
      var k :| 0 <= k < |conds| && conds[k] == c;
      assert c == VariableIf(c.name, 0);
      assert c.name in vs && c.name != own;
      var j :| 0 <= j < |vs| && vs[j] == c.name;
      assert layers[j].0 != layers[i].0;
    }
  }

  /** At startup no variable has been set, so every toggle can fire. */
  lemma SublayerToggleEnabledAtStartup(side: Side, layers: seq<(KeyCode, LayerValue)>, i: nat)
    requires i < |layers| && layers[i].1.Sublayer?
    ensures forall c :: c in HyperSubLayers(side, layers)[i].manipulators[0].conditions.value ==> !Fails(c, map[])
  {
    SublayerToggleEnabled(side, layers, i, map[]);
  }

  /** A command of the sublayer at position `i` has a failing condition unless
      that sublayer's variable is 1. */
  lemma SublayerCommandsNeedTheirLayer(
    side: Side, layers: seq<(KeyCode, LayerValue)>, i: nat, k: nat, state: map<string, int>)
    requires i < |layers| && layers[i].1.Sublayer?
    requires 1 <= k < |HyperSubLayers(side, layers)[i].manipulators|
    requires VariableValue(state, VariableName(layers[i].0)) != 1
    ensures HyperSubLayers(side, layers)[i].manipulators[k].conditions.Some?
    ensures Fails(HyperSubLayers(side, layers)[i].manipulators[k].conditions.value[0], state)
  {
  }

  /** The right-hand sublayer builder differs from the left-hand one only in
      the toggle's description and modifiers. */
  lemma RightSubLayerMatchesLeft(key: KeyCode, commands: seq<(KeyCode, Command)>, allVariables: seq<string>)
    ensures CreateRightHyperSubLayer(key, commands, allVariables)[1..] == CreateHyperSubLayer(key, commands, allVariables)[1..]
    ensures CreateRightHyperSubLayer(key, commands, allVariables)[0]
         == CreateHyperSubLayer(key, commands, allVariables)[0].(
              description := Some("Toggle Right Hyper sublayer " + key),
              from := Some(FromEvent(key, ["right_command", "right_control", "right_shift", "right_option"])))
  {
  }

  /** Each right-hand rule is described as its left-hand twin with "Right "
      in front. */
  lemma RightRuleDescriptions(layers: seq<(KeyCode, LayerValue)>, i: nat)
    requires i < |layers|
    ensures CreateRightHyperSubLayers(layers)[i].description == "Right " + CreateHyperSubLayers(layers)[i].description
  {
    var k := layers[i].0;
    if layers[i].1.Direct? {
      assert "Right " + ("Hyper Key + " + k) == "Right Hyper Key + " + k;
    } else {
      assert "Right " + ("Hyper Key sublayer \"" + k + "\"") == "Right Hyper Key sublayer \"" + k + "\"";
    }
  }

  /** The right-hand builder of a whole description differs from the
      left-hand one only in descriptions and in the modifiers of triggers
      that require Hyper. */
  lemma RightSubLayersMatchLeft(layers: seq<(KeyCode, LayerValue)>, i: nat)
    requires i < |layers|
    ensures |CreateRightHyperSubLayers(layers)[i].manipulators| == |CreateHyperSubLayers(layers)[i].manipulators|
    ensures forall k :: 0 <= k < |CreateHyperSubLayers(layers)[i].manipulators| ==>
      var l := CreateHyperSubLayers(layers)[i].manipulators[k];
      var r := CreateRightHyperSubLayers(layers)[i].manipulators[k];
      && r.kind == l.kind && r.to == l.to && r.toAfterKeyUp == l.toAfterKeyUp
      && r.conditions == l.conditions && r.rest == l.rest
      && l.from.Some? && r.from.Some? && r.from.value.keyCode == l.from.value.keyCode
      && (l.from != r.from ==>
            l.from.value.mandatory == HyperModifiers(Left) && r.from.value.mandatory == HyperModifiers(Right))
  {
  }
}
