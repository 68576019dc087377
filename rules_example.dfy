/** An excerpt of the layer description that the configuration script hands
    to the left-hand builder, in the order JavaScript enumerates keys
    (integer-like keys first): the first four of its nine top-level keys
    (7, o, a, s), the "open" sublayer cut down to its first two commands, and
    separately the Raycast layer r cut down to its first three commands in
    enumeration order (1 and 2, written last, then l, written first). */
module RulesExample {
  import opened KarabinerTypes
  import opened Utils
  import opened SublayerProperties

  /** A layer command that only sends a key. */
  function Send(key: KeyCode, modifiers: seq<string>): Manipulator
  {
    Manipulator(None, None, None, Some([KeyEvent(key, modifiers)]), None, None, [])
  }

  /** The same with a description. */
  function Described(description: string, key: KeyCode, modifiers: seq<string>): Manipulator
  {
    Send(key, modifiers).(description := Some(description))
  }

  /** The first four keys of the description. */
  const Layers: seq<(KeyCode, LayerValue)> := [
    ("7", Direct(Single(Send("up_arrow", [])))),
    ("o", Sublayer([("1", Single(App("1Password"))), ("g", Single(App("Google Chrome")))])),
    ("a", Direct(Single(Described("Window: Move to left display", "left_arrow",
                                  ["left_option", "left_command", "left_control"])))),
    ("s", Direct(Single(Described("Window: Move to right display", "right_arrow",
                                  ["left_option", "left_command", "left_control"]))))
  ]

  /** The Raycast layer, the last key of the description. */
  const Raycast: seq<(KeyCode, LayerValue)> := [
    ("r", Sublayer([
      ("1", Single(Open("raycast://extensions/VladCuciureanu/toothpick/connect-favorite-device-1"))),
      ("2", Single(Open("raycast://extensions/VladCuciureanu/toothpick/connect-favorite-device-2"))),
      ("l", Single(Open("raycast://extensions/stellate/mxstbr-commands/create-mxs-is-shortlink")))]))
  ]

  const LeftHyper: seq<string> := ["left_command", "left_control", "left_shift", "left_option"]

  /** The keys of the excerpt, in enumeration order. */
  lemma ExcerptKeys()
    ensures Keys(Layers) == ["7", "o", "a", "s"]
    ensures Layers[0].1.Direct? && Layers[1].1.Sublayer? && Layers[2].1.Direct? && Layers[3].1.Direct?
    ensures Layers[1].1.commands[0] == ("1", Single(App("1Password")))
  {
  }

  /** Hyper + 7 becomes a single rule that sends the up arrow. */
  lemma DirectMappingOfSeven()
    ensures |CreateHyperSubLayers(Layers)| == 4
    ensures CreateHyperSubLayers(Layers)[0] == Rule("Hyper Key + 7", [
      Manipulator(None, Some("basic"), Some(FromEvent("7", LeftHyper)),
                  Some([KeyEvent("up_arrow", [])]), None, None, [])])
  {
  }

  /** The variables of the excerpt's keys. */
  lemma ExcerptVariables()
    ensures VariableName("7") == "hyper_sublayer_7" && VariableName("o") == "hyper_sublayer_o"
    ensures VariableName("a") == "hyper_sublayer_a" && VariableName("s") == "hyper_sublayer_s"
  {
  }

  /** The guard of the second of four keys, written out. */
  lemma SecondOfFourGuard(vs: seq<string>)
    requires |vs| == 4
    ensures AllOff(vs[..1]) + AllOff(vs[2..]) == [VariableIf(vs[0], 0), VariableIf(vs[2], 0), VariableIf(vs[3], 0)]
  {
    assert AllOff(vs[..1]) == [VariableIf(vs[0], 0)];
    assert AllOff(vs[2..]) == [VariableIf(vs[2], 0), VariableIf(vs[3], 0)];
  }

  /** In a description with the keys of the excerpt, the "open" layer's
      toggle is guarded by the three other keys, all of them direct mappings. */
  lemma OpenLayerToggle(layers: seq<(KeyCode, LayerValue)>)
    requires |layers| == 4 && layers[1].1.Sublayer?
    requires layers[0].0 == "7" && layers[1].0 == "o" && layers[2].0 == "a" && layers[3].0 == "s"
    ensures HyperSubLayers(Left, layers)[1].manipulators[0].conditions == Some([
      VariableIf(VariableName("7"), 0), VariableIf(VariableName("a"), 0), VariableIf(VariableName("s"), 0)])
  {
    var vs := AllVariables(layers);
    assert KeyUniqueAt(layers, 1);
    ToggleGuardsEveryOtherKey(Left, layers, 1);
    SecondOfFourGuard(vs);
  }

  /** With 1Password first in the "open" layer, Hyper + O, then 1, runs its
      command while the layer is held. */
  lemma OpenOnePassword(layers: seq<(KeyCode, LayerValue)>)
    requires |layers| > 1 && layers[1].0 == "o" && layers[1].1.Sublayer?
    requires |layers[1].1.commands| > 0 && layers[1].1.commands[0] == ("1", Single(App("1Password")))
    ensures CreateHyperSubLayers(layers)[1].manipulators[1] ==
      App("1Password").(kind := Some("basic"), from := Some(FromEvent("1", ["any"])),
                        conditions := Some([VariableIf(VariableName("o"), 1)]))
  {
    var commands := layers[1].1.commands;
    var vs := AllVariables(layers);
    var rules := CreateHyperSubLayers(layers);
    assert rules == HyperSubLayers(Left, layers);
    assert rules[1] == LayerRule(Left, "o", layers[1].1, vs);
    assert rules[1].manipulators == HyperSubLayer(Left, "o", commands, vs);
    CommandManipulatorsAt(VariableName("o"), commands, 0, 0);
    assert commands[..0] == [];
    var e := App("1Password");
    assert rules[1].manipulators[1] == SublayerCommand(VariableName("o"), "1", e);
    assert ConditionsOrEmpty(e) == [];
    assert [VariableIf(VariableName("o"), 1)] + [] == [VariableIf(VariableName("o"), 1)];
  }

  /** In the Raycast layer the commands written last, 1 and 2, come first. */
  lemma RaycastLayerOrder()
    ensures |CreateHyperSubLayers(Raycast)[0].manipulators| == 4
    ensures CreateHyperSubLayers(Raycast)[0].manipulators[1].from == Some(FromEvent("1", ["any"]))
    ensures CreateHyperSubLayers(Raycast)[0].manipulators[2].from == Some(FromEvent("2", ["any"]))
    ensures CreateHyperSubLayers(Raycast)[0].manipulators[3].from == Some(FromEvent("l", ["any"]))
  {
  }
}
