/** The records of a Karabiner-Elements "complex modification" that the rule
    builders produce: rules, which hold manipulators, which carry a trigger
    (`from`), the events they send (`to`, `to_after_key_up`) and the
    conditions under which they are active. Every JSON field that a record may
    omit is an `Option`. */
module KarabinerTypes {

  datatype Option<T> = None | Some(value: T)

  /** A key name as Karabiner spells it ("a", "7", "semicolon", ...). */
  type KeyCode = string

  /** A manipulator condition. Only `variable_if` is built by the rule
      builders; every other kind (device_if, frontmost_application_if, ...)
      comes from the caller's entries and is passed through as its JSON text. */
  datatype Condition =
    | VariableIf(name: string, value: int)
    | OtherCondition(json: string)

  /** One event sent by a manipulator. */
  datatype ToEvent =
    | SetVariable(name: string, value: int)
    | ShellCommand(command: string)
    | KeyEvent(keyCode: KeyCode, modifiers: seq<string>)
    | OtherEvent(json: string)

  /** The trigger of a manipulator: a key and the modifiers that must be held. */
  datatype FromEvent = FromEvent(keyCode: KeyCode, mandatory: seq<string>)

  /** A manipulator, or a caller's entry that becomes one once `type` and
      `from` are filled in. `kind` is the JSON field "type"; `rest` holds the
      fields the builders never read or write (to_if_alone, parameters, ...)
      as name / JSON text pairs. */
  datatype Manipulator = Manipulator(
    description: Option<string>,
    kind: Option<string>,
    from: Option<FromEvent>,
    to: Option<seq<ToEvent>>,
    toAfterKeyUp: Option<seq<ToEvent>>,
    conditions: Option<seq<Condition>>,
    rest: seq<(string, string)>)

  /** A command as the caller writes it: one entry, or an array of entries
      tried in order (the first whose conditions match wins). */
  datatype Command = Single(entry: Manipulator) | Alternatives(entries: seq<Manipulator>)

  /** The entries of a command: the array itself, or the single entry wrapped. */
  function Entries(c: Command): seq<Manipulator>
  {
    match c
    case Single(e) => [e]
    case Alternatives(es) => es
  }

  /** The keys of an ordered mapping, in order. */
  function Keys<V>(entries: seq<(KeyCode, V)>): (ks: seq<KeyCode>)
    ensures |ks| == |entries|
    ensures forall i :: 0 <= i < |entries| ==> ks[i] == entries[i].0
  {
    seq(|entries|, i requires 0 <= i < |entries| => entries[i].0)
  }

  /** The value bound to a key of the hyper-layer description: a direct
      mapping (an object with a `to` field, or an array) or a sublayer, an
      ordered mapping from key to command. */
  datatype LayerValue =
    | Direct(command: Command)
    | Sublayer(commands: seq<(KeyCode, Command)>)

  /** A complex-modification rule. */
  datatype Rule = Rule(description: string, manipulators: seq<Manipulator>)

  /** Which hand's modifiers form the Hyper chord. */
  datatype Side = Left | Right
}
