/** The macro pad's actions: what an action is, what performing it hands to
    the operating system, and how one action is written to and read back from
    the configuration file. */
module Actions {

  /** An `unsigned char`: the type of a virtual-key code in an action. */
  type Byte = x: int | 0 <= x < 256

  datatype ActionType = None | KeyMacro | OpenProcess

  /** The action record. Like the C++ struct it always carries both payload
      fields; the type decides which one is used. */
  datatype Action = Action(kind: ActionType, keys: seq<Byte>, processPath: string)

  /** One keyboard entry of the INPUT array given to `SendInput`: virtual key
      and whether `KEYEVENTF_KEYUP` is set. */
  datatype KeyEvent = KeyEvent(key: Byte, keyUp: bool)

  /** What performing an action asks of the operating system. */
  datatype Effect =
    | SendInput(events: seq<KeyEvent>)
    | CreateProcess(commandLine: string)

  /** The INPUT array of a key macro as the two loops of PerformAction fill
      it: entry i presses key i, entry |keys| + i releases key i. */
  function MacroEvents(keys: seq<Byte>): seq<KeyEvent>
  {
    seq(2 * |keys|, i requires 0 <= i < 2 * |keys| =>
      if i < |keys| then KeyEvent(keys[i], false) else KeyEvent(keys[i - |keys|], true))
  }

  function Presses(keys: seq<Byte>): seq<KeyEvent>
  {
    if keys == [] then [] else [KeyEvent(keys[0], false)] + Presses(keys[1..])
  }

  function Releases(keys: seq<Byte>): seq<KeyEvent>
  {
    if keys == [] then [] else [KeyEvent(keys[0], true)] + Releases(keys[1..])
  }

  lemma {:induction false} PressesAt(keys: seq<Byte>, i: nat)
    requires i < |keys|
    ensures |Presses(keys)| == |keys| && Presses(keys)[i] == KeyEvent(keys[i], false)
  {
    if i > 0 {
      PressesAt(keys[1..], i - 1);
    } else if |keys| > 1 {
      PressesAt(keys[1..], 0);
    }
  }

  lemma {:induction false} ReleasesAt(keys: seq<Byte>, i: nat)
    requires i < |keys|
    ensures |Releases(keys)| == |keys| && Releases(keys)[i] == KeyEvent(keys[i], true)
  {
    if i > 0 {
      ReleasesAt(keys[1..], i - 1);
    } else if |keys| > 1 {
      ReleasesAt(keys[1..], 0);
    }
  }

  /** A key macro presses every key in listed order and then releases every
      key, again in listed order. */
  lemma MacroIsPressesThenReleases(keys: seq<Byte>)
    ensures MacroEvents(keys) == Presses(keys) + Releases(keys)
  {
    if keys == [] {
      assert Presses(keys) == [] && Releases(keys) == [];
    } else {
      PressesAt(keys, 0);
      ReleasesAt(keys, 0);
      var n := |keys|;
      forall i | 0 <= i < 2 * n
        ensures MacroEvents(keys)[i] == (Presses(keys) + Releases(keys))[i]
      {
        if i < n { PressesAt(keys, i); } else { ReleasesAt(keys, i - n); }
      }
    }
  }

  /** The releases do not come in reverse order: with two distinct keys the
      first release is that of the first key, not of the last one. */
  lemma ReleasesFollowListedOrder(a: Byte, b: Byte)
    requires a != b
    ensures MacroEvents([a, b])[2] == KeyEvent(a, true)
    ensures MacroEvents([a, b])[2] != KeyEvent(b, true)
  {
  }

  /** What performing an action requests: nothing for NONE, one `SendInput`
      of the macro's events for KEY_MACRO, one process creation for
      OPEN_PROCESS. */
  function ActionEffects(a: Action): seq<Effect>
  {
    match a.kind
    case None => []
    case KeyMacro => [SendInput(MacroEvents(a.keys))]
    case OpenProcess => [CreateProcess(a.processPath)]
  }

  /** Performs an action. The INPUT array is zero-filled first, as
      `ZeroMemory` does, then the presses are written by a forward loop and the
      releases by a backward loop. Whether `CreateProcessA` succeeds is only
      reported on the console, so it does not appear here. */
  method PerformAction(action: Action) returns (effects: seq<Effect>)
    ensures effects == ActionEffects(action)
    ensures action.kind == KeyMacro ==>
      && |effects| == 1 && effects[0].SendInput?
      && |effects[0].events| == 2 * |action.keys|
      && (forall i :: 0 <= i < |action.keys| ==>
            effects[0].events[i] == KeyEvent(action.keys[i], false) &&
            effects[0].events[|action.keys| + i] == KeyEvent(action.keys[i], true))
    ensures action.kind == OpenProcess ==> effects == [CreateProcess(action.processPath)]
    ensures action.kind == None ==> effects == []
  {
    match action.kind {
      case KeyMacro =>
        var keys := action.keys;
        var numKeys := |keys|;
        var inputs := new KeyEvent[numKeys * 2](_ => KeyEvent(0, false));
        // key presses
        for i := 0 to numKeys
          invariant forall j :: 0 <= j < i ==> inputs[j] == KeyEvent(keys[j], false)
        {
          inputs[i] := KeyEvent(keys[i], false);
        }
        // key releases, written from the last key down to the first
        var i := numKeys - 1;
        while i >= 0
          invariant -1 <= i < numKeys
          invariant forall j :: 0 <= j < numKeys ==> inputs[j] == KeyEvent(keys[j], false)
          invariant forall j :: i < j < numKeys ==> inputs[numKeys + j] == KeyEvent(keys[j], true)
        {
          var padding := numKeys + i;
          inputs[padding] := KeyEvent(keys[i], true);
          i := i - 1;
        }
        assert inputs[..] == MacroEvents(keys);
        effects := [SendInput(inputs[..])];
      case OpenProcess =>
        effects := [CreateProcess(action.processPath)];
      case None =>
        effects := [];
    }
  }

  // ---------------------------------------------------------------------
  // The config file format

  const ActionTypeKey := "action_type"
  const KeysKey := "keys"
  const ProcessPathKey := "process_path"

  /** The two global tables between action types and their names. */
  const ActionTypeNames: map<ActionType, string> :=
    map[None := "none", KeyMacro := "key_macro", OpenProcess := "open_process"]
  const ActionTypesByName: map<string, ActionType> :=
    map["none" := None, "key_macro" := KeyMacro, "open_process" := OpenProcess]

  /** The name written for a type; every type has one. */
  function ActionTypeToString(t: ActionType): (name: string)
    ensures name in ActionTypesByName && ActionTypesByName[name] == t
  {
    assert t in ActionTypeNames by { assert t == None || t == KeyMacro || t == OpenProcess; }
    ActionTypeNames[t]
  }

  /** The type read for a name. `operator[]` default-constructs the enum for
      a name it does not hold, which is NONE. */
  function StringToActionType(name: string): (t: ActionType)
    ensures name in ActionTypesByName ==> ActionTypeToString(t) == name
    ensures name !in ActionTypesByName ==> t == None
  {
    if name in ActionTypesByName then ActionTypesByName[name] else None
  }

  /** The two tables are inverse to each other over the three names. */
  lemma ActionTypeNamesInverse()
    ensures forall t :: StringToActionType(ActionTypeToString(t)) == t
    ensures forall name :: name in ActionTypesByName ==> ActionTypeToString(StringToActionType(name)) == name
    ensures ActionTypesByName.Keys == {"none", "key_macro", "open_process"}
  {
  }

  /** A field of a JSON object, present or not. */
  datatype Field<T> = Missing | Present(value: T)

  /** The JSON object stored for one command name. */
  datatype Record = Record(actionType: Field<string>, keys: Field<seq<int>>, processPath: Field<string>)

  /** The outcome of reading one record: an action, or the name of a field
      the record needs and lacks (the JSON library throws, or the behaviour is
      undefined, when one is read). */
  datatype Decoded = Decoded(action: Action) | Malformed(missingField: string)

  /** The record written for one action: its type name, and the payload field
      the type uses. */
  function SerializeAction(a: Action): Record
  {
    Record(
      Present(ActionTypeToString(a.kind)),
      if a.kind == KeyMacro then Present(a.keys) else Missing,
      if a.kind == OpenProcess then Present(a.processPath) else Missing)
  }

  /** A JSON number read as `unsigned char` keeps its low eight bits. */
  function ToBytes(codes: seq<int>): seq<Byte>
  {
    seq(|codes|, i requires 0 <= i < |codes| => codes[i] % 256)
  }

  /** The action read back from one record. A default-constructed action has
      empty payloads; only the payload of the decoded type is filled in. */
  function DeserializeAction(r: Record): (d: Decoded)
    ensures r.actionType.Missing? ==> d == Malformed(ActionTypeKey)
    ensures d.Decoded? ==> r.actionType.Present? && d.action.kind == StringToActionType(r.actionType.value)
    ensures r.actionType.Present? && r.actionType.value !in ActionTypesByName ==>
              d == Decoded(Action(None, [], ""))
    ensures d.Decoded? && d.action.kind == KeyMacro ==>
              r.keys.Present? && d.action.keys == ToBytes(r.keys.value) && d.action.processPath == ""
    ensures d.Decoded? && d.action.kind == OpenProcess ==>
              r.processPath.Present? && d.action.processPath == r.processPath.value && d.action.keys == []
  {
    match r.actionType
    case Missing => Malformed(ActionTypeKey)
    case Present(name) =>
      var kind := StringToActionType(name);
      match kind
      case None => Decoded(Action(None, [], ""))
      case KeyMacro =>
        if r.keys.Missing? then Malformed(KeysKey) else Decoded(Action(KeyMacro, ToBytes(r.keys.value), ""))
      case OpenProcess =>
        if r.processPath.Missing? then Malformed(ProcessPathKey) else Decoded(Action(OpenProcess, [], r.processPath.value))
  }

  /** An action with the payload its type does not use cleared: all that
      survives a trip through the config file. */
  function Canonical(a: Action): Action
  {
    Action(a.kind,
           if a.kind == KeyMacro then a.keys else [],
           if a.kind == OpenProcess then a.processPath else "")
  }

  /** Writing an action and reading it back gives the same type and, for a
      key macro, the same keys, for a process launch, the same path. */
  lemma ActionRoundTrip(a: Action)
    ensures DeserializeAction(SerializeAction(a)) == Decoded(Canonical(a))
    ensures Canonical(a).kind == a.kind
    ensures a.kind == KeyMacro ==> Canonical(a).keys == a.keys
    ensures a.kind == OpenProcess ==> Canonical(a).processPath == a.processPath
  {
    if a.kind == KeyMacro {
      assert ToBytes(a.keys) == a.keys;
    }
  }
}
