/** The macro pad session: the controller's default state, the newline framer
    that turns serial bytes into commands, dispatch of commands to actions, the
    config file at map level, and the LED frame written to the device. */
module MacroPad {
  import opened Lines
  import opened Actions

  type UInt32 = x: int | 0 <= x < 0x1_0000_0000

  const LedCount := 441

  /** One LED colour, three bytes in r, g, b order. */
  datatype Led = Led(r: Byte, g: Byte, b: Byte)

  const Purple := Led(175, 45, 246)

  // Windows virtual-key codes used by the default commands.
  const VK_SHIFT: Byte := 0x10
  const VK_LWIN: Byte := 0x5B
  const VK_VOLUME_MUTE: Byte := 0xAD
  const VK_VOLUME_DOWN: Byte := 0xAE
  const VK_VOLUME_UP: Byte := 0xAF
  const VK_MEDIA_NEXT_TRACK: Byte := 0xB0
  const VK_MEDIA_PREV_TRACK: Byte := 0xB1
  const VK_MEDIA_PLAY_PAUSE: Byte := 0xB3
  const KeyS: Byte := 0x53

  const SpotifyPath := "C:/Users/5davi/AppData/Roaming/Spotify/Spotify.exe"

  function KeyMacroOf(keys: seq<Byte>): Action
  {
    Action(KeyMacro, keys, "")
  }

  const SpotifyAction := Action(OpenProcess, [], SpotifyPath)
  const ScreenshotAction := KeyMacroOf([VK_LWIN, VK_SHIFT, KeyS])

  // ---------------------------------------------------------------------
  // Default command names

  function Digit(d: nat): char
    requires d < 10
  {
    ('0' as int + d) as char
  }

  /** `std::to_string` of a non-negative number. */
  function DecimalDigits(n: nat): string
  {
    if n < 10 then [Digit(n)] else DecimalDigits(n / 10) + [Digit(n % 10)]
  }

  lemma {:induction false} DecimalDigitsShort(n: nat)
    ensures |DecimalDigits(n)| >= 1
    ensures |DecimalDigits(n)| == 1 <==> n < 10
  {
    if n >= 10 {
      DecimalDigitsShort(n / 10);
    }
  }

  /** Different numbers are written differently. */
  lemma {:induction false} DecimalDigitsInjective(a: nat, b: nat)
    requires DecimalDigits(a) == DecimalDigits(b)
    ensures a == b
    decreases a
  {
    DecimalDigitsShort(a);
    DecimalDigitsShort(b);
    if a >= 10 {
      var s := DecimalDigits(a);
      assert s[..|s| - 1] == DecimalDigits(a / 10);
      assert s[..|s| - 1] == DecimalDigits(b / 10);
      assert Digit(a % 10) == Digit(b % 10);
      DecimalDigitsInjective(a / 10, b / 10);
    }
  }

  /** The command a macro pad key sends: "KEY" and its number. */
  function KeyName(i: nat): string
  {
    "KEY" + DecimalDigits(i)
  }

  lemma KeyNameInjective(i: nat, j: nat)
    ensures KeyName(i) == KeyName(j) <==> i == j
  {
    if KeyName(i) == KeyName(j) {
      assert DecimalDigits(i) == KeyName(i)[3..];
      assert DecimalDigits(j) == KeyName(j)[3..];
      DecimalDigitsInjective(i, j);
    }
  }

  /** The six media commands. */
  function NamedCommands(): map<string, Action>
  {
    map[
      "VOLUMEUP" := KeyMacroOf([VK_VOLUME_UP]),
      "VOLUMEDOWN" := KeyMacroOf([VK_VOLUME_DOWN]),
      "NEXTTRACK" := KeyMacroOf([VK_MEDIA_NEXT_TRACK]),
      "PREVTRACK" := KeyMacroOf([VK_MEDIA_PREV_TRACK]),
      "PLAYPAUSE" := KeyMacroOf([VK_MEDIA_PLAY_PAUSE]),
      "MUTE" := KeyMacroOf([VK_VOLUME_MUTE])
    ]
  }

  lemma KeyNameNotNamed(i: nat)
    ensures KeyName(i) !in NamedCommands()
  {
    assert KeyName(i)[0] == 'K';
  }

  /** The command map after the media commands and the first `n` keys have
      been entered. */
  function Registry(n: nat): map<string, Action>
  {
    if n == 0 then NamedCommands() else Registry(n - 1)[KeyName(n - 1) := SpotifyAction]
  }

  /** The map the constructor builds: every key launches Spotify, except key 5,
      which is overridden afterwards with the screenshot shortcut. */
  function DefaultCommands(): map<string, Action>
  {
    Registry(LedCount)[KeyName(5) := ScreenshotAction]
  }

  /** Entering keys never touches the media commands. */
  lemma {:induction false} RegistryKeepsNamed(n: nat)
    ensures forall k :: k in NamedCommands() ==> k in Registry(n) && Registry(n)[k] == NamedCommands()[k]
  {
    if n > 0 {
      RegistryKeepsNamed(n - 1);
      KeyNameNotNamed(n - 1);
    }
  }

  /** Each of the first `n` keys launches Spotify. */
  lemma {:induction false} RegistryKeys(n: nat)
    ensures forall i :: 0 <= i < n ==> KeyName(i) in Registry(n) && Registry(n)[KeyName(i)] == SpotifyAction
  {
    if n > 0 {
      RegistryKeys(n - 1);
    }
  }

  /** Nothing but the media commands and the first `n` keys is entered. */
  lemma {:induction false} RegistryDomain(n: nat)
    ensures forall k :: k in Registry(n) ==> k in NamedCommands() || exists i :: 0 <= i < n && k == KeyName(i)
  {
    if n > 0 {
      RegistryDomain(n - 1);
      forall k | k in Registry(n)
        ensures k in NamedCommands() || exists i :: 0 <= i < n && k == KeyName(i)
      {
        if k != KeyName(n - 1) {
          assert k in Registry(n - 1);
        }
      }
    }
  }

  /** The key entered at step `n` is new, so the map grows by one. */
  lemma {:induction false} RegistrySize(n: nat)
    ensures |Registry(n)| == |NamedCommands()| + n
  {
    if n > 0 {
      RegistrySize(n - 1);
      RegistryDomain(n - 1);
      KeyNameNotNamed(n - 1);
      if KeyName(n - 1) in Registry(n - 1) {
        var i :| 0 <= i < n - 1 && KeyName(n - 1) == KeyName(i);
        KeyNameInjective(i, n - 1);
        assert false;
      }
    }
  }

  lemma RegistryContents(n: nat)
    ensures forall k :: k in NamedCommands() ==> k in Registry(n) && Registry(n)[k] == NamedCommands()[k]
    ensures forall i :: 0 <= i < n ==> KeyName(i) in Registry(n) && Registry(n)[KeyName(i)] == SpotifyAction
    ensures forall k :: k in Registry(n) ==> k in NamedCommands() || exists i :: 0 <= i < n && k == KeyName(i)
    ensures |Registry(n)| == |NamedCommands()| + n
  {
    RegistryKeepsNamed(n);
    RegistryKeys(n);
    RegistryDomain(n);
    RegistrySize(n);
  }

  /** The first `n` keys entered, then key 5 overridden. */
  lemma {:induction false} OverriddenRegistryContents(n: nat)
    requires n > 5
    ensures |Registry(n)[KeyName(5) := ScreenshotAction]| == |NamedCommands()| + n
    ensures forall k :: k in NamedCommands() ==>
              k in Registry(n)[KeyName(5) := ScreenshotAction] &&
              Registry(n)[KeyName(5) := ScreenshotAction][k] == NamedCommands()[k]
    ensures forall i :: 0 <= i < n ==>
              KeyName(i) in Registry(n)[KeyName(5) := ScreenshotAction] &&
              Registry(n)[KeyName(5) := ScreenshotAction][KeyName(i)] == (if i == 5 then ScreenshotAction else SpotifyAction)
    ensures forall k :: k in Registry(n)[KeyName(5) := ScreenshotAction] ==>
              k in NamedCommands() || exists i :: 0 <= i < n && k == KeyName(i)
  {
    RegistryContents(n);
    KeyNameNotNamed(5);
    forall i | 0 <= i < n
      ensures KeyName(i) == KeyName(5) <==> i == 5
    {
      KeyNameInjective(i, 5);
    }
  }

  /** The default command map: the six media commands, KEY0 to KEY440 and
      nothing else (447 entries); every key launches Spotify except KEY5. */
  lemma DefaultCommandsContents()
    ensures |DefaultCommands()| == 447
    ensures forall k :: k in NamedCommands() ==> k in DefaultCommands() && DefaultCommands()[k] == NamedCommands()[k]
    ensures forall i :: 0 <= i < LedCount ==>
              KeyName(i) in DefaultCommands() &&
              DefaultCommands()[KeyName(i)] == (if i == 5 then ScreenshotAction else SpotifyAction)
    ensures forall k :: k in DefaultCommands() ==> k in NamedCommands() || exists i :: 0 <= i < LedCount && k == KeyName(i)
  {
    OverriddenRegistryContents(LedCount);
    NamedCommandsSize();
  }

  lemma NamedCommandsSize()
    ensures |NamedCommands()| == 6
  {
  }

  // ---------------------------------------------------------------------
  // Dispatch and framing

  /** What a command does: the mapped action's effects, or nothing for a name
      the map does not hold. */
  function Dispatch(commands: map<string, Action>, command: string): seq<Effect>
  {
    if command in commands then ActionEffects(commands[command]) else []
  }

  /** The effects of processing commands one after another. */
  function DispatchAll(commands: map<string, Action>, tokens: seq<string>): seq<Effect>
  {
    if tokens == [] then []
    else DispatchAll(commands, tokens[..|tokens| - 1]) + Dispatch(commands, tokens[|tokens| - 1])
  }

  /** One call of `asio::read` for one byte: a byte, nothing, or a thrown
      `system_error`. */
  datatype ReadResult = GotByte(value: Byte) | GotNothing | ReadError

  /** The characters delivered by a run of reads. */
  function ReceivedText(outcomes: seq<ReadResult>): string
  {
    if outcomes == [] then ""
    else
      var last := outcomes[|outcomes| - 1];
      ReceivedText(outcomes[..|outcomes| - 1]) + (if last.GotByte? then [last.value as char] else "")
  }

  lemma ReceivedTextStep(outcomes: seq<ReadResult>, i: nat)
    requires i < |outcomes|
    ensures ReceivedText(outcomes[..i + 1]) ==
              ReceivedText(outcomes[..i]) + (if outcomes[i].GotByte? then [outcomes[i].value as char] else "")
  {
    assert outcomes[..i + 1][..i] == outcomes[..i];
  }

  lemma SplitLinesStep(s: string, c: char)
    ensures SplitLines(s + [c]) ==
              if c == '\n' then (SplitLines(s).0 + [SplitLines(s).1], "") else (SplitLines(s).0, SplitLines(s).1 + [c])
  {
    assert (s + [c])[..|s + [c]| - 1] == s;
  }

  lemma DispatchAllStep(commands: map<string, Action>, tokens: seq<string>, t: string)
    ensures DispatchAll(commands, tokens + [t]) == DispatchAll(commands, tokens) + Dispatch(commands, t)
  {
    assert (tokens + [t])[..|tokens|] == tokens;
  }

  class MacroPadController {
    const leds: array<Led>
    var commandsMap: map<string, Action>
    var portName: string
    var baudRate: UInt32
    var portOpen: bool

    ghost predicate Valid()
      reads this
    {
      leds.Length == LedCount
    }

    /** The default state: all LEDs purple, the default commands, a closed port
        and 9600 baud. */
    constructor ()
      ensures Valid() && fresh(leds)
      ensures forall i :: 0 <= i < LedCount ==> leds[i] == Purple
      ensures commandsMap == DefaultCommands()
      ensures baudRate == 9600 && portName == "" && !portOpen
    {
      var ledsData := new Led[LedCount](_ => Led(0, 0, 0));
      for i := 0 to LedCount
        invariant forall j :: 0 <= j < i ==> ledsData[j] == Purple
      {
        ledsData[i] := Purple;
      }
      var commands := NamedCommands();
      for i := 0 to LedCount
        invariant commands == Registry(i)
      {
        commands := commands[KeyName(i) := SpotifyAction];
      }
      commands := commands[KeyName(5) := ScreenshotAction];
      leds := ledsData;
      commandsMap := commands;
      portName := "";
      baudRate := 9600;
      portOpen := false;
    }

    /** Records the port name and baud rate and opens the port. Opening an
        already open port fails; the listener starts only when the baud rate is
        accepted as well. The outcomes of the two driver calls are
        parameters. */
    method ConnectToPort(name: string, baud: UInt32, openSucceeds: bool, baudAccepted: bool)
      returns (listenerStarted: bool)
      modifies this`portName, this`baudRate, this`portOpen
      ensures portName == name && baudRate == baud
      ensures portOpen == (old(portOpen) || openSucceeds)
      ensures listenerStarted == (!old(portOpen) && openSucceeds && baudAccepted)
    {
      portName := name;
      baudRate := baud;
      listenerStarted := false;
      if !portOpen && openSucceeds {
        portOpen := true;
        if baudAccepted {
          listenerStarted := true;
        }
      }
    }

    /** Closes the port if it is open; `closeCalled` tells whether the driver's
        close was called, so a second call does nothing. */
    method Disconnect() returns (closeCalled: bool)
      modifies this`portOpen
      ensures !portOpen
      ensures closeCalled == old(portOpen)
    {
      closeCalled := false;
      if portOpen {
        portOpen := false;
        closeCalled := true;
      }
    }

    /** Performs the action a command names, if any; the map is not
        changed. */
    method ProcessCommand(command: string) returns (effects: seq<Effect>)
      ensures command in commandsMap ==> effects == ActionEffects(commandsMap[command])
      ensures command !in commandsMap ==> effects == []
      ensures effects == Dispatch(commandsMap, command)
    {
      effects := [];
      if command in commandsMap {
        var action := commandsMap[command];
        effects := PerformAction(action);
      }
    }

    /** The listener loop over the reads the port delivers. Each byte other
        than a newline is appended to the pending command; each newline
        processes the pending command (possibly empty) and clears it. The loop
        ends at the first read that throws, whose index is `stoppedAt`
        (`|outcomes|` if none does). `commands` are the commands logged as
        received, in order. */
    method CommandListenerProcess(outcomes: seq<ReadResult>)
      returns (commands: seq<string>, pending: string, stoppedAt: nat, effects: seq<Effect>)
      ensures stoppedAt <= |outcomes|
      ensures forall j :: 0 <= j < stoppedAt ==> !outcomes[j].ReadError?
      ensures stoppedAt < |outcomes| ==> outcomes[stoppedAt].ReadError?
      ensures (commands, pending) == SplitLines(ReceivedText(outcomes[..stoppedAt]))
      ensures AllNoNewline(commands) && NoNewline(pending)
      ensures JoinLines(commands) + pending == ReceivedText(outcomes[..stoppedAt])
      ensures effects == DispatchAll(commandsMap, commands)
    {
      var command := "";
      commands := [];
      effects := [];
      var running := true;
      var i := 0;
      while running && i < |outcomes|
        invariant 0 <= i <= |outcomes|
        invariant forall j :: 0 <= j < i ==> !outcomes[j].ReadError?
        invariant !running ==> i < |outcomes| && outcomes[i].ReadError?
        invariant (commands, command) == SplitLines(ReceivedText(outcomes[..i]))
        invariant effects == DispatchAll(commandsMap, commands)
        decreases |outcomes| - i, running
      {
        ReceivedTextStep(outcomes, i);
        match outcomes[i] {
          case ReadError =>
            running := false;
          case GotNothing =>
            assert ReceivedText(outcomes[..i + 1]) == ReceivedText(outcomes[..i]);
            i := i + 1;
          case GotByte(b) =>
            var c := b as char;
            assert ReceivedText(outcomes[..i + 1]) == ReceivedText(outcomes[..i]) + [c];
            commands, command, effects := ReceiveChar(commands, command, effects, ReceivedText(outcomes[..i]), c);
            i := i + 1;
        }
      }
      stoppedAt := i;
      pending := command;
      SplitLinesJoin(ReceivedText(outcomes[..stoppedAt]));
    }

    /** One received character: a newline processes the pending command and
        clears it, any other character is appended to it. Split into commands
        and the pending rest, the text received so far grows by `c`. */
    method ReceiveChar(commands: seq<string>, command: string, effects: seq<Effect>, ghost text: string, c: char)
      returns (commands': seq<string>, command': string, effects': seq<Effect>)
      requires (commands, command) == SplitLines(text)
      requires effects == DispatchAll(commandsMap, commands)
      ensures (commands', command') == SplitLines(text + [c])
      ensures effects' == DispatchAll(commandsMap, commands')
    {
      SplitLinesStep(text, c);
      if c == '\n' {
        var e := ProcessCommand(command);
        DispatchAllStep(commandsMap, commands, command);
        effects' := effects + e;
        commands' := commands + [command];
        command' := "";
      } else {
        commands' := commands;
        command' := command + [c];
        effects' := effects;
      }
    }

    /** The bytes written to the port by one update: nothing while the port is
        closed, otherwise the 10-byte header and the 441 colours. */
    method Update() returns (written: seq<Byte>)
      requires Valid()
      ensures !portOpen ==> written == []
      ensures portOpen ==> written == FrameHeader + LedBytes(leds[..])
      ensures portOpen ==> |written| == 1333 && written[..|FrameHeader|] == FrameHeader
      ensures portOpen ==> forall i :: 0 <= i < LedCount ==>
                written[10 + 3 * i] == leds[i].r &&
                written[10 + 3 * i + 1] == leds[i].g &&
                written[10 + 3 * i + 2] == leds[i].b
    {
      written := [];
      if portOpen {
        written := FrameHeader + LedBytes(leds[..]);
        LedBytesAt(leds[..], 0);
        forall i | 0 <= i < LedCount
          ensures written[10 + 3 * i] == leds[i].r
          ensures written[10 + 3 * i + 1] == leds[i].g
          ensures written[10 + 3 * i + 2] == leds[i].b
        {
          LedBytesAt(leds[..], i);
        }
      }
    }

    /** The config object: one record per command name. */
    method SerializeConfig() returns (config: map<string, Record>)
      ensures config == SerializedConfig(commandsMap)
      ensures config.Keys == commandsMap.Keys
    {
      config := map[];
      var remaining := commandsMap.Keys;
      while remaining != {}
        invariant remaining <= commandsMap.Keys
        invariant config.Keys == commandsMap.Keys - remaining
        invariant forall n :: n in config ==> config[n] == SerializeAction(commandsMap[n])
        decreases remaining
      {
        var name :| name in remaining;
        config := config[name := SerializeAction(commandsMap[name])];
        remaining := remaining - {name};
      }
    }

    /** Merges a config object into the command map, entry by entry in the
        object's name order. A malformed entry ends the merge with an error
        (`ok` false); exactly the entries listed before it stay merged. */
    method DeserializeConfig(config: map<string, Record>) returns (ok: bool)
      modifies this`commandsMap
      ensures ok <==> AllDecodable(config)
      ensures ok ==> commandsMap == old(commandsMap) + DecodeAll(config)
      ensures !ok ==> exists bad ::
                (IsFirstMalformed(config, bad) &&
                 commandsMap == MergeDecoded(old(commandsMap), config, NamesBefore(config, bad)))
      ensures forall n :: n in old(commandsMap) && n !in config ==>
                n in commandsMap && commandsMap[n] == old(commandsMap)[n]
      ensures forall n :: n in commandsMap ==>
                (n in old(commandsMap) && commandsMap[n] == old(commandsMap)[n]) ||
                (n in config && DeserializeAction(config[n]) == Decoded(commandsMap[n]))
    {
      var remaining := config.Keys;
      ghost var done: set<string> := {};
      while remaining != {}
        invariant remaining <= config.Keys && done == config.Keys - remaining
        invariant forall n :: n in done ==> DeserializeAction(config[n]).Decoded?
        invariant forall d, r :: d in done && r in remaining ==> NameBefore(d, r)
        invariant commandsMap == MergeDecoded(old(commandsMap), config, done)
        decreases remaining
      {
        FirstNameExists(remaining);
        var name :| IsFirstName(remaining, name);
        var d := DeserializeAction(config[name]);
        if d.Malformed? {
          MalformedStop(config, done, remaining, name);
          MergeDecodedFacts(old(commandsMap), config, done);
          ok := false;
          return;
        }
        MergeDecodedStep(old(commandsMap), config, done, name);
        commandsMap := commandsMap[name := d.action];
        remaining := remaining - {name};
        done := done + {name};
      }
      MergeDecodedFacts(old(commandsMap), config, done);
      assert commandsMap == old(commandsMap) + DecodeAll(config);
      ok := true;
    }
  }

  /** A config object whose entry "A" reads back and whose entry "B" lacks
      its action type: loading it fails, and "A", listed first, stays
      merged with its action. */
  method EarlierEntryStaysMerged(controller: MacroPadController) returns (ok: bool)
    modifies controller
    ensures !ok
    ensures "A" in controller.commandsMap && controller.commandsMap["A"] == Action(None, [], "")
  {
    var config := map["A" := Record(Present("none"), Missing, Missing), "B" := Record(Missing, Missing, Missing)];
    assert DeserializeAction(config["A"]) == Decoded(Action(None, [], ""));
    assert DeserializeAction(config["B"]).Malformed?;
    assert NameBefore("A", "B");
    ghost var prior := controller.commandsMap;
    ok := controller.DeserializeConfig(config);
    ghost var bad :| IsFirstMalformed(config, bad) &&
                     controller.commandsMap == MergeDecoded(prior, config, NamesBefore(config, bad));
    assert bad == "A" || bad == "B";
    assert "A" in NamesBefore(config, bad);
  }

  /** When the merge, having merged `done`, meets the malformed first name
      of `remaining`, that name is the first malformed entry and `done` is
      what is listed before it. */
  lemma MalformedStop(config: map<string, Record>, done: set<string>, remaining: set<string>, name: string)
    requires remaining <= config.Keys && done == config.Keys - remaining
    requires forall n :: n in done ==> DeserializeAction(config[n]).Decoded?
    requires forall d, r :: d in done && r in remaining ==> NameBefore(d, r)
    requires IsFirstName(remaining, name)
    requires DeserializeAction(config[name]).Malformed?
    ensures IsFirstMalformed(config, name)
    ensures done == NamesBefore(config, name)
  {
    forall n | n in config && NameBefore(n, name)
      ensures n in done
    {
      NameBeforeTotal(n, name);
      NameBeforeIrreflexive(n);
    }
  }

  /** "LEDSDATA\n" as asio sends the char array: with its terminating NUL. */
  const FrameHeader: seq<Byte> := [0x4C, 0x45, 0x44, 0x53, 0x44, 0x41, 0x54, 0x41, 0x0A, 0x00]

  lemma FrameHeaderIsLiteral()
    ensures |FrameHeader| == |"LEDSDATA\n"| + 1
    ensures forall i :: 0 <= i < |"LEDSDATA\n"| ==> FrameHeader[i] == "LEDSDATA\n"[i] as int
    ensures FrameHeader[|FrameHeader| - 1] == 0
  {
  }

  /** The LED array as raw memory: r, g, b of each LED in index order. */
  function LedBytes(leds: seq<Led>): seq<Byte>
  {
    if leds == [] then []
    else
      var last := leds[|leds| - 1];
      LedBytes(leds[..|leds| - 1]) + [last.r, last.g, last.b]
  }

  lemma {:induction false} LedBytesAt(leds: seq<Led>, i: nat)
    requires i < |leds|
    ensures |LedBytes(leds)| == 3 * |leds|
    ensures LedBytes(leds)[3 * i] == leds[i].r
    ensures LedBytes(leds)[3 * i + 1] == leds[i].g
    ensures LedBytes(leds)[3 * i + 2] == leds[i].b
    decreases |leds|
  {
    var init := leds[..|leds| - 1];
    if i < |leds| - 1 {
      LedBytesAt(init, i);
    } else if init != [] {
      LedBytesAt(init, 0);
    }
  }

  /** `a` comes before `b` in the order in which a JSON object (a `std::map`
      keyed by `std::string`) lists its names: character by character, a
      proper prefix first. */
  predicate NameBefore(a: string, b: string)
    decreases |a|
  {
    if a == [] then b != []
    else if b == [] then false
    else if a[0] != b[0] then a[0] < b[0]
    else NameBefore(a[1..], b[1..])
  }

  lemma {:induction false} NameBeforeIrreflexive(a: string)
    ensures !NameBefore(a, a)
    decreases |a|
  {
    if a != [] {
      NameBeforeIrreflexive(a[1..]);
    }
  }

  /** Of two different names exactly one comes first. */
  lemma {:induction false} NameBeforeTotal(a: string, b: string)
    ensures a != b ==> NameBefore(a, b) || NameBefore(b, a)
    ensures !(NameBefore(a, b) && NameBefore(b, a))
    decreases |a|
  {
    if a != [] && b != [] && a[0] == b[0] {
      NameBeforeTotal(a[1..], b[1..]);
      assert a == [a[0]] + a[1..] && b == [b[0]] + b[1..];
    }
  }

  lemma {:induction false} NameBeforeTransitive(a: string, b: string, c: string)
    requires NameBefore(a, b) && NameBefore(b, c)
    ensures NameBefore(a, c)
    decreases |a|
  {
    if a != [] && a[0] == b[0] && b[0] == c[0] {
      NameBeforeTransitive(a[1..], b[1..], c[1..]);
    }
  }

  /** `m` comes before every other name of `names`. */
  predicate IsFirstName(names: set<string>, m: string)
  {
    m in names && forall n :: n in names && n != m ==> NameBefore(m, n)
  }

  /** Adding a name `x` to a set whose first name is `m`: the first name is
      then `x` if it comes before `m`, and `m` otherwise. */
  lemma FirstNameInsert(rest: set<string>, m: string, x: string)
    requires IsFirstName(rest, m)
    ensures IsFirstName(rest + {x}, if NameBefore(x, m) then x else m)
  {
    NameBeforeTotal(x, m);
    if NameBefore(x, m) {
      forall n | n in rest + {x} && n != x
        ensures NameBefore(x, n)
      {
        if n != m {
          NameBeforeTransitive(x, m, n);
        }
      }
    }
  }

  /** Every non-empty set of names has a first one. */
  lemma {:induction false} FirstNameExists(names: set<string>)
    requires names != {}
    ensures exists m :: IsFirstName(names, m)
    decreases names
  {
    var x :| x in names;
    if names == {x} {
      assert IsFirstName(names, x);
    } else {
      var rest := names - {x};
      FirstNameExists(rest);
      var m :| IsFirstName(rest, m);
      FirstNameInsert(rest, m, x);
      assert rest + {x} == names;
    }
  }

  /** `bad` is the first entry of the config object that does not decode. */
  predicate IsFirstMalformed(config: map<string, Record>, bad: string)
  {
    && bad in config && DeserializeAction(config[bad]).Malformed?
    && forall n :: n in config && NameBefore(n, bad) ==> DeserializeAction(config[n]).Decoded?
  }

  /** The names listed before `bad`. */
  function NamesBefore(config: map<string, Record>, bad: string): set<string>
  {
    set n | n in config && NameBefore(n, bad)
  }

  /** A config object has a first malformed entry exactly when some entry is
      malformed, and it has only one. */
  lemma FirstMalformedFacts(config: map<string, Record>, a: string, b: string)
    ensures !AllDecodable(config) ==> exists m :: IsFirstMalformed(config, m)
    ensures IsFirstMalformed(config, a) ==> !AllDecodable(config)
    ensures IsFirstMalformed(config, a) && IsFirstMalformed(config, b) ==> a == b
  {
    if !AllDecodable(config) {
      var bad := set n | n in config && DeserializeAction(config[n]).Malformed?;
      var x :| x in config && DeserializeAction(config[x]).Malformed?;
      assert x in bad;
      FirstNameExists(bad);
      var m :| IsFirstName(bad, m);
      forall n | n in config && NameBefore(n, m)
        ensures DeserializeAction(config[n]).Decoded?
      {
        NameBeforeTotal(n, m);
        NameBeforeIrreflexive(m);
        assert n in bad ==> NameBefore(m, n);
      }
      assert IsFirstMalformed(config, m);
    }
    NameBeforeTotal(a, b);
  }

  /** The command map after the entries `names` of a config object have been
      merged into `prior`. */
  function MergeDecoded(prior: map<string, Action>, config: map<string, Record>, names: set<string>): map<string, Action>
    requires names <= config.Keys
    requires forall n :: n in names ==> DeserializeAction(config[n]).Decoded?
  {
    prior + map n | n in names :: DeserializeAction(config[n]).action
  }

  lemma MergeDecodedStep(prior: map<string, Action>, config: map<string, Record>, names: set<string>, name: string)
    requires names <= config.Keys && name in config
    requires forall n :: n in names + {name} ==> DeserializeAction(config[n]).Decoded?
    ensures MergeDecoded(prior, config, names + {name}) ==
              MergeDecoded(prior, config, names)[name := DeserializeAction(config[name]).action]
  {
  }

  /** A partial merge keeps every name it has not merged and gives each merged
      name its decoded action; once every name is merged it is `DecodeAll`. */
  lemma MergeDecodedFacts(prior: map<string, Action>, config: map<string, Record>, names: set<string>)
    requires names <= config.Keys
    requires forall n :: n in names ==> DeserializeAction(config[n]).Decoded?
    ensures forall n :: n in prior && n !in names ==> n in MergeDecoded(prior, config, names) && MergeDecoded(prior, config, names)[n] == prior[n]
    ensures forall n :: n in MergeDecoded(prior, config, names) ==>
              (n in prior && MergeDecoded(prior, config, names)[n] == prior[n]) ||
              (n in config && DeserializeAction(config[n]) == Decoded(MergeDecoded(prior, config, names)[n]))
    ensures names == config.Keys ==> AllDecodable(config) && MergeDecoded(prior, config, names) == prior + DecodeAll(config)
  {
  }

  /** The config object written for a command map. */
  function SerializedConfig(commands: map<string, Action>): map<string, Record>
  {
    map n | n in commands :: SerializeAction(commands[n])
  }

  predicate AllDecodable(config: map<string, Record>)
  {
    forall n :: n in config ==> DeserializeAction(config[n]).Decoded?
  }

  function DecodeAll(config: map<string, Record>): map<string, Action>
    requires AllDecodable(config)
  {
    map n | n in config :: DeserializeAction(config[n]).action
  }

  /** Writing a command map and merging the file into another map gives: the
      written names with their actions (payloads the type does not use are not
      kept), and every other name of the other map unchanged. */
  lemma ConfigRoundTrip(registry: map<string, Action>, prior: map<string, Action>)
    ensures AllDecodable(SerializedConfig(registry))
    ensures var merged := prior + DecodeAll(SerializedConfig(registry));
      && merged.Keys == prior.Keys + registry.Keys
      && (forall n :: n in registry ==> merged[n] == Canonical(registry[n]))
      && (forall n :: n in prior && n !in registry ==> merged[n] == prior[n])
  {
    forall n | n in registry
      ensures DeserializeAction(SerializedConfig(registry)[n]) == Decoded(Canonical(registry[n]))
    {
      ActionRoundTrip(registry[n]);
    }
  }
}
