# LZ1AQ loop controller: relay state machine, status API and reconnect watchdog

This project models the core of an ESP32 sketch that drives an LZ1AQ antenna-loop
controller through four relays and serves a small HTTP API.

- **Relays and modes.** Relay1..Relay3 select one of four loop configurations:
  A, B, Crossed (A + B) and Vertical. Relay4 switches an auxiliary power supply.
  `loopA`, `loopB`, `crossed` and `vertical` each write a fixed (LOW/HIGH) row
  to Relay1-3 and copy a label ("A", "B", "Crossed", "Vertical") into the 10-byte
  `activeMode` buffer with `strcpy`. `on` and `off` write Relay4 and set or clear
  `power`. At boot, `setup` runs `off()` and then `vertical()`.
- **Status.** `getStatus` reads the four pins back as D0..D3 and adds `power` and
  `mode`. Each boolean is rendered as the string "true" or "false".
- **API.** `setupApi` registers seven GET paths. Each one runs at most one of the
  operations above and then answers with the status.
- **Reconnect watchdog.** `loop` reconnects Wi-Fi when the link is down and
  `currentMillis - previousMillis >= 30000`. The subtraction is 32-bit unsigned,
  so it wraps. `previousMillis` changes only when a reconnect is issued.

Layout:

- `loop_modes.dfy` (`LoopModes`): the state as a value and the specification
  function `Apply` for each operation. It also holds the invariants (Relay1-3 show
  the pattern that `activeMode` names; Relay4 mirrors `power`), with lemmas that
  every operation sequence from boot preserves them.
- `cstrings.dfy` (`CStrings`): `strcpy` into a `char[]` as an array loop, and the
  read-back of a NUL-terminated buffer.
- `controller.dfy` (`Controller`): class `LoopController`. Its fields are a
  4-element pin array, the 10-character `activeMode` array and `power`. Each
  method states the exact levels it writes and the resulting abstract state.
- `status.dfy` (`Status`): `addBool`, `addString` and the status document, as a
  list of key/value pairs. Setting a key the document already has replaces that
  field's value, as indexing a JSON object by key does.
- `api.dfy` (`Api`): the route table, and what each request does to the state
  and answers.
- `reconnect.dfy` (`Reconnect`): 32-bit wrap-around time and class `Watchdog`
  (`previousMillis` plus one pass of `loop`). Trace functions cover a run of passes.
- `wrappers.dfy` (`Wrappers`): `Option`.

The comment above the mode functions (src/LZ1AQ-Loop-Controller.cpp:46-59)
calls the relays active low. It also says that Relay1 is wired normally closed,
so "we need to flip Relay1". The functions mark each Relay1 write "// NC Flipped"
(lines 62, 70, 78, 86), and `getStatus` marks the Relay1 read-back the same way
(line 116). No inversion is applied in the code, though. Each function writes
exactly the levels of the table at lines 51-54, and `getStatus` reports the raw
level it reads back. The model follows the levels the code writes. So after
`loopA`, Relay1 is LOW and D0 is "false", while D1 and D2 are "true"
(`Api.BootLoopAOnCrossedScenario`). All four relays are treated alike.

## Model

| member | source | states |
|---|---|---|
| `LoopModes.Pattern` | src/LZ1AQ-Loop-Controller.cpp:51-54 | each mode's row has exactly three levels, one each for Relay1, Relay2 and Relay3 |
| `LoopModes.Label` | src/LZ1AQ-Loop-Controller.cpp:61-90 | every mode label is non-empty, contains no NUL, and fits the 10-byte `activeMode` buffer (line 24) together with its terminator |
| `LoopModes.PatternsAndLabelsDistinct` | src/LZ1AQ-Loop-Controller.cpp:51-54 | two modes have the same Relay1-3 row iff they are the same mode, and the same label iff they are the same mode |
| `LoopModes.Apply` | src/LZ1AQ-Loop-Controller.cpp:61-100 | a mode operation keeps Relay4 and `power`; `on`/`off` keep Relay1-3 and `activeMode`, set `power` to true/false, and leave Relay4 HIGH iff `power` |
| `LoopModes.ModeOpsKeepPower` | src/LZ1AQ-Loop-Controller.cpp:61-90 | any run of mode operations (`loopA`, `loopB`, `crossed`, `vertical`) leaves Relay4 and `power` as they were |
| `LoopModes.PowerOpsKeepMode` | src/LZ1AQ-Loop-Controller.cpp:92-100 | any run of `on`/`off` operations leaves Relay1-3 and `activeMode` as they were |
| `LoopModes.ApplyIdempotent` | src/LZ1AQ-Loop-Controller.cpp:61-100 | applying any operation twice gives the same state as applying it once |
| `LoopModes.ModeAndPowerCommute` | src/LZ1AQ-Loop-Controller.cpp:61-100 | a mode operation and a power operation give the same state in either order: the two axes are independent |
| `LoopModes.ExactlyOnePattern` | src/LZ1AQ-Loop-Controller.cpp:61-90 | in a consistent state, Relay1-3 show a mode's row iff `activeMode` holds that mode's label, so exactly one row is shown |
| `LoopModes.ApplyKeepsInvariant` | src/LZ1AQ-Loop-Controller.cpp:61-100 | every operation preserves both invariants: Relay1-3 match the mode `activeMode` names, and Relay4 is HIGH iff `power` |
| `LoopModes.RunKeepsInvariant` | src/LZ1AQ-Loop-Controller.cpp:61-100 | any sequence of operations preserves both invariants (by induction on the sequence) |
| `LoopModes.Boot` | src/LZ1AQ-Loop-Controller.cpp:178-179 | from any prior state, `off()` then `vertical()` gives Relay1-4 = (HIGH, HIGH, LOW, LOW), mode "Vertical" and power false |
| `LoopModes.BootEstablishesInvariant` | src/LZ1AQ-Loop-Controller.cpp:178-179 | the state after `off()` then `vertical()` satisfies both invariants |
| `LoopModes.ReachableStatesConsistent` | src/LZ1AQ-Loop-Controller.cpp:178-179 | after boot and any sequence of operations, both invariants hold: Relay1-3 show the row of the mode that `activeMode` names, and Relay4 mirrors `power`. Relay1-3 show a given mode's row iff `activeMode` is that mode's label |
| `CStrings.CString` | src/LZ1AQ-Loop-Controller.cpp:121 | reading a `char[]` as a C string gives its longest NUL-free prefix: that prefix either ends at a NUL or covers the whole buffer |
| `CStrings.CStringOfTerminated` | src/LZ1AQ-Loop-Controller.cpp:121 | a buffer that holds a NUL-free string followed by NUL reads back as that string, whatever follows the terminator |
| `CStrings.StrCpy` | src/LZ1AQ-Loop-Controller.cpp:65 | `strcpy` writes the characters and a terminator, keeps the bytes after the terminator, and the buffer then reads back as the copied string |
| `Status.BoolText` | src/LZ1AQ-Loop-Controller.cpp:102-108 | `addBool` renders a boolean as "true" exactly when it is true, and as "false" otherwise |
| `Status.LookupFindsFirst` | src/LZ1AQ-Loop-Controller.cpp:102-112 | looking up a key in the document gives the value of the first field with that key |
| `Status.SetField` | src/LZ1AQ-Loop-Controller.cpp:104-111 | `doc[name].set(value)`: afterwards `name` looks up to `value` and every other key looks up as before. A key no field carries is added as one field at the end. For a key the document has, the first field with that key gets the new value in place and every other field stays where it was |
| `Status.SetFreshField` | src/LZ1AQ-Loop-Controller.cpp:104-111 | setting a key that no field carries appends exactly that one field and leaves the rest of the document as it was |
| `Status.AddBool` | src/LZ1AQ-Loop-Controller.cpp:102-108 | afterwards `name` looks up to the rendered boolean and every other key looks up as before; a new key is appended at the end, and an existing key has its value replaced in place |
| `Status.AddString` | src/LZ1AQ-Loop-Controller.cpp:110-112 | afterwards `name` looks up to the string and every other key looks up as before; a new key is appended at the end, and an existing key has its value replaced in place |
| `Status.StatusOf` | src/LZ1AQ-Loop-Controller.cpp:114-121 | the snapshot has the keys D0, D1, D2, D3, power, mode in that order. Each Dn is "true"/"false" and is "true" iff relay n+1 reads HIGH (no inversion). power is "true" iff the flag is set. mode is the `activeMode` label |
| `Status.StatusLookup` | src/LZ1AQ-Loop-Controller.cpp:115-121 | looking up each of the six keys in the snapshot gives the value that `getStatus` added for it |
| `Status.StatusDeterminesState` | src/LZ1AQ-Loop-Controller.cpp:114-121 | two states with the same snapshot are equal: the snapshot reflects all four pins, the flag and the label |
| `Status.StatusPowerAgrees` | src/LZ1AQ-Loop-Controller.cpp:116-120 | while Relay4 mirrors `power`, the D3 field equals the power field |
| `Status.StatusFieldByField` | src/LZ1AQ-Loop-Controller.cpp:114-121 | the six `addBool`/`addString` calls of `getStatus`, applied in order to an empty document, produce exactly the snapshot: each key is new when it is set, so each call appends one field |
| `Controller.LoopController.constructor` | src/LZ1AQ-Loop-Controller.cpp:12-24 | at program start `power` is false and `activeMode` is zero-filled (the empty label); the pins hold whatever levels they had |
| `Controller.LoopController.DigitalWrite` | src/LZ1AQ-Loop-Controller.cpp:62 | `digitalWrite` changes the level of the named relay and no other |
| `Controller.LoopController.SelectMode` | src/LZ1AQ-Loop-Controller.cpp:61-90 | writes a mode's row to Relay1-3 and its label into `activeMode`; Relay4 and `power` are unchanged; the new state is `Apply` of that mode |
| `Controller.LoopController.LoopA` | src/LZ1AQ-Loop-Controller.cpp:61-67 | Relay1-3 become (LOW, HIGH, HIGH), `activeMode` reads "A", Relay4 and `power` are unchanged |
| `Controller.LoopController.LoopB` | src/LZ1AQ-Loop-Controller.cpp:69-75 | Relay1-3 become (HIGH, LOW, HIGH), `activeMode` reads "B", Relay4 and `power` are unchanged |
| `Controller.LoopController.Crossed` | src/LZ1AQ-Loop-Controller.cpp:77-83 | Relay1-3 become (LOW, LOW, HIGH), `activeMode` reads "Crossed", Relay4 and `power` are unchanged |
| `Controller.LoopController.Vertical` | src/LZ1AQ-Loop-Controller.cpp:85-90 | Relay1-3 become (HIGH, HIGH, LOW), `activeMode` reads "Vertical", Relay4 and `power` are unchanged |
| `Controller.LoopController.On` | src/LZ1AQ-Loop-Controller.cpp:97-100 | Relay4 becomes HIGH and `power` true; Relay1-3 and the `activeMode` buffer are unchanged |
| `Controller.LoopController.Off` | src/LZ1AQ-Loop-Controller.cpp:92-95 | Relay4 becomes LOW and `power` false; Relay1-3 and the `activeMode` buffer are unchanged |
| `Controller.LoopController.Setup` | src/LZ1AQ-Loop-Controller.cpp:178-179 | after `off()` then `vertical()`, the state is Relay1-4 = (HIGH, HIGH, LOW, LOW), mode "Vertical" and power false, and the invariants hold |
| `Controller.LoopController.GetStatus` | src/LZ1AQ-Loop-Controller.cpp:114-121 | the document built field by field from the read-back pins, `power` and `activeMode` is the snapshot of the current state |
| `Api.Route` | src/LZ1AQ-Loop-Controller.cpp:133-159 | exactly the seven registered paths have a handler |
| `Api.PathOf` | src/LZ1AQ-Loop-Controller.cpp:133-159 | every endpoint (the status report and each of the six operations) is reached by a registered path |
| `Api.RouteOneToOne` | src/LZ1AQ-Loop-Controller.cpp:133-159 | a registered path is the only path for its endpoint |
| `Api.Respond` | src/LZ1AQ-Loop-Controller.cpp:133-159 | exactly the registered paths answer, each with the snapshot of the state after the request. An action path leaves the state its operation gives (`loopA`, `loopB`, `crossed`, `vertical`, `on` or `off`); `/api/status` and unregistered paths change nothing |
| `Api.RespondIdempotent` | src/LZ1AQ-Loop-Controller.cpp:133-159 | repeating a request leaves the state and the answer unchanged |
| `Api.RespondKeepsInvariant` | src/LZ1AQ-Loop-Controller.cpp:133-159 | every request preserves the controller's invariants |
| `Api.BootLoopAOnCrossedScenario` | src/LZ1AQ-Loop-Controller.cpp:140-159 | boot then `/api/loopA`, `/api/on`, `/api/crossed` gives three documents with the raw levels, the power flag and the mode |
| `Api.Serve` | src/LZ1AQ-Loop-Controller.cpp:133-159 | a request handler runs the path's operation (if any), then `getStatus`; the state and answer are exactly those of `Respond` |
| `Reconnect.WrapSub` | src/LZ1AQ-Loop-Controller.cpp:230 | unsigned 32-bit `currentMillis - previousMillis` is the plain difference, or that difference plus 2^32 when it would be negative; adding it to `previousMillis` modulo 2^32 gives `currentMillis` back |
| `Reconnect.ReconnectDue` | src/LZ1AQ-Loop-Controller.cpp:230 | the guard holds iff the link is down and the current reading is at least 30000 ms after `previousMillis`, either without a wrap of the clock or counting one wrap |
| `Reconnect.ElapsedIsRealTime` | src/LZ1AQ-Loop-Controller.cpp:228-230 | when two `millis()` readings are less than 2^32 ms apart in real time, the wrapped difference equals the real elapsed time, even across a wrap |
| `Reconnect.PreviousIsLastReconnect` | src/LZ1AQ-Loop-Controller.cpp:230-235 | after a run of `loop` passes, `previousMillis` is the time of the last reconnect, or its old value if none fired |
| `Reconnect.ReconnectsSpaced` | src/LZ1AQ-Loop-Controller.cpp:230-235 | consecutive reconnects are at least 30000 ms apart in wrapped time, and the first is at least 30000 ms after the initial `previousMillis` |
| `Reconnect.ConnectedNeverReconnects` | src/LZ1AQ-Loop-Controller.cpp:230 | no reconnect is issued while the link stays connected |
| `Reconnect.Watchdog.constructor` | src/LZ1AQ-Loop-Controller.cpp:12 | `previousMillis` starts at 0 |
| `Reconnect.Watchdog.Loop` | src/LZ1AQ-Loop-Controller.cpp:227-236 | a pass reconnects iff the link is down and (now - `previousMillis`) mod 2^32 >= 30000; `previousMillis` becomes now when it reconnects and is otherwise unchanged |

## Left out

- Wi-Fi provisioning (WiFiManager), `WiFi.hostname`/`WiFi.mode` with the host name `wifi_hostname` (line 19), the SPIFFS mount, mDNS setup and the endless wait when mDNS fails (lines 168-169, 181-223). These are external libraries and I/O. The watchdog only takes a `connected` boolean, and `WiFi.disconnect()`/`WiFi.reconnect()` become its `reconnect` result.
- The web server and the firmware-update server: registration, CORS headers, static files, OTA credentials and `server.begin` (lines 129-132, 160-164, 215). Only the path-to-operation mapping is kept. The handlers are registered for `HTTP_GET` only, so every request in the model is a GET request. The server library's own matching of method and path is not modelled. Paths that are not registered are handled by the server library, and the model answers `None` for them.
- ArduinoJson: `StaticJsonDocument<1024>`, `serializeJson` and the 1024-byte output buffer (lines 115, 122-125). The document is a list of key/value pairs, not serialized bytes. The HTTP status 200 and content type are not modelled.
- `Serial` logging, `delay(100)`, `pinMode` and the `millis()` clock itself. The clock reading is a parameter of `Watchdog.Loop`, and `Reconnect.Millis` relates it to real time.
- The GPIO numbers 27, 32, 22 and 21. Relay1..Relay4 are the indices 0..3 of the pin array.
- The unused UI globals `windowHeight`, `auxEnable`, `auxNC` and `auxLabel` (lines 25, 31-33). They have no behaviour in the core.
- The electrical behaviour of the pins. `digitalRead` on an output pin is taken to return the last level written, and the pin levels before `setup` are an arbitrary parameter of the constructor.
- The run-time scheduling of `loop` calls and request handlers. They are modelled as separate sequential steps. This is sound for the modelled state because they touch disjoint state. The handlers read and write only the pins, `activeMode` and `power`, and `loop` reads and writes only `previousMillis`.
