# PowerMate Bluetooth knob driver, modelled in Dafny

This project models `PowerMateBleDevice`, the driver for one Griffin PowerMate
Bluetooth knob, and proves properties of that model. The driver has two parts:

- **Wire codecs.** These are pure integer functions:
  - the knob byte decoder (press, turns, long press, holds of 1 to 6 seconds);
  - the battery byte passthrough;
  - the LED brightness encoder (a linear map of 0..100 onto 161..191, rounded, with 160 for pulse mode).
- **Connection state machine.** A class whose handlers update the held peripheral, service and characteristics.
  - It scans for peripherals advertising the knob's service UUID, compares each discovered address, lower-cased, with its own, connects to the match, and discovers one service with three characteristics.
  - It binds those characteristics by UUID and subscribes to battery and knob notifications.
  - It tears everything down on disconnect or on `destroy`.

The Bluetooth stack is abstract. Everything the driver does to it is appended, in order, to the action log `log`. That covers scans, connect and disconnect requests, discovery requests, notify requests, writes, listener registrations and removals, and the events emitted to the consumer. Each callback the stack delivers is a method call. The listeners currently registered are the sequence `listeners`. Like an event emitter's listener arrays, it keeps a listener added twice twice. `removeListener` drops the most recently added instance.

Files, in dependency order:

- `results.dfy` (module `Results`):
  - `Option` stands for JavaScript's `undefined`.
  - `Outcome` says whether a handler completed or threw a `TypeError` or `RangeError`.
- `text.dfy` (module `Text`): `toLowerCase` on addresses.
- `wire.dfy` (module `Wire`):
  - the knob decoder with a reference encoding table;
  - `readUInt8`;
  - `map`, `Math.round` and the written LED byte.
- `device.dfy` (module `Device`):
  - the handles, events, listeners and actions;
  - the listener-registry functions and their invariant lemmas;
  - the class `PowerMateBleDevice`.
- `scenarios.dfy` (module `Scenarios`): whole sessions that drive a fresh device through the stack's callbacks.

The invariant behind "nothing is left bound after disconnect" is `PowerMateBleDevice.Tidy`. It says each registered listener is registered once and belongs to the adapter or to a handle the driver still holds (`PowerMateBleDevice.TidyTargets`). Every handler keeps it when it starts from a state that has it, except in the cases the code does not guard:
- a second matching advertisement while a peripheral is held;
- the discovery callback arriving when characteristics are already bound.

Starting from a tidy registry, after `onDisconnect` only adapter listeners remain, and after `destroy` of a driver holding a peripheral none remain.

The model follows the code in three places where one might expect otherwise:

- **Thrown errors.** One would expect no failure to surface as a thrown error; the code throws a `TypeError` in three places, and each is modelled as an outcome:
  - the discovery callback reads `services[0]` or `chars.length` on `undefined`;
  - the discovery callback calls `notify` on an unbound battery or knob characteristic;
  - `onConnect` runs with no peripheral held.
- **Late callbacks.** One would expect a callback arriving after `destroy` to be ignored; the code has no such check: a discovery callback delivered after `destroy` still binds the characteristics and registers their read listeners (`Scenarios.LateDiscoverySession`).
- **Battery level.** One would expect the battery level to be a percentage; the code passes any byte 0..255 through unchanged.

## Model

| member | source | states |
|---|---|---|
| Text.Lower | src/index.js:47 | the lower-cased address has the same length and each character is the ASCII lower-casing of the original's |
| Text.LowerHasNoUpper | src/index.js:47 | no upper-case letter survives lower-casing |
| Text.LowerIdempotent | src/index.js:47 | lower-casing the stored, already lower-cased address changes nothing |
| Text.LowerIgnoresCase | src/index.js:107 | two addresses differing only in letter case compare equal after lower-casing |
| Wire.ReadUInt8 | src/index.js:218-226 | `readUInt8(0)` yields nothing exactly on an empty buffer and otherwise the first byte |
| Wire.DecodeKnob | src/index.js:224-256 | every decoded event is one the knob can send: a hold lasts 1 to 6 seconds |
| Wire.WireCode | src/index.js:227-254 | the reference encoding maps every event to one of the listed knob codes |
| Wire.DecodeWireCode | src/index.js:227-254 | decoding an event's wire code gives back that event |
| Wire.WireCodeOfDecoded | src/index.js:227-254 | every byte that decodes is the wire code of its event, so no two codes share an event |
| Wire.DecodeKnobDefinedOn | src/index.js:227-255 | a byte yields an event exactly when it is 101-105, 112 or 114-119; every other byte yields nothing, since the switch has no default |
| Wire.FixedKnobCodes | src/index.js:228-254 | 101 decodes to press, 104 to right, 103 to left, 112 to downRight, 105 to downLeft and 102 to longPress |
| Wire.HoldCodes | src/index.js:238-245 | codes 114-119 decode to a hold of code - 113 seconds, so 1 to 6 seconds |
| Wire.MapRangeBounds | src/index.js:258-260 | over an increasing domain onto an ordered range, an input at or above the domain's start maps at or above the range's start, and one at or below the domain's end maps at or below the range's end |
| Wire.MapRange | src/index.js:258-260 | the linear `map`; over an increasing domain onto an ordered range it keeps inputs inside the domain inside the range (from `MapRangeBounds`; its ends and monotonicity are `MapRangeEnds` and `MapRangeMonotone`) |
| Wire.MapRangeEnds | src/index.js:258-260 | `map` sends the ends of its domain to the ends of its range |
| Wire.MapRangeMonotone | src/index.js:258-260 | `map` over an increasing domain onto a non-decreasing range is non-decreasing |
| Wire.Round | src/index.js:72-74 | `Math.round` lands within one half of its argument |
| Wire.MappedLevel | src/index.js:70-75 | the brightness value before the buffer write: 160 for a negative level, at least 161 for any other, and at most 191 for levels up to 100 (its closed form is `MappedLevelFormula`) |
| Wire.MappedLevelFormula | src/index.js:70-75 | for levels of 0 or more the rounded map equals 161 + (3 * level + 5) / 10 in integer arithmetic |
| Wire.LedByte | src/index.js:70-78 | the byte written to the LED: 160 for a negative level, and for levels 0 to 100 the mapped value itself, within [161, 191]; how far it stays unchanged and where it wraps are `LedByteNoTruncation` and `LedByteWraps` |
| Wire.LedByteSamples | src/index.js:70-75 | levels 0, 50 and 100 write 161, 176 and 191 |
| Wire.LedBytePulse | src/index.js:70-75 | any negative level writes the pulse byte 160 |
| Wire.LedByteNoTruncation | src/index.js:78 | up to level 314 the mapped value fits in the one-byte buffer and is written unchanged |
| Wire.LedByteInRange | src/index.js:70-75 | levels 0 to 100 write a byte in [161, 191] |
| Wire.LedByteMonotone | src/index.js:70-75 | the written byte never decreases as the level grows, up to level 314 |
| Wire.LedByteNotClamped | src/index.js:70-75 | levels above 100 are not clamped: from 102 to 314 the byte exceeds 191 |
| Wire.LedByteWraps | src/index.js:78 | level 315 maps to 256, which the one-byte buffer truncates to 0 |
| Device.StatusNames | src/index.js:13-15 | the three statuses carry the driver's strings "disconnected", "scanning" and "connected", and no two share a string |
| Device.CharUuidsDistinct | src/index.js:6-8 | the battery, knob and LED characteristic UUIDs are pairwise different, so the binding switch sends each to one field |
| Device.RemoveListener | src/index.js:192-201 | removing a listener that is not registered leaves the registry unchanged |
| Device.RemoveListenerCounts | src/index.js:192-201 | `removeListener` removes exactly one registration of the listener, or none when it has none |
| Device.RemoveListenerShrinks | src/index.js:192-201 | removal keeps only registrations that were there; in a duplicate-free registry it removes the listener entirely and keeps the registry duplicate-free |
| Device.RemoveListenerAfter | src/index.js:192-201 | only the most recent registration goes; the registrations made after it stay, in order |
| Device.RegisterStaysJustified | src/index.js:115-116 | adding a listener that is new and belongs to a held handle keeps the registry tidy |
| Device.DiscoverStaysJustified | src/index.js:112-116 | holding a newly discovered peripheral and registering its two listeners keeps the registry tidy |
| Device.SubscribeStaysJustified | src/index.js:140-182 | registering the read listeners of freshly bound battery and knob characteristics keeps the registry tidy |
| Device.DropPeripheral | src/index.js:191-194 | removing a held peripheral's two listeners keeps the rest tidy without the peripheral |
| Device.DropKnob | src/index.js:196-198 | removing a bound knob characteristic's listener keeps the rest tidy without it |
| Device.DropBattery | src/index.js:200-202 | removing a bound battery characteristic's listener keeps the rest tidy without it |
| Device.TeardownLeavesAdapter | src/index.js:190-209 | the removals of `onDisconnect` leave a tidy registry once every handle is released |
| Device.OnlyAdapter | src/index.js:204-209 | with no handle held, a tidy registry holds adapter listeners only |
| Device.LeaveAdapter | src/index.js:93-95 | removing the two adapter listeners keeps the registry tidy and leaves none on the adapter |
| Device.LeaveAdapterEmpty | src/index.js:83-96 | with no handle held, removing the adapter listeners leaves nothing registered |
| Device.LastWithUuid | src/index.js:140-152 | one pass of the binding loop for one field: the result is the field's previous value or a listed characteristic with the UUID (exactly which is `LastWithUuidKeeps` and `LastWithUuidFinds`) |
| Device.LastWithUuidKeeps | src/index.js:140-152 | a pass over characteristics in which none has the UUID leaves the field as it was |
| Device.LastWithUuidFinds | src/index.js:140-152 | a pass binds the field to the last characteristic that has the UUID |
| Device.PowerMateBleDevice.constructor | src/index.js:43-61 | stores the lower-cased address, holds no handle, registers `discover` then `stateChange` on the adapter, then reacts to the adapter's state |
| Device.PowerMateBleDevice.Tidy | src/index.js:112-116 | the registry invariant: no listener is registered twice (its ensures); every handler's contract says when it keeps it |
| Device.PowerMateBleDevice.TidyTargets | src/index.js:189-202 | in a tidy registry each listener sits on the adapter or on a held peripheral, battery or knob characteristic, so the removals of `onDisconnect` reach every handle listener |
| Device.PowerMateBleDevice.Listen | src/index.js:56-57 | one `on(...)` registration, used at lines 56-57, 115-116, 168 and 182: logs the attach and appends the listener, keeping earlier registrations, duplicates included |
| Device.PowerMateBleDevice.Unlisten | src/index.js:192-201 | one `removeListener(...)`, used at lines 94-95 and 192-201: logs the detach and drops the most recent registration of the listener (`RemoveListenerCounts`, `RemoveListenerAfter`) |
| Device.PowerMateBleDevice.OnStateChange | src/index.js:98-103 | emits "scanning" and starts one scan filtered to the service UUID exactly when the state is "poweredOn" and no peripheral is held; otherwise nothing changes |
| Device.PowerMateBleDevice.OnDiscover | src/index.js:105-124 | ignores an address that differs after lower-casing; on a match holds the peripheral, registers `connect` and `disconnect` on it and requests one connect, with no guard against a peripheral already held |
| Device.PowerMateBleDevice.OnConnect | src/index.js:126-187 | with a peripheral held, requests discovery of the one service and three characteristics, then emits "connected" before the discovery callback has bound anything; with none held it throws at the discovery request |
| Device.PowerMateBleDevice.OnServicesDiscovered | src/index.js:131-184 | stores the first service, binds each field to the last characteristic with its UUID, subscribes to battery then knob, and throws at an undefined `services` or `chars` or an unbound battery or knob characteristic, leaving whatever was done before the throw |
| Device.PowerMateBleDevice.Subscribe | src/index.js:154-182 | requests battery notifications and registers its read listener, then does the same for the knob; it throws at the first of them that is unbound |
| Device.PowerMateBleDevice.BindCharacteristics | src/index.js:140-152 | after the loop each characteristic field is the last characteristic with its UUID, or unchanged; other UUIDs are ignored |
| Device.PowerMateBleDevice.OnDisconnect | src/index.js:189-216 | removes the peripheral's two listeners, then the knob's, then the battery's, releases every handle, and only when not closing emits "disconnected" and re-runs the scan check; a tidy registry keeps only adapter listeners |
| Device.PowerMateBleDevice.RemoveHandlers | src/index.js:190-202 | removes exactly the listeners of the handles held, in the code's order |
| Device.PowerMateBleDevice.Destroy | src/index.js:83-96 | with a peripheral held, requests disconnect and tears down without "disconnected" or a rescan; then always stops scanning and removes both adapter listeners; from a tidy state no adapter listener remains, and none at all when a peripheral was held |
| Device.PowerMateBleDevice.LeaveAdapterListeners | src/index.js:90-95 | stops scanning, then removes the `stateChange` and `discover` listeners |
| Device.PowerMateBleDevice.SetLedBrightness | src/index.js:63-81 | writes nothing while the LED is unbound; otherwise writes exactly one byte, the encoded level, without response |
| Device.PowerMateBleDevice.OnBatteryRead | src/index.js:218-222 | emits the first byte unchanged as the battery level; an empty buffer throws a RangeError |
| Device.PowerMateBleDevice.OnKnobRead | src/index.js:224-256 | emits the event the first byte decodes to, or nothing for an unlisted code; an empty buffer throws a RangeError |
| Scenarios.ConnectTraceEmits | src/index.js:98-186 | a whole connection emits exactly "scanning" then "connected" to the consumer |
| Scenarios.ConnectTraceConnectsOnce | src/index.js:119-123 | a whole connection requests `connect` exactly once |
| Scenarios.BindsLedFirst | src/index.js:140-152 | the binding loop binds all three characteristics when the stack lists the LED first |
| Scenarios.BindsLedLast | src/index.js:140-152 | the binding loop binds all three characteristics when the stack lists the LED last |
| Scenarios.ScanningDevice | src/index.js:43-61 | a driver built on a powered-on adapter registers on the adapter, emits "scanning" and scans |
| Scenarios.LinkedDevice | src/index.js:105-131 | discovering the matching knob and connecting holds it and registers its two listeners |
| Scenarios.ConnectedDevice | src/index.js:126-187 | a full connection binds all three characteristics and registers both read listeners |
| Scenarios.ConnectSession | src/index.js:98-187 | a matching knob is connected with one connect request, "scanning" then "connected" and both subscriptions, in that order |
| Scenarios.IgnoresOtherAddress | src/index.js:105-109 | an advertisement from another address changes neither the log nor the held peripheral |
| Scenarios.ScanWaitsForPower | src/index.js:54-61 | with the adapter not yet on, construction only registers; "poweredOn" then emits "scanning" and scans |
| Scenarios.NotificationSession | src/index.js:218-256 | after connecting, bytes 101, 118 and 7 and a battery read of 80 emit press, hold(5) and battery 80, and nothing for 7 |
| Scenarios.BrightnessSession | src/index.js:63-81 | before connecting a brightness request writes nothing; once connected, 50% writes the single byte 176 |
| Scenarios.DisconnectTail | src/index.js:189-216 | a link drop on a powered-on adapter removes four listeners, emits "disconnected" then "scanning" and scans again |
| Scenarios.DisconnectLeavesAdapter | src/index.js:190-202 | tearing down a connected session leaves exactly the adapter's two listeners |
| Scenarios.DisconnectSession | src/index.js:189-216 | the knob dropping the link removes every handle listener, releases every handle, emits "disconnected" once, and rescans |
| Scenarios.AdapterLeavesNothing | src/index.js:93-95 | `destroy` with only the adapter's listeners registered leaves none |
| Scenarios.DestroyTail | src/index.js:83-96 | `destroy` of a connected driver requests disconnect, removes the four handle listeners, stops scanning and removes the adapter listeners |
| Scenarios.DestroySession | src/index.js:83-96 | destroying a connected driver emits no status, does not rescan, and leaves nothing registered, so a late `connect` event reaches no handler |
| Scenarios.RediscoverySession | src/index.js:105-124 | after two matching advertisements a disconnect removes only the second registrations, so the first peripheral's two listeners stay registered |
| Scenarios.LinkedLeavesNothing | src/index.js:83-96 | destroying a driver that is linked but not yet subscribed leaves nothing registered |
| Scenarios.LateDiscoverySession | src/index.js:131-184 | a discovery callback after `destroy` still completes and leaves the battery and knob read listeners registered |

## Left out

- The Bluetooth stack is abstract. Scanning, connecting, GATT transport and the delivery of events to the driver's handlers are not modelled. Each callback is a method call the stack may make in any order.
- `noble.state` is an explicit parameter (`adapterState`) of the constructor and of `OnDisconnect`. It is not read from a global.
- In the model, `destroy` calls `OnDisconnect` with an empty adapter state. That parameter is unused when `closing` is true, as `onDisconnect` reads `noble.state` only when not closing.
- Event-emitter mechanics beyond one driver's own listeners are left out: `setMaxListeners`, other consumers' listeners and dispatch order. Emitting an event appends it to `log`.
- The static status getters are left out because they are constant accessors. The strings they return are those of `Status.Name`, pinned by `Device.StatusNames`.
- `verbose` and every `console.log` are left out because they are diagnostics only.
- Errors passed to the connect, discovery, notify and write callbacks are left out. They are only logged. The notify callbacks test the outer `err` rather than their own `error`, so a failed notify-enable is never detected, and the model does not claim it is.
- Wire.MapRange: takes real arguments and requires a non-empty domain (`inMin != inMax`). The driver only calls it with 0 and 100.
- Wire.MappedLevel: models integer levels only. Non-integer levels, `NaN` and JavaScript floating-point rounding are left out.
- Text.Lower: lower-cases ASCII letters only. JavaScript's full Unicode `toLowerCase` is left out, because hardware addresses are ASCII hex.
- The example command-line programs are left out because they are argument parsing and printing around `destroy`.
- Object identity of peripherals and characteristics is a value (`id`), so two handles with equal fields count as the same object.
