# ESP32 Crafty Control: a Dafny model of the BLE client

The firmware in `src/main.cpp` scans for a Storz & Bickel "Crafty"
vaporizer over Bluetooth Low Energy and connects to it. It then reads every
characteristic listed in a fixed table, `uuidMap`, and logs each value,
decoded by a rule based on the field's name. This project models that core
and proves properties of the model:

- `common.dfy` (`Common`): bytes and an `Option` type.
- `strings.dfy` (`Strings`): `std::string::find` and the lexicographic
  `operator<` of `std::string`. `std::map` keeps its keys in that order.
- `decoder.dfy` (`Decoder`): the name-based decode rule inside the read
  loop.
  - A name containing "Temperature" or "Voltage" is read as a little-endian
    signed 16-bit integer.
  - Every other name is printed through `c_str()`, which stops at the first
    zero byte.
- `registry.dfy` (`Registry`): the 35-entry `uuidMap`.
  - It is built from its initializer list, which is kept in source order.
  - The range-for visits the map in ascending key order.
  - `operator[]` is modelled on a `StringMap`: the keys in iteration order
    plus the key-to-UUID map.
- `session.dfy` (`Session`): `connectToServer`. It is an imperative method
  with the source's early exits and its `continue`. The method is proved
  equal to a specification function, `Attempt`. The BLE peripheral is an
  abstract `Peer` value. What the function does (connect, service lookup,
  characteristic lookups, reads, reported values, disconnect) is recorded
  as a trace of events.
- `controller.dfy` (`Controller`): the three globals `doConnect`,
  `connected` and `pServerAddress`. They are a class whose methods are
  `onResult` and `loop`. Each method is proved equal to a function on a
  value of the globals (`Callback`, `Step`). `Run` folds any interleaving of
  advertisements and loop passes.

Points where the code's behaviour is easy to misread:

- The characteristic loop visits every entry of `uuidMap`, "ServiceUuid"
  included. It is not limited to the field entries.
- A successful session never disconnects. Only the missing-service exit
  calls `disconnect`.
- The scan callback has no terminal "matched" state. Every later matching
  advertisement overwrites the address and sets `doConnect` again.
- Every non-integer field is reported as the bytes before the first zero
  (`c_str()`), not as raw bytes. The "Serial"/"Model" branch and the default
  branch print the same thing.
- The integer test is `find(...) != npos`, a substring test. So
  "AccuTemperatureMinUuid", "CurrentTemperaturePT1000Uuid" and similar
  names decode as integers too.

## Model

| member | source | states |
|---|---|---|
| Strings.FindFrom | src/main.cpp:125 | the index found is the first occurrence at or after the start position; None means no occurrence there |
| Strings.Find | src/main.cpp:125 | no contract; `find(pat)` from position 0, characterised by Strings.FindFrom and Strings.FindIffContains |
| Strings.FindIffContains | src/main.cpp:125-129 | `find` differs from `npos` exactly when the pattern occurs somewhere in the name |
| Strings.LexLessTransitive | src/main.cpp:107 | the `std::string` ordering the map iterates in is transitive |
| Strings.AscendingPairwise | src/main.cpp:107 | in a strictly ascending key sequence, each earlier key is below each later one and differs from it |
| Decoder.Int16LE | src/main.cpp:127 | the two payload bytes read as a little-endian `int16_t` give a value in [-32768, 32767] that is congruent to `lo + 256*hi` modulo 65536 |
| Decoder.DecodeEncodeInt16 | src/main.cpp:127 | every 16-bit signed value survives encoding to two little-endian bytes and decoding back |
| Decoder.EncodeDecodeInt16 | src/main.cpp:127 | every pair of bytes survives decoding and re-encoding |
| Decoder.IsIntegerField | src/main.cpp:125 | no contract; the Temperature/Voltage condition, characterised by Strings.FindIffContains, Decoder.IntegerTestedFirst and Registry.IntegerFieldsOfRegistry |
| Decoder.InterpretationOf | src/main.cpp:125-135 | no contract; the dispatch order is characterised by Decoder.IntegerTestedFirst, Decoder.TextDecode and Decoder.TextBranchesAgree |
| Decoder.Decode | src/main.cpp:125-135 | no contract; characterised by Decoder.IntegerDecode, Decoder.ShortIntegerFails, Decoder.TextDecode, Decoder.TextBranchesAgree, Decoder.IntegerExamples and Decoder.TextExamples |
| Decoder.CString | src/main.cpp:131-134 | `c_str()` printing yields a prefix of the payload that has no zero byte and ends at the first zero or at the end |
| Decoder.CStringOfTerminated | src/main.cpp:131-134 | a zero-free text followed by a zero byte prints as exactly that text, whatever follows |
| Decoder.IntegerDecode | src/main.cpp:125-128 | a name containing "Temperature" or "Voltage" decodes the first two bytes as a little-endian `int16_t` and ignores any further bytes |
| Decoder.ShortIntegerFails | src/main.cpp:127 | on the integer branch, a payload shorter than two bytes is a decode failure |
| Decoder.TextDecode | src/main.cpp:129-135 | any other name decodes to the `c_str()` prefix of the payload |
| Decoder.TextBranchesAgree | src/main.cpp:129-135 | the "Serial"/"Model" branch and the default branch produce the same value |
| Decoder.IntegerTestedFirst | src/main.cpp:125-129 | a name matching both the integer test and the "Serial"/"Model" test takes the integer branch |
| Decoder.IntegerExamples | src/main.cpp:125-128 | `[0x64,0x00]` under "TemperatureUuid" is 100; `[0xFF,0xFF,0x07]` under "VoltageAccuUuid" is -1; one byte fails |
| Decoder.TextExamples | src/main.cpp:129-135 | "SerialUuid" with `[0x41,0x42,0x00,0x43]` gives "AB"; "SetPointUuid" is text, not an integer |
| Registry.EntryAt | src/main.cpp:10-44 | no contract; the initializer list line by line, characterised by Registry.TableLookup, Registry.EntryKeysDistinct and Registry.EntryUuidsDistinct |
| Registry.Entries | src/main.cpp:10-44 | no contract; the 35 lines in source order, characterised by Registry.TableLookup, Registry.EntryKeysDistinct and Registry.EntryUuidsDistinct |
| Registry.UuidMap | src/main.cpp:9-45 | no contract; the global `uuidMap`, characterised by Registry.RegistrySize, Registry.UuidsDistinct, Registry.ServiceEntry and Registry.TableLookup |
| Registry.OrderedKeys | src/main.cpp:107 | no contract; the order the range-for visits, characterised by Registry.OrderedKeysAscending and Registry.RegistryEnumeration |
| Registry.TableOfKeys | src/main.cpp:9-45 | a key is in the map built from an initializer list exactly when some entry of the list carries it |
| Registry.TableOfEntries | src/main.cpp:9-45 | each value in the built map comes from an entry of the list with that key |
| Registry.TableOf | src/main.cpp:9-45 | no contract; the initializer-list construction is characterised by Registry.TableOfKeys, Registry.TableOfEntries and Registry.TableLookup |
| Registry.TableLookup | src/main.cpp:9-45 | every initializer entry's key maps to that entry's UUID (no entry is shadowed) |
| Registry.EntryKeysDistinct | src/main.cpp:9-45 | the 35 initializer keys are pairwise distinct |
| Registry.EntryUuidsDistinct | src/main.cpp:9-45 | the 35 initializer UUIDs are pairwise distinct |
| Registry.RegistrySize | src/main.cpp:9-45 | `uuidMap` holds 35 entries |
| Registry.UuidsDistinct | src/main.cpp:9-45 | no two keys of `uuidMap` share a UUID |
| Registry.RegistryEnumeration | src/main.cpp:9-45 | the iteration order lists 35 distinct keys, exactly the keys of `uuidMap` |
| Registry.OrderedKeysAscending | src/main.cpp:107 | the iteration order is strictly ascending in `std::string` order |
| Registry.OrderedUuidsAscending | src/main.cpp:9-45 | the UUIDs, listed in their own sorted order, are strictly ascending, so they are distinct |
| Registry.ServiceEntry | src/main.cpp:10 | "ServiceUuid" is a key and maps to 00000001-4c45-4b43-4942-265a524f5453 |
| Registry.IntegerFieldsOfRegistry | src/main.cpp:9-45 | among the registry keys, exactly the nine listed names pass the integer test, and "SetPointUuid" does not |
| Registry.IntegerFieldsAreTableKeys | src/main.cpp:9-45 | the nine integer-decoded names are all registry keys |
| Registry.IntegerFieldCount | src/main.cpp:125 | the listed set `IntegerFieldNames` has nine names |
| Registry.NineIntegerFields | src/main.cpp:9-45 | the registry keys that pass the integer test are the nine listed names, so there are nine of them |
| Registry.OperatingTimeIsNotTemperature | src/main.cpp:40 | "OperatingTimeAccuUuid" has a capital T but does not contain "Temperature" |
| Registry.UuidTable | src/main.cpp:9-45 | `uuidMap` as a `StringMap` is well formed: ascending keys and a value for each key, with nothing else |
| Registry.UuidTableValid | src/main.cpp:9-45 | that table has 35 keys, and `uuidMap["ServiceUuid"]` is the primary service UUID |
| Registry.StringMap.Subscript | src/main.cpp:98 | no contract; `operator[]` on `uuidMap` is characterised by Registry.UuidTableValid and Registry.ServiceEntry |
| Session.ConnectToServer | src/main.cpp:84-145 | the method's result and everything it does equal the specification `Attempt` |
| Session.Attempt | src/main.cpp:84-145 | no contract; characterised by Session.AttemptSucceedsIff, Session.ConnectFailure, Session.ServiceMissing, Session.LookupsInKeyOrder, Session.ReportsExactlyReadable, Session.ReadsExactlyReadable and Session.NoDisconnectOnSuccess |
| Session.FieldEvents | src/main.cpp:108-136 | no contract; one pass of the loop body, characterised by Session.FieldFilters |
| Session.FieldsEvents | src/main.cpp:107-143 | no contract; the whole loop, characterised by Session.FieldsFilters, Session.FieldsReports, Session.FieldsReads, Session.FieldsLookups and Session.FieldsStayConnected |
| Session.ValueOf | src/main.cpp:121 | no contract; `readValue()`, the bytes the peer holds (empty when it holds none), characterised by Session.ReportsExactlyReadable |
| Session.FieldFilters | src/main.cpp:107-136 | one loop pass looks up its own entry once and reports it only when the characteristic exists and is readable |
| Session.FieldsFilters | src/main.cpp:107-143 | the loop looks up exactly its key sequence, in order, and reports exactly the readable ones, in order |
| Session.FieldsReports | src/main.cpp:107-143 | the loop reports a name and value exactly when the name is a key whose characteristic exists and is readable, with the decoded bytes |
| Session.FieldsReads | src/main.cpp:111-121 | the loop reads a UUID exactly when some key maps to it and the characteristic exists and is readable |
| Session.FieldsLookups | src/main.cpp:111 | every characteristic lookup in the loop uses the UUID stored for its key |
| Session.FieldsStayConnected | src/main.cpp:107-143 | the loop never disconnects and never connects |
| Session.AttemptSucceedsIff | src/main.cpp:87-144 | `connectToServer` returns true exactly when the peer accepts and has the primary service; it always begins by connecting |
| Session.ConnectFailure | src/main.cpp:87-91 | a refused connection returns false after the connect alone: no lookups, no disconnect |
| Session.ServiceMissing | src/main.cpp:98-103 | a missing service returns false after one service lookup and one disconnect, with no characteristic lookups |
| Session.LookupsInKeyOrder | src/main.cpp:107-144 | with the service found, every key is looked up exactly once, in ascending order, and the result is true |
| Session.LookupUuids | src/main.cpp:111 | each characteristic lookup asks for the UUID the table holds for that key |
| Session.ReportsExactlyReadable | src/main.cpp:112-135 | missing and unreadable characteristics are skipped; the others are reported, in key order, with their decoded value |
| Session.ReadsExactlyReadable | src/main.cpp:112-121 | a characteristic is read exactly when the table names it and it exists and is readable |
| Session.NoDisconnectOnSuccess | src/main.cpp:107-144 | a run that returns true has no disconnect |
| Session.UuidMapSession | src/main.cpp:98-107 | with `uuidMap`, every accepted connection looks the service up by 00000001-4c45-4b43-4942-265a524f5453, and on success all 35 keys, "ServiceUuid" among them, are looked up in ascending order |
| Controller.Initial | src/main.cpp:47-49 | at start-up nothing is pending and nothing is connected |
| Controller.Run | src/main.cpp:53-162 | any sequence of callbacks and loop passes keeps "a pending connection has an address" |
| Controller.IsTarget | src/main.cpp:57-59 | no contract; the name test, characterised by Controller.NonMatchIgnored and Controller.MatchEffects |
| Controller.Callback | src/main.cpp:53-66 | no contract; characterised by Controller.NonMatchIgnored, Controller.MatchEffects and Controller.LaterMatchWins |
| Controller.Step | src/main.cpp:147-162 | no contract; characterised by Controller.StepClearsPending, Controller.StepConnects, Controller.IdleStep and Controller.ConnectedStays |
| Controller.Controller.constructor | src/main.cpp:47-49 | the globals start as `Initial`, where "a pending connection has an address" holds |
| Controller.Controller.OnResult | src/main.cpp:53-66 | the callback changes the globals and stops the scan exactly as `Callback` says, and keeps "a pending connection has an address" |
| Controller.Controller.Loop | src/main.cpp:147-162 | a pass of `loop` changes the globals and acts exactly as `Step` says, and keeps "a pending connection has an address" |
| Controller.NonMatchIgnored | src/main.cpp:57-59 | an advertisement with no name, or with any other name, changes nothing and does not stop the scan |
| Controller.MatchEffects | src/main.cpp:59-63 | a target name stops the scan, stores the address and sets `doConnect`, and leaves `connected` alone |
| Controller.LaterMatchWins | src/main.cpp:62-63 | a second match overwrites the address of the first |
| Controller.StepClearsPending | src/main.cpp:155 | after any pass of `loop`, `doConnect` is false |
| Controller.StepConnects | src/main.cpp:148-154 | a pending pass connects to the stored address; `connected` becomes true exactly when `connectToServer` returns true, and otherwise keeps its value |
| Controller.IdleStep | src/main.cpp:148 | with `doConnect` false, a pass changes nothing and does nothing |
| Controller.ConnectedStays | src/main.cpp:151 | once `connected` is true, it stays true under any inputs |
| Controller.FlagsNeedTarget | src/main.cpp:53-156 | `doConnect` or `connected` becomes true only after a target advertisement |
| Controller.ConnectedNeedsTarget | src/main.cpp:53-156 | from start-up, the device is connected only after the target has advertised |
| Controller.TemperatureScenario | src/main.cpp:59-151 | "Storz&Bickel" advertises, then one loop pass against a cooperative peer connects and reports temperature `[0x64,0x00]` as the integer 100 |

## Left out

- Serial logging is not modelled. The model records reported values as `Report` events instead of printed text.
- `setup` (scan configuration, the 60-second scan, `BLEDevice::init`) is not modelled. The scan is represented only by the advertisements it delivers to the callback.
- The LED calls (`pinMode`, `digitalWrite`) and the `delay` calls in `setup` and `loop` are not modelled, because they have no effect the model can observe.
- The BLE stack is not modelled. It is an abstract `Peer`: whether it accepts the connection, and which services, characteristics, readable flags and values it has. `BLEUUID` parsing is not modelled; UUIDs are compared as strings. Connection timeouts and the `BLEClient` object (`pClient`) are not modelled.
- Concurrency is not modelled in detail. The scan callback runs on the BLE task; the model treats it and each pass of `loop` as atomic steps that interleave in any order.
- Heap allocation is not modelled. `new BLEAddress` is a stored address value, the earlier `BLEAddress` leaks on a second match, and `pServerAddress` being null before a match is an absent address.
- Session.ConnectToServer: the `try`/`catch` around each loop pass is not modelled, because the model's field lookup, read and decode cannot throw. In the firmware, a pass in which `getCharacteristic` or `readValue` throws prints an exception line instead of its value (in the model's terms: no `Read`/`Report` event for that field) and does not stop the loop; the model has no such pass.
- Session.ValueOf: a `readValue` of a characteristic the peer has no bytes for is taken as the empty payload.
- Decoder.Decode: on the integer branch the source reinterprets the first two bytes of the value as an `int16_t` whatever its length; that aliasing cast is undefined behaviour for every length, and a payload under two bytes is modelled as an explicit `DecodeFailed`. For a one-byte payload the firmware in practice reads that byte and the zero terminator `std::string` keeps after it, so on the little-endian ESP32 it prints the byte's value (`[0x0C]` prints 12) where the model gives `DecodeFailed`; only an empty payload reads beyond the string's storage.
- Registry.StringMap.Subscript: `operator[]` on a missing key inserts an empty entry into the map. The model returns "" and does not insert. This never matters for `uuidMap`, because "ServiceUuid" is present (Registry.ServiceEntry).
