# SynchroBots OPC UA server: command ingress

This project models the command-ingress layer of the SynchroBots OPC UA
server. The server comes in two builds:

- the **Ethernet** build (`OPCUA_Server_Ethernet.py`), which also serves a
  Modbus holding-register block and writes the OK/NG result into register 80;
- the **RS-232C** build (`OPCUA_Server_RS232C.py`).

In both builds a remote method call (AMR_001–003, PLC_001–004, ARM_001–004,
IMG_001) does five things:

1. It unwraps its argument and normalises it to text.
2. It asks the JSON parser whether that text is a document.
3. It decides what to write into the call's read-node.
4. It returns a `(success or result code, message)` pair.
5. Usually, it creates a reset task that later writes `"Ready"` back into the node.

The model is in four modules:

- `Text` (`text.dfy`) covers the string operations the handlers rely on:
  - `bytes.decode("utf-8", errors="ignore")`, together with an encoder and a round trip;
  - `str.strip()` over Python's whitespace set;
  - `str.upper()`;
  - `in` on strings;
  - `str()` of an integer.
- `Ingress` (`ingress.dfy`) holds what both builds share:
  - call arguments and their normalisation;
  - the sensor coercion;
  - the parsed JSON value and the parser's verdict;
  - Python `in`, indexing and `.get` on a parsed value;
  - the Anomaly classification;
  - node identifiers and reset tasks.
- `Ethernet` (`ethernet.dfy`) and `Rs232c` (`rs232c.dfy`) each hold:
  - the build's decision functions, with lemmas about them;
  - a `Server` class with the node table, the history of node writes, the pending reset tasks, and, for Ethernet, the `hr` register array;
  - one method per handler, specified against those functions.

`json.loads` is not modelled. Each handler receives the parser's verdict
as a parameter. The verdict (`Loads`) is one of three things:

- a decode error;
- some other exception, together with whether it is a `ValueError`. Examples are
  the integer-length limit, a byte string that is not valid in its detected
  encoding, and the recursion limit on deep nesting;
- a parsed `Json` value.

Each handler routes the second kind to its `except ValueError` branch where it
has one, and to its `except Exception` branch otherwise. The same
applies to the one library write whose outcome cannot be seen: the Ethernet
OK/NG handler writes a Python set to its node, and `setWriteError` says
whether the library raises on that write.

The source's quirks are kept as written:

- The Ethernet OK/NG result code is 1 on every path.
- In the RS-232C OK/NG handler, a missing `Anomaly` key stores a status, schedules a reset and then fails on an unbound local.
- The Ethernet `send_arm_json` schedules the reset of the ARM_002 node.
- Two Ethernet handlers put the message in the success slot: place-single and place-completed.
- A reset fires unconditionally, even over a newer command.

## Model

| member | source | states |
|---|---|---|
| Text.DecodeIgnore | OPCUA_Server/OPCUA_Server_Ethernet.py:190-199 | `bytes.decode("utf-8", errors="ignore")`, which skips every malformed sequence; its properties are stated by DecodeEncode, DecodeShrinks and DecodeAscii |
| Text.DecodeEncode | OPCUA_Server/OPCUA_Server_Ethernet.py:190-199 | decoding the UTF-8 encoding of any string with errors ignored returns the string unchanged |
| Text.DecodeShrinks | OPCUA_Server/OPCUA_Server_Ethernet.py:190-199 | ignoring malformed bytes never yields more characters than there were bytes |
| Text.DecodeAscii | OPCUA_Server/OPCUA_Server_RS232C.py:140-141 | bytes below 0x80 decode one to one, character k having the code of byte k |
| Text.Strip | OPCUA_Server/OPCUA_Server_Ethernet.py:427 | `str.strip()` over Python's whitespace set; its properties are stated by StripSpec, StripKeeps and StripIdempotent |
| Text.StripSpec | OPCUA_Server/OPCUA_Server_Ethernet.py:427 | `strip()` returns a contiguous slice of its input; only whitespace lies outside the slice, and the slice neither starts nor ends with whitespace |
| Text.StripKeeps | OPCUA_Server/OPCUA_Server_RS232C.py:352 | a text with no whitespace at either end is not changed by `strip()` |
| Text.StripIdempotent | OPCUA_Server/OPCUA_Server_RS232C.py:474 | stripping an already stripped command changes nothing |
| Text.Upper | OPCUA_Server/OPCUA_Server_Ethernet.py:445 | `upper()` keeps the length and maps every character through the letter case mapping |
| Text.UpperMatches | OPCUA_Server/OPCUA_Server_RS232C.py:367 | a text upper-cases to an upper-case token exactly when it has the token's length and every position holds the token's letter in either case |
| Text.UpperIdempotent | OPCUA_Server/OPCUA_Server_RS232C.py:485 | upper-casing twice is upper-casing once |
| Text.PrefixOccurs | OPCUA_Server/OPCUA_Server_RS232C.py:798 | a text that begins with `a` contains `a` |
| Text.NoOccurrence | OPCUA_Server/OPCUA_Server_RS232C.py:798 | a text in which the first two characters of `a` never appear next to each other does not contain `a` |
| Text.IntToString | OPCUA_Server/OPCUA_Server_Ethernet.py:199 | `str()` of an integer is non-empty and starts with '-' exactly when the integer is negative |
| Text.NatToStringValue | OPCUA_Server/OPCUA_Server_Ethernet.py:199 | the decimal digits `str()` writes for a natural number read back as that number |
| Ingress.Normalise | OPCUA_Server/OPCUA_Server_Ethernet.py:190-199 | unwrapping a Variant and turning bytes (decoded with errors ignored), text or any other value (through `str()`) into the command text; NormaliseBytesOrText and NormaliseBytesBound state its properties |
| Ingress.NormaliseBytesOrText | OPCUA_Server/OPCUA_Server_Ethernet.py:190-199 | a command sent as a string and the same command sent as its UTF-8 bytes, Variant-wrapped or bare, normalise to that same string |
| Ingress.NormaliseBytesBound | OPCUA_Server/OPCUA_Server_RS232C.py:135-144 | a byte-string argument never normalises to a longer text |
| Ingress.SensorStatus | OPCUA_Server/OPCUA_Server_Ethernet.py:376-393 | the status is "Check OK" exactly when the unwrapped value is a non-zero number or is truthy, and "Ready" otherwise |
| Ingress.SensorOkIsTruthy | OPCUA_Server/OPCUA_Server_RS232C.py:301-309 | the coercion agrees with Python truthiness, so the string "0" counts as a set sensor |
| Ingress.Contains | OPCUA_Server/OPCUA_Server_Ethernet.py:443 | `key in doc` tests a dict's keys; it raises a TypeError exactly for null, booleans and numbers |
| Ingress.Index | OPCUA_Server/OPCUA_Server_RS232C.py:366 | `doc[key]`, once `key in doc` holds, succeeds exactly on a dict and yields the stored value |
| Ingress.Probe | OPCUA_Server/OPCUA_Server_Ethernet.py:443-444 | `if key in doc:` followed by `doc[key]` yields, on a dict, the stored value or the key's absence; it raises exactly when the document is not a dict and the membership test does not answer no; a value it yields is the one stored under the key of a dict |
| Ingress.Get | OPCUA_Server/OPCUA_Server_RS232C.py:485 | `doc.get(key, default)` answers exactly on a dict, with the stored value or the default |
| Ingress.AnomalyVerdict | OPCUA_Server/OPCUA_Server_Ethernet.py:443-455 | `str(value).upper()` compared with 'NG' and then 'OK'; AnomalyVerdictSpellings, SpellsNg and SpellsOk state which values are recognised |
| Ingress.AnomalyVerdictSpellings | OPCUA_Server/OPCUA_Server_Ethernet.py:443-455 | the upper-cased Anomaly reads NG exactly for "NG", "Ng", "nG" and "ng", reads OK likewise, and is never recognised for null or a boolean |
| Ingress.SpellsNg | OPCUA_Server/OPCUA_Server_Ethernet.py:445-447 | `str(x).upper() == 'NG'` holds exactly for the four spellings of NG |
| Ingress.SpellsOk | OPCUA_Server/OPCUA_Server_Ethernet.py:445-450 | `str(x).upper() == 'OK'` holds exactly for the four spellings of OK |
| Ingress.ArmJson | OPCUA_Server/OPCUA_Server_Ethernet.py:634-684 | send_arm_json, the same in both builds (OPCUA_Server_RS232C.py:545-587): it stores or schedules exactly when it returns code 0 |
| Ingress.ArmJsonCodes | OPCUA_Server/OPCUA_Server_Ethernet.py:634-684 | code 0 exactly for a parsed JSON object, 2 exactly for a decode error, 5 exactly for another exception of the parser or a document without `.get` |
| Ethernet.EchoReply | OPCUA_Server/OPCUA_Server_Ethernet.py:206-232 | an echo command succeeds exactly when its text parses |
| Ethernet.EchoValidates | OPCUA_Server/OPCUA_Server_Ethernet.py:280-298 | AMR_002, the one echo handler with an `except ValueError` branch, replies differently from the others exactly when the parser raises a ValueError that is not a decode error |
| Ethernet.PlaceReply | OPCUA_Server/OPCUA_Server_Ethernet.py:769-801 | on valid JSON the first slot holds the message text and the message is empty; otherwise the first slot is False |
| Ethernet.OkNg | OPCUA_Server/OPCUA_Server_Ethernet.py:431-493 | the OK/NG handler: the parser's verdict routed to the decode-error, ValueError and general branches, or on to the `Anomaly` lookup; OkNgCodeIsOne, OkNgInvalidJson, OkNgParserRaised, OkNgOnObject and OkNgScheduledAfterRegister state its outcomes |
| Ethernet.OnField | OPCUA_Server/OPCUA_Server_Ethernet.py:443-472 | the handler after `if "Anomaly" in doc` and `doc["Anomaly"]`; OnFieldEffects and OnFieldVerdict state its outcomes |
| Ethernet.Classified | OPCUA_Server/OPCUA_Server_Ethernet.py:445-472 | the handler once the Anomaly value has been classified; ClassifiedEffects states its outcomes |
| Ethernet.Store | OPCUA_Server/OPCUA_Server_Ethernet.py:460-476 | the register write, the set write to the node and the reset; StoreEffects states its outcomes |
| Ethernet.OkNgCodeIsOne | OPCUA_Server/OPCUA_Server_Ethernet.py:431-493 | the OK/NG result code is 1 on every path, including success |
| Ethernet.OkNgOnObject | OPCUA_Server/OPCUA_Server_Ethernet.py:437-472 | for a JSON object, register 80 is set to 1 exactly for NG and to 0 exactly for OK or a missing key; any other value leaves it unwritten, marks the node "VALIDATION ERROR: <input>" and schedules nothing; a reset is scheduled exactly when the value is recognised and the set write succeeds |
| Ethernet.ClassifiedEffects | OPCUA_Server/OPCUA_Server_Ethernet.py:445-472 | the same register, node and reset facts for each Anomaly verdict |
| Ethernet.OnFieldEffects | OPCUA_Server/OPCUA_Server_Ethernet.py:443-472 | once the field has been asked for, the code is 1; a reset is scheduled only after register 80 got 0 or 1 and the set write succeeded; a missing key writes 0; a raising lookup writes nothing and schedules nothing |
| Ethernet.OnFieldVerdict | OPCUA_Server/OPCUA_Server_Ethernet.py:443-472 | for a present or missing field, the register, node and reset facts of OkNgOnObject in terms of the verdict, a missing key counting as OK |
| Ethernet.StoreEffects | OPCUA_Server/OPCUA_Server_Ethernet.py:460-476 | register 80 is written with the decided value whatever the set write does, and the reset is scheduled and the node holds the status set exactly when that write succeeds |
| Ethernet.OkNgInvalidJson | OPCUA_Server/OPCUA_Server_Ethernet.py:479-483 | invalid JSON leaves register 80 unwritten, marks the node "JSON ERROR: <stripped input>", schedules nothing and replies "Error: Input string is not a valid JSON." |
| Ethernet.OkNgParserRaised | OPCUA_Server/OPCUA_Server_Ethernet.py:484-493 | any other exception of the parser leaves register 80 unwritten, schedules nothing, returns 1 and marks the node "VALIDATION ERROR: <input>" for a ValueError and "GENERAL ERROR: <input>" otherwise |
| Ethernet.OkNgScheduledAfterRegister | OPCUA_Server/OPCUA_Server_Ethernet.py:462-472 | a scheduled reset implies that register 80 was written with 0 or 1 and that the node received the status set |
| Ethernet.Ready | OPCUA_Server/OPCUA_Server_Ethernet.py:552-598 | the ready-state handler; ReadyOutcome, ReadyStatuses, ReadyRefusesState and ReadyRefusesVariant state its outcomes |
| Ethernet.ReadyOutcome | OPCUA_Server/OPCUA_Server_Ethernet.py:552-598 | code 0 exactly when a bare text argument parses to an object whose `state` is CYCLE_COMPLETE, CONTINUE or PAUSE; success writes "Processing Command: X" then X; every refusal has code 1 and writes its message once; a decode error replies "Error: Invalid JSON format received." and any other exception of the parser "Error: Missing 'state' key." |
| Ethernet.ReadyStatuses | OPCUA_Server/OPCUA_Server_Ethernet.py:582-598 | in any object whose `state` is one of the three commands, the relayed status is "ARM_CYCLE_COMPLETE. PLC: START CONVEYOR" for CYCLE_COMPLETE and "Received Command: <state>" for the other two, and the reply is "Success: State '<state>' relayed to PLC." |
| Ethernet.ReadyRefusesState | OPCUA_Server/OPCUA_Server_Ethernet.py:573-580 | a parsed object whose `state` is missing or is not CYCLE_COMPLETE, CONTINUE or PAUSE is refused with code 1 and the single write "Error: Invalid state command: <state>", where a missing key reads "None" |
| Ethernet.ReadyRefusesVariant | OPCUA_Server/OPCUA_Server_Ethernet.py:554-571 | a Variant argument fails in `json.loads` and is refused as "Error: Missing 'state' key." whatever it holds |
| Ethernet.ArmImg | OPCUA_Server/OPCUA_Server_Ethernet.py:880-904 | the validation chain of send_arm_img, each step returning from inside the `try`; ArmImgCodes and ArmImgUnbound state its outcomes |
| Ethernet.ArmImgCodes | OPCUA_Server/OPCUA_Server_Ethernet.py:880-904 | the checks run in order: 2 exactly for a non-ByteString argument, 3 exactly for an unset image variable, 4 exactly for empty bytes, and 0, with the write, exactly for a non-empty ByteString once the variable is set |
| Ethernet.ArmImgUnbound | OPCUA_Server/OPCUA_Server_Ethernet.py:32 | with the image variable unset, as this build leaves it (line 889 tests it), the reply is (2, "Error: Input must be ByteString Variant.") or (3, "Server Variable Not Initialized") and nothing is written |
| Ethernet.Server.constructor | OPCUA_Server/OPCUA_Server_Ethernet.py:24-30 | the register block holds 100 zeros, every node holds "Ready" (created at lines 80-174), and nothing is pending |
| Ethernet.Server.Schedule | OPCUA_Server/OPCUA_Server_Ethernet.py:218 | appends one reset of the node with delay 3 and value "Ready"; nodes are untouched |
| Ethernet.Server.FireReset | OPCUA_Server/OPCUA_Server_Ethernet.py:57-65 | the chosen task writes "Ready" to its node whatever the node holds, and leaves the pending list |
| Ethernet.Server.Echo | OPCUA_Server/OPCUA_Server_Ethernet.py:206-220 | on valid JSON the node holds the normalised text and exactly one reset of it is added; otherwise nothing changes |
| Ethernet.Server.CallAmrGoMove | OPCUA_Server/OPCUA_Server_Ethernet.py:186-237 | AMR_001: the echo state change on its node, with the echo reply |
| Ethernet.Server.CallAmrGoPosition | OPCUA_Server/OPCUA_Server_Ethernet.py:242-304 | AMR_002: the echo state change on its node, with the echo reply |
| Ethernet.Server.CallAmrMissionState | OPCUA_Server/OPCUA_Server_Ethernet.py:309-364 | AMR_003: the echo state change on its node, with the echo reply |
| Ethernet.Server.CallArmGoMove | OPCUA_Server/OPCUA_Server_Ethernet.py:690-741 | ARM_002: the echo state change on its node, with the echo reply |
| Ethernet.Server.CallArmPlaceSingle | OPCUA_Server/OPCUA_Server_Ethernet.py:746-806 | ARM_003: the echo state change on its node, with the message moved into the success slot |
| Ethernet.Server.CallArmPlaceCompleted | OPCUA_Server/OPCUA_Server_Ethernet.py:811-864 | ARM_004: the echo state change on its node, with the message moved into the success slot |
| Ethernet.Server.SensorCheck | OPCUA_Server/OPCUA_Server_Ethernet.py:376-398 | the node receives the coerced status; nothing is scheduled; the reply is (True, "Success: Sensor check signal processed.") |
| Ethernet.Server.CallConveyorSensorCheck | OPCUA_Server/OPCUA_Server_Ethernet.py:369-403 | PLC_001: the sensor-check state change and reply |
| Ethernet.Server.CallRobotarmSensorCheck | OPCUA_Server/OPCUA_Server_Ethernet.py:503-539 | PLC_003: the sensor-check state change and reply |
| Ethernet.Server.CallOkNgValue | OPCUA_Server/OPCUA_Server_Ethernet.py:408-498 | PLC_002: the register block changes at most in register 80, as the OK/NG decision says; the node receives its final value; one reset is added exactly when the decision schedules it |
| Ethernet.Server.CallReadyState | OPCUA_Server/OPCUA_Server_Ethernet.py:544-598 | PLC_004: the node writes are the decision's writes in order, the node ends with the last of them, and nothing is scheduled |
| Ethernet.Server.CallSendArmJson | OPCUA_Server/OPCUA_Server_Ethernet.py:603-686 | ARM_001: no node is written; code 0 adds one reset of the ARM_002 node, any other code adds none |
| Ethernet.Server.CallSendArmImg | OPCUA_Server/OPCUA_Server_Ethernet.py:869-910 | IMG_001: the reply of the validation chain with the image variable unset, code 2 or 3; nothing changes |
| Ethernet.StaleResetClearsNewerCommand | OPCUA_Server/OPCUA_Server_Ethernet.py:57-65 | after two AMR_001 commands are stored and the first reset fires, the node shows "Ready" although the second command came later, and the second reset is still pending |
| Rs232c.EchoReply | OPCUA_Server/OPCUA_Server_RS232C.py:151-172 | an echo command succeeds exactly when its text parses |
| Rs232c.EchoValidates | OPCUA_Server/OPCUA_Server_RS232C.py:217-230 | AMR_002, the one echo handler with an `except ValueError` branch, replies differently from the others exactly when the parser raises a ValueError that is not a decode error |
| Rs232c.OkNg | OPCUA_Server/OPCUA_Server_RS232C.py:356-407 | the OK/NG handler: the parser's verdict routed to the decode-error, ValueError and general branches, or on to the `Anomaly` lookup; OkNgCodes, OkNgOnObject and OkNgShape state its outcomes |
| Rs232c.OnField | OPCUA_Server/OPCUA_Server_RS232C.py:365-407 | the handler after `if "Anomaly" in doc` and `doc["Anomaly"]`; OnFieldEffects states its outcomes |
| Rs232c.Classified | OPCUA_Server/OPCUA_Server_RS232C.py:366-391 | the handler once the Anomaly value has been classified; ClassifiedEffects states its outcomes |
| Rs232c.ClassifiedEffects | OPCUA_Server/OPCUA_Server_RS232C.py:365-391 | NG and OK store "NG" or "OK", schedule a reset and return 0 with "Command successfully processed. Status: NG (Modbus: 1)" or "… Status: OK (Modbus: 0)"; any other value writes "VALIDATION ERROR: <input>", schedules nothing and returns 1 |
| Rs232c.OnFieldEffects | OPCUA_Server/OPCUA_Server_RS232C.py:365-391 | once the field has been asked for, the code is 0 or 1 and 0 only for a present field; the node is written once or twice, twice only on the missing-key path, which writes the not-found status and then "GENERAL ERROR: <input>", schedules a reset and returns 1 |
| Rs232c.OkNgOnObject | OPCUA_Server/OPCUA_Server_RS232C.py:362-407 | for a JSON object the code is 0 exactly for a recognised Anomaly; NG and OK store "NG" or "OK", schedule a reset and reply "Command successfully processed. Status: NG (Modbus: 1)" or "… Status: OK (Modbus: 0)"; any other value writes "VALIDATION ERROR: <input>" and schedules nothing; a missing key writes the not-found status, schedules a reset, then writes "GENERAL ERROR: <input>" with code 1 |
| Rs232c.OkNgCodes | OPCUA_Server/OPCUA_Server_RS232C.py:356-407 | the code is 0 or 1, and 0 only for an object that has the key; invalid JSON writes "JSON ERROR: <stripped input>" and schedules nothing; any other exception of the parser writes "VALIDATION ERROR: <input>" for a ValueError and "GENERAL ERROR: <input>" otherwise, schedules nothing and returns 1 |
| Rs232c.OkNgShape | OPCUA_Server/OPCUA_Server_RS232C.py:382-407 | the node is written once or twice, and twice only when a reset was scheduled between the writes |
| Rs232c.Ready | OPCUA_Server/OPCUA_Server_RS232C.py:481-507 | the ready-state handler; ReadyAccepts, ReadyConveyor and ReadyConveyorAnyCase state its outcomes |
| Rs232c.ReadyAccepts | OPCUA_Server/OPCUA_Server_RS232C.py:482-498 | the command is stored exactly when it succeeds, which is exactly when it parses to an object whose `state` is a string or absent |
| Rs232c.ReadyConveyor | OPCUA_Server/OPCUA_Server_RS232C.py:485-498 | the reply names CONVEYOR_MOVE exactly when the state, upper-cased, is CONVEYOR_MOVE; any other accepted command replies "Command 'Received state: <state>' received and routed. Reset scheduled.", with "None" for a missing key |
| Rs232c.ReadyConveyorAnyCase | OPCUA_Server/OPCUA_Server_RS232C.py:485 | in any object, every mixed-case spelling of CONVEYOR_MOVE as the state is recognised |
| Rs232c.ArmImg | OPCUA_Server/OPCUA_Server_RS232C.py:770-799 | the validation chain of send_arm_img with its exception handler; ArmImgReplies states its outcomes |
| Rs232c.Rejected | OPCUA_Server/OPCUA_Server_RS232C.py:794-799 | the exception handler never yields 0 and keeps a non-zero code; a message containing "Error" is kept, any other is replaced by "Unknown Error: <exception>" |
| Rs232c.ArmImgReplies | OPCUA_Server/OPCUA_Server_RS232C.py:770-799 | the checks run in order: non-ByteString gives (2, "Error: Input must be ByteString Variant."), an unset variable gives 3 and an empty image gives 4, both with "Unknown Error: <exception>"; a write and code 0 happen exactly for a non-empty ByteString |
| Rs232c.Server.constructor | OPCUA_Server/OPCUA_Server_RS232C.py:115-118 | every text node holds "Ready", the image node holds empty bytes, and the image variable is bound |
| Rs232c.Server.Schedule | OPCUA_Server/OPCUA_Server_RS232C.py:159 | appends one reset of the node with delay 1 and value "Ready" |
| Rs232c.Server.FireReset | OPCUA_Server/OPCUA_Server_RS232C.py:55-64 | the chosen task writes "Ready" to its node unconditionally and leaves the pending list |
| Rs232c.Server.Echo | OPCUA_Server/OPCUA_Server_RS232C.py:151-172 | on valid JSON the node holds the normalised text and exactly one reset of it is added; otherwise nothing changes; the reply is the echo reply |
| Rs232c.Server.CallAmrGoMove | OPCUA_Server/OPCUA_Server_RS232C.py:130-177 | AMR_001: the echo state change and reply on its node |
| Rs232c.Server.CallAmrGoPosition | OPCUA_Server/OPCUA_Server_RS232C.py:182-235 | AMR_002: the echo state change and reply on its node |
| Rs232c.Server.CallAmrMissionState | OPCUA_Server/OPCUA_Server_RS232C.py:240-287 | AMR_003: the echo state change and reply on its node |
| Rs232c.Server.CallArmGoMove | OPCUA_Server/OPCUA_Server_RS232C.py:594-641 | ARM_002: the echo state change and reply on its node |
| Rs232c.Server.CallArmPlaceSingle | OPCUA_Server/OPCUA_Server_RS232C.py:646-697 | ARM_003: the echo state change and reply on its node, with success True |
| Rs232c.Server.CallArmPlaceCompleted | OPCUA_Server/OPCUA_Server_RS232C.py:702-749 | ARM_004: the echo state change and reply on its node, with success True |
| Rs232c.Server.SensorCheck | OPCUA_Server/OPCUA_Server_RS232C.py:301-323 | the node receives the coerced status; nothing is scheduled; the reply is (True, "Success: Sensor check signal processed.") |
| Rs232c.Server.CallConveyorSensorCheck | OPCUA_Server/OPCUA_Server_RS232C.py:292-328 | PLC_001: the sensor-check state change and reply |
| Rs232c.Server.CallRobotarmSensorCheck | OPCUA_Server/OPCUA_Server_RS232C.py:417-453 | PLC_003: the sensor-check state change and reply |
| Rs232c.Server.CallOkNgValue | OPCUA_Server/OPCUA_Server_RS232C.py:333-412 | PLC_002: the node writes are the decision's writes in order, the node ends with the last of them, and one reset is added exactly when the decision schedules it |
| Rs232c.Server.WriteInTurn | OPCUA_Server/OPCUA_Server_RS232C.py:382-407 | one or two node writes in order, with the reset created after the first when asked; the node ends with the last text written |
| Rs232c.Server.CallReadyState | OPCUA_Server/OPCUA_Server_RS232C.py:458-513 | PLC_004: an accepted command stores the stripped text itself and adds one reset; a refused one changes nothing |
| Rs232c.Server.CallSendArmJson | OPCUA_Server/OPCUA_Server_RS232C.py:518-589 | ARM_001: code 0 stores the normalised text in the node and adds one reset of it; any other code changes nothing |
| Rs232c.Server.CallSendArmImg | OPCUA_Server/OPCUA_Server_RS232C.py:754-801 | IMG_001: the reply follows the validation chain; a non-empty ByteString is written to the image node as received; nothing is scheduled |

## Left out

- JSON parsing (`json.loads`) is not modelled. Its verdict is a parameter. A decode error's detail text is carried by the verdict. The `str()` text of numbers, lists and dicts is carried by the parsed value.
- Timing (`asyncio.sleep`, `asyncio.create_task`) is modelled as a list of pending reset tasks. `FireReset` runs any one of them. The delay is recorded but does not order the tasks.
- The 0.3 second pause between the two Ethernet ready-state writes is not modelled; only the order of the two writes is kept.
- Image handling in `send_arm_json` is not modelled: base64 decoding, OpenCV decoding and saving to a file. Its failures are only logged and do not change the reply.
- Node and object creation is not modelled beyond the initial node values: method argument definitions, method registration and `main()`.
- The Modbus TCP server thread is not modelled. Only the data-block write of register 80 is, indexed by its protocol address.
- The RS-232C serial link, the watchdog loop and the restart supervisor are not modelled; they depend on time and process control.
- Logging, `print` output and timestamps are not modelled.
- Node writes are modelled as always succeeding. The Ethernet OK/NG set write is the one exception: whether it raises is the parameter `setWriteError`. The general-error branches of the echo handlers are reached only through the parser's other exceptions. The general branch of send_arm_json, code 5, is reached through those exceptions and also when a parsed document is not an object: `data.get("img")` then raises an AttributeError. The sensor handlers have no `try`. The `AttributeError` branch of place-single is unreachable, because the parser never raises one and the node exists.
- `call_send_arm_img` is declared without `self` in both builds and registered as the bound method `methods.call_send_arm_img` (OPCUA_Server_Ethernet.py:1337, OPCUA_Server_RS232C.py:1126). The instance then fills `parent`, so the client's argument need not arrive as `image_bytes_variant`, and the call may fail on its arity before the handler runs. The model assumes the client's Variant is `image_bytes_variant` and covers the validation chain from there.
- Text.Upper: it upper-cases ASCII letters only. A few non-ASCII characters do upper-case to ASCII text: 'ß' to "SS", 'ı' to "I", 'ſ' to "S", and the ligatures 'ﬀ' 'ﬁ' 'ﬂ' 'ﬃ' 'ﬄ' 'ﬅ' 'ﬆ' to "FF", "FI", "FL", "FFI", "FFL", "ST" and "ST". 'ŉ' upper-cases to "ʼN", which is not pure ASCII. None of these results is made only of the letters of the compared tokens NG, OK and CONVEYOR_MOVE, which are N G O K C V E Y R M and '_'. So a text holding any non-ASCII character never upper-cases to one of those tokens, and the comparisons are unaffected.
- Python exception texts (AttributeError, TypeError, UnboundLocalError) are written in CPython 3.11 wording.
- Rs232c.Rejected: it states the two implications about "Error" in the message, not a single if-and-only-if with the reply, because an exception text may itself contain "Error".
