/**
 * The Ethernet build of the server's method handlers. Besides the OPC UA
 * read-nodes it owns the holding-register block served over Modbus TCP;
 * the OK/NG handler writes register 80. Scheduled resets restore a node to
 * "Ready" three seconds after a command was stored.
 */
module Ethernet {
  import opened Text
  import opened Ingress

  const ResetDelay: nat := 3
  const ResetValue: string := "Ready"
  const RegisterCount: nat := 100
  /** The holding register that carries the OK/NG result to the PLC. */
  const OkNgRegister: nat := 80

  // ---------------------------------------------------------------------
  // Replies of the JSON-echo commands
  // ---------------------------------------------------------------------

  /** The first element of a reply: a Boolean, or the string that
    * place-single and place-completed store in that slot instead. */
  datatype Slot = Flag(b: bool) | Said(text: string)

  /** The general-error message of a JSON-echo command. */
  function Failure(d: Device, detail: string): string
  {
    DeviceName(d) + " communication or processing failed. Details: " + detail
  }

  /** The reply of AMR_001/002/003 and ARM_002 for command text `t`. Only
    * AMR_002 (`validates`) has a branch of its own for a ValueError. */
  function EchoReply(t: string, loads: Loads, validates: bool): (r: (bool, string))
    ensures r.0 <==> loads.Loaded?
  {
    match loads
    case Loaded(_) => (true, "AMR Command '" + t + "' received and stored. Reset scheduled.")
    case DecodeError(d) => (false, InvalidJson(d))
    case Raised(e, isValueError) =>
      (false, if validates && isValueError then ValidationPrefix + e else Failure(Amr, e))
  }

  /** AMR_002 replies differently from the other echo commands exactly when
    * the parser raises a ValueError other than a decode error. */
  lemma EchoValidates(t: string, loads: Loads)
    ensures EchoReply(t, loads, true) != EchoReply(t, loads, false) <==> loads.Raised? && loads.isValueError
  {
    if loads.Raised? && loads.isValueError {
      ValidationIsNotFailure(loads.error);
    }
  }

  /** The two messages differ in length, hence differ. */
  lemma ValidationIsNotFailure(e: string)
    ensures ValidationPrefix + e != Failure(Amr, e)
  {
    assert |ValidationPrefix + e| != |Failure(Amr, e)|;
  }

  /** The reply of ARM_003 (place-single, naming the ARM) and ARM_004 (naming
    * the AMR): on success the text goes to the first slot and the message
    * stays empty. */
  function PlaceReply(t: string, loads: Loads, d: Device): (r: (Slot, string))
    ensures r.0.Said? <==> loads.Loaded?
    ensures r.0.Said? ==> r.1 == ""
    ensures r.0.Flag? ==> !r.0.b
  {
    match loads
    case Loaded(_) =>
      (Said(DeviceName(d) + " Command '" + t + "' received and stored. Reset scheduled."), "")
    case DecodeError(e) => (Flag(false), InvalidJson(e))
    case Raised(e, _) => (Flag(false), Failure(d, e))
  }

  // ---------------------------------------------------------------------
  // PLC_002: OK/NG value
  // ---------------------------------------------------------------------

  /** What the OK/NG handler does: the value it stores in register 80 (if
    * it reaches that write), the final value of its node, whether it
    * schedules a reset, and its reply. */
  datatype OkNgResult = OkNgResult(register: Option<int>, node: NodeValue, scheduled: bool,
                                   code: int, message: string)

  function GeneralError(cmd: string, register: Option<int>, detail: string): OkNgResult
  {
    OkNgResult(register, Text(GeneralText(cmd)), false, 1,
               "Modbus communication or processing failed. Details: " + detail)
  }

  /** The ValueError branch, reached before register 80 is written. */
  function ValidationError(cmd: string, detail: string): OkNgResult
  {
    OkNgResult(None, Text(ValidationText(cmd)), false, 1, "Error: Validation failed. Details: " + detail)
  }

  /** The stage after classification: register 80 is set, then the node is
    * given the one-element set `{status}`; `setWriteError` is the error the
    * OPC UA library raises on that write, if it raises one. */
  function Store(cmd: string, value: int, status: string, setWriteError: Option<string>): OkNgResult
  {
    match setWriteError
    case None =>
      OkNgResult(Some(value), TextSet(status), true, 1,
                 "PLC Command '" + status + "' received and stored. Reset scheduled.")
    case Some(e) => GeneralError(cmd, Some(value), e)
  }

  /** The OK/NG handler on the stripped command text `cmd`. */
  function OkNg(cmd: string, loads: Loads, setWriteError: Option<string>): OkNgResult
  {
    match loads
    case DecodeError(_) =>
      OkNgResult(None, Text(JsonErrorText(cmd)), false, 1, "Error: Input string is not a valid JSON.")
    case Raised(e, isValueError) =>
      if isValueError then ValidationError(cmd, e) else GeneralError(cmd, None, e)
    case Loaded(doc) => OnField(cmd, Probe(doc, "Anomaly"), setWriteError)
  }

  /** The OK/NG handler once the document has been asked for its `Anomaly`
    * field. */
  function OnField(cmd: string, field: Field, setWriteError: Option<string>): OkNgResult
  {
    match field
    case FieldError(e) => GeneralError(cmd, None, e)
    case Absent =>
      Store(cmd, 0, "JSON Received: " + cmd + " -> 'Anomaly' key not found. Modbus Value: 0 (Default)",
            setWriteError)
    case Present(v) => Classified(cmd, AnomalyVerdict(v), JsonStr(v), setWriteError)
  }

  /** Whatever the field, the code is 1, and a reset is scheduled only after
    * register 80 was given 0 or 1 and the set write succeeded. */
  lemma OnFieldEffects(cmd: string, field: Field, setWriteError: Option<string>)
    ensures var r := OnField(cmd, field, setWriteError);
            r.code == 1
            && (r.scheduled ==> (r.register.Some? && r.node.TextSet? && setWriteError.None?
                                 && (r.register.value == 0 || r.register.value == 1)))
            && (field.Absent? ==> r.register == Some(0) && (r.scheduled <==> setWriteError.None?))
            && (field.FieldError? ==> r.register.None? && !r.scheduled)
  {
    match field
    case FieldError(_) =>
    case Absent =>
      StoreEffects(cmd, 0, "JSON Received: " + cmd + " -> 'Anomaly' key not found. Modbus Value: 0 (Default)",
                   setWriteError);
    case Present(v) => ClassifiedEffects(cmd, AnomalyVerdict(v), JsonStr(v), setWriteError);
  }

  /** The OK/NG handler once the `Anomaly` field, whose text is `shown`, has
    * been classified. */
  function Classified(cmd: string, verdict: Verdict, shown: string, setWriteError: Option<string>): OkNgResult
  {
    var received := "JSON Received: " + cmd;
    match verdict
    case Ng => Store(cmd, 1, received + " -> NG DETECTED. Modbus Value: 1 (Anomaly)", setWriteError)
    case Ok => Store(cmd, 0, received + " -> OK DETECTED. Modbus Value: 0 (Normal)", setWriteError)
    case Unrecognised =>
      ValidationError(cmd, "'Anomaly' key value must be 'OK' or 'NG', received: " + shown)
  }

  /** The result code is 1 on every path, success included. */
  lemma OkNgCodeIsOne(cmd: string, loads: Loads, setWriteError: Option<string>)
    ensures OkNg(cmd, loads, setWriteError).code == 1
  {
    match loads
    case DecodeError(_) =>
    case Raised(_, _) =>
    case Loaded(doc) => OnFieldEffects(cmd, Probe(doc, "Anomaly"), setWriteError);
  }

  /** For a JSON object, register 80 is set to 1 exactly when `Anomaly` reads
    * NG, to 0 exactly when it reads OK or is absent, and is left alone when
    * the value is anything else; that case is a validation error. */
  lemma OkNgOnObject(cmd: string, fields: map<string, Json>, repr: string, setWriteError: Option<string>)
    ensures var r := OkNg(cmd, Loaded(JObj(fields, repr)), setWriteError);
            var verdict := if "Anomaly" in fields then AnomalyVerdict(fields["Anomaly"]) else Ok;
            (r.register == Some(1) <==> verdict == Ng)
            && (r.register == Some(0) <==> verdict == Ok)
            && (r.register.None? <==> verdict == Unrecognised)
            && (verdict == Unrecognised ==> r.node == Text(ValidationText(cmd)) && !r.scheduled)
            && (r.scheduled <==> verdict != Unrecognised && setWriteError.None?)
  {
    var doc := JObj(fields, repr);
    var f := Probe(doc, "Anomaly");
    assert OkNg(cmd, Loaded(doc), setWriteError) == OnField(cmd, f, setWriteError);
    OnFieldVerdict(cmd, f, setWriteError);
  }

  /** `OkNgOnObject` for the field the object yields, which is never an
    * error. */
  lemma OnFieldVerdict(cmd: string, field: Field, setWriteError: Option<string>)
    requires !field.FieldError?
    ensures var r := OnField(cmd, field, setWriteError);
            var verdict := if field.Present? then AnomalyVerdict(field.v) else Ok;
            (r.register == Some(1) <==> verdict == Ng)
            && (r.register == Some(0) <==> verdict == Ok)
            && (r.register.None? <==> verdict == Unrecognised)
            && (verdict == Unrecognised ==> r.node == Text(ValidationText(cmd)) && !r.scheduled)
            && (r.scheduled <==> verdict != Unrecognised && setWriteError.None?)
  {
    match field
    case Absent => OnFieldEffects(cmd, Absent, setWriteError);
    case Present(v) => ClassifiedEffects(cmd, AnomalyVerdict(v), JsonStr(v), setWriteError);
  }

  lemma ClassifiedEffects(cmd: string, verdict: Verdict, shown: string, setWriteError: Option<string>)
    ensures var r := Classified(cmd, verdict, shown, setWriteError);
            (r.register == Some(1) <==> verdict == Ng)
            && (r.register == Some(0) <==> verdict == Ok)
            && (r.register.None? <==> verdict == Unrecognised)
            && (verdict == Unrecognised ==> r.node == Text(ValidationText(cmd)) && !r.scheduled)
            && (r.scheduled <==> verdict != Unrecognised && setWriteError.None?)
            && r.code == 1
  {
    var received := "JSON Received: " + cmd;
    match verdict
    case Ng => StoreEffects(cmd, 1, received + " -> NG DETECTED. Modbus Value: 1 (Anomaly)", setWriteError);
    case Ok => StoreEffects(cmd, 0, received + " -> OK DETECTED. Modbus Value: 0 (Normal)", setWriteError);
    case Unrecognised =>
  }

  /** The register is written whatever the set write does; the reset is
    * scheduled and the node holds the status set exactly when the set write
    * succeeds, and otherwise the general error marks the node. */
  lemma StoreEffects(cmd: string, value: int, status: string, setWriteError: Option<string>)
    ensures var r := Store(cmd, value, status, setWriteError);
            r.register == Some(value) && r.code == 1
            && (r.scheduled <==> setWriteError.None?)
            && (setWriteError.None? ==> r.node == TextSet(status))
            && (setWriteError.Some? ==> r.node == Text(GeneralText(cmd)))
  {
  }

  /** Invalid JSON leaves register 80 alone and marks the node with the
    * stripped input; nothing is scheduled. */
  lemma OkNgInvalidJson(cmd: string, detail: string, setWriteError: Option<string>)
    ensures var r := OkNg(cmd, DecodeError(detail), setWriteError);
            r.register.None? && r.node == Text(JsonErrorText(cmd)) && !r.scheduled
            && r.message == "Error: Input string is not a valid JSON."
  {
  }

  /** Any other exception of the parser also leaves register 80 alone and
    * schedules nothing; a ValueError marks the node as a validation error,
    * anything else as a general error. */
  lemma OkNgParserRaised(cmd: string, error: string, isValueError: bool, setWriteError: Option<string>)
    ensures var r := OkNg(cmd, Raised(error, isValueError), setWriteError);
            r.register.None? && !r.scheduled && r.code == 1
            && r.node == Text(if isValueError then ValidationText(cmd) else GeneralText(cmd))
  {
  }

  /** A reset is scheduled only when the node received the status set, and
    * then register 80 has been written before it. */
  lemma OkNgScheduledAfterRegister(cmd: string, loads: Loads, setWriteError: Option<string>)
    ensures var r := OkNg(cmd, loads, setWriteError);
            r.scheduled ==> (r.register.Some? && r.node.TextSet? && setWriteError.None?
                             && (r.register.value == 0 || r.register.value == 1))
  {
    match loads
    case DecodeError(_) =>
    case Raised(_, _) =>
    case Loaded(doc) => OnFieldEffects(cmd, Probe(doc, "Anomaly"), setWriteError);
  }

  // ---------------------------------------------------------------------
  // PLC_004: ready state
  // ---------------------------------------------------------------------

  /** The node writes in order, the result code and the message. */
  datatype ReadyResult = ReadyResult(writes: seq<string>, code: int, message: string)

  /** `json.loads` is applied to the argument as received: only a bare
    * string or byte string reaches the parser, anything else (a Variant
    * included) makes it raise a TypeError. */
  predicate Parseable(a: Arg)
  {
    a.Plain? && (a.value.VStr? || a.value.VBytes?)
  }

  const ValidStates: seq<Json> := [JStr("CYCLE_COMPLETE"), JStr("CONTINUE"), JStr("PAUSE")]

  function Refuse(msg: string): ReadyResult
  {
    ReadyResult([msg], 1, msg)
  }

  /** The ready-state handler; `loads` is the parser's verdict on the raw
    * argument. A missing `state` reads as `None`, like a JSON null. */
  function Ready(a: Arg, loads: Loads): ReadyResult
  {
    if !Parseable(a) then Refuse("Error: Missing 'state' key.")
    else match loads
      case DecodeError(_) => Refuse("Error: Invalid JSON format received.")
      case Raised(_, _) => Refuse("Error: Missing 'state' key.")
      case Loaded(doc) =>
        match Get(doc, "state", JNull)
        case None => Refuse("Error: Missing 'state' key.")
        case Some(state) =>
          if state !in ValidStates then Refuse("Error: Invalid state command: " + JsonStr(state))
          else
            var status := if state == JStr("CYCLE_COMPLETE") then "ARM_CYCLE_COMPLETE. PLC: START CONVEYOR"
                          else "Received Command: " + state.s;
            ReadyResult(["Processing Command: " + status, status], 0,
                        "Success: State '" + state.s + "' relayed to PLC.")
  }

  /** The ready-state command succeeds (code 0) exactly when a bare text
    * argument parses to an object whose `state` is one of the three commands;
    * it then writes "Processing Command: X" followed by X. Every other input
    * is refused with code 1 and a single write of the error text. */
  lemma ReadyOutcome(a: Arg, loads: Loads)
    ensures var r := Ready(a, loads);
            (r.code == 0 <==> Parseable(a) && loads.Loaded? && loads.doc.JObj?
                              && "state" in loads.doc.fields && loads.doc.fields["state"] in ValidStates)
            && (r.code == 0 || r.code == 1)
            && (r.code == 0 ==> |r.writes| == 2 && r.writes[0] == "Processing Command: " + r.writes[1])
            && (r.code == 1 ==> r.writes == [r.message])
            && (Parseable(a) && loads.DecodeError? ==> r.message == "Error: Invalid JSON format received.")
            && (Parseable(a) && loads.Raised? ==> r.message == "Error: Missing 'state' key.")
  {
  }

  /** The status text relayed for each accepted command, in any document
    * whose `state` names it, and the reply that reports it. */
  lemma ReadyStatuses(s: string, a: Arg, fields: map<string, Json>, repr: string)
    requires Parseable(a)
    requires s in ["CYCLE_COMPLETE", "CONTINUE", "PAUSE"]
    requires "state" in fields && fields["state"] == JStr(s)
    ensures var r := Ready(a, Loaded(JObj(fields, repr)));
            r.code == 0
            && r.writes[1] == (if s == "CYCLE_COMPLETE" then "ARM_CYCLE_COMPLETE. PLC: START CONVEYOR"
                               else "Received Command: " + s)
            && r.message == "Success: State '" + s + "' relayed to PLC."
  {
    assert JStr(s) in ValidStates;
  }

  /** A parsed object whose `state` is missing (read as None) or names no
    * accepted command is refused with the state's text, code 1 and a single
    * write of that refusal. */
  lemma ReadyRefusesState(a: Arg, fields: map<string, Json>, repr: string)
    requires Parseable(a)
    requires (if "state" in fields then fields["state"] else JNull) !in ValidStates
    ensures var st := if "state" in fields then fields["state"] else JNull;
            var r := Ready(a, Loaded(JObj(fields, repr)));
            r.code == 1 && r.message == "Error: Invalid state command: " + JsonStr(st)
            && r.writes == [r.message]
  {
  }

  /** A Variant argument never reaches the parser: the command is refused as
    * if the key were missing, whatever the text inside. */
  lemma ReadyRefusesVariant(v: Value, byteString: bool, loads: Loads)
    ensures Ready(Variant(v, byteString), loads) == Refuse("Error: Missing 'state' key.")
  {
  }

  // ---------------------------------------------------------------------
  // ARM_001: send_arm_json, IMG_001: send_arm_img
  // ---------------------------------------------------------------------

  /** The validation chain of send_arm_img; `bound` says whether the image
    * variable has been assigned. Each step returns from inside the `try`, so
    * no reply is rewritten. The last component says whether the value is
    * written to the image variable. */
  function ArmImg(a: Arg, bound: bool): (int, string, bool)
  {
    if !IsByteStringVariant(a) then (2, "Error: Input must be ByteString Variant.", false)
    else if !bound then (3, "Server Variable Not Initialized", false)
    else if !Truthy(a.value) then (4, "Empty Image Data (ByteString)", false)
    else (0, "JPG data successfully written to OPC UA ByteString Variable", true)
  }

  /** The checks run in order and each keeps its own code; the image is
    * written, with code 0, exactly for a non-empty ByteString Variant once
    * the variable is assigned. */
  lemma ArmImgCodes(a: Arg, bound: bool)
    ensures var r := ArmImg(a, bound);
            (r.0 == 2 <==> !IsByteStringVariant(a))
            && (r.0 == 3 <==> IsByteStringVariant(a) && !bound)
            && (r.0 == 4 <==> IsByteStringVariant(a) && bound && !Truthy(a.value))
            && (r.0 == 0 <==> IsByteStringVariant(a) && bound && Truthy(a.value))
            && (r.2 <==> r.0 == 0)
  {
  }

  /** This build never assigns the image variable: the upload then stops at
    * the type check or at the unset variable and never writes. */
  lemma ArmImgUnbound(a: Arg)
    ensures var r := ArmImg(a, false);
            r.0 != 0 && !r.2
            && (r == (2, "Error: Input must be ByteString Variant.", false)
                || r == (3, "Server Variable Not Initialized", false))
  {
  }

  // ---------------------------------------------------------------------
  // The server
  // ---------------------------------------------------------------------

  function InitialNodes(): map<NodeId, NodeValue>
  {
    map[AmrGoMove := Text("Ready"), AmrGoPositions := Text("Ready"), AmrMissionState := Text("Ready"),
        ConveyorSensorCheck := Text("Ready"), OkNgValue := Text("Ready"),
        RobotarmSensorCheck := Text("Ready"), ReadyState := Text("Ready"),
        SendArmJson := Text("Ready"), ArmGoMove := Text("Ready"), ArmPlaceSingle := Text("Ready"),
        ArmPlaceCompleted := Text("Ready"), SendArmImg := Text("Ready")]
  }

  class Server {
    /** The current value of each read-node. */
    var nodes: map<NodeId, NodeValue>
    /** Every node write so far, in order, as a subscriber sees them. */
    var writes: seq<(NodeId, NodeValue)>
    /** Reset tasks created and not yet run. */
    var pending: seq<Reset>
    /** The Modbus holding registers, by protocol address. */
    const hr: array<int>

    predicate Valid()
      reads this, hr
    {
      hr.Length == RegisterCount
      && forall r :: r in pending ==> r.delay == ResetDelay && r.value == ResetValue
    }

    constructor()
      ensures Valid() && fresh(hr)
      ensures nodes == InitialNodes() && writes == [] && pending == []
      ensures forall i :: 0 <= i < hr.Length ==> hr[i] == 0
    {
      nodes := InitialNodes();
      writes := [];
      pending := [];
      hr := new int[RegisterCount](_ => 0);
    }

    method Write(n: NodeId, v: NodeValue)
      modifies this
      ensures nodes == old(nodes)[n := v] && writes == old(writes) + [(n, v)]
      ensures pending == old(pending)
    {
      nodes := nodes[n := v];
      writes := writes + [(n, v)];
    }

    /** `asyncio.create_task(self._reset_variable_after_delay(node))`. */
    method Schedule(n: NodeId)
      requires Valid()
      modifies this
      ensures Valid()
      ensures pending == old(pending) + [Reset(n, ResetDelay, ResetValue)]
      ensures nodes == old(nodes) && writes == old(writes)
    {
      pending := pending + [Reset(n, ResetDelay, ResetValue)];
    }

    /** One reset task wakes up: it writes "Ready" to its node whatever the
      * node holds now. Tasks run in any order; none is ever cancelled. */
    method FireReset(i: nat)
      requires Valid() && i < |pending|
      modifies this
      ensures Valid()
      ensures nodes == old(nodes)[old(pending)[i].node := Text(ResetValue)]
      ensures writes == old(writes) + [(old(pending)[i].node, Text(ResetValue))]
      ensures pending == old(pending)[..i] + old(pending)[i + 1..]
    {
      var r := pending[i];
      Write(r.node, Text(r.value));
      pending := pending[..i] + pending[i + 1..];
    }

    /** The successful state change of a JSON-echo command: text `t` stored
      * in node `n` and one reset of `n` scheduled; on invalid JSON nothing. */
    predicate Echoed(n: NodeId, t: string, loads: Loads,
                     nodes0: map<NodeId, NodeValue>, writes0: seq<(NodeId, NodeValue)>, pending0: seq<Reset>)
      reads this
    {
      if loads.Loaded? then
        nodes == nodes0[n := Text(t)] && writes == writes0 + [(n, Text(t))]
        && pending == pending0 + [Reset(n, ResetDelay, ResetValue)]
      else
        nodes == nodes0 && writes == writes0 && pending == pending0
    }

    /** Store the command text in `n` and schedule its reset when `loads`
      * says the text is JSON. */
    method Echo(n: NodeId, t: string, loads: Loads)
      requires Valid()
      modifies this
      ensures Valid()
      ensures Echoed(n, t, loads, old(nodes), old(writes), old(pending))
    {
      if loads.Loaded? {
        Write(n, Text(t));
        Schedule(n);
      }
    }

    /** AMR_001. */
    method CallAmrGoMove(arg: Arg, loads: Loads) returns (success: bool, message: string)
      requires Valid()
      modifies this
      ensures Valid()
      ensures Echoed(AmrGoMove, Normalise(arg), loads, old(nodes), old(writes), old(pending))
      ensures (success, message) == EchoReply(Normalise(arg), loads, false)
    {
      var t := Normalise(arg);
      Echo(AmrGoMove, t, loads);
      success, message := EchoReply(t, loads, false).0, EchoReply(t, loads, false).1;
    }

    /** AMR_002. */
    method CallAmrGoPosition(arg: Arg, loads: Loads) returns (success: bool, message: string)
      requires Valid()
      modifies this
      ensures Valid()
      ensures Echoed(AmrGoPositions, Normalise(arg), loads, old(nodes), old(writes), old(pending))
      ensures (success, message) == EchoReply(Normalise(arg), loads, true)
    {
      var t := Normalise(arg);
      Echo(AmrGoPositions, t, loads);
      success, message := EchoReply(t, loads, true).0, EchoReply(t, loads, true).1;
    }

    /** AMR_003. */
    method CallAmrMissionState(arg: Arg, loads: Loads) returns (success: bool, message: string)
      requires Valid()
      modifies this
      ensures Valid()
      ensures Echoed(AmrMissionState, Normalise(arg), loads, old(nodes), old(writes), old(pending))
      ensures (success, message) == EchoReply(Normalise(arg), loads, false)
    {
      var t := Normalise(arg);
      Echo(AmrMissionState, t, loads);
      success, message := EchoReply(t, loads, false).0, EchoReply(t, loads, false).1;
    }

    /** ARM_002. */
    method CallArmGoMove(arg: Arg, loads: Loads) returns (success: bool, message: string)
      requires Valid()
      modifies this
      ensures Valid()
      ensures Echoed(ArmGoMove, Normalise(arg), loads, old(nodes), old(writes), old(pending))
      ensures (success, message) == EchoReply(Normalise(arg), loads, false)
    {
      var t := Normalise(arg);
      Echo(ArmGoMove, t, loads);
      success, message := EchoReply(t, loads, false).0, EchoReply(t, loads, false).1;
    }

    /** ARM_003. */
    method CallArmPlaceSingle(arg: Arg, loads: Loads) returns (success: Slot, message: string)
      requires Valid()
      modifies this
      ensures Valid()
      ensures Echoed(ArmPlaceSingle, Normalise(arg), loads, old(nodes), old(writes), old(pending))
      ensures (success, message) == PlaceReply(Normalise(arg), loads, Arm)
    {
      var t := Normalise(arg);
      Echo(ArmPlaceSingle, t, loads);
      success, message := PlaceReply(t, loads, Arm).0, PlaceReply(t, loads, Arm).1;
    }

    /** ARM_004. */
    method CallArmPlaceCompleted(arg: Arg, loads: Loads) returns (success: Slot, message: string)
      requires Valid()
      modifies this
      ensures Valid()
      ensures Echoed(ArmPlaceCompleted, Normalise(arg), loads, old(nodes), old(writes), old(pending))
      ensures (success, message) == PlaceReply(Normalise(arg), loads, Amr)
    {
      var t := Normalise(arg);
      Echo(ArmPlaceCompleted, t, loads);
      success, message := PlaceReply(t, loads, Amr).0, PlaceReply(t, loads, Amr).1;
    }

    /** PLC_001 and PLC_003: store the coerced sensor status; no reset. */
    method SensorCheck(n: NodeId, arg: Arg) returns (success: bool, message: string)
      requires Valid()
      modifies this
      ensures Valid()
      ensures nodes == old(nodes)[n := Text(SensorStatus(arg))]
      ensures writes == old(writes) + [(n, Text(SensorStatus(arg)))]
      ensures pending == old(pending)
      ensures success && message == "Success: Sensor check signal processed."
    {
      Write(n, Text(SensorStatus(arg)));
      success, message := true, "Success: Sensor check signal processed.";
    }

    /** PLC_001. */
    method CallConveyorSensorCheck(arg: Arg) returns (success: bool, message: string)
      requires Valid()
      modifies this
      ensures Valid()
      ensures nodes == old(nodes)[ConveyorSensorCheck := Text(SensorStatus(arg))]
      ensures writes == old(writes) + [(ConveyorSensorCheck, Text(SensorStatus(arg)))]
      ensures pending == old(pending)
      ensures success && message == "Success: Sensor check signal processed."
    {
      success, message := SensorCheck(ConveyorSensorCheck, arg);
    }

    /** PLC_003. */
    method CallRobotarmSensorCheck(arg: Arg) returns (success: bool, message: string)
      requires Valid()
      modifies this
      ensures Valid()
      ensures nodes == old(nodes)[RobotarmSensorCheck := Text(SensorStatus(arg))]
      ensures writes == old(writes) + [(RobotarmSensorCheck, Text(SensorStatus(arg)))]
      ensures pending == old(pending)
      ensures success && message == "Success: Sensor check signal processed."
    {
      success, message := SensorCheck(RobotarmSensorCheck, arg);
    }

    /** PLC_002: classify, write register 80, store the status, schedule. */
    method CallOkNgValue(arg: Arg, loads: Loads, setWriteError: Option<string>) returns (code: int, message: string)
      requires Valid()
      modifies this, hr
      ensures Valid()
      ensures var r := OkNg(Strip(Normalise(arg)), loads, setWriteError);
              code == r.code && message == r.message
              && hr[..] == (if r.register.Some? then old(hr[..])[OkNgRegister := r.register.value] else old(hr[..]))
              && nodes == old(nodes)[OkNgValue := r.node]
              && writes == old(writes) + [(OkNgValue, r.node)]
              && pending == old(pending) + (if r.scheduled then [Reset(OkNgValue, ResetDelay, ResetValue)] else [])
    {
      var cmd := Strip(Normalise(arg));
      var r := OkNg(cmd, loads, setWriteError);
      if r.register.Some? {
        hr[OkNgRegister] := r.register.value;
      }
      Write(OkNgValue, r.node);
      if r.scheduled {
        Schedule(OkNgValue);
      }
      code, message := r.code, r.message;
    }

    /** PLC_004: on success two writes, the "Processing Command" notice and
      * then the status (the pause between them is not modelled). */
    method CallReadyState(arg: Arg, loads: Loads) returns (code: int, message: string)
      requires Valid()
      modifies this
      ensures Valid()
      ensures var r := Ready(arg, loads);
              code == r.code && message == r.message
              && nodes == old(nodes)[ReadyState := Text(r.writes[|r.writes| - 1])]
              && writes == old(writes) + WritesTo(ReadyState, r.writes)
              && pending == old(pending)
    {
      var r := Ready(arg, loads);
      ReadyOutcome(arg, loads);
      Write(ReadyState, Text(r.writes[0]));
      if |r.writes| == 2 {
        Write(ReadyState, Text(r.writes[1]));
        assert WritesTo(ReadyState, r.writes) == [(ReadyState, Text(r.writes[0])), (ReadyState, Text(r.writes[1]))];
      } else {
        assert WritesTo(ReadyState, r.writes) == [(ReadyState, Text(r.writes[0]))];
      }
      code, message := r.code, r.message;
    }

    /** ARM_001: the document is checked but never stored; the reset is
      * scheduled on the ARM_002 node. */
    method CallSendArmJson(arg: Arg, loads: Loads) returns (code: int, message: string)
      requires Valid()
      modifies this
      ensures Valid()
      ensures (code, message) == (ArmJson(loads).0, ArmJson(loads).1)
      ensures nodes == old(nodes) && writes == old(writes)
      ensures pending == old(pending) + (if code == 0 then [Reset(ArmGoMove, ResetDelay, ResetValue)] else [])
    {
      var r := ArmJson(loads);
      if r.2 {
        Schedule(ArmGoMove);
      }
      code, message := r.0, r.1;
    }

    /** IMG_001: the image variable is never assigned in this build, so the
      * upload is refused and nothing changes. */
    method CallSendArmImg(arg: Arg) returns (code: int, message: string)
      ensures (code, message) == (ArmImg(arg, false).0, ArmImg(arg, false).1)
      ensures code == 2 || code == 3
    {
      var r := ArmImg(arg, false);
      ArmImgUnbound(arg);
      code, message := r.0, r.1;
    }
  }

  /** Two AMR_001 commands in a row (their storing step, `Echo`, which is
    * all CallAmrGoMove changes), then the first reset fires: the node
    * shows "Ready" although the second command was stored after that reset
    * was scheduled, and the second reset is still pending. */
  method StaleResetClearsNewerCommand(first: string, second: string) returns (s: Server)
    ensures s.Valid()
    ensures AmrGoMove in s.nodes && s.nodes[AmrGoMove] == Text(ResetValue)
    ensures s.pending == [Reset(AmrGoMove, ResetDelay, ResetValue)]
    ensures s.writes == [(AmrGoMove, Text(first)), (AmrGoMove, Text(second)), (AmrGoMove, Text(ResetValue))]
  {
    s := new Server();
    var obj := Loaded(JObj(map[], "{}"));
    s.Echo(AmrGoMove, first, obj);
    s.Echo(AmrGoMove, second, obj);
    s.FireReset(0);
  }
}
