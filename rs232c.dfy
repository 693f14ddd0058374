/**
 * The RS-232C build of the server's method handlers. It keeps no register
 * block of its own (the PLC is reached over a serial link that is not part
 * of this model); scheduled resets restore a node to "Ready" one second
 * after a command was stored, and the image variable is the IMG node.
 */
module Rs232c {
  import opened Text
  import opened Ingress

  const ResetDelay: nat := 1
  const ResetValue: string := "Ready"

  /** The general-error message of a JSON-echo command. */
  function Failure(d: Device, detail: string): string
  {
    DeviceName(d) + " 통신 또는 처리 실패. Details: " + detail
  }

  /** The reply of every JSON-echo command (AMR_001/002/003, ARM_002/003/004)
    * for command text `t`; `d` is the device its general error names. Only
    * AMR_002 (`validates`) has a branch of its own for a ValueError. */
  function EchoReply(t: string, loads: Loads, d: Device, validates: bool): (r: (bool, string))
    ensures r.0 <==> loads.Loaded?
  {
    match loads
    case Loaded(_) => (true, "Command '" + t + "' received and routed. Reset scheduled.")
    case DecodeError(e) => (false, InvalidJson(e))
    case Raised(e, isValueError) =>
      (false, if validates && isValueError then ValidationPrefix + e else Failure(d, e))
  }

  /** AMR_002 replies differently from an echo command without the ValueError
    * branch exactly when the parser raises a ValueError other than a decode
    * error. */
  lemma EchoValidates(t: string, loads: Loads, d: Device)
    ensures EchoReply(t, loads, d, true) != EchoReply(t, loads, d, false)
            <==> loads.Raised? && loads.isValueError
  {
    if loads.Raised? && loads.isValueError {
      ValidationIsNotFailure(d, loads.error);
    }
  }

  /** The two messages differ in length, hence differ. */
  lemma ValidationIsNotFailure(d: Device, e: string)
    ensures ValidationPrefix + e != Failure(d, e)
  {
    assert |ValidationPrefix + e| != |Failure(d, e)|;
  }

  // ---------------------------------------------------------------------
  // PLC_002: OK/NG value
  // ---------------------------------------------------------------------

  /** The node writes in order, whether a reset is scheduled, and the reply. */
  datatype OkNgResult = OkNgResult(writes: seq<string>, scheduled: bool, code: int, message: string)

  const GeneralPrefix: string := "Modbus 통신 또는 처리 실패. Details: "

  /** The text of the exception raised when the success message reads
    * `status_str_upper` on the path that never assigned it. */
  const UnboundStatus: string :=
    "cannot access local variable 'status_str_upper' where it is not associated with a value"

  const NotFoundStatus: string := "Anomaly key not found. Modbus Value: 0 (Default)"

  function General(cmd: string, detail: string): OkNgResult
  {
    OkNgResult([GeneralText(cmd)], false, 1, GeneralPrefix + detail)
  }

  /** The ValueError branch. */
  function ValidationError(cmd: string, detail: string): OkNgResult
  {
    OkNgResult([ValidationText(cmd)], false, 1, "Error: Validation failed. Details: " + detail)
  }

  /** The OK/NG handler once the `Anomaly` field, whose text is `shown`, has
    * been classified. */
  function Classified(cmd: string, verdict: Verdict, shown: string): OkNgResult
  {
    match verdict
    case Ng => OkNgResult(["NG"], true, 0, "Command successfully processed. Status: NG (Modbus: 1)")
    case Ok => OkNgResult(["OK"], true, 0, "Command successfully processed. Status: OK (Modbus: 0)")
    case Unrecognised =>
      ValidationError(cmd, "'Anomaly' key value must be 'OK' or 'NG', received: " + shown)
  }

  /** The OK/NG handler on the stripped command text `cmd`. Without an
    * `Anomaly` key the status is stored and its reset scheduled, and then the
    * success message fails on the unassigned upper-cased status, so the
    * general error branch overwrites the node. */
  function OkNg(cmd: string, loads: Loads): OkNgResult
  {
    match loads
    case DecodeError(_) =>
      OkNgResult([JsonErrorText(cmd)], false, 1, "Error: Input string is not a valid JSON.")
    case Raised(e, isValueError) => if isValueError then ValidationError(cmd, e) else General(cmd, e)
    case Loaded(doc) => OnField(cmd, Probe(doc, "Anomaly"))
  }

  /** The OK/NG handler once the document has been asked for its `Anomaly`
    * field. */
  function OnField(cmd: string, field: Field): OkNgResult
  {
    match field
    case FieldError(e) => General(cmd, e)
    case Absent =>
      OkNgResult([NotFoundStatus, GeneralText(cmd)], true, 1, GeneralPrefix + UnboundStatus)
    case Present(v) => Classified(cmd, AnomalyVerdict(v), JsonStr(v))
  }

  /** Code 0 needs a present field; one write or two, two only on the
    * missing-key path, which schedules its reset and still fails. */
  lemma OnFieldEffects(cmd: string, field: Field)
    ensures var r := OnField(cmd, field);
            (r.code == 0 || r.code == 1)
            && (r.code == 0 ==> field.Present?)
            && 1 <= |r.writes| <= 2 && (|r.writes| == 2 ==> r.scheduled)
            && (field.Absent? ==> r.writes == [NotFoundStatus, GeneralText(cmd)] && r.scheduled && r.code == 1)
  {
    match field
    case FieldError(_) =>
    case Absent =>
    case Present(v) => ClassifiedEffects(cmd, AnomalyVerdict(v), JsonStr(v));
  }

  lemma ClassifiedEffects(cmd: string, verdict: Verdict, shown: string)
    ensures var r := Classified(cmd, verdict, shown);
            (r.code == 0 <==> verdict != Unrecognised)
            && (r.code == 0 || r.code == 1)
            && (verdict == Ng ==> r.writes == ["NG"] && r.scheduled
                                  && r.message == "Command successfully processed. Status: NG (Modbus: 1)")
            && (verdict == Ok ==> r.writes == ["OK"] && r.scheduled
                                  && r.message == "Command successfully processed. Status: OK (Modbus: 0)")
            && (verdict == Unrecognised ==> r.writes == [ValidationText(cmd)] && !r.scheduled)
  {
    match verdict
    case Ng =>
    case Ok =>
    case Unrecognised =>
  }

  /** For a JSON object: an `Anomaly` of NG or OK (in any case) stores "NG"
    * or "OK", schedules a reset and returns 0 with the success message; any
    * other value is a validation error with code 1; a missing key stores the
    * not-found status, schedules its reset and still ends in the general
    * error with code 1. */
  lemma OkNgOnObject(cmd: string, fields: map<string, Json>, repr: string)
    ensures var r := OkNg(cmd, Loaded(JObj(fields, repr)));
            (r.code == 0 <==> "Anomaly" in fields && AnomalyVerdict(fields["Anomaly"]) != Unrecognised)
            && ("Anomaly" in fields && AnomalyVerdict(fields["Anomaly"]) == Ng ==>
                  r.writes == ["NG"] && r.scheduled
                  && r.message == "Command successfully processed. Status: NG (Modbus: 1)")
            && ("Anomaly" in fields && AnomalyVerdict(fields["Anomaly"]) == Ok ==>
                  r.writes == ["OK"] && r.scheduled
                  && r.message == "Command successfully processed. Status: OK (Modbus: 0)")
            && ("Anomaly" in fields && AnomalyVerdict(fields["Anomaly"]) == Unrecognised ==>
                  r.writes == [ValidationText(cmd)] && !r.scheduled)
            && ("Anomaly" !in fields ==>
                  r.writes == [NotFoundStatus, GeneralText(cmd)] && r.scheduled)
  {
    var doc := JObj(fields, repr);
    if "Anomaly" in fields {
      var v := fields["Anomaly"];
      assert Probe(doc, "Anomaly") == Present(v);
      ClassifiedEffects(cmd, AnomalyVerdict(v), JsonStr(v));
    } else {
      assert Probe(doc, "Anomaly") == Absent;
      OnFieldEffects(cmd, Absent);
    }
  }

  /** Only a recognised `Anomaly` in a JSON object yields code 0; invalid JSON
    * marks the node with the stripped input and schedules nothing, and so
    * does any other exception of the parser, marking the node as a
    * validation error for a ValueError and as a general error otherwise. */
  lemma OkNgCodes(cmd: string, loads: Loads)
    ensures var r := OkNg(cmd, loads);
            (r.code == 0 || r.code == 1)
            && (r.code == 0 ==> loads.Loaded? && loads.doc.JObj? && "Anomaly" in loads.doc.fields)
            && (loads.DecodeError? ==> r.writes == [JsonErrorText(cmd)] && !r.scheduled)
            && (loads.Raised? ==>
                  r.writes == [if loads.isValueError then ValidationText(cmd) else GeneralText(cmd)]
                  && !r.scheduled && r.code == 1)
            && |r.writes| > 0
  {
    match loads
    case DecodeError(_) =>
    case Raised(_, _) =>
    case Loaded(doc) => OnFieldEffects(cmd, Probe(doc, "Anomaly"));
  }

  // ---------------------------------------------------------------------
  // PLC_004: ready state
  // ---------------------------------------------------------------------

  /** Whether the command text is stored (and its reset scheduled), and the reply. */
  datatype ReadyResult = ReadyResult(stored: bool, success: bool, message: string)

  const ConveyorMove: string := "CONVEYOR_MOVE"

  function Failed(detail: string): ReadyResult
  {
    ReadyResult(false, false, "Processing failed. Details: " + detail)
  }

  function Routed(status: string): string
  {
    "Command '" + status + "' received and routed. Reset scheduled."
  }

  /** The ready-state handler on the stripped command text. There is no
    * check of the state's value; only its spelling of CONVEYOR_MOVE is
    * recognised, in any case. */
  function Ready(loads: Loads): ReadyResult
  {
    match loads
    case DecodeError(d) => ReadyResult(false, false, InvalidJson(d))
    case Raised(e, _) => Failed(e)
    case Loaded(doc) =>
      match Get(doc, "state", JStr(""))
      case None => Failed(NoAttribute(doc, "get"))
      case Some(state) =>
        if !state.JStr? then Failed(NoAttribute(state, "upper"))
        else
          var status :=
            if Upper(state.s) == ConveyorMove then "CONVEYOR_MOVE Command Received"
            else "Received state: " + (if "state" in doc.fields then state.s else "None");
          ReadyResult(true, true, Routed(status))
  }

  /** The command is accepted (stored, success) exactly when it is a JSON
    * object whose `state` is a string or absent. */
  lemma ReadyAccepts(loads: Loads)
    ensures var r := Ready(loads);
            (r.success <==> r.stored)
            && (r.success <==> loads.Loaded? && loads.doc.JObj?
                               && ("state" in loads.doc.fields ==> loads.doc.fields["state"].JStr?))
  {
  }

  /** The reply names CONVEYOR_MOVE exactly when the state, upper-cased,
    * is CONVEYOR_MOVE; any other accepted command reports the state received,
    * or "None" when the key is missing. */
  lemma ReadyConveyor(loads: Loads)
    ensures var r := Ready(loads);
            (r.success && r.message == Routed("CONVEYOR_MOVE Command Received"))
            <==> (loads.Loaded? && loads.doc.JObj? && "state" in loads.doc.fields
                  && loads.doc.fields["state"].JStr? && Upper(loads.doc.fields["state"].s) == ConveyorMove)
    ensures var r := Ready(loads);
            (loads.Loaded? && loads.doc.JObj?
             && ("state" in loads.doc.fields ==>
                   loads.doc.fields["state"].JStr? && Upper(loads.doc.fields["state"].s) != ConveyorMove))
            ==> r.success
                && r.message == Routed("Received state: " + (if "state" in loads.doc.fields
                                                             then loads.doc.fields["state"].s else "None"))
  {
    var r := Ready(loads);
    if loads.Loaded? && loads.doc.JObj? {
      var doc := loads.doc;
      var state := if "state" in doc.fields then doc.fields["state"] else JStr("");
      if state.JStr? && Upper(state.s) != ConveyorMove {
        var shown := if "state" in doc.fields then state.s else "None";
        var other := Routed("Received state: " + shown);
        assert r.message == other;
        assert other[9] == 'R';
        assert Routed("CONVEYOR_MOVE Command Received")[9] == 'C';
      }
      if "state" !in doc.fields {
        assert Upper("") == "";
      }
    }
  }

  /** The state test ignores case: "conveyor_move" and "Conveyor_Move" are
    * both recognised. */
  lemma ReadyConveyorAnyCase(s: string, fields: map<string, Json>, repr: string)
    requires |s| == |ConveyorMove|
    requires forall i :: 0 <= i < |s| ==>
               s[i] == ConveyorMove[i] || (ConveyorMove[i] != '_' && s[i] as int == ConveyorMove[i] as int + 32)
    requires "state" in fields && fields["state"] == JStr(s)
    ensures Ready(Loaded(JObj(fields, repr))).message == Routed("CONVEYOR_MOVE Command Received")
  {
    ConveyorMoveIsToken();
    UpperMatches(s, ConveyorMove);
    ReadyOnConveyorMove(s, fields, repr);
  }

  lemma ConveyorMoveIsToken()
    ensures IsToken(ConveyorMove)
  {
  }

  /** A state that upper-cases to CONVEYOR_MOVE is named in the reply. */
  lemma ReadyOnConveyorMove(s: string, fields: map<string, Json>, repr: string)
    requires Upper(s) == ConveyorMove
    requires "state" in fields && fields["state"] == JStr(s)
    ensures Ready(Loaded(JObj(fields, repr))).message == Routed("CONVEYOR_MOVE Command Received")
  {
    var doc := JObj(fields, repr);
    assert Get(doc, "state", JStr("")) == Some(JStr(s));
  }

  // ---------------------------------------------------------------------
  // ARM_001: send_arm_json, IMG_001: send_arm_img
  // ---------------------------------------------------------------------

  /** The exception handler of send_arm_img: a code still 0 becomes 5, and a
    * message without "Error" in it is replaced by the exception's text. */
  function Rejected(code: int, message: string, exception: string): (r: (int, string))
    ensures r.0 != 0 && (code != 0 ==> r.0 == code)
    ensures IsSubstring("Error", message) ==> r.1 == message
    ensures !IsSubstring("Error", message) ==> r.1 == "Unknown Error: " + exception
  {
    (if code == 0 then 5 else code,
     if IsSubstring("Error", message) then message else "Unknown Error: " + exception)
  }

  /** The validation chain of send_arm_img; `bound` says whether the image
    * variable has been assigned. The last component says whether the value
    * is written to the image node. */
  function ArmImg(a: Arg, bound: bool): (int, string, bool)
  {
    if !IsByteStringVariant(a) then
      var r := Rejected(2, "Error: Input must be ByteString Variant.", "Input must be ByteString Variant.");
      (r.0, r.1, false)
    else if !bound then
      var r := Rejected(3, "Server Variable Not Initialized", "Server image_data_var Not Initialized");
      (r.0, r.1, false)
    else if !Truthy(a.value) then
      var r := Rejected(4, "Empty Image Data (ByteString)", "Empty Image Data");
      (r.0, r.1, false)
    else (0, "JPG data successfully written to OPC UA ByteString Variable", true)
  }

  /** What each step of the chain replies: the type error keeps its code and
    * message; the unset variable and the empty image keep their codes but
    * report the exception text, since their messages lack "Error". */
  lemma ArmImgReplies(a: Arg, bound: bool)
    ensures var r := ArmImg(a, bound);
            (!IsByteStringVariant(a) ==> (r.0, r.1) == (2, "Error: Input must be ByteString Variant."))
            && (IsByteStringVariant(a) && !bound ==>
                  (r.0, r.1) == (3, "Unknown Error: " + "Server image_data_var Not Initialized"))
            && (IsByteStringVariant(a) && bound && !Truthy(a.value) ==>
                  (r.0, r.1) == (4, "Unknown Error: " + "Empty Image Data"))
            && (r.2 <==> r.0 == 0)
            && (r.0 == 0 <==> IsByteStringVariant(a) && bound && Truthy(a.value))
  {
    RejectedTypeError();
    RejectedUnbound();
    RejectedEmpty();
  }

  /** The type error's message mentions "Error" and is kept. */
  lemma RejectedTypeError()
    ensures Rejected(2, "Error: Input must be ByteString Variant.", "Input must be ByteString Variant.")
            == (2, "Error: Input must be ByteString Variant.")
  {
    PrefixOccurs("Error", "Error: Input must be ByteString Variant.");
  }

  /** The unset-variable message lacks "Error" and is replaced. */
  lemma RejectedUnbound()
    ensures Rejected(3, "Server Variable Not Initialized", "Server image_data_var Not Initialized")
            == (3, "Unknown Error: " + "Server image_data_var Not Initialized")
  {
    NoOccurrence("Error", "Server Variable Not Initialized");
  }

  /** The empty-image message lacks "Error" and is replaced. */
  lemma RejectedEmpty()
    ensures Rejected(4, "Empty Image Data (ByteString)", "Empty Image Data")
            == (4, "Unknown Error: " + "Empty Image Data")
  {
    NoOccurrence("Error", "Empty Image Data (ByteString)");
  }

  // ---------------------------------------------------------------------
  // The server
  // ---------------------------------------------------------------------

  function InitialNodes(): map<NodeId, NodeValue>
  {
    map[AmrGoMove := Text("Ready"), AmrGoPositions := Text("Ready"), AmrMissionState := Text("Ready"),
        ConveyorSensorCheck := Text("Ready"), OkNgValue := Text("Ready"),
        RobotarmSensorCheck := Text("Ready"), ReadyState := Text("Ready"),
        SendArmJson := Text("Ready"), ArmGoMove := Text("Ready"), ArmPlaceSingle := Text("Ready"),
        ArmPlaceCompleted := Text("Ready"), SendArmImg := Data(VBytes([]))]
  }

  class Server {
    /** The current value of each read-node. */
    var nodes: map<NodeId, NodeValue>
    /** Every node write so far, in order, as a subscriber sees them. */
    var writes: seq<(NodeId, NodeValue)>
    /** Reset tasks created and not yet run. */
    var pending: seq<Reset>
    /** Whether the module-level image variable refers to the IMG node. */
    var imageBound: bool

    predicate Valid()
      reads this
    {
      imageBound
      && forall r :: r in pending ==> r.delay == ResetDelay && r.value == ResetValue
    }

    /** The server after its nodes are created; creating the IMG node also
      * binds the image variable to it. */
    constructor()
      ensures Valid()
      ensures nodes == InitialNodes() && writes == [] && pending == []
    {
      nodes := InitialNodes();
      writes := [];
      pending := [];
      imageBound := true;
    }

    method Write(n: NodeId, v: NodeValue)
      modifies this
      ensures nodes == old(nodes)[n := v] && writes == old(writes) + [(n, v)]
      ensures pending == old(pending) && imageBound == old(imageBound)
    {
      nodes := nodes[n := v];
      writes := writes + [(n, v)];
    }

    method Schedule(n: NodeId)
      requires Valid()
      modifies this
      ensures Valid()
      ensures pending == old(pending) + [Reset(n, ResetDelay, ResetValue)]
      ensures nodes == old(nodes) && writes == old(writes)
    {
      pending := pending + [Reset(n, ResetDelay, ResetValue)];
    }

    /** One reset task wakes up and writes "Ready" to its node unconditionally. */
    method FireReset(i: nat)
      requires Valid() && i < |pending|
      modifies this
      ensures Valid()
      ensures nodes == old(nodes)[old(pending)[i].node := Text(ResetValue)]
      ensures writes == old(writes) + [(old(pending)[i].node, Text(ResetValue))]
      ensures pending == old(pending)[..i] + old(pending)[i + 1..]
    {
      var r := pending[i];
      Write(r.node, Text(r.value));
      pending := pending[..i] + pending[i + 1..];
    }

    predicate Echoed(n: NodeId, t: string, loads: Loads,
                     nodes0: map<NodeId, NodeValue>, writes0: seq<(NodeId, NodeValue)>, pending0: seq<Reset>)
      reads this
    {
      if loads.Loaded? then
        nodes == nodes0[n := Text(t)] && writes == writes0 + [(n, Text(t))]
        && pending == pending0 + [Reset(n, ResetDelay, ResetValue)]
      else
        nodes == nodes0 && writes == writes0 && pending == pending0
    }

    /** A JSON-echo command on node `n`. */
    method Echo(n: NodeId, arg: Arg, loads: Loads, d: Device, validates: bool) returns (success: bool, message: string)
      requires Valid()
      modifies this
      ensures Valid()
      ensures Echoed(n, Normalise(arg), loads, old(nodes), old(writes), old(pending))
      ensures (success, message) == EchoReply(Normalise(arg), loads, d, validates)
    {
      var t := Normalise(arg);
      if loads.Loaded? {
        Write(n, Text(t));
        Schedule(n);
      }
      success, message := EchoReply(t, loads, d, validates).0, EchoReply(t, loads, d, validates).1;
    }

    /** AMR_001. */
    method CallAmrGoMove(arg: Arg, loads: Loads) returns (success: bool, message: string)
      requires Valid()
      modifies this
      ensures Valid()
      ensures Echoed(AmrGoMove, Normalise(arg), loads, old(nodes), old(writes), old(pending))
      ensures (success, message) == EchoReply(Normalise(arg), loads, Amr, false)
    {
      success, message := Echo(AmrGoMove, arg, loads, Amr, false);
    }

    /** AMR_002. */
    method CallAmrGoPosition(arg: Arg, loads: Loads) returns (success: bool, message: string)
      requires Valid()
      modifies this
      ensures Valid()
      ensures Echoed(AmrGoPositions, Normalise(arg), loads, old(nodes), old(writes), old(pending))
      ensures (success, message) == EchoReply(Normalise(arg), loads, Amr, true)
    {
      success, message := Echo(AmrGoPositions, arg, loads, Amr, true);
    }

    /** AMR_003. */
    method CallAmrMissionState(arg: Arg, loads: Loads) returns (success: bool, message: string)
      requires Valid()
      modifies this
      ensures Valid()
      ensures Echoed(AmrMissionState, Normalise(arg), loads, old(nodes), old(writes), old(pending))
      ensures (success, message) == EchoReply(Normalise(arg), loads, Amr, false)
    {
      success, message := Echo(AmrMissionState, arg, loads, Amr, false);
    }

    /** ARM_002. */
    method CallArmGoMove(arg: Arg, loads: Loads) returns (success: bool, message: string)
      requires Valid()
      modifies this
      ensures Valid()
      ensures Echoed(ArmGoMove, Normalise(arg), loads, old(nodes), old(writes), old(pending))
      ensures (success, message) == EchoReply(Normalise(arg), loads, Arm, false)
    {
      success, message := Echo(ArmGoMove, arg, loads, Arm, false);
    }

    /** ARM_003. */
    method CallArmPlaceSingle(arg: Arg, loads: Loads) returns (success: bool, message: string)
      requires Valid()
      modifies this
      ensures Valid()
      ensures Echoed(ArmPlaceSingle, Normalise(arg), loads, old(nodes), old(writes), old(pending))
      ensures (success, message) == EchoReply(Normalise(arg), loads, Arm, false)
    {
      success, message := Echo(ArmPlaceSingle, arg, loads, Arm, false);
    }

    /** ARM_004. */
    method CallArmPlaceCompleted(arg: Arg, loads: Loads) returns (success: bool, message: string)
      requires Valid()
      modifies this
      ensures Valid()
      ensures Echoed(ArmPlaceCompleted, Normalise(arg), loads, old(nodes), old(writes), old(pending))
      ensures (success, message) == EchoReply(Normalise(arg), loads, Arm, false)
    {
      success, message := Echo(ArmPlaceCompleted, arg, loads, Arm, false);
    }

    /** PLC_001 and PLC_003: store the coerced sensor status; no reset. */
    method SensorCheck(n: NodeId, arg: Arg) returns (success: bool, message: string)
      requires Valid()
      modifies this
      ensures Valid()
      ensures nodes == old(nodes)[n := Text(SensorStatus(arg))]
      ensures writes == old(writes) + [(n, Text(SensorStatus(arg)))]
      ensures pending == old(pending)
      ensures success && message == "Success: Sensor check signal processed."
    {
      Write(n, Text(SensorStatus(arg)));
      success, message := true, "Success: Sensor check signal processed.";
    }

    /** PLC_001. */
    method CallConveyorSensorCheck(arg: Arg) returns (success: bool, message: string)
      requires Valid()
      modifies this
      ensures Valid()
      ensures nodes == old(nodes)[ConveyorSensorCheck := Text(SensorStatus(arg))]
      ensures writes == old(writes) + [(ConveyorSensorCheck, Text(SensorStatus(arg)))]
      ensures pending == old(pending)
      ensures success && message == "Success: Sensor check signal processed."
    {
      success, message := SensorCheck(ConveyorSensorCheck, arg);
    }

    /** PLC_003. */
    method CallRobotarmSensorCheck(arg: Arg) returns (success: bool, message: string)
      requires Valid()
      modifies this
      ensures Valid()
      ensures nodes == old(nodes)[RobotarmSensorCheck := Text(SensorStatus(arg))]
      ensures writes == old(writes) + [(RobotarmSensorCheck, Text(SensorStatus(arg)))]
      ensures pending == old(pending)
      ensures success && message == "Success: Sensor check signal processed."
    {
      success, message := SensorCheck(RobotarmSensorCheck, arg);
    }

    /** PLC_002: every write of `OkNg` goes to the OK/NG node in order; the
      * reset, when scheduled, is created right after the first of them. */
    method CallOkNgValue(arg: Arg, loads: Loads) returns (code: int, message: string)
      requires Valid()
      modifies this
      ensures Valid()
      ensures var r := OkNg(Strip(Normalise(arg)), loads);
              code == r.code && message == r.message && 1 <= |r.writes| <= 2
              && nodes == old(nodes)[OkNgValue := Text(r.writes[|r.writes| - 1])]
              && writes == old(writes) + WritesTo(OkNgValue, r.writes)
              && pending == old(pending) + (if r.scheduled then [Reset(OkNgValue, ResetDelay, ResetValue)] else [])
    {
      var cmd := Strip(Normalise(arg));
      var r := OkNg(cmd, loads);
      OkNgShape(cmd, loads);
      WriteInTurn(OkNgValue, r.writes, r.scheduled);
      code, message := r.code, r.message;
    }

    /** Write one or two texts to `n` in order, creating the reset of `n`
      * after the first write when `schedule` holds. */
    method WriteInTurn(n: NodeId, ws: seq<string>, schedule: bool)
      requires Valid() && 1 <= |ws| <= 2
      modifies this
      ensures Valid()
      ensures nodes == old(nodes)[n := Text(ws[|ws| - 1])]
      ensures writes == old(writes) + WritesTo(n, ws)
      ensures pending == old(pending) + (if schedule then [Reset(n, ResetDelay, ResetValue)] else [])
    {
      Write(n, Text(ws[0]));
      if schedule {
        Schedule(n);
      }
      if |ws| == 2 {
        Write(n, Text(ws[1]));
        assert WritesTo(n, ws) == [(n, Text(ws[0])), (n, Text(ws[1]))];
      } else {
        assert WritesTo(n, ws) == [(n, Text(ws[0]))];
      }
    }

    /** PLC_004: an accepted command stores the stripped text itself. */
    method CallReadyState(arg: Arg, loads: Loads) returns (success: bool, message: string)
      requires Valid()
      modifies this
      ensures Valid()
      ensures var cmd := Strip(Normalise(arg));
              var r := Ready(loads);
              success == r.success && message == r.message
              && (r.stored ==>
                    nodes == old(nodes)[ReadyState := Text(cmd)] && writes == old(writes) + [(ReadyState, Text(cmd))]
                    && pending == old(pending) + [Reset(ReadyState, ResetDelay, ResetValue)])
              && (!r.stored ==> nodes == old(nodes) && writes == old(writes) && pending == old(pending))
    {
      var cmd := Strip(Normalise(arg));
      var r := Ready(loads);
      if r.stored {
        Write(ReadyState, Text(cmd));
        Schedule(ReadyState);
      }
      success, message := r.success, r.message;
    }

    /** ARM_001: a JSON object's text is stored in its own node and reset. */
    method CallSendArmJson(arg: Arg, loads: Loads) returns (code: int, message: string)
      requires Valid()
      modifies this
      ensures Valid()
      ensures (code, message) == (ArmJson(loads).0, ArmJson(loads).1)
      ensures code == 0 ==>
                nodes == old(nodes)[SendArmJson := Text(Normalise(arg))]
                && writes == old(writes) + [(SendArmJson, Text(Normalise(arg)))]
                && pending == old(pending) + [Reset(SendArmJson, ResetDelay, ResetValue)]
      ensures code != 0 ==> nodes == old(nodes) && writes == old(writes) && pending == old(pending)
    {
      var t := Normalise(arg);
      var r := ArmJson(loads);
      if r.2 {
        Write(SendArmJson, Text(t));
        Schedule(SendArmJson);
      }
      code, message := r.0, r.1;
    }

    /** IMG_001: a non-empty ByteString value is written to the image node as
      * it came; no reset is scheduled. */
    method CallSendArmImg(arg: Arg) returns (code: int, message: string)
      requires Valid()
      modifies this
      ensures Valid()
      ensures var r := ArmImg(arg, true);
              code == r.0 && message == r.1
              && (r.2 ==> nodes == old(nodes)[SendArmImg := Data(arg.value)]
                          && writes == old(writes) + [(SendArmImg, Data(arg.value))])
              && (!r.2 ==> nodes == old(nodes) && writes == old(writes))
              && pending == old(pending)
    {
      var r := ArmImg(arg, imageBound);
      if r.2 {
        Write(SendArmImg, Data(arg.value));
      }
      code, message := r.0, r.1;
    }
  }

  /** The OK/NG handler writes its node once or twice, twice only on the
    * missing-key path, where the reset was scheduled between the writes. */
  lemma OkNgShape(cmd: string, loads: Loads)
    ensures var r := OkNg(cmd, loads);
            1 <= |r.writes| <= 2 && (|r.writes| == 2 ==> r.scheduled)
  {
    match loads
    case DecodeError(_) =>
    case Raised(_, _) =>
    case Loaded(doc) => OnFieldEffects(cmd, Probe(doc, "Anomaly"));
  }
}
