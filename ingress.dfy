/**
 * What both server builds share: the values a remote method call delivers,
 * how a handler turns its argument into command text, the verdict of the
 * JSON parser, the Python operations the handlers apply to a parsed
 * document, the server's read-nodes and the reset tasks a handler schedules.
 */
module Ingress {
  import opened Text

  datatype Option<T> = None | Some(value: T)

  // ---------------------------------------------------------------------
  // Call arguments
  // ---------------------------------------------------------------------

  /** A Python value carried by a call. Floats and values of other types are
    * represented by what the handlers observe of them: their `str()` text and
    * their truth value (for a float, whether it compares equal to zero). */
  datatype Value =
    | VStr(s: string)
    | VBytes(bytes: seq<byte>)
    | VInt(i: int)
    | VBool(flag: bool)
    | VFloat(repr: string, isZero: bool)
    | VNone
    | VOther(repr: string, truthy: bool)

  /** An argument as the handler receives it: wrapped in an OPC UA Variant
    * (which records whether its declared type is ByteString) or bare. */
  datatype Arg =
    | Variant(value: Value, byteString: bool)
    | Plain(value: Value)

  /** `str(x)` for a value that is not a byte string. */
  function PyStr(v: Value): string
    requires !v.VBytes?
  {
    match v
    case VStr(s) => s
    case VInt(i) => IntToString(i)
    case VBool(f) => if f then "True" else "False"
    case VFloat(r, _) => r
    case VNone => "None"
    case VOther(r, _) => r
  }

  /** Python's `bool(x)`. */
  predicate Truthy(v: Value)
  {
    match v
    case VStr(s) => |s| > 0
    case VBytes(b) => |b| > 0
    case VInt(i) => i != 0
    case VBool(f) => f
    case VFloat(_, z) => !z
    case VNone => false
    case VOther(_, t) => t
  }

  /** The argument normalisation every JSON handler starts with: the Variant
    * is unwrapped, a byte string is decoded as UTF-8 dropping malformed
    * input, a string is kept and anything else goes through `str()`. */
  function Normalise(a: Arg): string
  {
    match a.value
    case VBytes(b) => DecodeIgnore(b)
    case VStr(s) => s
    case _ => PyStr(a.value)
  }

  /** A command sent as text and the same command sent as its UTF-8 bytes,
    * wrapped or bare, normalise to the same text. */
  lemma NormaliseBytesOrText(s: string, wrapBytes: bool, wrapText: bool)
    ensures var asBytes := if wrapBytes then Variant(VBytes(Encode(s)), true) else Plain(VBytes(Encode(s)));
            var asText := if wrapText then Variant(VStr(s), false) else Plain(VStr(s));
            Normalise(asBytes) == Normalise(asText) == s
  {
    DecodeEncode(s);
  }

  /** Normalising never lengthens a byte-string argument. */
  lemma NormaliseBytesBound(a: Arg)
    requires a.value.VBytes?
    ensures |Normalise(a)| <= |a.value.bytes|
  {
    DecodeShrinks(a.value.bytes);
  }

  /** The sensor-check coercion: a number (bool included, as Python's bool is
    * an int) counts when it is non-zero, anything else by its truth value. */
  predicate SensorOk(a: Arg)
  {
    match a.value
    case VInt(i) => i != 0
    case VBool(f) => f
    case VFloat(_, z) => !z
    case _ => Truthy(a.value)
  }

  /** The status text a sensor check writes to its node. */
  function SensorStatus(a: Arg): (status: string)
    ensures status == "Check OK" <==> SensorOk(a)
    ensures status == "Check OK" || status == "Ready"
  {
    if SensorOk(a) then "Check OK" else "Ready"
  }

  /** The coercion is Python truthiness on the unwrapped value; in particular
    * the text "0" or "False" sent as a string counts as a set sensor. */
  lemma SensorOkIsTruthy(a: Arg)
    ensures SensorOk(a) <==> Truthy(a.value)
    ensures a.value == VStr("0") ==> SensorOk(a)
  {
  }

  // ---------------------------------------------------------------------
  // JSON documents
  // ---------------------------------------------------------------------

  /** A document as `json.loads` returns it. Numbers, lists and dicts carry
    * their Python `str()` text, which a handler may embed in a message. */
  datatype Json =
    | JNull
    | JBool(flag: bool)
    | JNum(repr: string, isInt: bool)
    | JStr(s: string)
    | JArr(items: seq<Json>, repr: string)
    | JObj(fields: map<string, Json>, repr: string)

  /** The verdict of `json.loads` on a text: a decode error with its message,
    * another exception with its message, or the parsed document. The parser
    * itself is not part of this model. Besides `JSONDecodeError` it raises a
    * ValueError for an integer literal of more than 4300 digits and a
    * UnicodeDecodeError (also a ValueError) for a byte string that is not
    * valid in its detected encoding, and a RecursionError, which is not a
    * ValueError, for nesting too deep for the interpreter. */
  datatype Loads =
    | DecodeError(detail: string)
    | Raised(error: string, isValueError: bool)
    | Loaded(doc: Json)

  /** The message every JSON handler gives for a decode error. */
  function InvalidJson(detail: string): string
  {
    "Error: Input string is not a valid JSON. Details: " + detail
  }

  /** The start of AMR_002's reply to a ValueError. */
  const ValidationPrefix: string := "Error: JSON data validation failed. Details: "

  /** The device a handler's general-error message names. */
  datatype Device = Amr | Arm

  function DeviceName(d: Device): string
  {
    match d
    case Amr => "AMR"
    case Arm => "ARM"
  }

  /** `str()` of a parsed value. */
  function JsonStr(j: Json): string
  {
    match j
    case JNull => "None"
    case JBool(f) => if f then "True" else "False"
    case JNum(r, _) => r
    case JStr(s) => s
    case JArr(_, r) => r
    case JObj(_, r) => r
  }

  /** The Python type name of a parsed value, as exception texts show it. */
  function TypeName(j: Json): string
  {
    match j
    case JNull => "NoneType"
    case JBool(_) => "bool"
    case JNum(_, isInt) => if isInt then "int" else "float"
    case JStr(_) => "str"
    case JArr(_, _) => "list"
    case JObj(_, _) => "dict"
  }

  /** The text of the AttributeError raised by `x.attr` when `x` lacks it. */
  function NoAttribute(j: Json, attr: string): string
  {
    "'" + TypeName(j) + "' object has no attribute '" + attr + "'"
  }

  /** The outcome of Python's `key in doc`: a dict tests its keys, a list its
    * elements, a string its substrings; other values raise a TypeError. */
  datatype Membership = Member | NotMember | NotContainer(error: string)

  function Contains(doc: Json, key: string): (m: Membership)
    ensures m.NotContainer? <==> doc.JNull? || doc.JBool? || doc.JNum?
    ensures doc.JObj? ==> (m == Member <==> key in doc.fields)
  {
    match doc
    case JObj(f, _) => if key in f then Member else NotMember
    case JArr(items, _) => if JStr(key) in items then Member else NotMember
    case JStr(s) => if IsSubstring(key, s) then Member else NotMember
    case _ => NotContainer("argument of type '" + TypeName(doc) + "' is not iterable")
  }

  /** The outcome of Python's `doc[key]` with a string key. */
  datatype Lookup = Found(v: Json) | LookupError(error: string)

  function Index(doc: Json, key: string): (r: Lookup)
    requires Contains(doc, key) == Member
    ensures r.Found? <==> doc.JObj?
    ensures r.Found? ==> r.v == doc.fields[key]
  {
    match doc
    case JObj(f, _) => Found(f[key])
    case JArr(_, _) => LookupError("list indices must be integers or slices, not str")
    case _ => LookupError("string indices must be integers, not 'str'")
  }

  /** What `if key in doc:` followed by `doc[key]` yields: the error either
    * step raises, the key's absence, or the value stored under it. */
  datatype Field = FieldError(error: string) | Absent | Present(v: Json)

  function Probe(doc: Json, key: string): (f: Field)
    ensures doc.JObj? ==> f == (if key in doc.fields then Present(doc.fields[key]) else Absent)
    ensures f.FieldError? <==> !doc.JObj? && Contains(doc, key) != NotMember
    ensures f.Present? ==> doc.JObj? && key in doc.fields && f.v == doc.fields[key]
  {
    match Contains(doc, key)
    case NotContainer(e) => FieldError(e)
    case NotMember => Absent
    case Member =>
      match Index(doc, key)
      case LookupError(e) => FieldError(e)
      case Found(v) => Present(v)
  }

  /** Python's `doc.get(key, default)`: `None` when `doc` is not a dict
    * (an AttributeError is raised), the stored value or `default` otherwise. */
  function Get(doc: Json, key: string, default: Json): (r: Option<Json>)
    ensures r.Some? <==> doc.JObj?
    ensures doc.JObj? && key in doc.fields ==> r == Some(doc.fields[key])
    ensures doc.JObj? && key !in doc.fields ==> r == Some(default)
  {
    match doc
    case JObj(f, _) => Some(if key in f then f[key] else default)
    case _ => None
  }

  /** How `str(value).upper()` classifies an `Anomaly` field. */
  datatype Verdict = Ng | Ok | Unrecognised

  function AnomalyVerdict(v: Json): Verdict
  {
    var u := Upper(JsonStr(v));
    if u == "NG" then Ng else if u == "OK" then Ok else Unrecognised
  }

  /** The classification ignores case: NG is "NG" in any of its four
    * spellings, OK likewise, and a JSON null or boolean is never recognised. */
  lemma AnomalyVerdictSpellings(v: Json)
    ensures AnomalyVerdict(v) == Ng <==> JsonStr(v) in {"NG", "Ng", "nG", "ng"}
    ensures AnomalyVerdict(v) == Ok <==> JsonStr(v) in {"OK", "Ok", "oK", "ok"}
    ensures v.JNull? || v.JBool? ==> AnomalyVerdict(v) == Unrecognised
  {
    SpellsNg(JsonStr(v));
    SpellsOk(JsonStr(v));
  }

  lemma SpellsNg(s: string)
    ensures Upper(s) == "NG" <==> s in {"NG", "Ng", "nG", "ng"}
  {
    UpperMatches(s, "NG");
    if |s| == 2 {
      assert s == [s[0], s[1]];
    }
  }

  lemma SpellsOk(s: string)
    ensures Upper(s) == "OK" <==> s in {"OK", "Ok", "oK", "ok"}
  {
    UpperMatches(s, "OK");
    if |s| == 2 {
      assert s == [s[0], s[1]];
    }
  }

  // ---------------------------------------------------------------------
  // Read-nodes and scheduled resets
  // ---------------------------------------------------------------------

  /** The read-nodes the handlers write, one per interface. */
  datatype NodeId =
    | AmrGoMove | AmrGoPositions | AmrMissionState
    | ConveyorSensorCheck | OkNgValue | RobotarmSensorCheck | ReadyState
    | SendArmJson | ArmGoMove | ArmPlaceSingle | ArmPlaceCompleted
    | SendArmImg

  /** The value a node holds: a string, a one-element Python set of a string,
    * or any other value written as it came (the image node's bytes). */
  datatype NodeValue = Text(s: string) | TextSet(member: string) | Data(v: Value)

  /** Writes of the texts `vs`, in order, to node `n`. */
  function WritesTo(n: NodeId, vs: seq<string>): (w: seq<(NodeId, NodeValue)>)
    ensures |w| == |vs|
    ensures forall k :: 0 <= k < |vs| ==> w[k] == (n, Text(vs[k]))
  {
    if |vs| == 0 then [] else [(n, Text(vs[0]))] + WritesTo(n, vs[1..])
  }

  /** The texts an OK/NG handler leaves in its node when the command is not
    * JSON, when its `Anomaly` value is not recognised, and when anything
    * else fails; each carries the stripped command. */
  function JsonErrorText(cmd: string): string
  {
    "JSON ERROR: " + cmd
  }

  function ValidationText(cmd: string): string
  {
    "VALIDATION ERROR: " + cmd
  }

  function GeneralText(cmd: string): string
  {
    "GENERAL ERROR: " + cmd
  }

  // ---------------------------------------------------------------------
  // ARM_001: send_arm_json, and the IMG_001 type check
  // ---------------------------------------------------------------------

  /** The reply of send_arm_json in both builds and whether the build's
    * success path runs (its node write or reset). Only a JSON object
    * succeeds: `.get` fails on any other document, and any exception the
    * parser raises besides a decode error reaches the same general branch. */
  function ArmJson(loads: Loads): (r: (int, string, bool))
    ensures r.2 <==> r.0 == 0
  {
    match loads
    case DecodeError(_) => (2, "JSON Decode Error", false)
    case Raised(e, _) => (5, "Unknown Error: " + e, false)
    case Loaded(doc) =>
      if doc.JObj? then (0, "Data processed and written to Variable", true)
      else (5, "Unknown Error: " + NoAttribute(doc, "get"), false)
  }

  /** Code 0 exactly for a JSON object, 2 exactly for invalid JSON, 5 for any
    * other document and for any other exception of the parser. */
  lemma ArmJsonCodes(loads: Loads)
    ensures ArmJson(loads).0 == 0 <==> loads.Loaded? && loads.doc.JObj?
    ensures ArmJson(loads).0 == 2 <==> loads.DecodeError?
    ensures ArmJson(loads).0 == 5 <==> loads.Raised? || (loads.Loaded? && !loads.doc.JObj?)
  {
  }

  /** The argument is an OPC UA Variant whose declared type is ByteString. */
  predicate IsByteStringVariant(a: Arg)
  {
    a.Variant? && a.byteString
  }

  /** A pending background task that, once its delay has passed, writes
    * `value` to `node` whatever the node holds by then. */
  datatype Reset = Reset(node: NodeId, delay: nat, value: string)
}
