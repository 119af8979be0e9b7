/** The response checks of the endpoints that inspect what they receive: the
    decoded body `json_decode($body, true)` as PHP represents it, the test on its
    `result` field, and the `: array` return type the methods declare. */
module Json {
  import opened Php
  import opened Http

  /** A decoded JSON value. An object becomes a PHP array with string keys, an
      array becomes a PHP list; floats are not part of this model. */
  datatype JValue =
    | JNull
    | JBool(b: bool)
    | JInt(i: int)
    | JString(s: string)
    | JList(items: seq<JValue>)
    | JObject(fields: map<string, JValue>)

  /** What PHP's `is_array` says of a decoded value. */
  predicate IsArray(v: JValue)
  {
    v.JList? || v.JObject?
  }

  /** `$data[name] ?? null` for a key that is not a decimal number: only an object
      has such a key, a list or a scalar never does. */
  function Field(data: JValue, name: string): (r: Option<JValue>)
    ensures r.Some? <==> data.JObject? && name in data.fields
    ensures r.Some? ==> r.value == data.fields[name]
  {
    if data.JObject? && name in data.fields then Some(data.fields[name]) else None
  }

  /** `isset($data[name])`: the field is present and not null. A list or a scalar
      has no named field, so it never passes. */
  predicate Isset(data: JValue, name: string)
    ensures Isset(data, name) <==> data.JObject? && name in data.fields && data.fields[name] != JNull
  {
    Field(data, name).Some? && Field(data, name).value != JNull
  }

  /** `isset($data['result']) && $data['result'] !== 0`: the server reported an error.
      The comparison is strict, so only the integer 0, besides a missing or null
      `result`, counts as success. */
  predicate Rejected(data: JValue)
    ensures Rejected(data) <==> data.JObject? && "result" in data.fields && data.fields["result"] !in {JNull, JInt(0)}
  {
    Isset(data, "result") && Field(data, "result").value != JInt(0)
  }

  const UnknownError := "Unknown error"

  /** `$data['error'] ?? 'Unknown error'` as the string concatenation `.` converts it:
      a string as it is, an int in decimal, true as "1", false as "", an array as "Array". */
  function ErrorText(data: JValue): (r: string)
    ensures !Isset(data, "error") ==> r == UnknownError
    ensures Field(data, "error").Some? && Field(data, "error").value.JString? ==> r == Field(data, "error").value.s
  {
    if !Isset(data, "error") then UnknownError
    else
      match Field(data, "error").value
      case JString(s) => s
      case JInt(i) => IntToString(i)
      case JBool(b) => if b then "1" else ""
      case JNull => UnknownError
      case _ => "Array"
  }

  /** The message of the \TypeError PHP raises when a method declared `: array`
      returns something else (the message PHP writes also names the method). */
  const ReturnNotArray := "Return value must be of type array"

  /** `return v;` in a method declared `: array`. */
  function ReturnArray(v: JValue): (r: Result<JValue>)
    ensures r.Success? <==> IsArray(v)
    ensures r.Success? ==> r.value == v
    ensures r.Failure? ==> r.error == TypeError(ReturnNotArray)
  {
    if IsArray(v) then Success(v) else Failure(TypeError(ReturnNotArray))
  }

  /** The result-code check followed by `return $data;`. */
  function CheckedData(prefix: string, data: JValue): (r: Result<JValue>)
    ensures Rejected(data) ==> r == Failure(RuntimeError(prefix + ErrorText(data)))
    ensures !Rejected(data) ==> r == ReturnArray(data)
  {
    if Rejected(data) then Failure(RuntimeError(prefix + ErrorText(data))) else ReturnArray(data)
  }

  /** The result-code check followed by `return $data[name] ?? [];`. */
  function CheckedField(prefix: string, data: JValue, name: string): (r: Result<JValue>)
    ensures Rejected(data) ==> r == Failure(RuntimeError(prefix + ErrorText(data)))
    ensures !Rejected(data) && !Isset(data, name) ==> r == Success(JList([]))
    ensures !Rejected(data) && Isset(data, name) ==> r == ReturnArray(Field(data, name).value)
  {
    if Rejected(data) then Failure(RuntimeError(prefix + ErrorText(data)))
    else if !Isset(data, name) then Success(JList([]))
    else ReturnArray(Field(data, name).value)
  }

  /** A method that sends `request` and hands back `outcome` for the decoded response. */
  datatype Call = Call(request: Request, outcome: Result<JValue>)

  /** A runtime error comes out of the check exactly when the server rejected the
      call, and its message is the method's prefix followed by the reported error. */
  lemma CheckedRuntimeError(prefix: string, data: JValue)
    ensures (CheckedData(prefix, data).Failure? && CheckedData(prefix, data).error.RuntimeError?) <==> Rejected(data)
    ensures Rejected(data) ==> CheckedData(prefix, data).error.message[..|prefix|] == prefix
  {
    if Rejected(data) {
      var m := prefix + ErrorText(data);
      assert m[..|prefix|] == prefix;
    }
  }

  /** When `result` is absent, null or 0, the decoded data comes back unchanged,
      provided it is an array at all. */
  lemma CheckedPassesData(prefix: string, data: JValue)
    requires IsArray(data)
    requires !Isset(data, "result") || Field(data, "result").value == JInt(0)
    ensures CheckedData(prefix, data) == Success(data)
  {
  }

  /** A body that does not decode to an array (an invalid body decodes to null)
      makes the field projection return an empty array, never an error. */
  lemma CheckedFieldOfScalar(prefix: string, data: JValue, name: string)
    requires !IsArray(data)
    ensures CheckedField(prefix, data, name) == Success(JList([]))
  {
  }

  /** The strictness of `!== 0`: a `result` of false or "0" still counts as an error. */
  lemma StrictResultCode(data: JValue)
    requires data.JObject? && "result" in data.fields
    requires data.fields["result"] in {JBool(false), JString("0")}
    ensures Rejected(data)
  {
  }

  /** The message of a rejection: the method's prefix followed by the reported error
      when it is a string, and by "Unknown error" when there is none. */
  lemma RejectionMessage(prefix: string, data: JValue)
    requires Rejected(data)
    ensures Field(data, "error").Some? && Field(data, "error").value.JString? ==>
      CheckedData(prefix, data) == Failure(RuntimeError(prefix + Field(data, "error").value.s))
    ensures !Isset(data, "error") ==> CheckedData(prefix, data) == Failure(RuntimeError(prefix + UnknownError))
  {
  }
}
