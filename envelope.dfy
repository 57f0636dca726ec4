/** The per-application response envelopes: the builders in
    app/service/interface.js, their variants in app/service/application.js and
    app/controller/api/http.js, and the success flag a request log records.
    A body is a JavaScript object, here a map from key to value; a later
    assignment to the same key overwrites an earlier one, as in the source. */
module Envelope {
  import opened Json
  import opened ApplicationModel

  type Body = map<string, Value>

  /** The keys a success envelope has for a template, given whether the data
      key is switched on for this call. */
  function SucceedKeys(t: ResponseTemplate, withData: bool): set<string> {
    {t.code_name}
    + (if t.message_name != "" then {t.message_name} else {})
    + (if t.data_name != "" && withData then {t.data_name} else {})
  }

  /** The keys a failure envelope has for a template. */
  function FailedKeys(t: ResponseTemplate): set<string> {
    {t.code_name} + (if t.message_name != "" then {t.message_name} else {})
  }

  /** No two of the template's switched-on names coincide, so no field
      overwrites another. */
  predicate DistinctNames(t: ResponseTemplate) {
    && (t.message_name != "" ==> t.message_name != t.code_name)
    && (t.data_name != "" ==> t.data_name != t.code_name && t.data_name != t.message_name)
  }

  /** `getSucceedResponse` of the interface service: the data key is set only
      when `data_name` is set and the data is not null. */
  function InterfaceSucceed(t: ResponseTemplate, data: Value): (body: Body)
    ensures body.Keys == SucceedKeys(t, data != Null)
    ensures DistinctNames(t) ==> body[t.code_name] == t.succeed_code_value
    ensures DistinctNames(t) && t.message_name != "" ==> body[t.message_name] == Str(t.succeed_message_value)
    ensures t.data_name != "" && data != Null ==> body[t.data_name] == data
  {
    var withCode := map[t.code_name := t.succeed_code_value];
    var withMessage := if t.message_name != "" then withCode[t.message_name := Str(t.succeed_message_value)] else withCode;
    if t.data_name != "" && data != Null then withMessage[t.data_name := data] else withMessage
  }

  /** `getFailedResponse`: the message is the one given when it is truthy,
      otherwise the template's failure message. */
  function InterfaceFailed(t: ResponseTemplate, message: Value): (body: Body)
    ensures body.Keys == FailedKeys(t)
    ensures DistinctNames(t) ==> body[t.code_name] == t.failed_code_value
    ensures t.message_name != "" ==>
      body[t.message_name] == if Truthy(message) then message else Str(t.failed_message_value)
  {
    var withCode := map[t.code_name := t.failed_code_value];
    if t.message_name != "" then
      withCode[t.message_name := if Truthy(message) then message else Str(t.failed_message_value)]
    else withCode
  }

  /** `getSucceedResponse` of the application service: the data key is set
      whenever `data_name` is set, even for null data. */
  function ApplicationSucceed(t: ResponseTemplate, data: Value): (body: Body)
    ensures body.Keys == SucceedKeys(t, true)
    ensures DistinctNames(t) ==> body[t.code_name] == t.succeed_code_value
    ensures t.data_name != "" ==> body[t.data_name] == data
  {
    var withCode := map[t.code_name := t.succeed_code_value];
    var withMessage := if t.message_name != "" then withCode[t.message_name := Str(t.succeed_message_value)] else withCode;
    if t.data_name != "" then withMessage[t.data_name := data] else withMessage
  }

  /** `getFailedResponse` of the application service. */
  function ApplicationFailed(t: ResponseTemplate, message: Value): (body: Body)
    ensures body == InterfaceFailed(t, message)
  {
    var withCode := map[t.code_name := t.failed_code_value];
    if t.message_name != "" then
      withCode[t.message_name := if Truthy(message) then message else Str(t.failed_message_value)]
    else withCode
  }

  /** `success` of the gateway's HTTP controller: the data key is set only
      when the data is truthy. */
  function HttpSuccess(t: ResponseTemplate, data: Value): (body: Body)
    ensures body.Keys == SucceedKeys(t, Truthy(data))
    ensures DistinctNames(t) ==> body[t.code_name] == t.succeed_code_value
    ensures t.data_name != "" && Truthy(data) ==> body[t.data_name] == data
  {
    var withCode := map[t.code_name := t.succeed_code_value];
    var withMessage := if t.message_name != "" then withCode[t.message_name := Str(t.succeed_message_value)] else withCode;
    if t.data_name != "" && Truthy(data) then withMessage[t.data_name := data] else withMessage
  }

  /** Two success envelopes of one template have the same keys and the same
      code and message values; only the data may differ, and only when data
      is present in both. */
  lemma SucceedShapeStable(t: ResponseTemplate, d1: Value, d2: Value)
    requires (d1 == Null) == (d2 == Null)
    ensures InterfaceSucceed(t, d1).Keys == InterfaceSucceed(t, d2).Keys
    ensures forall k :: k in InterfaceSucceed(t, d1) && (t.data_name == "" || k != t.data_name) ==>
      InterfaceSucceed(t, d1)[k] == InterfaceSucceed(t, d2)[k]
  {
  }

  /** The three success builders agree when the data is truthy, and disagree
      on falsy data: the application service keeps null data, the interface
      service keeps falsy non-null data such as 0, the HTTP controller keeps
      neither. */
  lemma SucceedBuildersDiffer(t: ResponseTemplate, data: Value)
    requires t.data_name != ""
    ensures Truthy(data) ==> InterfaceSucceed(t, data) == ApplicationSucceed(t, data) == HttpSuccess(t, data)
    ensures t.data_name in ApplicationSucceed(t, Null)
    ensures t.data_name != t.code_name && t.data_name != t.message_name ==>
      && t.data_name !in InterfaceSucceed(t, Null)
      && t.data_name in InterfaceSucceed(t, Num(0)) && t.data_name !in HttpSuccess(t, Num(0))
  {
  }

  /** The request log's `result`: 1 when the body is an object whose
      `code_name` field is defined and strictly equal to the success code. */
  function ResultFlag(body: Body, t: ResponseTemplate): (flag: int)
    ensures flag == 1 || flag == 0
  {
    if t.code_name in body && body[t.code_name] != Undefined && body[t.code_name] == t.succeed_code_value then 1 else 0
  }

  /** A success envelope is logged as a success exactly when the success code
      is defined, provided no other field overwrites the code. */
  lemma SucceedIsLoggedAsSuccess(t: ResponseTemplate, data: Value)
    requires DistinctNames(t)
    ensures ResultFlag(InterfaceSucceed(t, data), t) == 1 <==> t.succeed_code_value != Undefined
  {
  }

  /** A failure envelope is logged as a failure unless the template uses the
      same code for success and failure. */
  lemma FailedIsLoggedAsFailure(t: ResponseTemplate, message: Value)
    requires DistinctNames(t) && t.failed_code_value != t.succeed_code_value
    ensures ResultFlag(InterfaceFailed(t, message), t) == 0
  {
  }
}
