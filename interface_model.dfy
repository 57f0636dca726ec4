/** The Interface record (app/model/interface.js): one mock endpoint of an
    application, with its field constraints and defaults. */
module InterfaceModel {
  import opened Text
  import opened Json
  import opened Common

  datatype Interface = Interface(
    id: nat,
    app_id: nat,
    app_slug: string,
    uid: nat,
    vir_uid: string,
    name: string,
    describe: string,
    uri: string,
    verb: string,
    response_rules: Value,
    creator: nat,
    status: int)

  const DefaultMethod := "GET"
  const DefaultStatus := 1
  const DefaultDescribe := ""

  /** The stored uri: at most 100 characters matching `^[\w-.]+$`. The
      field is not required and mongoose's `match` lets the empty string
      through. */
  predicate UriStored(uri: string) {
    |uri| <= 100 && forall i :: 0 <= i < |uri| ==> IsUriChar(uri[i])
  }

  /** A stored uri is one path segment: it holds no `/`, `{` or `}`. */
  lemma UriStoredIsOneSegment(uri: string)
    requires UriStored(uri)
    ensures '/' !in uri && '{' !in uri && '}' !in uri
  {
  }

  /** `method` (here `verb`) is one of the four verbs the gateway serves. */
  predicate MethodOk(verb: string) {
    verb == "GET" || verb == "POST" || verb == "PUT" || verb == "DELETE"
  }

  /** The stored name: 2 to 60 UTF-16 code units once trimmed. */
  predicate NameStored(name: string) {
    2 <= Utf16Length(Trim(name)) <= 60
  }

  /** The stored description: at most 200 UTF-16 code units. */
  predicate DescribeStored(describe: string) {
    Utf16Length(describe) <= 200
  }

  /** What `save` and `insertMany` validate once the `trim` setters have
      run: the required strings are present, and the name, description, uri
      and method keep their constraints. */
  predicate Storable(i: Interface) {
    && i.app_slug != "" && i.vir_uid != ""
    && NameStored(i.name) && DescribeStored(i.describe)
    && UriStored(Trim(i.uri)) && MethodOk(i.verb)
  }

  /** The error `save` and `insertMany` throw when validation fails. A
      mongoose `ValidationError` carries no `status`, which the error
      middleware answers as 500; the model gives it that status. */
  const ValidationRejected := ServiceError(500, "Interface validation failed")

  /** What `insertMany` validates: every record of the batch. */
  predicate AllStorable(s: seq<Interface>) {
    forall k :: 0 <= k < |s| ==> Storable(s[k])
  }

  /** A uri holding a `/` is refused by validation, whatever the rest of the
      record. */
  lemma NestedUriNotStorable(i: Interface, k: nat)
    requires k < |i.uri| && i.uri[k] == '/'
    ensures !Storable(i)
  {
    TrimKeeps(i.uri, k, '/');
  }
}
