/** The Application record (app/model/application.js): its fields, defaults,
    allowed values, the response-template getter and `statusName`. */
module ApplicationModel {
  import opened Text
  import opened Json

  /** The per-application response envelope. An empty `message_name` or
      `data_name` is falsy and switches that field off. */
  datatype ResponseTemplate = ResponseTemplate(
    code_name: string,
    succeed_code_value: Value,
    failed_code_value: Value,
    data_name: string,
    message_name: string,
    succeed_message_value: string,
    failed_message_value: string)

  /** The template a new application gets when none is given. */
  const DefaultTemplate := ResponseTemplate("code", Num(200), Num(1000), "data", "message", "Succeed", "Failed")

  const DefaultVerifyRule := "compatible"
  const DefaultStatus := 1

  datatype Application = Application(
    id: nat,
    uid: nat,
    vir_uid: string,
    number: string,
    icon: string,
    name: string,
    slug: string,
    app_key: string,
    verify_rule: string,
    api_count: int,
    describe: string,
    status: int,
    response_template: ResponseTemplate)

  /** The `response_template` getter: both code values pass through
      `NormaliseCode`; every other template field is returned as stored. */
  function NormaliseTemplate(t: ResponseTemplate): (r: ResponseTemplate)
    ensures r.(succeed_code_value := t.succeed_code_value, failed_code_value := t.failed_code_value) == t
  {
    t.(succeed_code_value := NormaliseCode(t.succeed_code_value),
       failed_code_value := NormaliseCode(t.failed_code_value))
  }

  /** Reading the template of an application, as every caller does. */
  function TemplateOf(app: Application): ResponseTemplate {
    NormaliseTemplate(app.response_template)
  }

  /** `imgUri` (config/config.default.js), the base every shown icon path
      sits under. */
  const IconBaseUri := "/images"

  /** The `icon` getter: a stored path is shown under the image base, and a
      missing (empty) icon as the empty string. */
  function IconShown(icon: string): string {
    if icon != "" then IconBaseUri + icon else ""
  }

  /** The shown icon gives the stored one back: it is empty exactly when
      the stored one is, and otherwise the base followed by the stored path. */
  lemma IconShownReadsBack(icon: string)
    ensures IconShown(icon) == "" <==> icon == ""
    ensures icon != "" ==>
      IconShown(icon)[..|IconBaseUri|] == IconBaseUri && IconShown(icon)[|IconBaseUri|..] == icon
  {
  }

  /** Two applications show the same icon only when they store the same
      one. */
  lemma {:induction false} IconShownInjective(i: string, j: string)
    requires IconShown(i) == IconShown(j)
    ensures i == j
  {
    IconShownReadsBack(i);
    IconShownReadsBack(j);
  }

  /** Reading the template twice normalises nothing further. */
  lemma NormaliseTemplateIdempotent(t: ResponseTemplate)
    ensures NormaliseTemplate(NormaliseTemplate(t)) == NormaliseTemplate(t)
  {
    NormaliseIdempotent(t.succeed_code_value);
    NormaliseIdempotent(t.failed_code_value);
  }

  /** The getter turns digit-string codes into integers and leaves the rest. */
  lemma NormaliseTemplateCodes(t: ResponseTemplate)
    ensures var r := NormaliseTemplate(t);
      && (IsDigits(JsString(t.succeed_code_value)) && t.succeed_code_value.Str?
          ==> r.succeed_code_value == Num(ParseDigits(t.succeed_code_value.s)))
      && (IsDigits(JsString(t.failed_code_value)) && t.failed_code_value.Str?
          ==> r.failed_code_value == Num(ParseDigits(t.failed_code_value.s)))
      && (!IsDigitValue(t.succeed_code_value) ==> r.succeed_code_value == t.succeed_code_value)
      && (!IsDigitValue(t.failed_code_value) ==> r.failed_code_value == t.failed_code_value)
  {
  }

  /** The default template is already in normal form, and all its switches
      are on. */
  lemma DefaultTemplateIsNormal()
    ensures NormaliseTemplate(DefaultTemplate) == DefaultTemplate
    ensures DefaultTemplate.message_name != "" && DefaultTemplate.data_name != ""
  {
    NormaliseKeepsNumbers(200);
    NormaliseKeepsNumbers(1000);
  }

  /** `verify_rule` is one of the three token transports. */
  predicate VerifyRuleOk(rule: string) {
    rule == "param" || rule == "header" || rule == "compatible"
  }

  /** `status` is frozen (0), normal (1) or soft-deleted (-1). */
  predicate StatusOk(status: int) {
    status == 0 || status == 1 || status == -1
  }

  /** The stored slug: `^[\w\-\.]{2,20}$`. */
  predicate SlugStored(slug: string) {
    2 <= |slug| <= 20 && forall i :: 0 <= i < |slug| ==> IsUriChar(slug[i])
  }

  /** The slug a new application must have: `^[\w\-\.]{4,20}$`. */
  predicate SlugCreate(slug: string) {
    4 <= |slug| <= 20 && forall i :: 0 <= i < |slug| ==> IsUriChar(slug[i])
  }

  /** Every slug accepted at creation is acceptable to the schema, but the
      schema also takes slugs of two or three characters. */
  lemma SlugCreateIsStricter(slug: string)
    ensures SlugCreate(slug) ==> SlugStored(slug)
    ensures SlugStored("ab") && !SlugCreate("ab")
  {
  }

  /** The stored name: 2 to 36 UTF-16 code units once trimmed. */
  predicate NameStored(name: string) {
    2 <= Utf16Length(Trim(name)) <= 36
  }

  /** `statusName`. */
  function StatusName(status: int): string {
    match status
    case 0 => "冻结"
    case 1 => "正常"
    case -1 => "软删除"
    case _ => "未知状态"
  }

  /** The three allowed statuses have three different names, and every other
      status is reported as unknown. */
  lemma StatusNames(status: int)
    ensures StatusName(status) == "未知状态" <==> !StatusOk(status)
    ensures StatusName(0) != StatusName(1) && StatusName(1) != StatusName(-1) && StatusName(0) != StatusName(-1)
  {
  }
}
