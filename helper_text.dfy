/** The helper text and error flag of the "Company Name" box, computed from
    the component's `error` and `errors` state. */
module HelperText {
  import opened JsValues

  /** One entry of the `errors` list a failed submission returns. */
  datatype FieldError = FieldError(param: string, error: string)

  /** The `param` of entries about the name field. */
  const NameParam: string := "name"

  /** The helper text shown when there is nothing to report. */
  const NameDefaultText: string := "Full Name of Company"

  /** `errors.find((e) => e.param === param)`: the first entry about
      `param`, or undefined when there is none. */
  function FindByParam(errors: seq<FieldError>, param: string): (r: Option<FieldError>)
    ensures r.None? <==> forall i :: 0 <= i < |errors| ==> errors[i].param != param
    ensures r.Some? ==>
      r.value.param == param &&
      exists i :: 0 <= i < |errors| && errors[i] == r.value &&
        forall j :: 0 <= j < i ==> errors[j].param != param
  {
    if |errors| == 0 then None
    else if errors[0].param == param then Some(errors[0])
    else
      var r := FindByParam(errors[1..], param);
      if r.Some? then
        var i :| 0 <= i < |errors[1..]| && errors[1..][i] == r.value &&
          forall j :: 0 <= j < i ==> errors[1..][j].param != param;
        assert errors[i + 1] == r.value;
        assert forall j :: 0 <= j < i + 1 ==> errors[j].param != param by {
          forall j | 0 <= j < i + 1 ensures errors[j].param != param {
            if j > 0 { assert errors[j] == errors[1..][j - 1]; }
          }
        }
        r
      else
        r
  }

  /** `errors.find((e) => e.param === "name")?.error`: the message of the
      first entry about the name field, when there is one. */
  function NameMessage(errors: seq<FieldError>): Option<string> {
    var e := FindByParam(errors, NameParam);
    if e.Some? then Some(e.value.error) else None
  }

  /** The `helperText` of the name box: `error` when it is non-empty, else
      the message of the first `errors` entry about the name field when that
      is non-empty, else the default text. */
  function NameHelperText(error: string, errors: seq<FieldError>): string {
    if error != "" then error
    else if IsTruthy(NameMessage(errors)) then NameMessage(errors).value
    else NameDefaultText
  }

  /** The `error` flag of the name box: `error` is non-empty or some entry is
      about the name field. */
  function NameInError(error: string, errors: seq<FieldError>): (b: bool)
    ensures b <==> error != "" || exists i :: 0 <= i < |errors| && errors[i].param == NameParam
  {
    |error| != 0 || FindByParam(errors, NameParam).Some?
  }

  /** The three cases of the helper text, stated over the entries: the
      global message wins; otherwise the first name entry's message, if
      non-empty; otherwise the default. A later name entry is never shown. */
  lemma NameHelperTextCases(error: string, errors: seq<FieldError>)
    ensures error != "" ==> NameHelperText(error, errors) == error
    ensures error == "" && (forall i :: 0 <= i < |errors| ==> errors[i].param != NameParam)
            ==> NameHelperText(error, errors) == NameDefaultText
    ensures forall i :: 0 <= i < |errors| && errors[i].param == NameParam && errors[i].error != ""
                        && (forall j :: 0 <= j < i ==> errors[j].param != NameParam)
                        && error == ""
                        ==> NameHelperText(error, errors) == errors[i].error
  {
  }

  /** The helper text differs from the default only while the box is flagged
      as in error. */
  lemma HelperTextOnlyInError(error: string, errors: seq<FieldError>)
    ensures !NameInError(error, errors) ==> NameHelperText(error, errors) == NameDefaultText
  {
  }

  /** The box is flagged but shows the default text when `error` is empty
      and the first entry about the name field carries an empty message;
      later entries about the name field are not consulted. */
  lemma FlaggedWithDefaultText(error: string, errors: seq<FieldError>, i: nat)
    requires error == ""
    requires i < |errors| && errors[i].param == NameParam && errors[i].error == ""
    requires forall j :: 0 <= j < i ==> errors[j].param != NameParam
    ensures NameInError(error, errors)
    ensures NameHelperText(error, errors) == NameDefaultText
  {
  }
}
