/**
 * The first step of the round-creation wizard: the validation rules for the
 * round name and the three dates, the shallow merge of the submitted values
 * into the wizard's data with the step advance, and the missing-program
 * notice.
 */
module RoundDetailForm {
  import opened Wrappers
  import opened FormWizard

  /** The fields the schema checks, as read from the submitted values. */
  datatype RoundDetails = RoundDetails(
    name: Option<string>,
    applicationStartTime: Option<int>,
    startTime: Option<int>,
    endTime: Option<int>)

  /** `metadata.name` and the three dates, absent unless present with the right kind. */
  function Details(values: map<string, FormValue>): RoundDetails {
    RoundDetails(
      if "metadata" in values && values["metadata"].Record? && "name" in values["metadata"].fields
         && values["metadata"].fields["name"].Text?
      then Some(values["metadata"].fields["name"].text) else None,
      Time(values, "applicationStartTime"),
      Time(values, "startTime"),
      Time(values, "endTime"))
  }

  function Time(values: map<string, FormValue>, key: string): Option<int> {
    if key in values && values[key].Instant? then Some(values[key].ms) else None
  }

  const RequiredMessage := "This field is required."
  const NameLengthMessage := "Round name must be less that 8 characters."
  const StartTimeMessage := "Round start date must be later than application start date"
  const EndTimeMessage := "Round end date must be later than the round start date"

  /** The minimum length of a round name. */
  const MinNameLength := 8

  datatype FieldError = FieldError(path: string, message: string)

  /**
   * A string's `.length` in JavaScript: the number of UTF-16 code units,
   * one per character up to U+FFFF and two (a surrogate pair) above.
   */
  function Utf16Length(s: string): (n: nat)
    ensures |s| <= n <= 2 * |s|
    decreases |s|
  {
    if s == [] then 0
    else Utf16Length(s[..|s| - 1]) + (if s[|s| - 1] as int >= 0x10000 then 2 else 1)
  }

  /** Without characters above U+FFFF the UTF-16 length is the number of characters. */
  lemma {:induction false} Utf16LengthBasic(s: string)
    requires forall i :: 0 <= i < |s| ==> s[i] as int < 0x10000
    ensures Utf16Length(s) == |s|
    decreases |s|
  {
    if s != [] {
      Utf16LengthBasic(s[..|s| - 1]);
    }
  }

  /**
   * A required string: absent or empty is "required"; shorter than 8 UTF-16
   * code units is the length error.
   */
  function NameError(name: Option<string>): (e: Option<string>)
    ensures e.None? <==> name.Some? && Utf16Length(name.value) >= MinNameLength
    ensures e == Some(RequiredMessage) <==> name.None? || name.value == ""
    ensures name.Some? && name.value != "" && Utf16Length(name.value) < MinNameLength ==> e == Some(NameLengthMessage)
  {
    if name.None? || name.value == "" then Some(RequiredMessage)
    else if Utf16Length(name.value) < MinNameLength then Some(NameLengthMessage)
    else None
  }

  /**
   * A date with an inclusive lower bound taken from another field: an absent
   * date passes, and so does one not earlier than the bound; comparing with
   * an absent bound fails.
   */
  function MinDateError(date: Option<int>, bound: Option<int>, message: string): (e: Option<string>)
    ensures e.None? <==> date.None? || (bound.Some? && bound.value <= date.value)
    ensures e.Some? ==> e.value == message
  {
    if date.None? then None
    else if bound.None? || date.value < bound.value then Some(message)
    else None
  }

  /** A required date: absent is "required". */
  function RequiredDateError(date: Option<int>): (e: Option<string>)
    ensures e.None? <==> date.Some?
    ensures e.Some? ==> e.value == RequiredMessage
  {
    if date.None? then Some(RequiredMessage) else None
  }

  /** A required date with a lower bound: "required" is checked before the bound. */
  function RequiredMinDateError(date: Option<int>, bound: Option<int>, message: string): (e: Option<string>)
    ensures e.None? <==> date.Some? && bound.Some? && bound.value <= date.value
    ensures date.None? ==> e == Some(RequiredMessage)
    ensures date.Some? && e.Some? ==> e.value == message
  {
    if date.None? then Some(RequiredMessage) else MinDateError(date, bound, message)
  }

  /** What an accepted form guarantees, stated directly. */
  predicate Accepted(d: RoundDetails) {
    && d.name.Some? && Utf16Length(d.name.value) >= MinNameLength
    && d.applicationStartTime.Some? && d.startTime.Some?
    && d.applicationStartTime.value <= d.startTime.value
    && (d.endTime.Some? ==> d.startTime.value <= d.endTime.value)
  }

  /** The messages in `errors` filed under `path`, in order. */
  function MessagesAt(errors: seq<FieldError>, path: string): (ms: seq<string>)
    ensures ms != [] <==> exists k :: 0 <= k < |errors| && errors[k].path == path
    decreases |errors|
  {
    if errors == [] then []
    else
      var init := errors[..|errors| - 1];
      var last := errors[|errors| - 1];
      assert forall k :: 0 <= k < |init| ==> init[k] == errors[k];
      MessagesAt(init, path) + (if last.path == path then [last.message] else [])
  }

  /** Messages of a list of errors joined after another are the two lists of messages joined. */
  lemma {:induction false} MessagesAtConcat(a: seq<FieldError>, b: seq<FieldError>, path: string)
    ensures MessagesAt(a + b, path) == MessagesAt(a, path) + MessagesAt(b, path)
    decreases |b|
  {
    if b == [] {
      assert a + b == a;
    } else {
      assert (a + b)[..|a + b| - 1] == a + b[..|b| - 1];
      MessagesAtConcat(a, b[..|b| - 1], path);
    }
  }

  /** A rule's outcome as a list of messages: empty when it passed. */
  function Reported(e: Option<string>): seq<string> {
    if e.Some? then [e.value] else []
  }

  /** The errors of one field: its rule's message under its path, or none. */
  function ErrorAt(path: string, e: Option<string>): (errors: seq<FieldError>)
    ensures MessagesAt(errors, path) == Reported(e)
    ensures forall q :: q != path ==> MessagesAt(errors, q) == []
  {
    if e.Some? then
      var errors := [FieldError(path, e.value)];
      assert errors[..0] == [];
      errors
    else []
  }

  /**
   * `ValidationSchema`: the first failing rule of each field, in schema
   * order. The form is accepted exactly when there is none, and then the
   * name has at least 8 UTF-16 code units and the application start, round
   * start and (when given) round end are in non-decreasing order.
   */
  function Validate(d: RoundDetails): (errors: seq<FieldError>)
    ensures errors == [] <==> Accepted(d)
    ensures |errors| <= 4
    ensures forall k :: 0 <= k < |errors| ==>
      errors[k].path in {"metadata.name", "applicationStartTime", "startTime", "endTime"}
  {
    ErrorAt("metadata.name", NameError(d.name))
      + ErrorAt("applicationStartTime", RequiredDateError(d.applicationStartTime))
      + ErrorAt("startTime", RequiredMinDateError(d.startTime, d.applicationStartTime, StartTimeMessage))
      + ErrorAt("endTime", MinDateError(d.endTime, d.startTime, EndTimeMessage))
  }

  /** The messages of `Validate(d)` under `path` are those of its four fields' errors, in order. */
  lemma FourParts(d: RoundDetails, path: string)
    ensures MessagesAt(Validate(d), path) ==
      MessagesAt(ErrorAt("metadata.name", NameError(d.name)), path)
      + MessagesAt(ErrorAt("applicationStartTime", RequiredDateError(d.applicationStartTime)), path)
      + MessagesAt(ErrorAt("startTime", RequiredMinDateError(d.startTime, d.applicationStartTime, StartTimeMessage)), path)
      + MessagesAt(ErrorAt("endTime", MinDateError(d.endTime, d.startTime, EndTimeMessage)), path)
  {
    var name := ErrorAt("metadata.name", NameError(d.name));
    var app := ErrorAt("applicationStartTime", RequiredDateError(d.applicationStartTime));
    var start := ErrorAt("startTime", RequiredMinDateError(d.startTime, d.applicationStartTime, StartTimeMessage));
    var end := ErrorAt("endTime", MinDateError(d.endTime, d.startTime, EndTimeMessage));
    MessagesAtConcat(name, app, path);
    MessagesAtConcat(name + app, start, path);
    MessagesAtConcat(name + app + start, end, path);
  }

  /**
   * Each field's error, if any, is filed under that field's own path and
   * carries that field's rule's message.
   */
  lemma ValidateFilesEachField(d: RoundDetails)
    ensures MessagesAt(Validate(d), "metadata.name") == Reported(NameError(d.name))
    ensures MessagesAt(Validate(d), "applicationStartTime") == Reported(RequiredDateError(d.applicationStartTime))
    ensures MessagesAt(Validate(d), "startTime") == Reported(RequiredMinDateError(d.startTime, d.applicationStartTime, StartTimeMessage))
    ensures MessagesAt(Validate(d), "endTime") == Reported(MinDateError(d.endTime, d.startTime, EndTimeMessage))
  {
    assert MessagesAt(Validate(d), "metadata.name") == Reported(NameError(d.name)) by {
      FourParts(d, "metadata.name");
    }
    assert MessagesAt(Validate(d), "applicationStartTime") == Reported(RequiredDateError(d.applicationStartTime)) by {
      FourParts(d, "applicationStartTime");
    }
    assert MessagesAt(Validate(d), "startTime")
      == Reported(RequiredMinDateError(d.startTime, d.applicationStartTime, StartTimeMessage)) by {
      FourParts(d, "startTime");
    }
    assert MessagesAt(Validate(d), "endTime") == Reported(MinDateError(d.endTime, d.startTime, EndTimeMessage)) by {
      FourParts(d, "endTime");
    }
  }

  /** A field has an error exactly when its own condition fails. */
  lemma ValidateFlagsFailingFields(d: RoundDetails)
    ensures MessagesAt(Validate(d), "metadata.name") != [] <==>
      !(d.name.Some? && Utf16Length(d.name.value) >= MinNameLength)
    ensures MessagesAt(Validate(d), "applicationStartTime") != [] <==> d.applicationStartTime.None?
    ensures MessagesAt(Validate(d), "startTime") != [] <==>
      !(d.startTime.Some? && d.applicationStartTime.Some? && d.applicationStartTime.value <= d.startTime.value)
    ensures MessagesAt(Validate(d), "endTime") != [] <==>
      d.endTime.Some? && !(d.startTime.Some? && d.startTime.value <= d.endTime.value)
  {
    ValidateFilesEachField(d);
  }

  /** A name of seven characters is refused even though the message speaks of "less than 8". */
  lemma SevenCharacterNameRefused(d: RoundDetails)
    requires d.name == Some("Round 7")
    ensures Validate(d) != [] && Validate(d)[0] == FieldError("metadata.name", NameLengthMessage)
  {
    Utf16LengthBasic("Round 7");
    assert NameError(d.name) == Some(NameLengthMessage);
  }

  /** Four characters above U+FFFF are eight UTF-16 code units: long enough for a name. */
  lemma FourAstralCharacterNameAccepted()
    ensures NameError(Some("\U{1F600}\U{1F600}\U{1F600}\U{1F600}")).None?
  {
    var s := "\U{1F600}\U{1F600}\U{1F600}\U{1F600}";
    assert Utf16Length(s[..1]) == 2 by { assert s[..1][..0] == []; }
    assert Utf16Length(s[..2]) == 4 by { assert s[..2][..1] == s[..1]; }
    assert Utf16Length(s[..3]) == 6 by { assert s[..3][..2] == s[..2]; }
    assert s[..4] == s;
  }

  /**
   * `{...formData, ...values}`: every submitted key takes the submitted
   * value (a nested object is replaced whole), every other key keeps its
   * old value, and no key is lost.
   */
  function Merge(formData: map<string, FormValue>, values: map<string, FormValue>): (data: map<string, FormValue>)
    ensures data.Keys == formData.Keys + values.Keys
    ensures forall k :: k in values ==> data[k] == values[k]
    ensures forall k :: k in formData && k !in values ==> data[k] == formData[k]
  {
    formData + values
  }

  /** Submitting the same values twice gives the same data as submitting them once. */
  lemma MergeIdempotent(formData: map<string, FormValue>, values: map<string, FormValue>)
    ensures Merge(Merge(formData, values), values) == Merge(formData, values)
  {
  }

  /** `next`: stores the merged data and moves one step forward. */
  method Next(ctx: FormContext, values: map<string, FormValue>)
    modifies ctx
    ensures ctx.formData == Merge(old(ctx.formData), values)
    ensures ctx.currentStep == old(ctx.currentStep) + 1
  {
    var data := ctx.formData + values;
    ctx.SetFormData(data);
    ctx.SetCurrentStep(ctx.currentStep + 1);
  }

  /** `prev`: moves one step back; the data is kept. */
  method Prev(ctx: FormContext)
    modifies ctx
    ensures ctx.currentStep == old(ctx.currentStep) - 1
    ensures ctx.formData == old(ctx.formData)
  {
    ctx.SetCurrentStep(ctx.currentStep - 1);
  }

  /**
   * `handleSubmit(next)`: the values are validated first; `next` runs only
   * when there is no error, otherwise the wizard is left as it was.
   */
  method Submit(ctx: FormContext, values: map<string, FormValue>) returns (errors: seq<FieldError>)
    modifies ctx
    ensures errors == Validate(Details(values))
    ensures errors == [] ==>
      ctx.formData == Merge(old(ctx.formData), values) && ctx.currentStep == old(ctx.currentStep) + 1
    ensures errors != [] ==> ctx.formData == old(ctx.formData) && ctx.currentStep == old(ctx.currentStep)
  {
    errors := Validate(Details(values));
    if errors == [] {
      Next(ctx, values);
    }
  }

  /**
   * The "Missing or invalid Program ID" notice: shown when the program id is
   * absent or empty, or when the fetch has completed without a program.
   */
  function ShowsMissingProgram(programId: Option<string>, hasProgram: bool, isProgramFetched: bool): (shown: bool)
    ensures programId.None? || programId.value == "" ==> shown
    ensures !isProgramFetched ==> (shown <==> programId.None? || programId.value == "")
    ensures hasProgram ==> (shown <==> programId.None? || programId.value == "")
    ensures isProgramFetched && !hasProgram ==> shown
  {
    programId.None? || programId.value == "" || (!hasProgram && isProgramFetched)
  }
}
