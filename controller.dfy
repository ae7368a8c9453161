/**
 * The page controller: the state the four event handlers share and update
 * in place: the name field's flash class, the error and info outputs, the
 * single flash-timer slot, the comments counter and its tier classes, the
 * three custom-validity messages, the form's input fields and the
 * submissions still awaiting a response.
 */
module Controller {
  import opened Wrappers
  import NameFilter
  import opened CharBudget
  import opened Validation
  import ErrorJson

  /**
   * What the error output element holds: plain text, or (after a failed
   * validation) a list with one item per message.
   */
  datatype Output = Text(text: string) | ItemList(items: seq<string>)

  /**
   * One input element of the form, by its `name` attribute: its current value
   * and the default value `reset()` restores it to. Setting a hidden input's
   * `value` writes its `value` attribute, which is its default, so for the
   * `form-errors` input the two move together.
   */
  datatype FormField = FormField(name: string, value: string, defaultValue: string)

  const DisallowedPrefix := "Disallowed character"
  const DisallowedMessage := DisallowedPrefix + ": Please use only letters, spaces, hyphens, or apostrophes."
  const SubmittingMessage := "Submitting your message..."
  const SuccessMessage := "Success! Your form has been submitted."
  const FailureMessage := "Submission failed." + " Please check your network and try again."
  const ErrorsFieldName := "form-errors"

  function Concat(ss: seq<string>): string {
    if ss == [] then "" else ss[0] + Concat(ss[1..])
  }

  /** The element's `textContent`: a list's text is its items' text run together. */
  function TextContent(o: Output): string {
    match o
    case Text(t) => t
    case ItemList(items) => Concat(items)
  }

  predicate StartsWith(s: string, prefix: string) {
    |prefix| <= |s| && s[..|prefix|] == prefix
  }

  /** The flash timeout's test: the output is cleared only while it still shows the flash message. */
  predicate ClearedOnTimeout(text: string) {
    |text| > 0 && StartsWith(text, DisallowedPrefix)
  }

  /** The error output after the flash timeout has run. */
  function AfterTimeout(o: Output): (r: Output)
    ensures r == o || r == Text("")
    ensures r != o <==> ClearedOnTimeout(TextContent(o)) && o != Text("")
  {
    if ClearedOnTimeout(TextContent(o)) then Text("") else o
  }

  /** The list items rendered for an error list, one per entry, in order. */
  function Messages(es: seq<FieldError>): (ms: seq<string>)
    ensures |ms| == |es|
  {
    seq(|es|, i requires 0 <= i < |es| => es[i].message)
  }

  /** `form.querySelector('input[name=…]')`: the first field with that name. */
  function FindField(fields: seq<FormField>, name: string): (r: Option<nat>)
    ensures r.None? <==> forall j :: 0 <= j < |fields| ==> fields[j].name != name
    ensures r.Some? ==> r.value < |fields| && fields[r.value].name == name
                        && forall j :: 0 <= j < r.value ==> fields[j].name != name
  {
    if fields == [] then None
    else if fields[0].name == name then Some(0)
    else match FindField(fields[1..], name)
         case None => None
         case Some(k) => Some(k + 1)
  }

  function CountNamed(fields: seq<FormField>, name: string): nat {
    if fields == [] then 0 else (if fields[0].name == name then 1 else 0) + CountNamed(fields[1..], name)
  }

  /**
   * The form's fields after a submit: the first `form-errors` field, appended
   * when there is none, gets the new value.
   */
  function WithErrorsField(fields: seq<FormField>, value: string): seq<FormField> {
    match FindField(fields, ErrorsFieldName)
    case Some(k) => fields[k := fields[k].(value := value, defaultValue := value)]
    case None => fields + [FormField(ErrorsFieldName, value, value)]
  }

  /** The value of the first `form-errors` field, as the form would submit it. */
  function ErrorsValue(fields: seq<FormField>): Option<string> {
    match FindField(fields, ErrorsFieldName)
    case Some(k) => Some(fields[k].value)
    case None => None
  }

  /** `form.reset()`: every field goes back to its default value. */
  function Reset(fields: seq<FormField>): (r: seq<FormField>)
    ensures |r| == |fields|
    ensures forall i :: 0 <= i < |r| ==>
      r[i].name == fields[i].name && r[i].value == fields[i].defaultValue && r[i].defaultValue == fields[i].defaultValue
  {
    seq(|fields|, i requires 0 <= i < |fields| => fields[i].(value := fields[i].defaultValue))
  }

  class FormController {
    const maxLength: int

    var flashing: bool
    var errorOutput: Output
    var infoText: string

    /** The `nameFlashTimeout` slot: the handle of the pending clear, or null. */
    var pendingTimer: Option<nat>
    /** The handles the browser will still fire; cancelled and fired ones are gone. */
    var scheduled: set<nat>
    /** The handle the browser hands out next (browsers give positive handles). */
    var nextHandle: nat

    var counter: int
    var warningOn: bool
    var errorOn: bool

    var nameValidity: string
    var emailValidity: string
    var commentsValidity: string

    var fields: seq<FormField>
    /** Submissions sent and not yet answered; the source does not guard against several. */
    var inFlight: nat

    ghost predicate Valid()
      reads this`scheduled, this`pendingTimer, this`nextHandle, this`flashing, this`warningOn, this`errorOn
    {
      && scheduled == (if pendingTimer.Some? then {pendingTimer.value} else {})
      && (pendingTimer.Some? ==> 0 < pendingTimer.value < nextHandle)
      && 0 < nextHandle
      && (flashing <==> pendingTimer.Some?)
      && !(warningOn && errorOn)
    }

    /** The tier the counter's wrapper shows, read off its two classes. */
    function DisplayedTier(): Tier
      reads this`warningOn, this`errorOn
    {
      if errorOn then Error else if warningOn then Warning else Normal
    }

    /** Page load: the counter shows the budget left by the initial text. */
    constructor (maxLength: int, initialLength: nat, fields: seq<FormField>)
      ensures Valid()
      ensures this.maxLength == maxLength && this.fields == fields
      ensures counter == Remaining(maxLength, initialLength)
      ensures !flashing && pendingTimer == None && scheduled == {} && inFlight == 0
      ensures errorOutput == Text("") && infoText == "" && DisplayedTier() == Normal
      ensures nameValidity == "" && emailValidity == "" && commentsValidity == ""
    {
      this.maxLength := maxLength;
      this.fields := fields;
      counter := maxLength - initialLength;
      flashing, errorOutput, infoText := false, Text(""), "";
      pendingTimer, scheduled, nextHandle := None, {}, 1;
      warningOn, errorOn := false, false;
      nameValidity, emailValidity, commentsValidity := "", "", "";
      inFlight := 0;
    }

    /**
     * The name field's `beforeinput` handler. Text with a disallowed
     * character sets the flash class and message, cancels any pending clear
     * and schedules a fresh one; anything else changes nothing.
     */
    method OnNameBeforeInput(inserted: Option<string>)
      requires Valid()
      modifies this`flashing, this`errorOutput, this`pendingTimer, this`scheduled, this`nextHandle
      ensures Valid()
      ensures if NameFilter.Triggers(inserted) then
                flashing && errorOutput == Text(DisallowedMessage)
                && pendingTimer == Some(old(nextHandle)) && scheduled == {old(nextHandle)}
                && nextHandle == old(nextHandle) + 1
              else
                flashing == old(flashing) && errorOutput == old(errorOutput)
                && pendingTimer == old(pendingTimer) && scheduled == old(scheduled)
                && nextHandle == old(nextHandle)
      ensures |scheduled| <= 1
    {
      if inserted.None? || inserted.value == [] {
        return;
      }
      if !NameFilter.MatchesNamePattern(inserted.value) {
        Flash();
      }
    }

    /** Shows the flash message and replaces any pending clear by a fresh one. */
    method Flash()
      requires Valid()
      modifies this`flashing, this`errorOutput, this`pendingTimer, this`scheduled, this`nextHandle
      ensures Valid()
      ensures flashing && errorOutput == Text(DisallowedMessage)
      ensures pendingTimer == Some(old(nextHandle)) && scheduled == {old(nextHandle)}
      ensures nextHandle == old(nextHandle) + 1
    {
      flashing := true;
      errorOutput := Text(DisallowedMessage);
      // Handles are positive, so the source's truthiness test is `Some?`.
      if pendingTimer.Some? {
        scheduled := scheduled - {pendingTimer.value};
      }
      pendingTimer := Some(nextHandle);
      scheduled := scheduled + {nextHandle};
      nextHandle := nextHandle + 1;
    }

    /**
     * The pending clear fires. Only a scheduled handle can fire, and that is
     * the one in the slot. The flash class goes, the slot empties, and the
     * error output is cleared only if it still shows the flash message.
     */
    method OnFlashTimeout(handle: nat)
      requires Valid() && handle in scheduled
      modifies this`flashing, this`errorOutput, this`pendingTimer, this`scheduled
      ensures Valid()
      ensures old(pendingTimer) == Some(handle)
      ensures !flashing && pendingTimer == None && scheduled == {}
      ensures errorOutput == AfterTimeout(old(errorOutput))
    {
      flashing := false;
      var text := TextContent(errorOutput);
      if |text| > 0 && StartsWith(text, DisallowedPrefix) {
        errorOutput := Text("");
      }
      pendingTimer := None;
      scheduled := scheduled - {handle};
    }

    /** The comments field's `input` handler: show the budget and exactly the matching tier class. */
    method OnCommentsInput(currentLength: nat)
      requires Valid()
      modifies this`counter, this`warningOn, this`errorOn
      ensures Valid()
      ensures counter == Remaining(maxLength, currentLength)
      ensures DisplayedTier() == TierOf(maxLength, counter)
      ensures !(warningOn && errorOn)
    {
      var remaining := maxLength - currentLength;
      counter := remaining;
      warningOn, errorOn := false, false;
      if remaining < 0 {
        errorOn := true;
      } else if 10 * remaining < maxLength {
        warningOn := true;
      }
    }

    /**
     * The form's `submit` handler. Clears both outputs, checks the three
     * fields in order, records the list in the `form-errors` field, then either
     * renders the messages (no request) or reports that it is submitting and
     * requests one submission. It touches none of the fields `Valid()` reads,
     * so the invariant carries over by framing.
     */
    method OnSubmit(name: Validity, email: Validity, comments: Validity) returns (requested: bool)
      modifies this`errorOutput, this`infoText, this`nameValidity, this`emailValidity,
               this`commentsValidity, this`fields, this`inFlight
      ensures var es := CollectErrors(name, email, comments, maxLength);
        && requested == (es == [])
        && errorOutput == (if es == [] then Text("") else ItemList(Messages(es)))
        && infoText == (if es == [] then SubmittingMessage else "")
        && fields == WithErrorsField(old(fields), ErrorJson.Serialize(es))
        && inFlight == old(inFlight) + (if requested then 1 else 0)
      ensures nameValidity == CustomValidity(NameError(name))
      ensures emailValidity == CustomValidity(EmailError(email))
      ensures commentsValidity == CustomValidity(CommentsError(comments, maxLength))
    {
      errorOutput := Text("");
      infoText := "";
      var formErrors := CheckFields(name, email, comments);
      WriteErrorsField(formErrors);
      requested := ShowOutcome(formErrors);
    }

    /** Runs the three chains in field order, collecting the list and setting each custom validity. */
    method CheckFields(name: Validity, email: Validity, comments: Validity) returns (formErrors: seq<FieldError>)
      modifies this`nameValidity, this`emailValidity, this`commentsValidity
      ensures formErrors == CollectErrors(name, email, comments, maxLength)
      ensures nameValidity == CustomValidity(NameError(name))
      ensures emailValidity == CustomValidity(EmailError(email))
      ensures commentsValidity == CustomValidity(CommentsError(comments, maxLength))
    {
      formErrors := [];
      formErrors := CheckName(name, formErrors);
      formErrors := CheckEmail(email, formErrors);
      formErrors := CheckComments(comments, formErrors);
    }

    /** Renders the list and requests nothing, or, when it is empty, shows the submitting text and requests one submission. */
    method ShowOutcome(formErrors: seq<FieldError>) returns (requested: bool)
      modifies this`errorOutput, this`infoText, this`inFlight
      ensures requested == (formErrors == [])
      ensures errorOutput == (if formErrors == [] then old(errorOutput) else ItemList(Messages(formErrors)))
      ensures infoText == (if formErrors == [] then SubmittingMessage else old(infoText))
      ensures inFlight == old(inFlight) + (if requested then 1 else 0)
    {
      if |formErrors| > 0 {
        var items := RenderItems(formErrors);
        errorOutput := ItemList(items);
        requested := false;
      } else {
        infoText := SubmittingMessage;
        requested := true;
        inFlight := inFlight + 1;
      }
    }

    /** The name field's chain: pushes its first failing rule's entry and sets its custom validity. */
    method CheckName(name: Validity, formErrors: seq<FieldError>) returns (out: seq<FieldError>)
      modifies this`nameValidity
      ensures out == formErrors + Report(Name, NameError(name))
      ensures nameValidity == CustomValidity(NameError(name))
    {
      NameChain(name);
      out := formErrors;
      if name.valueMissing {
        out := out + [FieldError(Name, NameRequired)];
        nameValidity := NameRequired;
      } else if name.tooShort {
        out := out + [FieldError(Name, NameTooShort)];
        nameValidity := NameTooShort;
      } else if name.patternMismatch {
        out := out + [FieldError(Name, NameInvalid)];
        nameValidity := NameInvalid;
      } else {
        nameValidity := "";
      }
    }

    /** The email field's chain. */
    method CheckEmail(email: Validity, formErrors: seq<FieldError>) returns (out: seq<FieldError>)
      modifies this`emailValidity
      ensures out == formErrors + Report(Email, EmailError(email))
      ensures emailValidity == CustomValidity(EmailError(email))
    {
      EmailChain(email);
      out := formErrors;
      if email.valueMissing {
        out := out + [FieldError(Email, EmailRequired)];
        emailValidity := EmailRequired;
      } else if email.typeMismatch {
        out := out + [FieldError(Email, EmailInvalid)];
        emailValidity := EmailInvalid;
      } else {
        emailValidity := "";
      }
    }

    /** The comments field's chain. */
    method CheckComments(comments: Validity, formErrors: seq<FieldError>) returns (out: seq<FieldError>)
      modifies this`commentsValidity
      ensures out == formErrors + Report(Comments, CommentsError(comments, maxLength))
      ensures commentsValidity == CustomValidity(CommentsError(comments, maxLength))
    {
      CommentsChain(comments, maxLength);
      out := formErrors;
      if comments.valueMissing {
        out := out + [FieldError(Comments, CommentsRequired)];
        commentsValidity := CommentsRequired;
      } else if comments.tooShort {
        out := out + [FieldError(Comments, CommentsTooShort)];
        commentsValidity := CommentsTooShort;
      } else if comments.tooLong {
        out := out + [FieldError(Comments, CommentsTooLong(maxLength))];
        commentsValidity := CommentsTooLong(maxLength);
      } else {
        commentsValidity := "";
      }
    }

    /**
     * Finds the `form-errors` field, appending an empty one if the form has
     * none, and sets its value to the serialised list.
     */
    method WriteErrorsField(formErrors: seq<FieldError>)
      modifies this`fields
      ensures fields == WithErrorsField(old(fields), ErrorJson.Serialize(formErrors))
    {
      var value := ErrorJson.Serialize(formErrors);
      var found := FindField(fields, ErrorsFieldName);
      var k: nat;
      if found.None? {
        fields := fields + [FormField(ErrorsFieldName, "", "")];
        k := |fields| - 1;
      } else {
        k := found.value;
      }
      fields := fields[k := fields[k].(value := value, defaultValue := value)];
    }

    /** The `forEach` that makes one list item per entry, in order. */
    method RenderItems(formErrors: seq<FieldError>) returns (items: seq<string>)
      ensures items == Messages(formErrors)
    {
      items := [];
      var i := 0;
      while i < |formErrors|
        invariant 0 <= i <= |formErrors|
        invariant items == Messages(formErrors[..i])
      {
        items := items + [formErrors[i].message];
        i := i + 1;
      }
      assert formErrors[..i] == formErrors;
    }

    /**
     * A submission answered with an OK JSON response: success text, the form
     * reset to its defaults, full budget, no tier class.
     */
    method OnSubmitSuccess()
      requires Valid() && inFlight > 0
      modifies this`infoText, this`fields, this`counter, this`warningOn, this`errorOn, this`inFlight
      ensures Valid()
      ensures infoText == SuccessMessage && inFlight == old(inFlight) - 1
      ensures fields == Reset(old(fields))
      ensures counter == maxLength && DisplayedTier() == Normal
      ensures maxLength >= 0 ==> DisplayedTier() == TierOf(maxLength, counter)
    {
      infoText := SuccessMessage;
      fields := Reset(fields);
      counter := maxLength;
      warningOn, errorOn := false, false;
      inFlight := inFlight - 1;
    }

    /** A submission that failed (network error or non-OK status): the failure text replaces the error output. */
    method OnSubmitFailure()
      requires Valid() && inFlight > 0
      modifies this`errorOutput, this`inFlight
      ensures Valid()
      ensures errorOutput == Text(FailureMessage) && inFlight == old(inFlight) - 1
    {
      errorOutput := Text(FailureMessage);
      inFlight := inFlight - 1;
    }
  }

  /** Text whose first character is not 'D' is never cleared by the timeout. */
  lemma NotClearedUnlessD(text: string)
    requires |text| > 0 && text[0] != 'D'
    ensures !ClearedOnTimeout(text)
  {
    assert DisallowedPrefix[0] == 'D';
    if |DisallowedPrefix| <= |text| {
      assert text[..|DisallowedPrefix|][0] == text[0];
    }
  }

  /** The flash timeout removes its own message. */
  lemma TimeoutClearsFlashMessage()
    ensures AfterTimeout(Text(DisallowedMessage)) == Text("")
  {
    assert DisallowedMessage[..|DisallowedPrefix|] == DisallowedPrefix;
  }

  /** The flash timeout leaves the network-failure message in place. */
  lemma TimeoutKeepsFailureMessage()
    ensures AfterTimeout(Text(FailureMessage)) == Text(FailureMessage)
  {
    assert FailureMessage[0] == 'S';
    NotClearedUnlessD(FailureMessage);
  }

  /** A rendered validation list never starts with the flash message, so the timeout never clears it. */
  lemma TimeoutKeepsValidationList(name: Validity, email: Validity, comments: Validity, maxLength: int)
    ensures var es := CollectErrors(name, email, comments, maxLength);
      es != [] ==> AfterTimeout(ItemList(Messages(es))) == ItemList(Messages(es))
  {
    var es := CollectErrors(name, email, comments, maxLength);
    if es != [] {
      MessagesNotDisallowed(name, email, comments, maxLength);
      var ms := Messages(es);
      assert ms[0] == es[0].message && es[0] in es;
      assert Concat(ms) == ms[0] + Concat(ms[1..]);
      assert Concat(ms)[0] == ms[0][0];
      NotClearedUnlessD(Concat(ms));
    }
  }

  /** The first field carrying a name is what the lookup finds. */
  lemma FindFieldFirst(fields: seq<FormField>, name: string, k: nat)
    requires k < |fields| && fields[k].name == name
    requires forall j :: 0 <= j < k ==> fields[j].name != name
    ensures FindField(fields, name) == Some(k)
  {
    var r := FindField(fields, name);
    assert r.Some?;
  }

  lemma FindFieldBeyond(fields: seq<FormField>, extra: FormField, name: string)
    requires FindField(fields, name).None? && extra.name == name
    ensures FindField(fields + [extra], name) == Some(|fields|)
  {
    FindFieldFirst(fields + [extra], name, |fields|);
  }

  lemma {:induction false} CountAppend(fields: seq<FormField>, extra: FormField, name: string)
    ensures CountNamed(fields + [extra], name) == CountNamed(fields, name) + (if extra.name == name then 1 else 0)
  {
    if fields == [] {
      assert fields + [extra] == [extra];
    } else {
      assert (fields + [extra])[1..] == fields[1..] + [extra];
      CountAppend(fields[1..], extra, name);
    }
  }

  lemma {:induction false} CountUpdate(fields: seq<FormField>, k: nat, v: FormField, name: string)
    requires k < |fields| && fields[k].name == v.name
    ensures CountNamed(fields[k := v], name) == CountNamed(fields, name)
  {
    if k > 0 {
      assert fields[k := v][1..] == fields[1..][k - 1 := v];
      CountUpdate(fields[1..], k - 1, v, name);
    }
  }

  lemma {:induction false} CountZeroIffAbsent(fields: seq<FormField>, name: string)
    ensures CountNamed(fields, name) == 0 <==> FindField(fields, name).None?
  {
    if fields != [] {
      CountZeroIffAbsent(fields[1..], name);
    }
  }

  /**
   * A submit leaves exactly one `form-errors` field when there was none
   * (and adds none otherwise), and that field carries the written value.
   */
  lemma ErrorsFieldWritten(fields: seq<FormField>, value: string)
    ensures var r := WithErrorsField(fields, value);
      && CountNamed(r, ErrorsFieldName) == (if CountNamed(fields, ErrorsFieldName) == 0 then 1 else CountNamed(fields, ErrorsFieldName))
      && ErrorsValue(r) == Some(value)
      && |r| == |fields| + (if CountNamed(fields, ErrorsFieldName) == 0 then 1 else 0)
  {
    var extra := FormField(ErrorsFieldName, value, value);
    CountZeroIffAbsent(fields, ErrorsFieldName);
    match FindField(fields, ErrorsFieldName)
    case Some(k) =>
      CountUpdate(fields, k, fields[k].(value := value, defaultValue := value), ErrorsFieldName);
      var r := fields[k := fields[k].(value := value, defaultValue := value)];
      FindFieldFirst(r, ErrorsFieldName, k);
    case None =>
      CountAppend(fields, extra, ErrorsFieldName);
      FindFieldBeyond(fields, extra, ErrorsFieldName);
  }

  /** Fields other than the `form-errors` one are untouched by a submit. */
  lemma OtherFieldsKept(fields: seq<FormField>, value: string)
    ensures var r := WithErrorsField(fields, value);
      forall i :: 0 <= i < |fields| && fields[i].name != ErrorsFieldName ==> r[i] == fields[i]
  {
  }

  /** A second submit rewrites the same field: only the latest list remains. */
  lemma {:induction false} ErrorsFieldOverwritten(fields: seq<FormField>, v: string, w: string)
    ensures WithErrorsField(WithErrorsField(fields, v), w) == WithErrorsField(fields, w)
  {
    var extra := FormField(ErrorsFieldName, v, v);
    match FindField(fields, ErrorsFieldName)
    case Some(k) =>
      var r := fields[k := fields[k].(value := v, defaultValue := v)];
      FindFieldFirst(r, ErrorsFieldName, k);
    case None =>
      FindFieldBeyond(fields, extra, ErrorsFieldName);
  }

  /** What travels in the `form-errors` field after a submit reads back as that submit's error list. */
  lemma SubmittedErrorsDecode(fields: seq<FormField>, name: Validity, email: Validity, comments: Validity, maxLength: int)
    ensures var es := CollectErrors(name, email, comments, maxLength);
      var r := WithErrorsField(fields, ErrorJson.Serialize(es));
      ErrorsValue(r).Some? && ErrorJson.Deserialize(ErrorsValue(r).value) == Some(es)
  {
    var es := CollectErrors(name, email, comments, maxLength);
    ErrorsFieldWritten(fields, ErrorJson.Serialize(es));
    ErrorJson.SerializeRoundTrip(es);
  }

  /** The lookup sees only names, which a reset keeps. */
  lemma {:induction false} FindFieldAfterReset(fields: seq<FormField>, name: string)
    ensures FindField(Reset(fields), name) == FindField(fields, name)
  {
    if fields != [] {
      assert Reset(fields)[1..] == Reset(fields[1..]);
      FindFieldAfterReset(fields[1..], name);
    }
  }

  /**
   * A reset after a submit keeps the `form-errors` value that submit wrote,
   * while every other field returns to its default.
   */
  lemma ResetKeepsErrorsField(fields: seq<FormField>, value: string)
    ensures ErrorsValue(Reset(WithErrorsField(fields, value))) == Some(value)
  {
    var r := WithErrorsField(fields, value);
    FindFieldAfterReset(r, ErrorsFieldName);
    match FindField(fields, ErrorsFieldName)
    case Some(k) =>
      FindFieldFirst(r, ErrorsFieldName, k);
    case None =>
      FindFieldBeyond(fields, FormField(ErrorsFieldName, value, value), ErrorsFieldName);
  }

  /** Resetting twice is resetting once. */
  lemma ResetIdempotent(fields: seq<FormField>)
    ensures Reset(Reset(fields)) == Reset(fields)
  {
  }

  /** A request is sent only with an empty list, so the field it carries always reads `[]`. */
  lemma RequestCarriesEmptyList(fields: seq<FormField>, name: Validity, email: Validity, comments: Validity, maxLength: int)
    ensures var es := CollectErrors(name, email, comments, maxLength);
      es == [] ==> ErrorsValue(WithErrorsField(fields, ErrorJson.Serialize(es))) == Some("[]")
  {
    ErrorsFieldWritten(fields, "[]");
    ErrorJson.SerializeEmpty();
  }

  /** All three fields passing: no entries, so the submit goes ahead with `[]` in the field. */
  lemma AllPassingSubmit(fields: seq<FormField>, maxLength: int)
    ensures CollectErrors(Passing, Passing, Passing, maxLength) == []
    ensures ErrorsValue(WithErrorsField(fields, ErrorJson.Serialize(CollectErrors(Passing, Passing, Passing, maxLength)))) == Some("[]")
  {
    NameChain(Passing);
    EmailChain(Passing);
    CommentsChain(Passing, maxLength);
    RequestCarriesEmptyList(fields, Passing, Passing, Passing, maxLength);
  }

  /**
   * A rejected character, then a submit that fails validation, then the
   * flash timeout: the flash class goes, but the rendered list stays.
   */
  method FlashThenFailedSubmit(inserted: string, name: Validity, email: Validity, comments: Validity, maxLength: int)
    returns (flashing: bool, shown: Output)
    requires NameFilter.Triggers(Some(inserted))
    requires CollectErrors(name, email, comments, maxLength) != []
    ensures !flashing && shown == ItemList(Messages(CollectErrors(name, email, comments, maxLength)))
  {
    var c := new FormController(maxLength, 0, []);
    c.OnNameBeforeInput(Some(inserted));
    var h := c.pendingTimer.value;
    assert h in c.scheduled;
    var requested := c.OnSubmit(name, email, comments);
    assert c.Valid() && h in c.scheduled;
    TimeoutKeepsValidationList(name, email, comments, maxLength);
    c.OnFlashTimeout(h);
    flashing, shown := c.flashing, c.errorOutput;
  }
}
