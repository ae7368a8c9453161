/**
 * Submit-time validation: each field's browser validity flags are checked
 * against an ordered rule table, the first failing rule gives the field's
 * one message, and the messages are collected in field order.
 */
module Validation {
  import opened Wrappers
  import Decimal

  /** The browser's constraint-validation flags of one field, taken as inputs. */
  datatype Validity = Validity(
    valueMissing: bool,
    typeMismatch: bool,
    patternMismatch: bool,
    tooShort: bool,
    tooLong: bool)

  datatype Constraint = ValueMissing | TypeMismatch | PatternMismatch | TooShort | TooLong

  predicate Violates(v: Validity, c: Constraint) {
    match c
    case ValueMissing => v.valueMissing
    case TypeMismatch => v.typeMismatch
    case PatternMismatch => v.patternMismatch
    case TooShort => v.tooShort
    case TooLong => v.tooLong
  }

  /** One row of a field's rule table: a constraint and the message shown when it fails. */
  datatype Rule = Rule(constraint: Constraint, message: string)

  /** The three validated fields, in form order. */
  datatype Field = Name | Email | Comments

  /** The identifier the error list carries for a field. */
  function FieldName(f: Field): string {
    match f
    case Name => "name"
    case Email => "email"
    case Comments => "comments"
  }

  function FieldOrder(f: Field): nat {
    match f
    case Name => 0
    case Email => 1
    case Comments => 2
  }

  /** One entry of the submit-time error list. */
  datatype FieldError = FieldError(field: Field, message: string)

  const NameRequired := "Name is required."
  const NameTooShort := "Name must be at least 2 characters."
  const NameInvalid := "Name contains invalid characters."
  const EmailRequired := "Email is required."
  const EmailInvalid := "Please enter a valid email address."
  const CommentsRequired := "Comments are required."
  const CommentsTooShort := "Comments must be at least 10 characters."

  /** The template `Comments have exceeded the ${commentsMaxLength} character limit.` */
  function CommentsTooLong(maxLength: int): string {
    "Comments have exceeded the " + Decimal.IntToDecimal(maxLength) + " character limit."
  }

  function NameRules(): seq<Rule> {
    [Rule(ValueMissing, NameRequired), Rule(TooShort, NameTooShort), Rule(PatternMismatch, NameInvalid)]
  }

  function EmailRules(): seq<Rule> {
    [Rule(ValueMissing, EmailRequired), Rule(TypeMismatch, EmailInvalid)]
  }

  function CommentsRules(maxLength: int): seq<Rule> {
    [Rule(ValueMissing, CommentsRequired), Rule(TooShort, CommentsTooShort), Rule(TooLong, CommentsTooLong(maxLength))]
  }

  /** Rule `i` is the first rule of the table that the field violates. */
  ghost predicate ChosenAt(rules: seq<Rule>, v: Validity, i: int) {
    0 <= i < |rules| && Violates(v, rules[i].constraint)
    && forall j :: 0 <= j < i ==> !Violates(v, rules[j].constraint)
  }

  /** The message of the first failing rule; later rules are not consulted. */
  function FirstFailing(rules: seq<Rule>, v: Validity): Option<string> {
    if rules == [] then None
    else if Violates(v, rules[0].constraint) then Some(rules[0].message)
    else FirstFailing(rules[1..], v)
  }

  /** No message exactly when no rule fails; otherwise the message of the first rule that fails. */
  lemma {:induction false} FirstFailingChoice(rules: seq<Rule>, v: Validity)
    ensures var m := FirstFailing(rules, v);
      && (m.None? <==> forall i :: 0 <= i < |rules| ==> !Violates(v, rules[i].constraint))
      && (forall i :: ChosenAt(rules, v, i) ==> m == Some(rules[i].message))
      && (m.Some? ==> exists i :: ChosenAt(rules, v, i) && m.value == rules[i].message)
  {
    if rules == [] {
    } else if Violates(v, rules[0].constraint) {
      assert ChosenAt(rules, v, 0);
    } else {
      var m := FirstFailing(rules[1..], v);
      FirstFailingChoice(rules[1..], v);
      assert forall i :: ChosenAt(rules, v, i) ==> ChosenAt(rules[1..], v, i - 1);
      assert m.Some? ==> exists i :: ChosenAt(rules[1..], v, i) && ChosenAt(rules, v, i + 1) && m.value == rules[i + 1].message;
    }
  }

  /** The name field's chain: required, then minimum length, then pattern. */
  function NameError(v: Validity): Option<string> {
    FirstFailing(NameRules(), v)
  }

  lemma NameChain(v: Validity)
    ensures NameError(v) == if v.valueMissing then Some(NameRequired)
                            else if v.tooShort then Some(NameTooShort)
                            else if v.patternMismatch then Some(NameInvalid)
                            else None
  {
    var rules := NameRules();
    FirstFailingChoice(rules, v);
    assert v.valueMissing ==> ChosenAt(rules, v, 0);
    assert !v.valueMissing && v.tooShort ==> ChosenAt(rules, v, 1);
    assert !v.valueMissing && !v.tooShort && v.patternMismatch ==> ChosenAt(rules, v, 2);
  }

  /** The email field's chain: required, then email syntax. */
  function EmailError(v: Validity): Option<string> {
    FirstFailing(EmailRules(), v)
  }

  lemma EmailChain(v: Validity)
    ensures EmailError(v) == if v.valueMissing then Some(EmailRequired)
                             else if v.typeMismatch then Some(EmailInvalid)
                             else None
  {
    var rules := EmailRules();
    FirstFailingChoice(rules, v);
    assert v.valueMissing ==> ChosenAt(rules, v, 0);
    assert !v.valueMissing && v.typeMismatch ==> ChosenAt(rules, v, 1);
  }

  /** The comments field's chain: required, then minimum length, then maximum length. */
  function CommentsError(v: Validity, maxLength: int): Option<string> {
    FirstFailing(CommentsRules(maxLength), v)
  }

  lemma CommentsChain(v: Validity, maxLength: int)
    ensures CommentsError(v, maxLength) == if v.valueMissing then Some(CommentsRequired)
                                           else if v.tooShort then Some(CommentsTooShort)
                                           else if v.tooLong then Some(CommentsTooLong(maxLength))
                                           else None
  {
    var rules := CommentsRules(maxLength);
    FirstFailingChoice(rules, v);
    assert v.valueMissing ==> ChosenAt(rules, v, 0);
    assert !v.valueMissing && v.tooShort ==> ChosenAt(rules, v, 1);
    assert !v.valueMissing && !v.tooShort && v.tooLong ==> ChosenAt(rules, v, 2);
  }

  /** What `setCustomValidity` receives: the chosen message, or "" when the field is valid. */
  function CustomValidity(m: Option<string>): string {
    m.GetOr("")
  }

  function Report(field: Field, m: Option<string>): seq<FieldError> {
    if m.Some? then [FieldError(field, m.value)] else []
  }

  /** The error list of one submit: each field's entry, if it has one, in form order. */
  function CollectErrors(name: Validity, email: Validity, comments: Validity, maxLength: int): seq<FieldError> {
    Report(Name, NameError(name)) + Report(Email, EmailError(email)) + Report(Comments, CommentsError(comments, maxLength))
  }

  /** At most one entry per field, strictly in the order name, email, comments; so at most three. */
  lemma CollectErrorsOrdered(name: Validity, email: Validity, comments: Validity, maxLength: int)
    ensures var es := CollectErrors(name, email, comments, maxLength);
      && |es| <= 3
      && forall i, j :: 0 <= i < j < |es| ==> FieldOrder(es[i].field) < FieldOrder(es[j].field)
  {
    var n, e, c := Report(Name, NameError(name)), Report(Email, EmailError(email)), Report(Comments, CommentsError(comments, maxLength));
    var es := n + e + c;
    assert forall i :: 0 <= i < |n| ==> es[i].field == Name;
    assert forall i :: |n| <= i < |n| + |e| ==> es[i].field == Email;
    assert forall i :: |n| + |e| <= i < |es| ==> es[i].field == Comments;
  }

  /** The list is empty exactly when every field passes all of its rules. */
  lemma CollectErrorsEmpty(name: Validity, email: Validity, comments: Validity, maxLength: int)
    ensures CollectErrors(name, email, comments, maxLength) == []
        <==> NameError(name).None? && EmailError(email).None? && CommentsError(comments, maxLength).None?
  {
  }

  /** The message the list carries for a field, if any. */
  function ErrorFor(es: seq<FieldError>, field: Field): (m: Option<string>)
    ensures m.None? <==> forall i :: 0 <= i < |es| ==> es[i].field != field
  {
    if es == [] then None
    else if es[0].field == field then Some(es[0].message)
    else ErrorFor(es[1..], field)
  }

  /** The list's only entry for a field is the message of that field's chain. */
  lemma {:induction false} ErrorForCollected(name: Validity, email: Validity, comments: Validity, maxLength: int)
    ensures var es := CollectErrors(name, email, comments, maxLength);
      ErrorFor(es, Name) == NameError(name)
      && ErrorFor(es, Email) == EmailError(email)
      && ErrorFor(es, Comments) == CommentsError(comments, maxLength)
  {
    var n, e, c := Report(Name, NameError(name)), Report(Email, EmailError(email)), Report(Comments, CommentsError(comments, maxLength));
    assert CollectErrors(name, email, comments, maxLength) == n + (e + c);
    ErrorForAppend(e, c, Name);
    ErrorForAppend(e, c, Email);
    ErrorForAppend(e, c, Comments);
    ErrorForAppend(n, e + c, Name);
    ErrorForAppend(n, e + c, Email);
    ErrorForAppend(n, e + c, Comments);
  }

  lemma {:induction false} ErrorForAppend(a: seq<FieldError>, b: seq<FieldError>, field: Field)
    ensures ErrorFor(a + b, field) == if ErrorFor(a, field).Some? then ErrorFor(a, field) else ErrorFor(b, field)
  {
    if a == [] {
      assert a + b == b;
    } else {
      assert (a + b)[1..] == a[1..] + b;
      ErrorForAppend(a[1..], b, field);
    }
  }

  /** Each field's custom validity is "" exactly when the list has no entry for it, and its message otherwise. */
  lemma CustomValidityMirrors(name: Validity, email: Validity, comments: Validity, maxLength: int)
    ensures var es := CollectErrors(name, email, comments, maxLength);
      (CustomValidity(NameError(name)) == "" <==> ErrorFor(es, Name).None?)
      && (ErrorFor(es, Name).Some? ==> CustomValidity(NameError(name)) == ErrorFor(es, Name).value)
      && (CustomValidity(EmailError(email)) == "" <==> ErrorFor(es, Email).None?)
      && (ErrorFor(es, Email).Some? ==> CustomValidity(EmailError(email)) == ErrorFor(es, Email).value)
      && (CustomValidity(CommentsError(comments, maxLength)) == "" <==> ErrorFor(es, Comments).None?)
      && (ErrorFor(es, Comments).Some? ==> CustomValidity(CommentsError(comments, maxLength)) == ErrorFor(es, Comments).value)
  {
    ErrorForCollected(name, email, comments, maxLength);
    NameChain(name);
    EmailChain(email);
    CommentsChain(comments, maxLength);
    assert |CommentsTooLong(maxLength)| > 0;
  }

  /** A field left empty: the browser reports only `valueMissing`. */
  const Empty := Validity(true, false, false, false, false)
  /** A field the browser finds valid: no flag set. */
  const Passing := Validity(false, false, false, false, false)

  /** Submitting with all three fields empty gives the three "required" messages, in field order. */
  lemma AllEmptySubmit(maxLength: int)
    ensures CollectErrors(Empty, Empty, Empty, maxLength)
         == [FieldError(Name, NameRequired), FieldError(Email, EmailRequired), FieldError(Comments, CommentsRequired)]
  {
  }

  /** A one-character name with the other fields valid gives exactly the name-too-short entry. */
  lemma ShortNameSubmit(maxLength: int)
    ensures CollectErrors(Passing.(tooShort := true), Passing, Passing, maxLength) == [FieldError(Name, NameTooShort)]
  {
    NameChain(Passing.(tooShort := true));
    EmailChain(Passing);
    CommentsChain(Passing, maxLength);
  }

  /** No message of the chains begins with 'D', the first letter of the flash message. */
  lemma {:induction false} MessagesNotDisallowed(name: Validity, email: Validity, comments: Validity, maxLength: int)
    ensures forall e :: e in CollectErrors(name, email, comments, maxLength) ==> |e.message| > 0 && e.message[0] != 'D'
  {
    var n, e, c := Report(Name, NameError(name)), Report(Email, EmailError(email)), Report(Comments, CommentsError(comments, maxLength));
    forall x: FieldError | x in n + e + c
      ensures |x.message| > 0 && x.message[0] != 'D'
    {
      if x in n {
        NameChain(name);
      } else if x in e {
        EmailChain(email);
      } else {
        CommentsChain(comments, maxLength);
        var tooLong := CommentsTooLong(maxLength);
        assert tooLong[0] == 'C';
      }
    }
  }
}
