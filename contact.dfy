/**
 * The contact form: its field rules and the submission state machine driven by
 * the submit handler (which waits on a fixed delay and always succeeds) and the
 * "Send Another Message" button.
 */
module Contact {
  import opened Schema

  /** `contactSchema`. */
  const ContactSchema: ObjectSchema := map[
    "name" := Str([MinLength(2), MaxLength(100)]),
    "email" := Str([EmailFormat, MaxLength(255)]),
    "phone" := OrLiteral(Optional(Str([TenDigits])), ""),
    "subject" := Str([MinLength(3), MaxLength(200)]),
    "message" := Str([MinLength(10), MaxLength(1000)])
  ]

  /** The form has no default values: before input and after a reset every field is undefined. */
  function EmptyForm(): (v: FormValues)
    ensures forall name :: Get(v, name) == Undefined
  {
    map[]
  }

  /** Each contact field's rule, in plain terms. */
  lemma ContactFieldRules(v: Value, isEmail: string -> bool)
    ensures Accepts(ContactSchema["name"], v, isEmail) <==> v.Text? && 2 <= |v.s| <= 100
    ensures Accepts(ContactSchema["email"], v, isEmail) <==> v.Text? && isEmail(v.s) && |v.s| <= 255
    ensures Accepts(ContactSchema["phone"], v, isEmail) <==> v.Undefined? || v.s == "" || IsTenDigits(v.s)
    ensures Accepts(ContactSchema["subject"], v, isEmail) <==> v.Text? && 3 <= |v.s| <= 200
    ensures Accepts(ContactSchema["message"], v, isEmail) <==> v.Text? && 10 <= |v.s| <= 1000
  {
    AcceptsTwoChecks(MinLength(2), MaxLength(100), v, isEmail);
    AcceptsTwoChecks(EmailFormat, MaxLength(255), v, isEmail);
    AcceptsOneCheck(TenDigits, v, isEmail);
    AcceptsTwoChecks(MinLength(3), MaxLength(200), v, isEmail);
    AcceptsTwoChecks(MinLength(10), MaxLength(1000), v, isEmail);
  }

  /** The contact form is accepted exactly when all five field rules hold together. */
  lemma ContactPassesIff(values: FormValues, isEmail: string -> bool)
    ensures Passes(ContactSchema, values, isEmail) <==>
      && Get(values, "name").Text? && 2 <= |Get(values, "name").s| <= 100
      && Get(values, "email").Text? && isEmail(Get(values, "email").s) && |Get(values, "email").s| <= 255
      && (Get(values, "phone").Undefined? || Get(values, "phone").s == "" || IsTenDigits(Get(values, "phone").s))
      && Get(values, "subject").Text? && 3 <= |Get(values, "subject").s| <= 200
      && Get(values, "message").Text? && 10 <= |Get(values, "message").s| <= 1000
  {
    ContactFieldRules(Get(values, "name"), isEmail);
    ContactFieldRules(Get(values, "email"), isEmail);
    ContactFieldRules(Get(values, "phone"), isEmail);
    ContactFieldRules(Get(values, "subject"), isEmail);
    ContactFieldRules(Get(values, "message"), isEmail);
    assert ContactSchema.Keys == {"name", "email", "phone", "subject", "message"};
  }

  /** An empty form fails on every required field, and only on those: the phone may be left out. */
  lemma EmptyFormErrors(isEmail: string -> bool)
    ensures Errors(ContactSchema, EmptyForm(), isEmail) == {"name", "email", "subject", "message"}
  {
    ContactFieldRules(Undefined, isEmail);
    assert ContactSchema.Keys == {"name", "email", "phone", "subject", "message"};
  }

  /** One contact page instance; the message is only logged, so no record is kept. */
  class ContactForm {
    const isEmail: string -> bool
    var values: FormValues
    var isSubmitting: bool
    var isSuccess: bool

    /** The confirmation panel is never shown while a submission is pending. */
    ghost predicate Valid()
      reads this
    {
      isSubmitting ==> !isSuccess
    }

    constructor (isEmail: string -> bool)
      ensures Valid()
      ensures this.isEmail == isEmail && values == EmptyForm() && !isSubmitting && !isSuccess
    {
      this.isEmail := isEmail;
      values := EmptyForm();
      isSubmitting, isSuccess := false, false;
    }

    /** Typing into a field (possible while a submission is pending). */
    method Edit(name: string, v: Value)
      requires Valid() && !isSuccess
      modifies this`values
      ensures Valid()
      ensures values == old(values)[name := v]
    {
      values := values[name := v];
    }

    /** A click on "Send Message". */
    method Submit() returns (outcome: SubmitOutcome<FormValues>)
      requires Valid() && !isSuccess
      modifies this`isSubmitting
      ensures Valid()
      ensures old(isSubmitting) ==> outcome == Refused && unchanged(this)
      ensures !old(isSubmitting) && !Passes(ContactSchema, values, isEmail) ==>
        outcome == Rejected(Errors(ContactSchema, values, isEmail)) && unchanged(this)
      ensures !old(isSubmitting) && Passes(ContactSchema, values, isEmail) ==>
        outcome == Started(values) && isSubmitting
    {
      if isSubmitting {
        return Refused;
      }
      if !Passes(ContactSchema, values, isEmail) {
        return Rejected(Errors(ContactSchema, values, isEmail));
      }
      isSubmitting := true;
      outcome := Started(values);
    }

    /** The simulated send completes; it cannot fail. */
    method Finish()
      requires Valid() && isSubmitting
      modifies this`isSubmitting, this`isSuccess, this`values
      ensures Valid()
      ensures !isSubmitting && isSuccess && values == EmptyForm()
    {
      isSubmitting := false;
      isSuccess := true;
      values := EmptyForm();
    }

    /** "Send Another Message": hides the confirmation and touches nothing else. */
    method SendAnother()
      requires Valid() && isSuccess
      modifies this`isSuccess
      ensures Valid()
      ensures !isSuccess && values == old(values) && isSubmitting == old(isSubmitting)
    {
      isSuccess := false;
    }
  }

  /**
   * A valid message: a second click while sending is refused, the send always
   * ends in the confirmation with the fields emptied, and after "Send Another
   * Message" the emptied form is rejected until it is filled in again.
   */
  method SendTwice(form: ContactForm) returns (last: SubmitOutcome<FormValues>)
    requires form.Valid() && !form.isSubmitting && !form.isSuccess
    requires Passes(ContactSchema, form.values, form.isEmail)
    modifies form
    ensures form.Valid() && !form.isSubmitting && !form.isSuccess && form.values == EmptyForm()
    ensures last == Rejected({"name", "email", "subject", "message"})
  {
    var first := form.Submit();
    assert first.Started?;
    var again := form.Submit();
    assert again == Refused;
    form.Finish();
    form.SendAnother();
    assert form.values == EmptyForm();
    EmptyFormErrors(form.isEmail);
    PassesIffNoErrors(ContactSchema, form.values, form.isEmail);
    last := form.Submit();
  }
}
