/**
 * The course booking form: its field rules, its default values, the record it
 * writes to the booking collection, and the submission state machine driven by
 * the submit handler and the "Book Another Course" button.
 */
module Booking {
  import opened Wrappers
  import opened Schema

  const ModeOptions: set<string> := {"online", "offline"}

  /** `bookingSchema`. */
  const BookingSchema: ObjectSchema := map[
    "fullName" := Str([MinLength(2), MaxLength(100)]),
    "phone" := Str([TenDigits]),
    "email" := Str([EmailFormat, MaxLength(255)]),
    "course" := Str([MinLength(1)]),
    "mode" := Enum(ModeOptions),
    "message" := Optional(Str([MaxLength(500)]))
  ]

  /** The form's default values; the course is the one preselected by the page link, or "". */
  function Defaults(preselectedCourse: string): (d: FormValues)
    ensures d.Keys == BookingSchema.Keys
  {
    map[
      "fullName" := Text(""),
      "phone" := Text(""),
      "email" := Text(""),
      "course" := Text(preselectedCourse),
      "mode" := Undefined,
      "message" := Text("")
    ]
  }

  /** Each booking field's rule, in plain terms. */
  lemma BookingFieldRules(v: Value, isEmail: string -> bool)
    ensures Accepts(BookingSchema["fullName"], v, isEmail) <==> v.Text? && 2 <= |v.s| <= 100
    ensures Accepts(BookingSchema["phone"], v, isEmail) <==> v.Text? && IsTenDigits(v.s)
    ensures Accepts(BookingSchema["email"], v, isEmail) <==> v.Text? && isEmail(v.s) && |v.s| <= 255
    ensures Accepts(BookingSchema["course"], v, isEmail) <==> v.Text? && v.s != ""
    ensures Accepts(BookingSchema["mode"], v, isEmail) <==> v == Text("online") || v == Text("offline")
    ensures Accepts(BookingSchema["message"], v, isEmail) <==> v.Undefined? || |v.s| <= 500
  {
    AcceptsTwoChecks(MinLength(2), MaxLength(100), v, isEmail);
    AcceptsOneCheck(TenDigits, v, isEmail);
    AcceptsTwoChecks(EmailFormat, MaxLength(255), v, isEmail);
    AcceptsOneCheck(MinLength(1), v, isEmail);
    AcceptsOneCheck(MaxLength(500), v, isEmail);
  }

  /** The booking form is accepted exactly when all six field rules hold together. */
  lemma BookingPassesIff(values: FormValues, isEmail: string -> bool)
    ensures Passes(BookingSchema, values, isEmail) <==>
      && Get(values, "fullName").Text? && 2 <= |Get(values, "fullName").s| <= 100
      && Get(values, "phone").Text? && IsTenDigits(Get(values, "phone").s)
      && Get(values, "email").Text? && isEmail(Get(values, "email").s) && |Get(values, "email").s| <= 255
      && Get(values, "course").Text? && Get(values, "course").s != ""
      && (Get(values, "mode") == Text("online") || Get(values, "mode") == Text("offline"))
      && (Get(values, "message").Undefined? || |Get(values, "message").s| <= 500)
  {
    BookingFieldRules(Get(values, "fullName"), isEmail);
    BookingFieldRules(Get(values, "phone"), isEmail);
    BookingFieldRules(Get(values, "email"), isEmail);
    BookingFieldRules(Get(values, "course"), isEmail);
    BookingFieldRules(Get(values, "mode"), isEmail);
    BookingFieldRules(Get(values, "message"), isEmail);
    assert BookingSchema.Keys == {"fullName", "phone", "email", "course", "mode", "message"};
  }

  /** An untouched form is never accepted: name, phone and mode always fail, the course fails unless preselected. */
  lemma UntouchedFormRejected(preselectedCourse: string, isEmail: string -> bool)
    ensures {"fullName", "phone", "mode"} <= Errors(BookingSchema, Defaults(preselectedCourse), isEmail)
    ensures "course" in Errors(BookingSchema, Defaults(preselectedCourse), isEmail) <==> preselectedCourse == ""
    ensures "message" !in Errors(BookingSchema, Defaults(preselectedCourse), isEmail)
  {
    var d := Defaults(preselectedCourse);
    BookingFieldRules(Get(d, "fullName"), isEmail);
    BookingFieldRules(Get(d, "phone"), isEmail);
    BookingFieldRules(Get(d, "mode"), isEmail);
    BookingFieldRules(Get(d, "message"), isEmail);
    BookingFieldRules(Get(d, "course"), isEmail);
  }

  /** A two-letter name is long enough; a five-digit phone is the only failure here. */
  lemma ShortPhoneOnlyError(isEmail: string -> bool)
    requires isEmail("a@b.com")
    ensures Errors(BookingSchema,
      map["fullName" := Text("Al"), "phone" := Text("12345"), "email" := Text("a@b.com"),
          "course" := Text("Python Programming"), "mode" := Text("online")], isEmail) == {"phone"}
  {
    var v := map["fullName" := Text("Al"), "phone" := Text("12345"), "email" := Text("a@b.com"),
                 "course" := Text("Python Programming"), "mode" := Text("online")];
    BookingFieldRules(Get(v, "fullName"), isEmail);
    BookingFieldRules(Get(v, "phone"), isEmail);
    BookingFieldRules(Get(v, "email"), isEmail);
    BookingFieldRules(Get(v, "course"), isEmail);
    BookingFieldRules(Get(v, "mode"), isEmail);
    BookingFieldRules(Get(v, "message"), isEmail);
    assert !IsTenDigits("12345");
    assert BookingSchema.Keys == {"fullName", "phone", "email", "course", "mode", "message"};
  }

  /** The course field is only required to be non-empty; any title is accepted. */
  lemma AnyCourseNameAccepted(course: string, isEmail: string -> bool)
    requires course != "" && isEmail("a@b.com")
    ensures Passes(BookingSchema,
      map["fullName" := Text("Al"), "phone" := Text("9876543210"), "email" := Text("a@b.com"),
          "course" := Text(course), "mode" := Text("offline")], isEmail)
  {
    var v := map["fullName" := Text("Al"), "phone" := Text("9876543210"), "email" := Text("a@b.com"),
                 "course" := Text(course), "mode" := Text("offline")];
    BookingPassesIff(v, isEmail);
  }

  /** The document written to the booking collection (the server timestamp is not modelled). */
  datatype BookingRecord = BookingRecord(
    fullName: string,
    phone: string,
    email: string,
    course: string,
    mode: string,
    message: string,
    source: string)

  const Source: string := "Website"

  /** The record built from accepted form data: fields copied verbatim, a missing message as "". */
  function ToRecord(values: FormValues, isEmail: string -> bool): (r: BookingRecord)
    requires Passes(BookingSchema, values, isEmail)
    ensures r.source == "Website"
    ensures 2 <= |r.fullName| <= 100 && IsTenDigits(r.phone)
    ensures isEmail(r.email) && |r.email| <= 255
    ensures r.course != "" && r.mode in ModeOptions && |r.message| <= 500
    ensures Get(values, "fullName") == Text(r.fullName) && Get(values, "phone") == Text(r.phone)
    ensures Get(values, "email") == Text(r.email) && Get(values, "course") == Text(r.course)
    ensures Get(values, "mode") == Text(r.mode)
    ensures Get(values, "message") == Undefined ==> r.message == ""
    ensures Get(values, "message").Text? ==> Get(values, "message") == Text(r.message)
  {
    BookingPassesIff(values, isEmail);
    var message := Get(values, "message");
    BookingRecord(
      Get(values, "fullName").s,
      Get(values, "phone").s,
      Get(values, "email").s,
      Get(values, "course").s,
      Get(values, "mode").s,
      if message.Text? then message.s else "",
      Source)
  }

  /**
   * One booking page instance. Submission takes two events: the click that
   * validates and issues the write, and the write's outcome; `inFlight` is the
   * record being written, and `written` the records the store has accepted.
   */
  class BookingForm {
    const preselectedCourse: string
    const isEmail: string -> bool
    var values: FormValues
    var isSubmitting: bool
    var isSuccess: bool
    var inFlight: Option<BookingRecord>
    var written: seq<BookingRecord>

    /** At most one write is in flight, and only while the form is submitting and not yet confirmed. */
    ghost predicate Valid()
      reads this
    {
      (isSubmitting <==> inFlight.Some?) && (isSubmitting ==> !isSuccess)
    }

    constructor (preselectedCourse: string, isEmail: string -> bool)
      ensures Valid()
      ensures this.preselectedCourse == preselectedCourse && this.isEmail == isEmail
      ensures values == Defaults(preselectedCourse)
      ensures !isSubmitting && !isSuccess && inFlight == None && written == []
    {
      this.preselectedCourse := preselectedCourse;
      this.isEmail := isEmail;
      values := Defaults(preselectedCourse);
      isSubmitting, isSuccess := false, false;
      inFlight, written := None, [];
    }

    /** Typing into or choosing a field (possible while a submission is in flight). */
    method Edit(name: string, v: Value)
      requires Valid() && !isSuccess
      modifies this`values
      ensures Valid()
      ensures values == old(values)[name := v]
    {
      values := values[name := v];
    }

    /** A click on "Submit Booking". */
    method Submit() returns (outcome: SubmitOutcome<BookingRecord>)
      requires Valid() && !isSuccess
      modifies this`isSubmitting, this`inFlight
      ensures Valid()
      ensures old(isSubmitting) ==> outcome == Refused && unchanged(this)
      ensures !old(isSubmitting) && !Passes(BookingSchema, values, isEmail) ==>
        outcome == Rejected(Errors(BookingSchema, values, isEmail)) && unchanged(this)
      ensures !old(isSubmitting) && Passes(BookingSchema, values, isEmail) ==>
        && outcome == Started(ToRecord(values, isEmail))
        && isSubmitting
        && inFlight == Some(ToRecord(values, isEmail))
    {
      if isSubmitting {
        return Refused;
      }
      if !Passes(BookingSchema, values, isEmail) {
        return Rejected(Errors(BookingSchema, values, isEmail));
      }
      var record := ToRecord(values, isEmail);
      isSubmitting := true;
      inFlight := Some(record);
      outcome := Started(record);
    }

    /** The outcome of the in-flight write. */
    method Settle(writeSucceeded: bool)
      requires Valid() && isSubmitting
      modifies this
      ensures Valid()
      ensures !isSubmitting && inFlight == None
      ensures writeSucceeded ==>
        && isSuccess
        && values == Defaults(preselectedCourse)
        && written == old(written) + [old(inFlight).value]
      ensures !writeSucceeded ==>
        && !isSuccess
        && values == old(values)
        && written == old(written)
    {
      if writeSucceeded {
        written := written + [inFlight.value];
        isSuccess := true;
        values := Defaults(preselectedCourse);
      }
      isSubmitting := false;
      inFlight := None;
    }

    /** "Book Another Course" on the confirmation panel. */
    method BookAnother()
      requires Valid() && isSuccess
      modifies this`isSuccess, this`values
      ensures Valid()
      ensures !isSuccess && values == Defaults(preselectedCourse)
    {
      isSuccess := false;
      values := Defaults(preselectedCourse);
    }
  }

  /**
   * A valid submission: a second click while the write is pending is refused,
   * a failed write keeps the input, the same input may be sent again, and a
   * successful write stores exactly that record and restores the defaults.
   */
  method RetryAfterFailure(form: BookingForm)
    requires form.Valid() && !form.isSubmitting && !form.isSuccess && form.written == []
    requires Passes(BookingSchema, form.values, form.isEmail)
    modifies form
    ensures form.Valid() && !form.isSubmitting && form.isSuccess
    ensures form.written == [ToRecord(old(form.values), form.isEmail)]
    ensures form.values == Defaults(form.preselectedCourse)
  {
    var entered := form.values;
    var first := form.Submit();
    assert first == Started(ToRecord(entered, form.isEmail));
    var again := form.Submit();
    assert again == Refused && form.inFlight == Some(first.data);
    form.Settle(false);
    assert form.values == entered && !form.isSuccess && form.written == [];
    var retry := form.Submit();
    assert retry == first;
    form.Settle(true);
    assert form.isSuccess && form.written == [first.data];
    assert form.values == Defaults(form.preselectedCourse);
  }
}
