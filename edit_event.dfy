/** The event editing page (src/pages/EditEventPage.tsx): the organizer and
    paid-plan checks, the form pre-filled from the event, the three fields
    that stay editable, their validation, and where a successful submit
    leads. */
module EditEvent {
  import opened Types
  import opened EventForm
  import Text
  import CreateEvent

  /** Non-organizers are sent to '/', organizers without a paid plan to
      '/upgrade'; only paying organizers stay. */
  function Redirect(user: Option<User>): (r: Option<string>)
    ensures r.None? <==> user.Some? && user.value.isOrganizer && user.value.hasPaidPlan
    ensures !(user.Some? && user.value.isOrganizer) ==> r == Some("/")
    ensures user.Some? && user.value.isOrganizer && !user.value.hasPaidPlan ==> r == Some("/upgrade")
  {
    if !(user.Some? && user.value.isOrganizer) then Some("/")
    else if !user.value.hasPaidPlan then Some("/upgrade")
    else None
  }

  /** The form as the page opens: the values of the event being edited. */
  const InitialForm := Form(
    "Hamlet at Dramaten",
    "Classic Shakespeare tragedy " + "performed by Sweden's finest actors",
    "John Doe as Hamlet, Jane Smith as Ophelia",
    "drama",
    "theater",
    "Dramaten, Stockholm",
    "2024-12-15",
    "19:00",
    "450",
    "https://images.unsplash.com/photo-1503095396549-807759245b35?w=800")

  /** The fields with an input that calls `handleChange`; every other input
      is disabled. */
  const Editable: set<Field> := {Title, Description, Time}

  /** The read-only fields of `a` and `b` agree. */
  predicate ReadOnlyAgree(a: Form, b: Form)
  {
    forall f :: f !in Editable ==> a.Get(f) == b.Get(f)
  }

  /** Changing an editable field leaves every read-only field alone. */
  lemma EditingKeepsReadOnly(form: Form, f: Field, value: string)
    requires f in Editable
    ensures ReadOnlyAgree(form.With(f, value), form)
  {
  }

  /** Whether a field blocks saving: title and description must contain
      something besides whitespace, time must be non-empty; nothing else is
      checked. */
  predicate Invalid(form: Form, f: Field)
  {
    match f
    case Title => Text.AllWhitespace(form.title)
    case Description => Text.AllWhitespace(form.description)
    case Time => form.time == ""
    case _ => false
  }

  /** Editing checks what creation checks, restricted to the editable
      fields. */
  lemma InvalidIsCreateRestricted(form: Form, f: Field)
    ensures Invalid(form, f) <==> f in Editable && CreateEvent.Invalid(form, f)
  {
  }

  /** The error record `validateForm` builds, check by check in the page's
      order. */
  function Validate(t: string -> string, form: Form): Errors
  {
    var e1 := CreateEvent.AddIf(map[], Text.AllWhitespace(form.title), t(RequiredKey(Title)), Title);
    var e2 := CreateEvent.AddIf(e1, Text.AllWhitespace(form.description), t(RequiredKey(Description)), Description);
    CreateEvent.AddIf(e2, form.time == "", t(RequiredKey(Time)), Time)
  }

  /** The record has a message for a field exactly when that field blocks
      saving, and the message is the translation of the field's
      required-field key. */
  lemma ValidateMeaning(t: string -> string, form: Form, f: Field)
    ensures f in Validate(t, form) <==> Invalid(form, f)
    ensures f in Validate(t, form) ==> Validate(t, form)[f] == t(RequiredKey(f))
  {
  }

  /** The edit page's record is the creation page's record restricted to
      the editable fields. */
  lemma ValidateIsCreateRestricted(t: string -> string, form: Form, f: Field)
    ensures f in Validate(t, form) <==> f in Editable && f in CreateEvent.Validate(t, form)
    ensures f in Validate(t, form) ==> Validate(t, form)[f] == CreateEvent.Validate(t, form)[f]
  {
    ValidateMeaning(t, form, f);
    CreateEvent.ValidateMeaning(t, form, f);
  }


  /** The event as loaded passes both this page's validation and the
      creation page's. */
  lemma InitialFormIsValid(t: string -> string)
    ensures Validate(t, InitialForm) == map[]
    ensures CreateEvent.Validate(t, InitialForm) == map[]
  {
    assert InitialForm.title[0] == 'H' && !Text.IsWhitespace('H');
    assert InitialForm.description[0] == 'C' && !Text.IsWhitespace('C');
    assert InitialForm.location[0] == 'D' && !Text.IsWhitespace('D');
  }

  /** The page's state for a signed-in paying organizer. */
  class EditEventPage {
    const user: Option<User>
    var formData: Form
    var errors: Errors

    /** The read-only fields still hold the event's values. */
    predicate Valid()
      reads this
    {
      ReadOnlyAgree(formData, InitialForm)
    }

    constructor (signedIn: Option<User>)
      ensures user == signedIn && formData == InitialForm && errors == map[]
      ensures Valid()
    {
      user := signedIn;
      formData := InitialForm;
      errors := map[];
    }

    /** `handleChange`: sets one field and clears that field's message. */
    method HandleChange(f: Field, value: string)
      modifies this`formData, this`errors
      ensures formData == old(formData).With(f, value)
      ensures errors == ClearError(old(errors), f)
    {
      formData := formData.With(f, value);
      if f in errors && errors[f] != "" {
        errors := errors[f := ""];
      }
    }

    /** The title input. */
    method ChangeTitle(value: string)
      requires Valid()
      modifies this`formData, this`errors
      ensures formData == old(formData).(title := value)
      ensures errors == ClearError(old(errors), Title)
      ensures Valid()
    {
      HandleChange(Title, value);
    }

    /** The description input. */
    method ChangeDescription(value: string)
      requires Valid()
      modifies this`formData, this`errors
      ensures formData == old(formData).(description := value)
      ensures errors == ClearError(old(errors), Description)
      ensures Valid()
    {
      HandleChange(Description, value);
    }

    /** The time input. */
    method ChangeTime(value: string)
      requires Valid()
      modifies this`formData, this`errors
      ensures formData == old(formData).(time := value)
      ensures errors == ClearError(old(errors), Time)
      ensures Valid()
    {
      HandleChange(Time, value);
    }

    /** `validateForm`: replaces the error record with the checks' result
        and reports whether it is empty. */
    method ValidateForm(t: string -> string) returns (ok: bool)
      modifies this`errors
      ensures errors == Validate(t, formData)
      ensures ok <==> errors == map[]
      ensures ok <==> forall f :: !Invalid(formData, f)
    {
      var newErrors: Errors := map[];
      newErrors := CreateEvent.SetErrorIf(newErrors, Text.Blank(formData.title), Title, t(RequiredKey(Title)));
      newErrors := CreateEvent.SetErrorIf(newErrors, Text.Blank(formData.description), Description, t(RequiredKey(Description)));
      newErrors := CreateEvent.SetErrorIf(newErrors, formData.time == "", Time, t(RequiredKey(Time)));
      errors := newErrors;
      ok := |newErrors| == 0;
      var form := formData;
      forall f
        ensures f in Validate(t, form) <==> Invalid(form, f)
      {
        ValidateMeaning(t, form, f);
      }
      NoErrorsIff(Validate(t, form), f => Invalid(form, f));
    }

    /** `handleSubmit`: an invalid form stops at validation, a valid one
        leads back to the dashboard. */
    method HandleSubmit(t: string -> string) returns (route: Option<string>)
      modifies this`errors
      ensures errors == Validate(t, formData)
      ensures route.None? <==> exists f :: Invalid(formData, f)
      ensures route.Some? ==> route.value == "/dashboard"
    {
      var ok := ValidateForm(t);
      if !ok {
        return None;
      }
      route := Some("/dashboard");
    }
  }
}
