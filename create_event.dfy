/** The event creation page (src/pages/CreateEventPage.tsx): the organizer
    check, the form with its field handler, the validation of the required
    fields, and where a successful submit leads. */
module CreateEvent {
  import opened Types
  import opened EventForm
  import Text
  import Auth

  /** Only organizers may create events; everyone else is sent to '/'. */
  function Redirect(user: Option<User>): Option<string>
  {
    Auth.OrganizerOnly(user, "/")
  }

  /** The form as the page opens. */
  const EmptyForm := Form("", "", "", "", "", "", "", "", "", "")

  /** Whether a field blocks creation: title, description and location
      must contain something besides whitespace (they are blank after
      trimming exactly when they are all whitespace, see `Text.Blank`), the
      five other required fields must merely be non-empty, and cast and
      image URL are optional. */
  predicate Invalid(form: Form, f: Field)
  {
    match f
    case Title => Text.AllWhitespace(form.title)
    case Description => Text.AllWhitespace(form.description)
    case Location => Text.AllWhitespace(form.location)
    case Genre => form.genre == ""
    case Category => form.category == ""
    case Date => form.date == ""
    case Time => form.time == ""
    case Price => form.price == ""
    case Cast => false
    case ImageUrl => false
  }

  /** One check of `validateForm`: when `blocked`, field `f` gets the
      message `m`. */
  function AddIf(errors: Errors, blocked: bool, m: string, f: Field): Errors
  {
    if blocked then errors[f := m] else errors
  }

  /** A check adds its own field when it blocks, and leaves every other
      field's message as it was. */
  lemma AddIfMeaning(errors: Errors, blocked: bool, m: string, f: Field, g: Field)
    ensures g in AddIf(errors, blocked, m, f) <==> (blocked && g == f) || g in errors
    ensures g in AddIf(errors, blocked, m, f) ==>
      AddIf(errors, blocked, m, f)[g] == if blocked && g == f then m else errors[g]
  {
  }

  /** The error record `validateForm` builds with the translation function
      `t` of the language context, check by check in the page's order. */
  function Validate(t: string -> string, form: Form): Errors
  {
    var e1 := AddIf(map[], Text.AllWhitespace(form.title), t(RequiredKey(Title)), Title);
    var e2 := AddIf(e1, Text.AllWhitespace(form.description), t(RequiredKey(Description)), Description);
    var e3 := AddIf(e2, form.genre == "", t(RequiredKey(Genre)), Genre);
    var e4 := AddIf(e3, form.category == "", t(RequiredKey(Category)), Category);
    var e5 := AddIf(e4, Text.AllWhitespace(form.location), t(RequiredKey(Location)), Location);
    var e6 := AddIf(e5, form.date == "", t(RequiredKey(Date)), Date);
    var e7 := AddIf(e6, form.time == "", t(RequiredKey(Time)), Time);
    AddIf(e7, form.price == "", t(RequiredKey(Price)), Price)
  }

  /** The record has a message for a field exactly when that field blocks
      creation, and the message is the translation of the field's
      required-field key. */
  lemma ValidateMeaning(t: string -> string, form: Form, f: Field)
    ensures f in Validate(t, form) <==> Invalid(form, f)
    ensures f in Validate(t, form) ==> Validate(t, form)[f] == t(RequiredKey(f))
  {
    ValidateKeys(t, form, f);
    ValidateMessages(t, form, f);
  }

  lemma ValidateKeys(t: string -> string, form: Form, f: Field)
    ensures f in Validate(t, form) <==> Invalid(form, f)
  {
    match f
    case Title => ValidateKeysTrimmed(t, form);
    case Description => ValidateKeysTrimmed(t, form);
    case Location => ValidateKeysTrimmed(t, form);
    case Genre => ValidateKeysChosen(t, form);
    case Category => ValidateKeysChosen(t, form);
    case Date => ValidateKeysEntered(t, form);
    case Time => ValidateKeysEntered(t, form);
    case Price => ValidateKeysEntered(t, form);
    case Cast =>
    case ImageUrl =>
  }

  lemma ValidateKeysTrimmed(t: string -> string, form: Form)
    ensures Title in Validate(t, form) <==> Text.AllWhitespace(form.title)
    ensures Description in Validate(t, form) <==> Text.AllWhitespace(form.description)
    ensures Location in Validate(t, form) <==> Text.AllWhitespace(form.location)
  {
  }

  lemma ValidateKeysChosen(t: string -> string, form: Form)
    ensures Genre in Validate(t, form) <==> form.genre == ""
    ensures Category in Validate(t, form) <==> form.category == ""
  {
  }

  lemma ValidateKeysEntered(t: string -> string, form: Form)
    ensures Date in Validate(t, form) <==> form.date == ""
    ensures Time in Validate(t, form) <==> form.time == ""
    ensures Price in Validate(t, form) <==> form.price == ""
  {
  }

  lemma ValidateMessages(t: string -> string, form: Form, f: Field)
    ensures f in Validate(t, form) ==> Validate(t, form)[f] == t(RequiredKey(f))
  {
    var e1 := AddIf(map[], Text.AllWhitespace(form.title), t(RequiredKey(Title)), Title);
    var e2 := AddIf(e1, Text.AllWhitespace(form.description), t(RequiredKey(Description)), Description);
    var e3 := AddIf(e2, form.genre == "", t(RequiredKey(Genre)), Genre);
    var e4 := AddIf(e3, form.category == "", t(RequiredKey(Category)), Category);
    var e5 := AddIf(e4, Text.AllWhitespace(form.location), t(RequiredKey(Location)), Location);
    var e6 := AddIf(e5, form.date == "", t(RequiredKey(Date)), Date);
    var e7 := AddIf(e6, form.time == "", t(RequiredKey(Time)), Time);
    AddIfMeaning(map[], Text.AllWhitespace(form.title), t(RequiredKey(Title)), Title, f);
    AddIfMeaning(e1, Text.AllWhitespace(form.description), t(RequiredKey(Description)), Description, f);
    AddIfMeaning(e2, form.genre == "", t(RequiredKey(Genre)), Genre, f);
    AddIfMeaning(e3, form.category == "", t(RequiredKey(Category)), Category, f);
    AddIfMeaning(e4, Text.AllWhitespace(form.location), t(RequiredKey(Location)), Location, f);
    AddIfMeaning(e5, form.date == "", t(RequiredKey(Date)), Date, f);
    AddIfMeaning(e6, form.time == "", t(RequiredKey(Time)), Time, f);
    AddIfMeaning(e7, form.price == "", t(RequiredKey(Price)), Price, f);
  }


  /** Trimming applies to title, description and location only: a
      whitespace-only title is rejected, a whitespace-only genre, category,
      date, time or price is accepted. */
  lemma OnlyTextFieldsAreTrimmed(t: string -> string, form: Form, blank: string)
    requires blank != "" && Text.AllWhitespace(blank)
    ensures Title in Validate(t, form.With(Title, blank))
    ensures Description in Validate(t, form.With(Description, blank))
    ensures Location in Validate(t, form.With(Location, blank))
    ensures Genre !in Validate(t, form.With(Genre, blank))
    ensures Category !in Validate(t, form.With(Category, blank))
    ensures Date !in Validate(t, form.With(Date, blank))
    ensures Time !in Validate(t, form.With(Time, blank))
    ensures Price !in Validate(t, form.With(Price, blank))
  {
    ValidateMeaning(t, form.With(Title, blank), Title);
    ValidateMeaning(t, form.With(Description, blank), Description);
    ValidateMeaning(t, form.With(Location, blank), Location);
    ValidateMeaning(t, form.With(Genre, blank), Genre);
    ValidateMeaning(t, form.With(Category, blank), Category);
    ValidateMeaning(t, form.With(Date, blank), Date);
    ValidateMeaning(t, form.With(Time, blank), Time);
    ValidateMeaning(t, form.With(Price, blank), Price);
  }

  /** Cast and image URL never produce a message, and what is typed into
      them never changes the messages of the other fields. */
  lemma OptionalFieldsNeverBlock(t: string -> string, form: Form, value: string)
    ensures Cast !in Validate(t, form) && ImageUrl !in Validate(t, form)
    ensures Validate(t, form.With(Cast, value)) == Validate(t, form)
    ensures Validate(t, form.With(ImageUrl, value)) == Validate(t, form)
  {
    ValidateMeaning(t, form, Cast);
    ValidateMeaning(t, form, ImageUrl);
  }

  /** Submitting the untouched form reports all eight required fields,
      and nothing else. */
  lemma EmptyFormReportsAllRequired(t: string -> string)
    ensures forall f :: f in Validate(t, EmptyForm) <==> f in Required
  {
    forall f
      ensures f in Validate(t, EmptyForm) <==> f in Required
    {
      ValidateMeaning(t, EmptyForm, f);
    }
  }

  /** One check of `validateForm`: `if (blocked) newErrors[f] = m`. */
  method SetErrorIf(errors: Errors, blocked: bool, f: Field, m: string) returns (r: Errors)
    ensures r == AddIf(errors, blocked, m, f)
  {
    r := errors;
    if blocked {
      r := r[f := m];
    }
  }

  /** The checks of `validateForm`, in the page's order, starting from an
      empty error record. */
  method CollectErrors(t: string -> string, formData: Form) returns (newErrors: Errors)
    ensures newErrors == Validate(t, formData)
  {
    newErrors := map[];
    newErrors := SetErrorIf(newErrors, Text.Blank(formData.title), Title, t(RequiredKey(Title)));
    newErrors := SetErrorIf(newErrors, Text.Blank(formData.description), Description, t(RequiredKey(Description)));
    newErrors := SetErrorIf(newErrors, formData.genre == "", Genre, t(RequiredKey(Genre)));
    newErrors := SetErrorIf(newErrors, formData.category == "", Category, t(RequiredKey(Category)));
    newErrors := SetErrorIf(newErrors, Text.Blank(formData.location), Location, t(RequiredKey(Location)));
    newErrors := SetErrorIf(newErrors, formData.date == "", Date, t(RequiredKey(Date)));
    newErrors := SetErrorIf(newErrors, formData.time == "", Time, t(RequiredKey(Time)));
    newErrors := SetErrorIf(newErrors, formData.price == "", Price, t(RequiredKey(Price)));
  }

  /** Where a valid submit leads: the upgrade page without a paid plan,
      otherwise the dashboard. */
  function SubmitRoute(user: Option<User>): (r: string)
    ensures r == "/dashboard" <==> user.Some? && user.value.hasPaidPlan
    ensures r == "/upgrade" <==> !(user.Some? && user.value.hasPaidPlan)
  {
    if !(user.Some? && user.value.hasPaidPlan) then "/upgrade" else "/dashboard"
  }

  /** The page's state for a signed-in organizer. */
  class CreateEventPage {
    const user: Option<User>
    var formData: Form
    var errors: Errors

    constructor (signedIn: Option<User>)
      ensures user == signedIn && formData == EmptyForm && errors == map[]
    {
      user := signedIn;
      formData := EmptyForm;
      errors := map[];
    }

    /** `handleChange`: sets one field and clears that field's message. */
    method HandleChange(f: Field, value: string)
      modifies this`formData, this`errors
      ensures formData == old(formData).With(f, value)
      ensures errors == ClearError(old(errors), f)
    {
      formData := formData.With(f, value);
      if f in errors && errors[f] != "" {
        errors := errors[f := ""];
      }
    }

    /** `validateForm`: builds the error record field by field, replaces
        the previous one with it, and reports whether it is empty. */
    method ValidateForm(t: string -> string) returns (ok: bool)
      modifies this`errors
      ensures errors == Validate(t, formData)
      ensures ok <==> errors == map[]
      ensures ok <==> forall f :: !Invalid(formData, f)
    {
      var newErrors := CollectErrors(t, formData);
      errors := newErrors;
      ok := |newErrors| == 0;
      var form := formData;
      forall f
        ensures f in Validate(t, form) <==> Invalid(form, f)
      {
        ValidateMeaning(t, form, f);
      }
      NoErrorsIff(Validate(t, form), f => Invalid(form, f));
    }

    /** `handleSubmit`: validation first; an invalid form stops there, a
        valid one leads on according to the plan. */
    method HandleSubmit(t: string -> string) returns (route: Option<string>)
      modifies this`errors
      ensures errors == Validate(t, formData)
      ensures route.None? <==> exists f :: Invalid(formData, f)
      ensures route.Some? ==> route.value == SubmitRoute(user)
    {
      var ok := ValidateForm(t);
      if !ok {
        return None;
      }
      route := Some(SubmitRoute(user));
    }
  }
}
