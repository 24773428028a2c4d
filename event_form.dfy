/** What the event creation and event editing pages share: the form
    record, the error record keyed by field, the required-field messages,
    and the error-clearing step of `handleChange`. */
module EventForm {
  import opened Types

  /** The fields of the form. */
  datatype Field = Title | Description | Cast | Genre | Category | Location | Date | Time | Price | ImageUrl

  /** The form's values, all strings as typed. */
  datatype Form = Form(
    title: string,
    description: string,
    cast: string,
    genre: string,
    category: string,
    location: string,
    date: string,
    time: string,
    price: string,
    imageUrl: string)
  {
    /** `formData[field]`. */
    function Get(f: Field): string
    {
      match f
      case Title => title
      case Description => description
      case Cast => cast
      case Genre => genre
      case Category => category
      case Location => location
      case Date => date
      case Time => time
      case Price => price
      case ImageUrl => imageUrl
    }

    /** `{ ...formData, [field]: value }`: the named field takes the value,
        every other field keeps its own. */
    function With(f: Field, value: string): (r: Form)
      ensures r.Get(f) == value
      ensures forall g :: g != f ==> r.Get(g) == Get(g)
    {
      match f
      case Title => this.(title := value)
      case Description => this.(description := value)
      case Cast => this.(cast := value)
      case Genre => this.(genre := value)
      case Category => this.(category := value)
      case Location => this.(location := value)
      case Date => this.(date := value)
      case Time => this.(time := value)
      case Price => this.(price := value)
      case ImageUrl => this.(imageUrl := value)
    }
  }

  /** The error record: a message per field, where '' means no message. */
  type Errors = map<Field, string>

  /** An error record holding exactly the fields a check rejects is empty
      exactly when the check rejects no field. */
  lemma NoErrorsIff(errors: Errors, invalid: Field -> bool)
    requires forall f :: f in errors <==> invalid(f)
    ensures errors == map[] <==> forall f :: !invalid(f)
  {
    if errors != map[] {
      var f :| f in errors;
    }
  }

  /** The fields that have a required-field message. */
  const Required: set<Field> := {Title, Description, Genre, Category, Location, Date, Time, Price}

  /** The translation key of a field's required-field message; the two
      optional fields have none. */
  function RequiredKey(f: Field): string
  {
    match f
    case Title => "titleRequired"
    case Description => "descriptionRequired"
    case Genre => "genreRequired"
    case Category => "categoryRequired"
    case Location => "locationRequired"
    case Date => "dateRequired"
    case Time => "timeRequired"
    case Price => "priceRequired"
    case Cast => ""
    case ImageUrl => ""
  }

  /** The error-clearing step of `handleChange`: a field with a non-empty
      message gets '' instead; no field is added or removed and every other
      message is kept. */
  function ClearError(errors: Errors, f: Field): (r: Errors)
    ensures r.Keys == errors.Keys
    ensures f in r ==> r[f] == ""
    ensures forall g :: g in errors && g != f ==> r[g] == errors[g]
  {
    if f in errors && errors[f] != "" then errors[f := ""] else errors
  }

  /** After a field is edited no message is shown for it, and a field
      without a message stays without one. */
  lemma ClearErrorIdempotent(errors: Errors, f: Field)
    ensures ClearError(ClearError(errors, f), f) == ClearError(errors, f)
    ensures f !in errors ==> ClearError(errors, f) == errors
  {
  }
}
