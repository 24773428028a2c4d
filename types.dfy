/** Record shapes of the application (src/types/index.ts) and the small
    wrapper types the rest of the model uses for optional values and errors. */
module Types {

  /** JavaScript's `undefined`/`null` for an optional value. */
  datatype Option<+T> = None | Some(value: T)
  {
    function GetOr(default: T): T
    {
      match this
      case Some(v) => v
      case None => default
    }
  }

  /** The outcome of an operation that can throw: `Fail` carries the
      message of the thrown `Error`. */
  datatype Outcome = Pass | Fail(message: string)

  /** An operation that either yields a value or throws. */
  datatype Result<+T> = Ok(value: T) | Err(message: string)

  /** A catalogue event. `date` is a day number (days since some fixed
      epoch) instead of a 'YYYY-MM-DD' string; price and coordinates are
      floating-point values that no modelled operation reads and are left
      out. */
  datatype Event = Event(
    id: string,
    title: string,
    description: string,
    date: int,
    time: string,
    location: string,
    category: string,
    genre: string,
    currency: string,
    imageUrl: string,
    organizerId: string,
    organizerName: string,
    organizerAvatar: string,
    attendees: int,
    isSponsored: bool)

  /** A user account; `preferredGenres` is optional in the source. */
  datatype User = User(
    id: string,
    name: string,
    email: string,
    avatar: string,
    bio: string,
    isOrganizer: bool,
    hasPaidPlan: bool,
    followers: int,
    following: int,
    preferredGenres: Option<seq<string>>)

  /** A social-feed post, optionally referring to an event by id. */
  datatype Post = Post(
    id: string,
    userId: string,
    userName: string,
    userAvatar: string,
    content: string,
    eventId: Option<string>,
    eventTitle: Option<string>,
    eventImage: Option<string>,
    timestamp: string,
    likes: int,
    comments: int)

  /** The two interface languages. */
  datatype Language = En | Sv
}
