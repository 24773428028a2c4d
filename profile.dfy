/** The profile page (src/pages/ProfilePage.tsx): the saved and created
    event lists, the edit buffer for name and bio with its save and cancel
    buttons, and where an event card leads. */
module Profile {
  import opened Types
  import opened Lists
  import Auth

  /** `mockEvents.slice(0, 3)`: the first three catalogue events, or all of
      them when there are fewer. */
  function SavedEvents(events: seq<Event>): (r: seq<Event>)
    ensures |r| == if |events| < 3 then |events| else 3
    ensures r <= events
  {
    if |events| < 3 then events else events[..3]
  }

  /** `mockEvents.filter(e => e.organizerId === user?.id)`. Signed out,
      `user?.id` is undefined and no organizer id equals it. */
  function CreatedEvents(events: seq<Event>, user: Option<User>): seq<Event>
  {
    match user
    case None => []
    case Some(u) => Filter(events, (e: Event) => e.organizerId == u.id)
  }

  /** The created events are exactly the catalogue events the user
      organizes, in catalogue order. */
  lemma CreatedEventsMembers(events: seq<Event>, u: User, e: Event)
    ensures e in CreatedEvents(events, Some(u)) <==> e in events && e.organizerId == u.id
    ensures IsSubsequence(CreatedEvents(events, Some(u)), events)
    ensures CreatedEvents(events, None) == []
  {
    FilterMembers(events, (e: Event) => e.organizerId == u.id, e);
    FilterIsSubsequence(events, (e: Event) => e.organizerId == u.id);
  }

  /** `user?.name || ''`. */
  function NameOf(user: Option<User>): (r: string)
    ensures user.Some? ==> r == user.value.name
    ensures user.None? ==> r == ""
  {
    if user.Some? then user.value.name else ""
  }

  /** `user?.bio || ''`. */
  function BioOf(user: Option<User>): (r: string)
    ensures user.Some? ==> r == user.value.bio
    ensures user.None? ==> r == ""
  {
    if user.Some? then user.value.bio else ""
  }

  const EventPrefix := "/event/"

  /** `handleEventClick`: the detail page of the event. Different events
      lead to different pages. */
  function EventRoute(eventId: string): (r: string)
    ensures EventPrefix <= r && r[|EventPrefix|..] == eventId
  {
    EventPrefix + eventId
  }

  lemma EventRouteInjective(a: string, b: string)
    requires EventRoute(a) == EventRoute(b)
    ensures a == b
  {
    assert a == EventRoute(a)[|EventPrefix|..];
  }

  /** The page's state; `store` is the authentication provider. */
  class ProfilePage {
    const store: Auth.AuthStore
    var isEditing: bool
    var editedName: string
    var editedBio: string

    /** Not editing, with the buffer holding the user's name and bio. */
    constructor (auth: Auth.AuthStore)
      ensures store == auth && !isEditing
      ensures editedName == NameOf(auth.user) && editedBio == BioOf(auth.user)
    {
      store := auth;
      isEditing := false;
      editedName := NameOf(auth.user);
      editedBio := BioOf(auth.user);
    }

    /** The edit button. */
    method StartEditing()
      modifies this`isEditing
      ensures isEditing
    {
      isEditing := true;
    }

    /** The name input. */
    method SetEditedName(name: string)
      modifies this`editedName
      ensures editedName == name
    {
      editedName := name;
    }

    /** The bio input. */
    method SetEditedBio(bio: string)
      modifies this`editedBio
      ensures editedBio == bio
    {
      editedBio := bio;
    }

    /** `handleSave`: the buffer's name and bio become the signed-in user's,
        everything else about the user is kept, and editing ends. */
    method HandleSave()
      modifies this`isEditing, store`user
      ensures !isEditing
      ensures old(store.user).None? ==> store.user == None
      ensures old(store.user).Some? ==> store.user == Some(old(store.user).value.(name := editedName, bio := editedBio))
      ensures NameOf(store.user) == (if store.user.Some? then editedName else "")
      ensures BioOf(store.user) == (if store.user.Some? then editedBio else "")
    {
      store.UpdateUser(Auth.EmptyPatch.(name := Some(editedName), bio := Some(editedBio)));
      isEditing := false;
    }

    /** `handleCancel`: the buffer goes back to the user's name and bio
        ('' when signed out), the user is untouched, and editing ends. */
    method HandleCancel()
      modifies this`isEditing, this`editedName, this`editedBio
      ensures !isEditing
      ensures editedName == NameOf(store.user) && editedBio == BioOf(store.user)
    {
      editedName := NameOf(store.user);
      editedBio := BioOf(store.user);
      isEditing := false;
    }
  }

  /** Saving and then editing again and cancelling shows what was saved:
      the buffer is reset from the user that the save updated. */
  method SaveThenCancel(page: ProfilePage, name: string, bio: string)
    requires page.store.user.Some?
    modifies page, page.store`user
    ensures !page.isEditing
    ensures page.editedName == name && page.editedBio == bio
    ensures page.store.user == Some(old(page.store.user).value.(name := name, bio := bio))
  {
    page.StartEditing();
    page.SetEditedName(name);
    page.SetEditedBio(bio);
    page.HandleSave();
    page.StartEditing();
    page.HandleCancel();
  }

  /** Cancelling an edit without saving discards it: the user is untouched
      and the buffer holds the user's name and bio again. */
  method EditThenCancel(page: ProfilePage, name: string, bio: string)
    modifies page
    ensures !page.isEditing
    ensures page.store.user == old(page.store.user)
    ensures page.editedName == NameOf(old(page.store.user)) && page.editedBio == BioOf(old(page.store.user))
  {
    page.StartEditing();
    page.SetEditedName(name);
    page.SetEditedBio(bio);
    page.HandleCancel();
  }
}
