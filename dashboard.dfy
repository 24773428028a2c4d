/** The organizer dashboard (src/pages/DashboardPage.tsx): the event list
    narrowed by the category, genre and date selects, the row selection
    with its select-all checkbox, bulk delete, the edit button's paywall and
    the redirect of non-organizers. */
module Dashboard {
  import opened Types
  import opened Lists
  import opened EventFilters
  import Auth

  /** The filter predicate of the event list. */
  predicate EventVisible(f: Filters, e: Event, c: Calendar)
  {
    FieldMatches(f.category, e.category) && FieldMatches(f.genre, e.genre) && DateMatches(f.date, e.date, c)
  }

  /** The rows the dashboard shows, in list order. */
  function FilteredEvents(events: seq<Event>, f: Filters, c: Calendar): seq<Event>
  {
    Filter(events, e => EventVisible(f, e, c))
  }

  /** A row is shown exactly when its category and genre pass their selects
      and its date passes the date bucket. */
  lemma FilteredEventsMembers(events: seq<Event>, f: Filters, c: Calendar, e: Event)
    ensures e in FilteredEvents(events, f, c) <==>
      e in events
      && (f.category == "all" || e.category == f.category)
      && (f.genre == "all" || e.genre == f.genre)
      && DateMatches(f.date, e.date, c)
  {
    FilterMembers(events, e => EventVisible(f, e, c), e);
  }

  /** The shown rows keep the list order, and filtering them again changes
      nothing. */
  lemma FilteredEventsOrderAndIdempotence(events: seq<Event>, f: Filters, c: Calendar)
    ensures IsSubsequence(FilteredEvents(events, f, c), events)
    ensures FilteredEvents(FilteredEvents(events, f, c), f, c) == FilteredEvents(events, f, c)
  {
    FilterIsSubsequence(events, e => EventVisible(f, e, c));
    FilterIdempotent(events, e => EventVisible(f, e, c));
  }

  /** With the three selects on 'all' every event is shown. */
  lemma NoFiltersShowsAll(events: seq<Event>, c: Calendar)
    ensures FilteredEvents(events, NoFilters, c) == events
  {
    FilterKeepsAll(events, e => EventVisible(NoFilters, e, c));
  }

  /** The ids of the shown rows, in order. */
  function Ids(events: seq<Event>): seq<string>
  {
    seq(|events|, i requires 0 <= i < |events| => events[i].id)
  }

  /** The selection after clicking the select-all checkbox: cleared when it
      has as many entries as there are shown rows, otherwise every shown
      row. Only the counts are compared. */
  function SelectAll(selected: seq<string>, visibleIds: seq<string>): (r: seq<string>)
    ensures r == [] || r == visibleIds
    ensures r == [] <==> |selected| == |visibleIds| || visibleIds == []
  {
    if |selected| == |visibleIds| then [] else visibleIds
  }

  /** Clicking select-all on an empty selection selects every shown row,
      and clicking again clears it. */
  lemma SelectAllTwice(visibleIds: seq<string>)
    requires visibleIds != []
    ensures SelectAll([], visibleIds) == visibleIds
    ensures SelectAll(SelectAll([], visibleIds), visibleIds) == []
  {
  }

  /** Because only counts are compared, a selection of other rows that
      happens to have as many entries as the shown rows is cleared instead
      of completed. */
  lemma SelectAllComparesCountsOnly()
    ensures SelectAll(["9"], ["1"]) == []
  {
  }

  /** A full selection drawn from duplicate-free rows is duplicate-free. */
  lemma SelectAllNoDuplicates(selected: seq<string>, visibleIds: seq<string>)
    requires NoDuplicates(selected) && NoDuplicates(visibleIds)
    ensures NoDuplicates(SelectAll(selected, visibleIds))
  {
  }

  /** The redirect of the page: organizers stay, everyone else (including
      a visitor who is not signed in) goes to '/profile'. */
  function Redirect(user: Option<User>): Option<string>
  {
    Auth.OrganizerOnly(user, "/profile")
  }

  const EditPrefix := "/edit-event/"

  /** Where the edit button of a row leads. */
  function EditRoute(user: Option<User>, eventId: string): (r: string)
    ensures !(user.Some? && user.value.hasPaidPlan) ==> r == "/upgrade"
    ensures user.Some? && user.value.hasPaidPlan ==> EditPrefix <= r && r[|EditPrefix|..] == eventId
  {
    if !(user.Some? && user.value.hasPaidPlan) then "/upgrade" else EditPrefix + eventId
  }

  /** The paywall can be told from the edit route, and the edit route names
      the event: the route leads to editing exactly for paying users, and
      different events get different routes. */
  lemma EditRouteDecides(user: Option<User>, a: string, b: string)
    ensures EditPrefix <= EditRoute(user, a) <==> user.Some? && user.value.hasPaidPlan
    ensures user.Some? && user.value.hasPaidPlan && a != b ==> EditRoute(user, a) != EditRoute(user, b)
  {
    if user.Some? && user.value.hasPaidPlan && EditRoute(user, a) == EditRoute(user, b) {
      assert a == EditRoute(user, a)[|EditPrefix|..];
    }
    if !(user.Some? && user.value.hasPaidPlan) {
      assert EditRoute(user, a)[1] == 'u' != EditPrefix[1];
    }
  }

  /** The dashboard's state for a signed-in organizer. `events` is the
      page's own list and `calendar` today's date. */
  class DashboardPage {
    const events: seq<Event>
    const calendar: Calendar
    const user: Option<User>
    var selectedEvents: seq<string>
    var categoryFilter: string
    var genreFilter: string
    var dateFilter: string

    function CurrentFilters(): Filters
      reads this
    {
      Filters(categoryFilter, genreFilter, dateFilter)
    }

    function Shown(): seq<Event>
      reads this
    {
      FilteredEvents(events, CurrentFilters(), calendar)
    }

    /** The select-all checkbox is ticked when the selection has as many
        entries as there are shown rows and there is at least one. */
    predicate SelectAllChecked()
      reads this
    {
      |selectedEvents| == |Shown()| && |Shown()| > 0
    }

    constructor (rows: seq<Event>, today: Calendar, signedIn: Option<User>)
      ensures events == rows && calendar == today && user == signedIn
      ensures selectedEvents == [] && CurrentFilters() == NoFilters
    {
      events := rows;
      calendar := today;
      user := signedIn;
      selectedEvents := [];
      categoryFilter := "all";
      genreFilter := "all";
      dateFilter := "all";
    }

    /** Changing a select keeps the selection, even rows it now hides. */
    method SetFilters(f: Filters)
      modifies this`categoryFilter, this`genreFilter, this`dateFilter
      ensures CurrentFilters() == f
    {
      categoryFilter := f.category;
      genreFilter := f.genre;
      dateFilter := f.date;
    }

    /** `handleSelectAll`. */
    method HandleSelectAll()
      modifies this`selectedEvents
      ensures selectedEvents == SelectAll(old(selectedEvents), Ids(Shown()))
    {
      var shown := Shown();
      if |selectedEvents| == |shown| {
        selectedEvents := [];
      } else {
        selectedEvents := Ids(shown);
      }
    }

    /** `handleSelectEvent`: flips whether one row is selected. */
    method HandleSelectEvent(eventId: string)
      modifies this`selectedEvents
      ensures selectedEvents == Toggle(old(selectedEvents), eventId)
      ensures eventId in selectedEvents <==> eventId !in old(selectedEvents)
      ensures forall id :: id != eventId ==> (id in selectedEvents <==> id in old(selectedEvents))
      ensures NoDuplicates(old(selectedEvents)) ==> NoDuplicates(selectedEvents)
    {
      if NoDuplicates(selectedEvents) {
        ToggleNoDuplicates(selectedEvents, eventId);
      }
      if eventId in selectedEvents {
        selectedEvents := Remove(selectedEvents, eventId);
      } else {
        selectedEvents := selectedEvents + [eventId];
      }
    }

    /** `handleDeleteSelected`; `confirmed` is the answer to the browser's
        confirmation dialog. Deletion itself is mocked: only the selection
        is cleared. */
    method HandleDeleteSelected(confirmed: bool)
      modifies this`selectedEvents
      ensures confirmed ==> selectedEvents == []
      ensures !confirmed ==> selectedEvents == old(selectedEvents)
    {
      if confirmed {
        selectedEvents := [];
      }
    }
  }
}
