/** The public landing page (src/pages/LandingPage.tsx): the search box and
    the category, genre and location selects that narrow the event
    catalogue, the option lists of the two selects, and the FAQ accordion. */
module Landing {
  import opened Types
  import opened Lists
  import Text

  /** The four search inputs. */
  datatype Criteria = Criteria(query: string, category: string, genre: string, location: string)

  /** The state the page starts in and `resetFilters` returns to. */
  const Reset := Criteria("", "all", "all", "all")

  /** The lower-cased query occurs in the lower-cased title, description
      or location. */
  predicate MatchesQuery(query: string, e: Event)
  {
    var q := Text.Lower(query);
    Text.Contains(Text.Lower(e.title), q)
    || Text.Contains(Text.Lower(e.description), q)
    || Text.Contains(Text.Lower(e.location), q)
  }

  /** An empty query restricts nothing. */
  predicate QueryOk(query: string, e: Event)
  {
    query == "" || MatchesQuery(query, e)
  }

  predicate CategoryOk(category: string, e: Event)
  {
    category == "all" || e.category == category
  }

  predicate GenreOk(genre: string, e: Event)
  {
    genre == "all" || e.genre == genre
  }

  /** The location select compares case-sensitively, by containment. */
  predicate LocationOk(location: string, e: Event)
  {
    location == "all" || Text.Contains(e.location, location)
  }

  /** Every active criterion holds for `e`. */
  predicate Matches(c: Criteria, e: Event)
  {
    QueryOk(c.query, e) && CategoryOk(c.category, e) && GenreOk(c.genre, e) && LocationOk(c.location, e)
  }

  /** The events the page lists for the criteria `c`, in catalogue order. */
  function Visible(events: seq<Event>, c: Criteria): seq<Event>
  {
    Filter(events, e => Matches(c, e))
  }

  /** The filter is sound and complete: an event is listed exactly when it
      is in the catalogue and meets every active criterion. */
  lemma VisibleMembers(events: seq<Event>, c: Criteria, e: Event)
    ensures e in Visible(events, c) <==> e in events && Matches(c, e)
  {
    FilterMembers(events, e => Matches(c, e), e);
  }

  /** The listed events are the catalogue with some events deleted; none is
      added or moved. */
  lemma VisibleIsSubsequence(events: seq<Event>, c: Criteria)
    ensures IsSubsequence(Visible(events, c), events)
  {
    FilterIsSubsequence(events, e => Matches(c, e));
  }

  /** Filtering the listed events again with the same criteria changes
      nothing. */
  lemma VisibleIdempotent(events: seq<Event>, c: Criteria)
    ensures Visible(Visible(events, c), c) == Visible(events, c)
  {
    FilterIdempotent(events, e => Matches(c, e));
  }

  /** After `resetFilters` the whole catalogue is listed, in order. */
  lemma ResetShowsAll(events: seq<Event>)
    ensures Visible(events, Reset) == events
  {
    FilterKeepsAll(events, e => Matches(Reset, e));
  }

  /** A non-empty query matches exactly when its lower-cased form occurs at
      some position of the lower-cased title, description or location. */
  lemma QueryIsSubstringSearch(query: string, e: Event)
    requires query != ""
    ensures QueryOk(query, e) <==>
      (exists i :: Text.OccursAt(Text.Lower(e.title), Text.Lower(query), i))
      || (exists i :: Text.OccursAt(Text.Lower(e.description), Text.Lower(query), i))
      || (exists i :: Text.OccursAt(Text.Lower(e.location), Text.Lower(query), i))
  {
    Text.ContainsIff(Text.Lower(e.title), Text.Lower(query));
    Text.ContainsIff(Text.Lower(e.description), Text.Lower(query));
    Text.ContainsIff(Text.Lower(e.location), Text.Lower(query));
  }

  /** The query ignores case: a query and its lower-cased form match the
      same events. */
  lemma QueryIgnoresCase(query: string, e: Event)
    ensures MatchesQuery(query, e) == MatchesQuery(Text.Lower(query), e)
  {
    Text.LowerProperties(query);
  }

  /** The location select does not: 'stockholm' does not select an event
      located in 'Stockholm'. */
  lemma LocationIsCaseSensitive(e: Event)
    requires e.location == "Stockholm"
    ensures !LocationOk("stockholm", e)
  {
    assert e.location[0] == 'S' && "stockholm"[0] == 's';
    Text.ContainsNeedsRoom(e.location[1..], "stockholm");
  }

  /** `mockEvents.map(e => e.genre)`. */
  function Genres(events: seq<Event>): seq<string>
  {
    seq(|events|, i requires 0 <= i < |events| => events[i].genre)
  }

  /** The city part of a location: its last comma-separated part, trimmed. */
  function City(location: string): string
  {
    Text.Trim(Text.LastSegment(location))
  }

  function Cities(events: seq<Event>): seq<string>
  {
    seq(|events|, i requires 0 <= i < |events| => City(events[i].location))
  }

  /** The genre select's options: every genre of the catalogue, once, in
      order of first appearance. */
  function GenreOptions(events: seq<Event>): (r: seq<string>)
    ensures forall g :: g in r <==> exists i :: 0 <= i < |events| && events[i].genre == g
    ensures NoDuplicates(r)
    ensures IsSubsequence(r, Genres(events))
    ensures forall g :: g in r <==> g in Genres(events)
    ensures forall i, j :: 0 <= i < j < |r| ==> FirstIndex(Genres(events), r[i]) < FirstIndex(Genres(events), r[j])
  {
    var all := Genres(events);
    assert forall i :: 0 <= i < |events| ==> all[i] == events[i].genre;
    DistinctIsSubsequence(all);
    Distinct(all)
  }

  /** How an option of the location select looks: no comma, and no
      whitespace at either end. */
  predicate CityShaped(x: string)
  {
    ',' !in x && (x != [] ==> !Text.IsWhitespace(x[0]) && !Text.IsWhitespace(x[|x| - 1]))
  }

  lemma CityShape(location: string)
    ensures CityShaped(City(location))
  {
    var seg := Text.LastSegment(location);
    var k :| Text.OccursAt(seg, City(location), k);
  }

  /** The location select's options: the city of every event, once, in
      order of first appearance. */
  function LocationOptions(events: seq<Event>): (r: seq<string>)
    ensures forall x :: x in r <==> x in Cities(events)
    ensures NoDuplicates(r)
    ensures IsSubsequence(r, Cities(events))
    ensures forall i, j :: 0 <= i < j < |r| ==> FirstIndex(Cities(events), r[i]) < FirstIndex(Cities(events), r[j])
  {
    var all := Cities(events);
    DistinctIsSubsequence(all);
    Distinct(all)
  }

  /** No location option contains a comma or starts or ends with
      whitespace. */
  lemma LocationOptionsShaped(events: seq<Event>)
    ensures forall x :: x in LocationOptions(events) ==> CityShaped(x)
  {
    forall x | x in LocationOptions(events)
      ensures CityShaped(x)
    {
      var i :| 0 <= i < |events| && City(events[i].location) == x;
      CityShape(events[i].location);
    }
  }

  /** The FAQ accordion: clicking the open question closes it, clicking any
      other opens that one alone. */
  function FaqAfterToggle(open: Option<int>, index: int): (r: Option<int>)
    ensures r.None? <==> open == Some(index)
    ensures r.Some? ==> r.value == index
  {
    if open == Some(index) then None else Some(index)
  }

  /** Clicking the same question twice from a closed accordion closes it
      again, and clicking two different questions leaves the second open. */
  lemma FaqToggleTwice(index: int, other: int)
    requires other != index
    ensures FaqAfterToggle(FaqAfterToggle(None, index), index) == None
    ensures FaqAfterToggle(FaqAfterToggle(None, index), other) == Some(other)
  {
  }

  /** The page's state. `events` is the catalogue the page imports. */
  class LandingPage {
    const events: seq<Event>
    var searchQuery: string
    var selectedCategory: string
    var selectedGenre: string
    var selectedLocation: string
    var filteredEvents: seq<Event>
    var openFaqIndex: Option<int>

    function CurrentCriteria(): Criteria
      reads this
    {
      Criteria(searchQuery, selectedCategory, selectedGenre, selectedLocation)
    }

    /** The listed events always follow the inputs. */
    ghost predicate Valid()
      reads this
    {
      filteredEvents == Visible(events, CurrentCriteria())
    }

    /** All filters cleared, the whole catalogue listed, no question open. */
    constructor (catalogue: seq<Event>)
      ensures events == catalogue
      ensures CurrentCriteria() == Reset
      ensures filteredEvents == catalogue && openFaqIndex == None
      ensures Valid()
    {
      events := catalogue;
      searchQuery := "";
      selectedCategory := "all";
      selectedGenre := "all";
      selectedLocation := "all";
      filteredEvents := catalogue;
      openFaqIndex := None;
      new;
      ResetShowsAll(catalogue);
    }

    /** The filter effect: starting from the whole catalogue, each active
        input narrows the list in turn. */
    method ApplyFilters()
      modifies this`filteredEvents
      ensures filteredEvents == Visible(events, CurrentCriteria())
    {
      var c := CurrentCriteria();
      var results := events;
      FilterKeepsAll(events, e => true);
      FilterNarrow(events, results, e => true, c.query != "",
        e => MatchesQuery(c.query, e), e => QueryOk(c.query, e));
      if c.query != "" {
        results := Filter(results, e => MatchesQuery(c.query, e));
      }
      FilterNarrow(events, results, e => QueryOk(c.query, e), c.category != "all",
        (e: Event) => e.category == c.category, e => QueryOk(c.query, e) && CategoryOk(c.category, e));
      if c.category != "all" {
        results := Filter(results, (e: Event) => e.category == c.category);
      }
      FilterNarrow(events, results, e => QueryOk(c.query, e) && CategoryOk(c.category, e), c.genre != "all",
        (e: Event) => e.genre == c.genre, e => QueryOk(c.query, e) && CategoryOk(c.category, e) && GenreOk(c.genre, e));
      if c.genre != "all" {
        results := Filter(results, (e: Event) => e.genre == c.genre);
      }
      FilterNarrow(events, results, e => QueryOk(c.query, e) && CategoryOk(c.category, e) && GenreOk(c.genre, e),
        c.location != "all", (e: Event) => Text.Contains(e.location, c.location), e => Matches(c, e));
      if c.location != "all" {
        results := Filter(results, (e: Event) => Text.Contains(e.location, c.location));
      }
      filteredEvents := results;
    }

    method SetSearchQuery(query: string)
      modifies this`searchQuery, this`filteredEvents
      ensures CurrentCriteria() == old(CurrentCriteria()).(query := query)
      ensures Valid()
    {
      searchQuery := query;
      ApplyFilters();
    }

    /** `handleCategoryClick`, also the category select. */
    method HandleCategoryClick(category: string)
      modifies this`selectedCategory, this`filteredEvents
      ensures CurrentCriteria() == old(CurrentCriteria()).(category := category)
      ensures Valid()
    {
      selectedCategory := category;
      ApplyFilters();
    }

    method SetGenre(genre: string)
      modifies this`selectedGenre, this`filteredEvents
      ensures CurrentCriteria() == old(CurrentCriteria()).(genre := genre)
      ensures Valid()
    {
      selectedGenre := genre;
      ApplyFilters();
    }

    method SetLocation(location: string)
      modifies this`selectedLocation, this`filteredEvents
      ensures CurrentCriteria() == old(CurrentCriteria()).(location := location)
      ensures Valid()
    {
      selectedLocation := location;
      ApplyFilters();
    }

    /** `resetFilters`: every input back to its initial value, so the whole
        catalogue is listed again. */
    method ResetFilters()
      modifies this`searchQuery, this`selectedCategory, this`selectedGenre, this`selectedLocation, this`filteredEvents
      ensures CurrentCriteria() == Reset
      ensures filteredEvents == events
      ensures Valid()
    {
      selectedCategory := "all";
      selectedGenre := "all";
      selectedLocation := "all";
      searchQuery := "";
      ApplyFilters();
      ResetShowsAll(events);
    }

    /** `toggleFaq`. */
    method ToggleFaq(index: int)
      modifies this`openFaqIndex
      ensures openFaqIndex == FaqAfterToggle(old(openFaqIndex), index)
    {
      openFaqIndex := if openFaqIndex == Some(index) then None else Some(index);
    }
  }
}
