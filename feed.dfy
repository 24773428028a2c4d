/** The social feed (src/pages/FeedPage.tsx): posts that may refer to a
    catalogue event, narrowed by the same category, genre and date selects
    as the dashboard, and the like button. */
module Feed {
  import opened Types
  import opened Lists
  import opened EventFilters
  import Dashboard

  /** `mockEvents.find(e => e.id === post.eventId)`: a post without an
      event id finds nothing. */
  function FindEvent(events: seq<Event>, eventId: Option<string>): (r: Option<Event>)
    ensures eventId.None? ==> r.None?
    ensures r.Some? ==> r.value in events && Some(r.value.id) == eventId
    ensures eventId.Some? && r.None? ==> forall i :: 0 <= i < |events| ==> events[i].id != eventId.value
  {
    match eventId
    case None => None
    case Some(id) => Find(events, (e: Event) => e.id == id)
  }

  /** A post's event is the first catalogue entry carrying its id, even
      when later entries share that id. */
  lemma FindEventIsFirst(events: seq<Event>, id: string, k: int)
    requires 0 <= k < |events| && events[k].id == id
    requires forall j :: 0 <= j < k ==> events[j].id != id
    ensures FindEvent(events, Some(id)) == Some(events[k])
  {
    if events[0].id != id {
      FindEventIsFirst(events[1..], id, k - 1);
    }
  }

  /** The filter of the feed, with its early returns: an active category
      or genre select rejects a post whose event is missing or differs;
      the date select is only consulted when the event exists. */
  predicate PostVisible(f: Filters, post: Post, events: seq<Event>, c: Calendar)
  {
    var event := FindEvent(events, post.eventId);
    if f.category != "all" && (event.None? || event.value.category != f.category) then false
    else if f.genre != "all" && (event.None? || event.value.genre != f.genre) then false
    else if f.date != "all" && event.Some? then DateMatches(f.date, event.value.date, c)
    else true
  }

  /** A post whose event exists is shown exactly when the dashboard would
      show that event; a post without an event is shown exactly when the
      category and genre selects are both 'all', whatever the date bucket. */
  lemma PostVisibleIsEventVisible(f: Filters, post: Post, events: seq<Event>, c: Calendar)
    ensures FindEvent(events, post.eventId).Some? ==>
      (PostVisible(f, post, events, c) <==> Dashboard.EventVisible(f, FindEvent(events, post.eventId).value, c))
    ensures FindEvent(events, post.eventId).None? ==>
      (PostVisible(f, post, events, c) <==> f.category == "all" && f.genre == "all")
  {
  }

  /** The posts the feed shows, in feed order. */
  function FilteredPosts(posts: seq<Post>, events: seq<Event>, f: Filters, c: Calendar): seq<Post>
  {
    Filter(posts, p => PostVisible(f, p, events, c))
  }

  /** The shown posts are the feed with some posts deleted, each one shown
      exactly when it passes the filter; with every select on 'all' the
      whole feed is shown. */
  lemma FilteredPostsProperties(posts: seq<Post>, events: seq<Event>, f: Filters, c: Calendar, p: Post)
    ensures IsSubsequence(FilteredPosts(posts, events, f, c), posts)
    ensures p in FilteredPosts(posts, events, f, c) <==> p in posts && PostVisible(f, p, events, c)
    ensures FilteredPosts(posts, events, NoFilters, c) == posts
  {
    FilterIsSubsequence(posts, p => PostVisible(f, p, events, c));
    FilterMembers(posts, p => PostVisible(f, p, events, c), p);
    FilterKeepsAll(posts, p => PostVisible(NoFilters, p, events, c));
  }

  /** The feed after liking `postId`: the likes of every post with that id
      go up by one, and nothing else changes. */
  function Liked(posts: seq<Post>, postId: string): (r: seq<Post>)
    ensures |r| == |posts|
    ensures forall i :: 0 <= i < |r| ==> r[i].(likes := posts[i].likes) == posts[i]
    ensures forall i :: 0 <= i < |r| ==> r[i].likes == posts[i].likes + (if posts[i].id == postId then 1 else 0)
  {
    seq(|posts|, i requires 0 <= i < |posts| =>
      if posts[i].id == postId then posts[i].(likes := posts[i].likes + 1) else posts[i])
  }

  /** Liking an id that no post has changes nothing. */
  lemma LikeUnknownIsNoop(posts: seq<Post>, postId: string)
    requires forall i :: 0 <= i < |posts| ==> posts[i].id != postId
    ensures Liked(posts, postId) == posts
  {
  }

  function TotalLikes(posts: seq<Post>): int
  {
    if posts == [] then 0 else posts[0].likes + TotalLikes(posts[1..])
  }

  /** How many posts carry the id. */
  function CountId(posts: seq<Post>, postId: string): nat
  {
    if posts == [] then 0 else (if posts[0].id == postId then 1 else 0) + CountId(posts[1..], postId)
  }

  /** A like adds one to the total per post with that id: exactly one when
      post ids are unique. */
  lemma {:induction false} LikeAddsOnePerPost(posts: seq<Post>, postId: string)
    ensures TotalLikes(Liked(posts, postId)) == TotalLikes(posts) + CountId(posts, postId)
  {
    if posts != [] {
      LikeAddsOnePerPost(posts[1..], postId);
      assert Liked(posts, postId)[1..] == Liked(posts[1..], postId);
    }
  }

  /** Post ids are unique in the feed. */
  predicate UniqueIds(posts: seq<Post>)
  {
    forall i, j :: 0 <= i < j < |posts| ==> posts[i].id != posts[j].id
  }

  lemma {:induction false} UniqueIdCountsOnce(posts: seq<Post>, k: int)
    requires UniqueIds(posts) && 0 <= k < |posts|
    ensures CountId(posts, posts[k].id) == 1
  {
    if k == 0 {
      NoOtherId(posts[1..], posts[0].id);
    } else {
      UniqueIdCountsOnce(posts[1..], k - 1);
    }
  }

  lemma {:induction false} NoOtherId(posts: seq<Post>, postId: string)
    requires forall i :: 0 <= i < |posts| ==> posts[i].id != postId
    ensures CountId(posts, postId) == 0
  {
    if posts != [] {
      NoOtherId(posts[1..], postId);
    }
  }

  /** With unique post ids, liking a post adds exactly one like in total. */
  lemma LikeAddsExactlyOne(posts: seq<Post>, k: int)
    requires UniqueIds(posts) && 0 <= k < |posts|
    ensures TotalLikes(Liked(posts, posts[k].id)) == TotalLikes(posts) + 1
  {
    LikeAddsOnePerPost(posts, posts[k].id);
    UniqueIdCountsOnce(posts, k);
  }

  /** Liking doesn't change which posts the filter keeps: the feed shown
      after a like is the feed shown before it, with the like applied. */
  lemma {:induction false} LikeKeepsShownPosts(posts: seq<Post>, postId: string, events: seq<Event>, f: Filters, c: Calendar)
    ensures FilteredPosts(Liked(posts, postId), events, f, c) == Liked(FilteredPosts(posts, events, f, c), postId)
  {
    if posts != [] {
      var rest := FilteredPosts(posts[1..], events, f, c);
      LikeKeepsShownPosts(posts[1..], postId, events, f, c);
      assert Liked(posts, postId)[1..] == Liked(posts[1..], postId);
      assert Liked(posts, postId)[0].eventId == posts[0].eventId;
      if PostVisible(f, posts[0], events, c) {
        var kept := [posts[0]] + rest;
        assert Liked(kept, postId) == [Liked(posts, postId)[0]] + Liked(rest, postId);
      }
    }
  }

  /** The feed's state. `events` is the catalogue the page imports and
      `calendar` today's date. */
  class FeedPage {
    const events: seq<Event>
    const calendar: Calendar
    var posts: seq<Post>
    var categoryFilter: string
    var genreFilter: string
    var dateFilter: string

    function CurrentFilters(): Filters
      reads this
    {
      Filters(categoryFilter, genreFilter, dateFilter)
    }

    function Shown(): seq<Post>
      reads this
    {
      FilteredPosts(posts, events, CurrentFilters(), calendar)
    }

    constructor (catalogue: seq<Event>, initialPosts: seq<Post>, today: Calendar)
      ensures events == catalogue && calendar == today
      ensures posts == initialPosts && CurrentFilters() == NoFilters
      ensures Shown() == initialPosts
    {
      events := catalogue;
      calendar := today;
      posts := initialPosts;
      categoryFilter := "all";
      genreFilter := "all";
      dateFilter := "all";
      new;
      FilterKeepsAll(initialPosts, p => PostVisible(NoFilters, p, catalogue, today));
    }

    method SetFilters(f: Filters)
      modifies this`categoryFilter, this`genreFilter, this`dateFilter
      ensures CurrentFilters() == f
    {
      categoryFilter := f.category;
      genreFilter := f.genre;
      dateFilter := f.date;
    }

    /** `handleLike`. */
    method HandleLike(postId: string)
      modifies this`posts
      ensures posts == Liked(old(posts), postId)
      ensures TotalLikes(posts) == TotalLikes(old(posts)) + CountId(old(posts), postId)
      ensures Shown() == Liked(old(Shown()), postId)
      ensures |Shown()| == |old(Shown())|
    {
      LikeAddsOnePerPost(posts, postId);
      LikeKeepsShownPosts(posts, postId, events, CurrentFilters(), calendar);
      posts := Liked(posts, postId);
    }
  }
}
