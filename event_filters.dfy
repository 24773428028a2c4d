/** The select filters shared by the organizer dashboard and the social
    feed: a category and a genre filter that are either 'all' or an exact
    value, and a date bucket ('all', 'today', 'week', 'month') evaluated on
    day numbers against a clock passed in as a parameter. */
module EventFilters {

  /** What the pages read from the clock: today's day number (local
      midnight) and the day number of the same date one calendar month
      later, which is what `setMonth(getMonth() + 1)` yields. */
  datatype Calendar = Calendar(today: int, monthFromNow: int)

  /** `weekFromNow.setDate(today.getDate() + 7)`. */
  function WeekFromNow(c: Calendar): int
  {
    c.today + 7
  }

  /** The date test of DashboardPage.tsx and FeedPage.tsx on an event's day
      number; an unrecognised bucket restricts nothing. */
  predicate DateMatches(dateFilter: string, day: int, c: Calendar)
  {
    if dateFilter == "all" then true
    else if dateFilter == "today" then day == c.today
    else if dateFilter == "week" then c.today <= day <= WeekFromNow(c)
    else if dateFilter == "month" then c.today <= day <= c.monthFromNow
    else true
  }

  /** A select filter: 'all' accepts everything, any other value requires
      exact equality. */
  predicate FieldMatches(filter: string, value: string)
  {
    filter == "all" || value == filter
  }

  /** The three select boxes of the dashboard and the feed. */
  datatype Filters = Filters(category: string, genre: string, date: string)

  /** The initial state of the three select boxes. */
  const NoFilters := Filters("all", "all", "all")

  /** The buckets are inclusive windows starting today: today is in every
      bucket, the seventh day from now is the last day of the week and the
      date a month from now the last day of the month, and past days never
      match a bucket. */
  lemma DateBuckets(day: int, c: Calendar)
    ensures c.today <= c.monthFromNow ==>
      DateMatches("today", c.today, c) && DateMatches("week", c.today, c) && DateMatches("month", c.today, c)
    ensures !DateMatches("today", c.today + 1, c)
    ensures DateMatches("week", c.today + 7, c) && !DateMatches("week", c.today + 8, c)
    ensures c.today <= c.monthFromNow ==>
      DateMatches("month", c.monthFromNow, c) && !DateMatches("month", c.monthFromNow + 1, c)
    ensures day < c.today ==> !DateMatches("today", day, c) && !DateMatches("week", day, c) && !DateMatches("month", day, c)
  {
  }

  /** Any date filter other than the three buckets imposes no restriction. */
  lemma UnknownBucketAcceptsAll(dateFilter: string, day: int, c: Calendar)
    requires dateFilter != "today" && dateFilter != "week" && dateFilter != "month"
    ensures DateMatches(dateFilter, day, c)
  {
  }

  /** Since a calendar month is at least 28 days, the buckets are nested:
      today within the week, the week within the month. */
  lemma BucketsNested(day: int, c: Calendar)
    requires c.monthFromNow >= c.today + 28
    ensures DateMatches("today", day, c) ==> DateMatches("week", day, c)
    ensures DateMatches("week", day, c) ==> DateMatches("month", day, c)
  {
  }
}
