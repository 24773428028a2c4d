# A verified model of the digga event UI

digga is a React front end for browsing and organizing cultural events in Stockholm, with all of its data held in memory. This project models the logic in its pages and contexts, in Dafny, and proves what that logic promises:

- **Filtering.** The landing page filters the event catalogue by free-text search and by category, genre and location selects. The organizer dashboard and the social feed share a category, genre and date-bucket filter; the feed applies it to posts through each post's event.
- **Selections and toggles.** These cover dashboard row selection with select-all and bulk delete, the genre-preference badges, and the FAQ accordion.
- **Event forms.** The create-event and edit-event pages have validators, field updates and submit routing, with paywall and organizer guards.
- **Translations.** The `t` lookup reads the English and Swedish tables and falls back to the key (for every key except the names of `Object.prototype` members, see below). The provider's language starts as Swedish.
- **Mock session.** The authentication provider keeps a list of stored accounts and a signed-in user. It offers sign-in, sign-up, sign-out and user and profile updates.
- **Pricing and profile.** The pricing page upgrades to the pro plan. The profile page shows saved and created events and has a name/bio edit buffer.

Each source file is one module:

- `landing.dfy`, `dashboard.dfy`, `feed.dfy`, `create_event.dfy`, `edit_event.dfy`, `translations.dfy`, `auth.dfy`, `genre_preferences.dfy`, `pricing.dfy`, `profile.dfy`: one per source file.
- `types.dfy`: the shared records of `src/types/index.ts`.
- `event_filters.dfy`: the date buckets shared by the dashboard and the feed.
- `event_form.dfy`: the form record shared by the two event pages.
- `lists.dfy`: JavaScript's array operations (filter, find, toggle, Set-based dedupe).
- `text.dfy`: JavaScript's string operations (trim, includes, toLowerCase, split, String(n)).

State that a component keeps in `useState` is a class field. Each handler is a method whose `modifies` clause names the fields it sets. Each method is proved against a function that states the handler's effect on values. Derived values (filtered lists, option lists, labels, routes) are functions, and lemmas prove what they promise.

A post whose event cannot be found passes every date bucket, because the feed runs the date test only when the event exists (`src/pages/FeedPage.tsx:54`). `Feed.PostVisibleIsEventVisible` states this.

## Model

| member | source | states |
|---|---|---|
| Lists.Filter | src/pages/LandingPage.tsx:87 | `array.filter(p)`: the elements satisfying p, in order; its properties are the `Lists.Filter*` lemmas |
| Lists.FilterMembers | src/pages/LandingPage.tsx:87-103 | an element survives `array.filter(p)` exactly when it is in the array and satisfies `p` |
| Lists.FilterIsSubsequence | src/pages/LandingPage.tsx:84-104 | `filter` keeps the survivors in their original order, adding and moving nothing |
| Lists.FilterKeepsAll | src/pages/LandingPage.tsx:84 | filtering with a predicate that holds everywhere returns the array unchanged |
| Lists.FilterIdempotent | src/pages/LandingPage.tsx:84-106 | filtering a filtered array again with the same predicate changes nothing |
| Lists.FilterThen | src/pages/LandingPage.tsx:86-104 | two filters in a row are one filter with the conjunction of the predicates |
| Lists.FilterNarrow | src/pages/LandingPage.tsx:86-104 | one `if (active) results = results.filter(step)` step turns a filter by `acc` into a filter by `acc && (!active \|\| step)` |
| Lists.Find | src/context/AuthContext.tsx:36 | `find` yields nothing exactly when no element matches, otherwise the first matching element |
| Lists.FindAppend | src/context/AuthContext.tsx:36 | appending elements does not change what `find` returns once something matches |
| Lists.Toggle | src/components/GenrePreferences.tsx:26-30 | after `includes ? filter(!==) : [...prev, x]`, x is present exactly when it was absent before, and every other element's membership is unchanged |
| Lists.ToggleNoDuplicates | src/components/GenrePreferences.tsx:28-29 | toggling keeps a duplicate-free list duplicate-free |
| Lists.ToggleTwiceAbsent | src/components/GenrePreferences.tsx:26-30 | toggling an absent element twice restores the list exactly |
| Lists.Remove | src/components/GenrePreferences.tsx:28 | `filter(g => g !== x)`: drops every occurrence of x; its effect on membership is stated by `Lists.Toggle` |
| Lists.FirstIndex | src/pages/LandingPage.tsx:77 | the position of the first occurrence of a value: it holds the value and nothing before it does |
| Lists.Distinct | src/pages/LandingPage.tsx:77 | `Array.from(new Set(xs))` has the same elements as xs, none twice, ordered by the position of each value's first occurrence in xs (the Set's insertion order) |
| Lists.DistinctIsSubsequence | src/pages/LandingPage.tsx:77 | the deduplicated list is xs with elements deleted, none added or reordered |
| Text.TrimStart | src/pages/LandingPage.tsx:80 | the result is a suffix of the input, only whitespace was dropped, and it does not start with whitespace |
| Text.TrimEnd | src/pages/LandingPage.tsx:80 | the result is a prefix of the input, only whitespace was dropped, and it does not end with whitespace |
| Text.Trim | src/pages/CreateEventPage.tsx:55 | `trim()` yields the substring left after dropping only whitespace before and after it; the result has no whitespace at either end, and it is empty exactly when the input is all whitespace |
| Text.TrimParts | src/pages/CreateEventPage.tsx:55 | trimming the start and then the end leaves a substring found at the start cut, with only whitespace before and after it, and nothing exactly for all-whitespace input |
| Text.Blank | src/pages/CreateEventPage.tsx:55-56 | `!s.trim()` holds exactly when every character of s is whitespace |
| Text.Lower | src/pages/LandingPage.tsx:88 | `toLowerCase()` character by character, on the capitals of `Text.IsUpper`; its properties are in `Text.LowerProperties` |
| Text.LowerProperties | src/pages/LandingPage.tsx:88 | lower-casing keeps the length, leaves no capital of `Text.IsUpper` (ASCII and Latin-1, so 'Å', 'Ä' and 'Ö' too), and is idempotent |
| Text.ContainsIff | src/pages/LandingPage.tsx:88-90 | `includes` holds exactly when the needle occurs at some position |
| Text.OccursAtShift | src/pages/LandingPage.tsx:103 | an occurrence in the tail of a string is an occurrence one position later in the whole string |
| Text.ContainsNeedsRoom | src/pages/LandingPage.tsx:103 | a string never includes a longer one |
| Text.LastSegment | src/pages/LandingPage.tsx:79-80 | `parts[parts.length - 1]` of `split(',')` is the comma-free suffix that follows the last comma, or the whole string |
| Text.Contains | src/pages/LandingPage.tsx:88-90 | `includes`: the needle occurs somewhere; `Text.ContainsIff` states this over every position |
| Text.DecimalString | src/context/AuthContext.tsx:47 | `String(n)` is a non-empty string of decimal digits with no leading zero |
| Text.DecimalRoundTrip | src/context/AuthContext.tsx:47 | reading `String(n)` back as a decimal gives n |
| Text.DecimalInjective | src/context/AuthContext.tsx:47 | different counts give different ids |
| EventFilters.DateMatches | src/pages/DashboardPage.tsx:113-130 | the date test on day numbers: 'all' and unknown buckets accept everything, 'today', 'week' and 'month' test their windows; `EventFilters.DateBuckets` states the windows' bounds |
| EventFilters.FieldMatches | src/pages/DashboardPage.tsx:109-110 | a category or genre select: 'all' accepts every value, any other value only itself |
| EventFilters.DateBuckets | src/pages/DashboardPage.tsx:119-128 | today is in every bucket; the week's last day is today+7 and the month's is the same date a calendar month later, both inclusive; past days match no bucket |
| EventFilters.UnknownBucketAcceptsAll | src/pages/DashboardPage.tsx:113-130 | a date filter other than the three buckets restricts nothing |
| EventFilters.BucketsNested | src/pages/DashboardPage.tsx:119-128 | because a calendar month has at least 28 days, the today bucket lies within the week and the week within the month |
| Landing.QueryOk | src/pages/LandingPage.tsx:86-92 | an empty query restricts nothing, otherwise the lower-cased substring search; `Landing.QueryIsSubstringSearch` states it |
| Landing.CategoryOk | src/pages/LandingPage.tsx:94-95 | 'all' accepts every event, otherwise the category must equal the selection |
| Landing.GenreOk | src/pages/LandingPage.tsx:98-99 | 'all' accepts every event, otherwise the genre must equal the selection |
| Landing.LocationOk | src/pages/LandingPage.tsx:102-104 | 'all' accepts every event, otherwise the location must include the selection, case-sensitively |
| Landing.Matches | src/pages/LandingPage.tsx:86-104 | an event passes every active criterion: query, category, genre and location |
| Landing.Visible | src/pages/LandingPage.tsx:83-107 | the listed events: the catalogue filtered by `Landing.Matches` |
| Landing.VisibleMembers | src/pages/LandingPage.tsx:86-104 | an event is listed exactly when it is in the catalogue and meets the query, category, genre and location criteria |
| Landing.VisibleIsSubsequence | src/pages/LandingPage.tsx:84-104 | the listed events are the catalogue with events deleted, none added or reordered |
| Landing.VisibleIdempotent | src/pages/LandingPage.tsx:84-106 | filtering the listed events again with the same criteria changes nothing |
| Landing.ResetShowsAll | src/pages/LandingPage.tsx:118-123 | with the criteria `resetFilters` sets, the whole catalogue is listed in order |
| Landing.QueryIsSubstringSearch | src/pages/LandingPage.tsx:86-92 | a non-empty query matches exactly when the lower-cased query occurs in the lower-cased title, description or location |
| Landing.QueryIgnoresCase | src/pages/LandingPage.tsx:88-90 | a query and its lower-cased form match the same events |
| Landing.LocationIsCaseSensitive | src/pages/LandingPage.tsx:102-104 | one instance, 'stockholm' does not select 'Stockholm'; the general rule, a case-sensitive containment test, is the definition of `Landing.LocationOk` |
| Landing.GenreOptions | src/pages/LandingPage.tsx:77 | the genre options are exactly the catalogue's genres, each once, ordered by where each genre first occurs in the catalogue |
| Landing.City | src/pages/LandingPage.tsx:79-80 | the trimmed last comma-separated part of a location; `Landing.CityShape` states its shape |
| Landing.CityShape | src/pages/LandingPage.tsx:79-80 | the city of a location has no comma and no whitespace at either end |
| Landing.LocationOptions | src/pages/LandingPage.tsx:78-81 | the location options are exactly the cities of the events, each once, ordered by where each city first occurs in the catalogue |
| Landing.LocationOptionsShaped | src/pages/LandingPage.tsx:78-81 | no location option contains a comma or starts or ends with whitespace |
| Landing.FaqAfterToggle | src/pages/LandingPage.tsx:125-127 | toggling the open question closes the accordion; toggling any other index opens exactly that one |
| Landing.FaqToggleTwice | src/pages/LandingPage.tsx:125-127 | the same question twice closes again; a second, different question is left open |
| Landing.LandingPage.constructor | src/pages/LandingPage.tsx:18-24 | the inputs start cleared, the whole catalogue is listed and no question is open |
| Landing.LandingPage.ApplyFilters | src/pages/LandingPage.tsx:83-107 | the step-by-step narrowing of the effect lists exactly `Visible(events, criteria)` |
| Landing.LandingPage.SetSearchQuery | src/pages/LandingPage.tsx:172 | only the query changes, and the list follows the new criteria |
| Landing.LandingPage.HandleCategoryClick | src/pages/LandingPage.tsx:113-116 | only the category changes, and the list follows the new criteria |
| Landing.LandingPage.SetGenre | src/pages/LandingPage.tsx:213 | only the genre changes, and the list follows the new criteria |
| Landing.LandingPage.SetLocation | src/pages/LandingPage.tsx:232 | only the location changes, and the list follows the new criteria |
| Landing.LandingPage.ResetFilters | src/pages/LandingPage.tsx:118-123 | every input goes back to its initial value and the whole catalogue is listed |
| Landing.LandingPage.ToggleFaq | src/pages/LandingPage.tsx:125-127 | the open index becomes `FaqAfterToggle` of the old one |
| Dashboard.EventVisible | src/pages/DashboardPage.tsx:108-133 | a row passes the category and genre selects and the date bucket |
| Dashboard.FilteredEvents | src/pages/DashboardPage.tsx:108-133 | the shown rows: the list filtered by `Dashboard.EventVisible` |
| Dashboard.FilteredEventsMembers | src/pages/DashboardPage.tsx:108-133 | a row is shown exactly when its category and genre pass their selects and its date passes the bucket |
| Dashboard.FilteredEventsOrderAndIdempotence | src/pages/DashboardPage.tsx:108-133 | shown rows keep list order, and filtering them again changes nothing |
| Dashboard.NoFiltersShowsAll | src/pages/DashboardPage.tsx:18-20 | with all three selects on 'all' every row is shown |
| Dashboard.SelectAll | src/pages/DashboardPage.tsx:135-141 | select-all yields either nothing or exactly the shown ids; it clears exactly when the counts are equal (or nothing is shown) |
| Dashboard.SelectAllTwice | src/pages/DashboardPage.tsx:135-141 | from an empty selection, select-all selects every shown row and a second click clears it |
| Dashboard.SelectAllComparesCountsOnly | src/pages/DashboardPage.tsx:136 | one instance, a selection of a hidden row of equal size is cleared instead of completed; the general fact is the second ensures of `Dashboard.SelectAll` |
| Dashboard.SelectAllNoDuplicates | src/pages/DashboardPage.tsx:135-141 | select-all never creates a duplicate id |
| Dashboard.Ids | src/pages/DashboardPage.tsx:139 | `filteredEvents.map(e => e.id)`: the ids of the rows, in row order |
| Auth.OrganizerOnly | src/pages/DashboardPage.tsx:23-26 | the organizer guard: the page stays exactly for an organizer, and everyone else is sent to the given route |
| Dashboard.Redirect | src/pages/DashboardPage.tsx:23-26 | the organizer guard with '/profile' as the route for everyone else |
| Dashboard.EditRoute | src/pages/DashboardPage.tsx:151-158 | without a paid plan the edit button leads to '/upgrade'; otherwise it leads to '/edit-event/' followed by the event id |
| Dashboard.EditRouteDecides | src/pages/DashboardPage.tsx:151-158 | the route leads to editing exactly for paying users, and different events get different routes |
| Dashboard.DashboardPage.constructor | src/pages/DashboardPage.tsx:17-20 | the selection starts empty and the selects start on 'all' |
| Dashboard.DashboardPage.SetFilters | src/pages/DashboardPage.tsx:212-245 | the selects take the new values and the selection is kept |
| Dashboard.DashboardPage.HandleSelectAll | src/pages/DashboardPage.tsx:135-141 | the selection becomes `SelectAll` of the old selection and the shown ids |
| Dashboard.DashboardPage.SelectAllChecked | src/pages/DashboardPage.tsx:204 | the select-all checkbox is ticked exactly when as many ids are selected as rows are shown and at least one row is shown |
| Dashboard.DashboardPage.HandleSelectEvent | src/pages/DashboardPage.tsx:143-149 | exactly one id flips membership, every other id keeps its membership, and no duplicate is created |
| Dashboard.DashboardPage.HandleDeleteSelected | src/pages/DashboardPage.tsx:160-165 | a confirmed delete clears the selection; a declined one keeps it |
| Feed.FindEvent | src/pages/FeedPage.tsx:41 | a post's event is a catalogue event with the post's event id; none is found when no catalogue event has that id or the post has none |
| Feed.FindEventIsFirst | src/pages/FeedPage.tsx:41 | the event found is the first catalogue entry with that id |
| Feed.PostVisible | src/pages/FeedPage.tsx:39-73 | the feed's filter with its early returns; `Feed.PostVisibleIsEventVisible` relates it to the dashboard's |
| Feed.FilteredPosts | src/pages/FeedPage.tsx:39-73 | the shown posts: the feed filtered by `Feed.PostVisible` |
| Feed.PostVisibleIsEventVisible | src/pages/FeedPage.tsx:39-73 | a post with an event is shown exactly when the dashboard would show that event; a post without one is shown exactly when category and genre are 'all', whatever the date bucket |
| Feed.FilteredPostsProperties | src/pages/FeedPage.tsx:39-73 | the shown posts keep feed order, each is shown exactly when it passes the filter, and with every select on 'all' all posts are shown |
| Feed.Liked | src/pages/FeedPage.tsx:32-36 | a like keeps length and order, adds one to the likes of the posts with that id, and changes nothing else |
| Feed.LikeUnknownIsNoop | src/pages/FeedPage.tsx:32-36 | liking an unknown id changes nothing |
| Feed.LikeAddsOnePerPost | src/pages/FeedPage.tsx:32-36 | the total of likes grows by the number of posts carrying the id |
| Feed.UniqueIdCountsOnce | src/pages/FeedPage.tsx:34 | with unique post ids, each id is carried by exactly one post |
| Feed.NoOtherId | src/pages/FeedPage.tsx:34 | an id that no post carries is counted zero times |
| Feed.LikeAddsExactlyOne | src/pages/FeedPage.tsx:32-36 | with unique post ids, liking a post adds exactly one like in total |
| Feed.LikeKeepsShownPosts | src/pages/FeedPage.tsx:32-73 | the posts shown after a like are the posts shown before it with the like applied: the same posts in the same order, since a like changes no event id |
| Feed.FeedPage.constructor | src/pages/FeedPage.tsx:19-22 | the feed starts with all posts shown and every select on 'all' |
| Feed.FeedPage.SetFilters | src/pages/FeedPage.tsx:101-136 | the selects take the new values |
| Feed.FeedPage.HandleLike | src/pages/FeedPage.tsx:32-36 | the posts become `Liked` of the old posts, the total grows by the number of matching posts, and the shown list becomes `Liked` of the old shown list |
| EventForm.Form.With | src/pages/CreateEventPage.tsx:45 | `{ ...prev, [field]: value }` sets the named field and keeps every other field |
| EventForm.ClearError | src/pages/CreateEventPage.tsx:47-49 | a field with a non-empty message gets '', and no field is added or removed; every other message is kept |
| EventForm.NoErrorsIff | src/pages/CreateEventPage.tsx:65 | an error record holding exactly the fields a check rejects is empty exactly when the check rejects no field; both `validateForm`s return this |
| EventForm.ClearErrorIdempotent | src/pages/CreateEventPage.tsx:47-49 | clearing twice is clearing once, and a field without a message is untouched |
| CreateEvent.Redirect | src/pages/CreateEventPage.tsx:19-23 | the organizer guard of `Auth.OrganizerOnly` with '/' as the route for everyone else |
| CreateEvent.Invalid | src/pages/CreateEventPage.tsx:55-62 | which fields block creation: title, description and location when blank after trimming, the other required fields when empty |
| CreateEvent.Validate | src/pages/CreateEventPage.tsx:52-63 | the error record `validateForm` builds; `CreateEvent.ValidateMeaning` states its meaning |
| CreateEvent.AddIfMeaning | src/pages/CreateEventPage.tsx:55-62 | one `if (blocked) newErrors.f = m` step adds exactly f with message m when blocked, keeping the other entries |
| CreateEvent.ValidateMeaning | src/pages/CreateEventPage.tsx:52-63 | a field has an error exactly when it is invalid, and its message is the translation of its required-field key |
| CreateEvent.ValidateKeys | src/pages/CreateEventPage.tsx:55-62 | a field is in the error record exactly when it is invalid |
| CreateEvent.ValidateKeysTrimmed | src/pages/CreateEventPage.tsx:55-56 | title, description and location are errors exactly when blank after trimming |
| CreateEvent.ValidateKeysChosen | src/pages/CreateEventPage.tsx:57-58 | genre and category are errors exactly when empty |
| CreateEvent.ValidateKeysEntered | src/pages/CreateEventPage.tsx:60-62 | date, time and price are errors exactly when empty |
| CreateEvent.ValidateMessages | src/pages/CreateEventPage.tsx:55-62 | each error's message is `t` of that field's required key |
| CreateEvent.OnlyTextFieldsAreTrimmed | src/pages/CreateEventPage.tsx:55-62 | a whitespace-only value blocks title, description and location but passes genre, category, date, time and price |
| CreateEvent.OptionalFieldsNeverBlock | src/pages/CreateEventPage.tsx:25-36 | cast and imageUrl never get an error, and changing them never changes the error record |
| CreateEvent.EmptyFormReportsAllRequired | src/pages/CreateEventPage.tsx:25-36 | on the initial empty form, exactly the eight required fields have errors |
| CreateEvent.SetErrorIf | src/pages/CreateEventPage.tsx:55 | one guarded assignment into `newErrors` is one `AddIf` step |
| CreateEvent.CollectErrors | src/pages/CreateEventPage.tsx:53-62 | the record built check by check is `Validate(t, formData)` |
| CreateEvent.SubmitRoute | src/pages/CreateEventPage.tsx:84-91 | a valid submit goes to '/dashboard' exactly with a paid plan and to '/upgrade' otherwise |
| CreateEvent.CreateEventPage.constructor | src/pages/CreateEventPage.tsx:25-38 | the form starts with every field empty and no errors |
| CreateEvent.CreateEventPage.HandleChange | src/pages/CreateEventPage.tsx:44-50 | only the named field changes, and that field's error is cleared |
| CreateEvent.CreateEventPage.ValidateForm | src/pages/CreateEventPage.tsx:52-66 | errors are replaced by `Validate(t, formData)`, and the result is true exactly when no field is invalid |
| CreateEvent.CreateEventPage.HandleSubmit | src/pages/CreateEventPage.tsx:68-97 | an invalid form stops after validation; a valid one routes by `SubmitRoute` |
| EditEvent.Redirect | src/pages/EditEventPage.tsx:19-28 | non-organizers go to '/', then organizers without a paid plan go to '/upgrade', and the form is shown exactly for paying organizers |
| EditEvent.EditingKeepsReadOnly | src/pages/EditEventPage.tsx:143-270 | editing title, description or time leaves the read-only fields as they were |
| EditEvent.InvalidIsCreateRestricted | src/pages/EditEventPage.tsx:73-75 | a field is invalid on the edit page exactly when it is title, description or time and invalid on the create page |
| EditEvent.InitialForm | src/pages/EditEventPage.tsx:31-43 | the pre-filled Hamlet record; `EditEvent.InitialFormIsValid` states that it passes both validations |
| EditEvent.Invalid | src/pages/EditEventPage.tsx:73-75 | which fields block saving: title and description when blank after trimming, time when empty; `EditEvent.InvalidIsCreateRestricted` relates it to the create page |
| EditEvent.Validate | src/pages/EditEventPage.tsx:70-76 | the edit page's error record; `EditEvent.ValidateMeaning` states its meaning |
| EditEvent.ValidateMeaning | src/pages/EditEventPage.tsx:70-76 | a field has an error exactly when it is invalid, with the translation of its required key as message |
| EditEvent.ValidateIsCreateRestricted | src/pages/EditEventPage.tsx:70-76 | the edit page's errors are the create page's errors restricted to title, description and time |
| EditEvent.InitialFormIsValid | src/pages/EditEventPage.tsx:31-57 | the pre-filled Hamlet form passes both the edit and the create validation |
| EditEvent.EditEventPage.constructor | src/pages/EditEventPage.tsx:45-59 | the form starts as the mock event with no errors |
| EditEvent.EditEventPage.HandleChange | src/pages/EditEventPage.tsx:62-68 | only the named field changes, and that field's error is cleared |
| EditEvent.EditEventPage.ChangeTitle | src/pages/EditEventPage.tsx:143 | the title input changes only the title and keeps the read-only fields |
| EditEvent.EditEventPage.ChangeDescription | src/pages/EditEventPage.tsx:160 | the description input changes only the description and keeps the read-only fields |
| EditEvent.EditEventPage.ChangeTime | src/pages/EditEventPage.tsx:251 | the time input changes only the time and keeps the read-only fields |
| EditEvent.EditEventPage.ValidateForm | src/pages/EditEventPage.tsx:70-79 | errors are replaced by `Validate(t, formData)`, and the result is true exactly when no field is invalid |
| EditEvent.EditEventPage.HandleSubmit | src/pages/EditEventPage.tsx:81-104 | an invalid form stops after validation; a valid one goes to '/dashboard' |
| Translations.Lookup | src/context/LanguageContext.tsx:297 | `table[key] \|\| key`: a present, non-empty entry is returned, otherwise the key; a non-empty key never gives '' |
| Translations.Translate | src/context/LanguageContext.tsx:296-298 | `t` returns the active table's non-empty entry or the key, and never '' for a non-empty key |
| Translations.MusicalUntranslated | src/context/LanguageContext.tsx:10-289 | 'musical', offered as a category on the landing page, is displayed untranslated in both languages |
| Translations.MusicalAbsent | src/context/LanguageContext.tsx:10-289 | 'musical' is in neither table |
| Translations.SwedishAllCategories | src/context/LanguageContext.tsx:172-211 | the Swedish table's 'allCategories' is the later entry, 'Alla Kategorier' |
| Translations.LaterDuplicateWins | src/context/LanguageContext.tsx:172-211 | the Swedish lookup of 'allCategories' gives the later entry, 'Alla Kategorier' |
| Translations.EarlierDuplicateShadowed | src/context/LanguageContext.tsx:172 | the earlier Swedish 'allCategories' entry is never displayed |
| Translations.LanguageProvider.constructor | src/context/LanguageContext.tsx:294 | the language starts as Swedish |
| Translations.LanguageProvider.T | src/context/LanguageContext.tsx:296-298 | `t` of the provider: `Translate` in the current language |
| Translations.LanguageProvider.SetLanguage | src/context/LanguageContext.tsx:301 | `setLanguage` makes the given language current |
| Translations.UseLanguage | src/context/LanguageContext.tsx:307-313 | outside a provider the hook fails with its message; inside it yields the provider |
| Auth.JohnDoe | src/context/AuthContext.tsx:17-29 | the one stored account at start |
| Auth.FindByEmail | src/context/AuthContext.tsx:36 | `mockUsers.find(u => u.email === email)`: the first stored account with that e-mail; `Auth.DuplicateEmailFindsEarliest` uses it |
| Auth.NewAccount | src/context/AuthContext.tsx:46-57 | the account sign-up builds; `Auth.AuthStore.SignUp` states its fields |
| Auth.SequentialIdsUnique | src/context/AuthContext.tsx:47 | while account k has id `String(k)`, no two stored accounts share an id |
| Auth.DuplicateEmailFindsEarliest | src/context/AuthContext.tsx:36-58 | sign-up accepts an e-mail already stored, and a later sign-in still finds the earliest account |
| Auth.ApplyPatch | src/context/AuthContext.tsx:74 | `{ ...user, ...data }`: each supplied field overrides the user's; its properties are in `Auth.PatchOverridesSuppliedFields` |
| Auth.PatchOverridesSuppliedFields | src/context/AuthContext.tsx:66-76 | `{ ...user, ...data }` overrides exactly the supplied fields: an empty patch changes nothing, a patch applied twice is applied once, profile data replaces name, bio and avatar only |
| Auth.AuthStore.constructor | src/context/AuthContext.tsx:17-32 | only John Doe is stored and nobody is signed in |
| Auth.AuthStore.IsAuthenticated | src/context/AuthContext.tsx:82 | `isAuthenticated: !!user`: someone is signed in |
| Auth.AuthStore.SignIn | src/context/AuthContext.tsx:34-42 | the first stored account with the e-mail becomes the user, whatever the password; an unknown e-mail fails with 'Invalid credentials' and keeps the user |
| Auth.AuthStore.SignUp | src/context/AuthContext.tsx:44-60 | exactly one account is appended, with id `String(count + 1)`, no paid plan, zero followers and following, empty preferences and bio, and it becomes the user; ids stay sequential |
| Auth.AuthStore.SignOut | src/context/AuthContext.tsx:62-64 | nobody is signed in |
| Auth.AuthStore.UpdateProfile | src/context/AuthContext.tsx:66-70 | name, bio and avatar of the signed-in user are replaced and nothing else changes; signed out, nothing happens |
| Auth.AuthStore.UpdateUser | src/context/AuthContext.tsx:72-76 | the supplied fields of the signed-in user are overridden; signed out, nothing happens |
| Auth.UseAuth | src/context/AuthContext.tsx:95-101 | outside a provider the hook fails with its message; inside it yields the store |
| GenrePreferences.AvailableGenres | src/components/GenrePreferences.tsx:9-18 | the eight genre badges; `GenrePreferences.AvailableGenresDistinct` states that none repeats |
| GenrePreferences.AvailableGenresDistinct | src/components/GenrePreferences.tsx:9-18 | no genre has two badges |
| GenrePreferences.InitialSelection | src/components/GenrePreferences.tsx:23 | the selection starts as the user's stored preferences, or empty when there are none or nobody is signed in |
| GenrePreferences.GenrePreferencesCard.constructor | src/components/GenrePreferences.tsx:21-23 | the card starts from `InitialSelection` of the signed-in user |
| GenrePreferences.GenrePreferencesCard.ToggleGenre | src/components/GenrePreferences.tsx:25-31 | a selected genre is removed and an unselected one appended at the end; no other genre changes, and no duplicate is created |
| GenrePreferences.GenrePreferencesCard.HandleSave | src/components/GenrePreferences.tsx:33-35 | the selection becomes the signed-in user's preferred genres; signed out, nothing happens |
| GenrePreferences.SaveThenReopen | src/components/GenrePreferences.tsx:23-35 | reopening the card after a toggle and a save shows the toggled selection |
| Pricing.IsCurrent | src/pages/PricingPage.tsx:25-41 | free is current for a signed-in user without a paid plan, pro for one with it; `Pricing.OneCurrentPlan` states the consequence |
| Pricing.OneCurrentPlan | src/pages/PricingPage.tsx:25-41 | at most one plan is current, and exactly one for a signed-in user |
| Pricing.ButtonLabel | src/pages/PricingPage.tsx:124 | the button reads 'currentPlan' exactly for the current plan, 'selectPlan' exactly for another plan when signed in, and 'signInToSubscribe' exactly for a visitor |
| Pricing.SelectPlan | src/pages/PricingPage.tsx:46-65 | 'free' does nothing; 'pro' sends a visitor to '/signin', and otherwise sets `hasPaidPlan` and routes to '/dashboard' for organizers, '/profile' for everyone else |
| Pricing.UpgradeMakesProCurrent | src/pages/PricingPage.tsx:41-63 | after upgrading, pro is the current plan and free is not, and upgrading again changes nothing |
| Pricing.OnlyEnabledProChangesUser | src/pages/PricingPage.tsx:46-65 | the only enabled button that changes the user is pro while not yet paid for |
| Pricing.HandleSelectPlan | src/pages/PricingPage.tsx:46-65 | the new user and the route are exactly `SelectPlan` of the old user |
| Profile.SavedEvents | src/pages/ProfilePage.tsx:24 | the saved events are the first three catalogue events, or all when there are fewer |
| Profile.CreatedEvents | src/pages/ProfilePage.tsx:25 | `mockEvents.filter(e => e.organizerId === user?.id)`; `Profile.CreatedEventsMembers` states its members |
| Profile.CreatedEventsMembers | src/pages/ProfilePage.tsx:25 | the created events are exactly the catalogue events the user organizes, in catalogue order |
| Profile.NameOf | src/pages/ProfilePage.tsx:21 | the user's name, or '' when signed out |
| Profile.BioOf | src/pages/ProfilePage.tsx:22 | the user's bio, or '' when signed out |
| Profile.EventRoute | src/pages/ProfilePage.tsx:38-40 | the route is '/event/' followed by the event id |
| Profile.EventRouteInjective | src/pages/ProfilePage.tsx:38-40 | different events lead to different pages |
| Profile.ProfilePage.constructor | src/pages/ProfilePage.tsx:20-22 | not editing, with the buffer holding the user's name and bio |
| Profile.ProfilePage.StartEditing | src/pages/ProfilePage.tsx:86 | the page enters editing mode |
| Profile.ProfilePage.SetEditedName | src/pages/ProfilePage.tsx:63 | the name input sets the buffer's name |
| Profile.ProfilePage.SetEditedBio | src/pages/ProfilePage.tsx:68 | the bio input sets the buffer's bio |
| Profile.ProfilePage.HandleSave | src/pages/ProfilePage.tsx:27-30 | the buffer's name and bio become the user's, everything else about the user is kept, and editing ends |
| Profile.ProfilePage.HandleCancel | src/pages/ProfilePage.tsx:32-36 | the buffer goes back to the user's name and bio ('' when signed out), the user is untouched, and editing ends |
| Profile.SaveThenCancel | src/pages/ProfilePage.tsx:27-36 | after a save, editing again and cancelling shows the saved values in the buffer, and the user keeps them |
| Profile.EditThenCancel | src/pages/ProfilePage.tsx:32-36 | cancelling an unsaved edit leaves the user untouched and puts the user's name and bio back in the buffer |

## Left out

- Rendering: JSX, CSS classes, icons, images, the hero mosaic, FAQ texts and the map (`InteractiveMap`, with floating-point coordinates) are not modelled.
- Routing and glue: `App.tsx` with `ProtectedRoute`, `main.tsx`, `SignInPage`, `EditProfileModal` and `Navbar` are not modelled. They only forward to `signIn`, `updateProfile` and `setLanguage`, which are modelled. Navigation is a returned route string.
- The clock: `new Date()` and the parsing of 'YYYY-MM-DD' dates are not modelled. Event dates are whole day numbers. Today's day number and the day number one calendar month later are passed in as a `Calendar`. The model therefore does not capture time zones, the UTC-versus-local difference between a parsed date and `today`, or how `setMonth` overflows on the 31st.
- Text.Lower: lowers the ASCII capitals and the Latin-1 capitals 'À'-'Þ' (which include the Swedish 'Å', 'Ä' and 'Ö') and keeps every other character. Capitals beyond Latin-1 and the multi-character mappings of full Unicode `toLowerCase` are not modelled.
- Text.IsWhitespace: the ECMAScript whitespace and line-terminator characters are written out one by one; a character outside that list is never trimmed.
- The mock catalogue of `src/data/mockData` is not part of this model. The catalogue and the post list are parameters. The dashboard's hard-coded five-event list is also a parameter (`rows`), and `attendedEvents` in the feed is not modelled.
- Prices are floating point and are dropped from `Event`: no modelled operation reads them.
- Effects that are not modelled:
  - the `setTimeout` delays in both form submits;
  - `alert`;
  - `console.log`;
  - `navigator.share`;
  - `window.scrollTo` in the category click.
- `confirm` in bulk delete is modelled as a boolean parameter.
- The `catch` branch of both form submits is not modelled. It sets `{ submit: ... }`, but nothing in the `try` block can throw. `isSubmitting` is not modelled either. It disables the submit and cancel buttons during the one-second `setTimeout` delay, and that delay is left out, so the model has no window in which the buttons are disabled.
- `t` in the form pages is a function parameter. This states that every message is `t` of its key for any translation function, not only for the two tables.
- The edit page's `id` route parameter is not stored, because the page never uses it for anything but its mock record.
- React hook semantics: render scheduling, update batching and stale closures are not modelled. Each handler runs to completion against the current field values.
- Auth.UpgradeIsNotStored: a scenario method with no contract of its own. It shows that `updateUser` changes the signed-in copy only, so an upgrade is lost after signing out and in again.
- Passwords are accepted and ignored, as in the source.
- Auth.AuthStore.SignUp: `isOrganizer` is a required parameter. The source's default of `false` is not modelled; the contract holds for both values.
- Translations.Lookup: the tables are plain object literals, so a key naming a member inherited from `Object.prototype` (such as 'constructor', 'toString', 'hasOwnProperty' or '__proto__') finds that inherited function or object. It is truthy, so `t` returns it instead of the key. The model's tables hold only their own entries, so for these keys it returns the key. `t` is called on catalogue values (genres and categories), and the model assumes none of them names such a member.
- Translations.Translate: for the same reason, falls back to the key for the names of `Object.prototype` members, where `t` returns the inherited member.
- Translations.LanguageProvider.T: for the same reason, falls back to the key for the names of `Object.prototype` members, where `t` returns the inherited member.
- Auth.AuthStore.constructor: models the first mount of the provider. `mockUsers` is a module-level array, so a provider mounted again would keep earlier sign-ups; the app mounts a single provider.
