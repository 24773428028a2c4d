/** Interface strings (src/context/LanguageContext.tsx): a key-to-string
    table per language, the lookup `t` that falls back to the key itself,
    the provider's current language and the `useLanguage` guard. */
module Translations {
  import opened Types

  // The English table, src/context/LanguageContext.tsx lines 12-148, one map per commented section.
  const EnglishNavigation: map<string, string> := map[
    "home" := "Home",
    "about" := "About",
    "events" := "Events",
    "profile" := "Profile",
    "signIn" := "Sign In",
    "signUp" := "Sign Up",
    "signOut" := "Sign Out",
    "feed" := "Feed",
    "pricing" := "Pricing",
    "dashboard" := "Dashboard"
  ]

  const EnglishLandingPage: map<string, string> := map[
    "heroTitle" := "Discover Amazing Events",
    "heroSubtitle" := "Find and attend the best events happening around you",
    "searchPlaceholder" := "Search events, locations, or categories...",
    "sponsoredEvents" := "Sponsored Events",
    "popularEvents" := "Popular Events",
    "categories" := "Categories"
  ]

  const EnglishCategories: map<string, string> := map[
    "allCategories" := "All Categories",
    "theater" := "Theater",
    "ballet" := "Ballet",
    "opera" := "Opera",
    "arts" := "Arts",
    "music" := "Music",
    "comedy" := "Comedy"
  ]

  const EnglishGenres: map<string, string> := map[
    "drama" := "Drama",
    "klassisk" := "Classical",
    "fotografi" := "Photography",
    "skulptur" := "Sculpture",
    "samtidskonst" := "Contemporary Art",
    "jazz" := "Jazz",
    "standup" := "Stand-up",
    "musikal" := "Musical"
  ]

  const EnglishLocations: map<string, string> := map[
    "allLocations" := "All Locations",
    "genre" := "Genre",
    "allGenres" := "All Genres"
  ]

  const EnglishEventDetails: map<string, string> := map[
    "eventDetails" := "Event Details",
    "date" := "Date",
    "time" := "Time",
    "location" := "Location",
    "price" := "Price",
    "free" := "Free",
    "organizer" := "Organizer",
    "attendees" := "Attendees",
    "saveEvent" := "Save Event",
    "unsaveEvent" := "Unsaved",
    "shareEvent" := "Share"
  ]

  const EnglishSearch: map<string, string> := map[
    "searchResults" := "Search Results",
    "filters" := "Filters",
    "allCategories" := "All Categories",
    "priceRange" := "Price Range",
    "dateRange" := "Date Range"
  ]

  const EnglishProfile: map<string, string> := map[
    "editProfile" := "Edit Profile",
    "savedEvents" := "Saved Events",
    "createdEvents" := "Created Events",
    "followers" := "Followers",
    "following" := "Following"
  ]

  const EnglishOrganizerDashboard: map<string, string> := map[
    "myEvents" := "My Events",
    "createEvent" := "Create Event",
    "editEvent" := "Edit Event",
    "deleteEvent" := "Delete Event",
    "sponsored" := "Sponsored",
    "selectAll" := "Select All",
    "bulkActions" := "Bulk Actions",
    "noPaidPlan" := "Editing events requires a paid plan",
    "upgradeNow" := "Upgrade Now",
    "eventDetails" := "Event Details",
    "eventTitle" := "Event Title",
    "castOfCharacters" := "Cast of Characters",
    "selectCategory" := "Select Category",
    "selectGenre" := "Select Genre",
    "eventImage" := "Event Image",
    "titleRequired" := "Title is required",
    "descriptionRequired" := "Description is required",
    "genreRequired" := "Genre is required",
    "categoryRequired" := "Category is required",
    "locationRequired" := "Location is required",
    "dateRequired" := "Date is required",
    "timeRequired" := "Time is required",
    "priceRequired" := "Price is required",
    "backToDashboard" := "Back to Dashboard",
    "creating" := "Creating...",
    "cancel" := "Cancel"
  ]

  const EnglishPaymentPlans: map<string, string> := map[
    "paymentPlans" := "Payment Plans",
    "free" := "Free",
    "pro" := "Pro",
    "selectPlan" := "Select Plan",
    "currentPlan" := "Current Plan",
    "signInToSubscribe" := "Sign In to Subscribe"
  ]

  const EnglishSocialFeed: map<string, string> := map[
    "whatsHappening" := "What's happening?",
    "post" := "Post",
    "like" := "Like",
    "comment" := "Comment",
    "previouslyAttended" := "Previously Attended Events",
    "recentActivity" := "Recent Activity"
  ]

  const EnglishAuth: map<string, string> := map[
    "email" := "Email",
    "password" := "Password",
    "name" := "Name",
    "noAccount" := "Don't have an account?",
    "haveAccount" := "Already have an account?"
  ]

  const EnglishCommon: map<string, string> := map[
    "save" := "Save",
    "cancel" := "Cancel",
    "delete" := "Delete",
    "edit" := "Edit",
    "view" := "View",
    "loadMore" := "Load More",
    "description" := "Description",
    "filterByGenre" := "Filter by Genre",
    "upgradeToPro" := "Upgrade to Pro",
    "deleteSelected" := "Delete Selected",
    "allDates" := "All Dates",
    "today" := "Today",
    "thisWeek" := "This Week",
    "thisMonth" := "This Month"
  ]

  /** The English table: a later section's entry overrides an earlier one
      with the same key, as in a JavaScript object literal. */
  const English: map<string, string> :=
    EnglishNavigation
    + EnglishLandingPage
    + EnglishCategories
    + EnglishGenres
    + EnglishLocations
    + EnglishEventDetails
    + EnglishSearch
    + EnglishProfile
    + EnglishOrganizerDashboard
    + EnglishPaymentPlans
    + EnglishSocialFeed
    + EnglishAuth
    + EnglishCommon

  // The Swedish table, src/context/LanguageContext.tsx lines 151-287, one map per commented section.
  const SwedishNavigation: map<string, string> := map[
    "home" := "Hem",
    "about" := "Om oss",
    "events" := "Evenemang",
    "profile" := "Profil",
    "signIn" := "Logga in",
    "signUp" := "Registrera",
    "signOut" := "Logga ut",
    "feed" := "Flöde",
    "pricing" := "Priser",
    "dashboard" := "Dashboard"
  ]

  const SwedishLandingPage: map<string, string> := map[
    "heroTitle" := "Upptäck Fantastiska Event",
    "heroSubtitle" := "Hitta och delta i de bästa evenemangen runt dig",
    "searchPlaceholder" := "Sök evenemang, platser eller kategorier...",
    "sponsoredEvents" := "Sponsrade Evenemang",
    "popularEvents" := "Populära Evenemang",
    "categories" := "Kategorier"
  ]

  const SwedishCategories: map<string, string> := map[
    "allCategories" := "Alla kategorier",
    "theater" := "Teater",
    "ballet" := "Ballet",
    "opera" := "Oper",
    "arts" := "Konst",
    "music" := "Musik",
    "comedy" := "Komedi"
  ]

  const SwedishGenres: map<string, string> := map[
    "drama" := "Drama",
    "klassisk" := "Klassisk",
    "fotografi" := "Fotografi",
    "skulptur" := "Skulptur",
    "samtidskonst" := "Samtidskonst",
    "jazz" := "Jazz",
    "standup" := "Stand-up",
    "musikal" := "Musikal"
  ]

  const SwedishLocations: map<string, string> := map[
    "allLocations" := "Alla platser",
    "genre" := "Genre",
    "allGenres" := "Alla genrer"
  ]

  const SwedishEventDetails: map<string, string> := map[
    "eventDetails" := "Eventdetaljer",
    "date" := "Datum",
    "time" := "Tid",
    "location" := "Plats",
    "price" := "Pris",
    "free" := "Gratis",
    "organizer" := "Arrangör",
    "attendees" := "Deltagare",
    "saveEvent" := "Spara Event",
    "unsaveEvent" := "Ej sparad",
    "shareEvent" := "Dela"
  ]

  const SwedishSearch: map<string, string> := map[
    "searchResults" := "Sökresultat",
    "filters" := "Filter",
    "allCategories" := "Alla Kategorier",
    "priceRange" := "Prisintervall",
    "dateRange" := "Datumintervall"
  ]

  const SwedishProfile: map<string, string> := map[
    "editProfile" := "Redigera Profil",
    "savedEvents" := "Sparade Evenemang",
    "createdEvents" := "Skapade Evenemang",
    "followers" := "Följare",
    "following" := "Följer"
  ]

  const SwedishOrganizerDashboard: map<string, string> := map[
    "myEvents" := "Mina Evenemang",
    "createEvent" := "Skapa Event",
    "editEvent" := "Redigera Event",
    "deleteEvent" := "Ta bort Event",
    "sponsored" := "Sponsrade",
    "selectAll" := "Välj alla",
    "bulkActions" := "Massåtgärder",
    "noPaidPlan" := "Redigera evenemang kräver en betald plan",
    "upgradeNow" := "Uppgradera Nu",
    "eventDetails" := "Eventdetaljer",
    "eventTitle" := "Eventtitel",
    "castOfCharacters" := "Rollista",
    "selectCategory" := "Välj Kategori",
    "selectGenre" := "Välj Genre",
    "eventImage" := "Eventbild",
    "titleRequired" := "Titel krävs",
    "descriptionRequired" := "Beskrivning krävs",
    "genreRequired" := "Genre krävs",
    "categoryRequired" := "Kategori krävs",
    "locationRequired" := "Plats krävs",
    "dateRequired" := "Datum krävs",
    "timeRequired" := "Tid krävs",
    "priceRequired" := "Pris krävs",
    "backToDashboard" := "Tillbaka till Dashboard",
    "creating" := "Skapar...",
    "cancel" := "Avbryt"
  ]

  const SwedishPaymentPlans: map<string, string> := map[
    "paymentPlans" := "Betalplaner",
    "free" := "Gratis",
    "pro" := "Pro",
    "selectPlan" := "Välj Plan",
    "currentPlan" := "Nuvarande Plan",
    "signInToSubscribe" := "Logga in för att prenumerera"
  ]

  const SwedishSocialFeed: map<string, string> := map[
    "whatsHappening" := "Vad händer?",
    "post" := "Posta",
    "like" := "Gilla",
    "comment" := "Kommentera",
    "previouslyAttended" := "Tidigare deltaga evenemang",
    "recentActivity" := "Nylig aktivitet"
  ]

  const SwedishAuth: map<string, string> := map[
    "email" := "E-post",
    "password" := "Lösenord",
    "name" := "Namn",
    "noAccount" := "Har du inget konto?",
    "haveAccount" := "Har du redan ett konto?"
  ]

  const SwedishCommon: map<string, string> := map[
    "save" := "Spara",
    "cancel" := "Avbryt",
    "delete" := "Ta bort",
    "edit" := "Redigera",
    "view" := "Visa",
    "loadMore" := "Ladda mer",
    "description" := "Beskrivning",
    "filterByGenre" := "Filtrera efter Genre",
    "upgradeToPro" := "Uppgradera till Pro",
    "deleteSelected" := "Ta bort markerade",
    "allDates" := "Alla datum",
    "today" := "Idag",
    "thisWeek" := "Denna vecka",
    "thisMonth" := "Denna månad"
  ]

  /** The Swedish table: a later section's entry overrides an earlier one
      with the same key, as in a JavaScript object literal. */
  const Swedish: map<string, string> :=
    SwedishNavigation
    + SwedishLandingPage
    + SwedishCategories
    + SwedishGenres
    + SwedishLocations
    + SwedishEventDetails
    + SwedishSearch
    + SwedishProfile
    + SwedishOrganizerDashboard
    + SwedishPaymentPlans
    + SwedishSocialFeed
    + SwedishAuth
    + SwedishCommon

  /** The table of a language. */
  function Table(lang: Language): map<string, string>
  {
    match lang
    case En => English
    case Sv => Swedish
  }

  /** `table[key] || key`: the entry when it is present and non-empty,
      the key otherwise. The result is never empty for a non-empty key.
      The table holds only its own entries: the members a JavaScript object
      inherits from `Object.prototype` are not in it. */
  function Lookup(table: map<string, string>, key: string): (r: string)
    ensures key in table && table[key] != "" ==> r == table[key]
    ensures key !in table ==> r == key
    ensures key in table && table[key] == "" ==> r == key
    ensures key != "" ==> r != ""
  {
    if key in table && table[key] != "" then table[key] else key
  }

  /** `t(key)`, that is `translations[language][key] || key`, for the
      language `lang`. */
  function Translate(lang: Language, key: string): (r: string)
    ensures key in Table(lang) && Table(lang)[key] != "" ==> r == Table(lang)[key]
    ensures key !in Table(lang) ==> r == key
    ensures key != "" ==> r != ""
  {
    Lookup(Table(lang), key)
  }

  // 'musical' is absent from every section of both tables.
  lemma MusicalAbsentEnglishNavigation()
    ensures "musical" !in EnglishNavigation
    ensures "musical" !in EnglishLandingPage
    ensures "musical" !in EnglishCategories
  {
  }

  lemma MusicalAbsentEnglishGenres()
    ensures "musical" !in EnglishGenres
    ensures "musical" !in EnglishLocations
  {
  }

  lemma MusicalAbsentEnglishDetails()
    ensures "musical" !in EnglishEventDetails
    ensures "musical" !in EnglishSearch
  {
  }

  lemma MusicalAbsentEnglishProfile()
    ensures "musical" !in EnglishProfile
    ensures "musical" !in EnglishOrganizerDashboard
    ensures "musical" !in EnglishPaymentPlans
  {
  }

  lemma MusicalAbsentEnglishFeed()
    ensures "musical" !in EnglishSocialFeed
    ensures "musical" !in EnglishAuth
    ensures "musical" !in EnglishCommon
  {
  }

  lemma MusicalAbsentSwedishNavigation()
    ensures "musical" !in SwedishNavigation
    ensures "musical" !in SwedishLandingPage
    ensures "musical" !in SwedishCategories
  {
  }

  lemma MusicalAbsentSwedishGenres()
    ensures "musical" !in SwedishGenres
    ensures "musical" !in SwedishLocations
  {
  }

  lemma MusicalAbsentSwedishDetails()
    ensures "musical" !in SwedishEventDetails
    ensures "musical" !in SwedishSearch
  {
  }

  lemma MusicalAbsentSwedishProfile()
    ensures "musical" !in SwedishProfile
    ensures "musical" !in SwedishOrganizerDashboard
    ensures "musical" !in SwedishPaymentPlans
  {
  }

  lemma MusicalAbsentSwedishFeed()
    ensures "musical" !in SwedishSocialFeed
    ensures "musical" !in SwedishAuth
    ensures "musical" !in SwedishCommon
  {
  }

  /** 'musical', offered as a category on the landing page, is in neither
      table, so it is displayed untranslated in both languages. */
  lemma MusicalUntranslated(lang: Language)
    ensures Translate(lang, "musical") == "musical"
  {
    MusicalAbsent(lang);
  }

  lemma MusicalAbsent(lang: Language)
    ensures "musical" !in Table(lang)
  {
    MusicalAbsentEnglish();
    MusicalAbsentSwedish();
  }

  lemma MusicalAbsentEnglish()
    ensures "musical" !in English
  {
    MusicalAbsentEnglishNavigation();
    MusicalAbsentEnglishGenres();
    MusicalAbsentEnglishDetails();
    MusicalAbsentEnglishProfile();
    MusicalAbsentEnglishFeed();
  }

  lemma MusicalAbsentSwedish()
    ensures "musical" !in Swedish
  {
    MusicalAbsentSwedishNavigation();
    MusicalAbsentSwedishGenres();
    MusicalAbsentSwedishDetails();
    MusicalAbsentSwedishProfile();
    MusicalAbsentSwedishFeed();
  }

  lemma AllCategoriesInCategoriesAndSearch()
    ensures "allCategories" in SwedishCategories && SwedishCategories["allCategories"] == "Alla kategorier"
    ensures "allCategories" in SwedishSearch && SwedishSearch["allCategories"] == "Alla Kategorier"
  {
  }

  lemma AllCategoriesNotInProfileToPlans()
    ensures "allCategories" !in SwedishProfile
    ensures "allCategories" !in SwedishOrganizerDashboard
    ensures "allCategories" !in SwedishPaymentPlans
  {
  }

  lemma AllCategoriesNotInFeedToCommon()
    ensures "allCategories" !in SwedishSocialFeed
    ensures "allCategories" !in SwedishAuth
    ensures "allCategories" !in SwedishCommon
  {
  }

  lemma SwedishAllCategories()
    ensures "allCategories" in Swedish && Swedish["allCategories"] == "Alla Kategorier"
  {
    AllCategoriesInCategoriesAndSearch();
    AllCategoriesNotInProfileToPlans();
    AllCategoriesNotInFeedToCommon();
  }

  /** The Swedish table lists 'allCategories' twice; the later entry, in the
      search section, is the one the lookup returns. */
  lemma LaterDuplicateWins()
    ensures Lookup(Swedish, "allCategories") == "Alla Kategorier"
  {
    SwedishAllCategories();
  }

  /** The earlier Swedish entry for 'allCategories' is never displayed. */
  lemma EarlierDuplicateShadowed()
    ensures "allCategories" in SwedishCategories
    ensures Lookup(Swedish, "allCategories") != SwedishCategories["allCategories"]
  {
    LaterDuplicateWins();
    AllCategoriesInCategoriesAndSearch();
  }

  /** The language provider: the current language is component state. */
  class LanguageProvider {
    var language: Language

    /** The initial language is Swedish. */
    constructor ()
      ensures language == Sv
    {
      language := Sv;
    }

    method SetLanguage(lang: Language)
      modifies this
      ensures language == lang
    {
      language := lang;
    }

    /** `t` bound to the current language. */
    function T(key: string): string
      reads this
    {
      Translate(language, key)
    }
  }

  /** `useLanguage()`: the provider in scope, or an error when the component
      is rendered outside a provider. */
  function UseLanguage(context: Option<LanguageProvider>): (r: Result<LanguageProvider>)
    ensures r.Err? <==> context.None?
    ensures context.Some? ==> r == Ok(context.value)
    ensures r.Err? ==> r.message == "useLanguage must be used within a LanguageProvider"
  {
    match context
    case Some(provider) => Ok(provider)
    case None => Err("useLanguage must be used within a LanguageProvider")
  }
}
