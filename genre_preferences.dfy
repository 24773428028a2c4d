/** The genre preference card (src/components/GenrePreferences.tsx): a
    selection of genres that each badge toggles, started from the user's
    stored preferences and saved back into the user. */
module GenrePreferences {
  import opened Types
  import opened Lists
  import Auth

  /** The badges of the card, in display order. */
  const AvailableGenres: seq<string> :=
    ["drama", "klassisk", "fotografi", "skulptur", "samtidskonst", "jazz", "standup", "musikal"]

  /** No genre has two badges. */
  lemma AvailableGenresDistinct()
    ensures NoDuplicates(AvailableGenres)
  {
  }

  /** `user?.preferredGenres || []`: the stored preferences when there are
      any (an empty list included), and nothing otherwise. */
  function InitialSelection(user: Option<User>): (r: seq<string>)
    ensures user.Some? && user.value.preferredGenres.Some? ==> r == user.value.preferredGenres.value
    ensures !(user.Some? && user.value.preferredGenres.Some?) ==> r == []
  {
    match user
    case None => []
    case Some(u) => u.preferredGenres.GetOr([])
  }

  /** The card's state; `store` is the authentication provider the card
      reads the user from and saves into. */
  class GenrePreferencesCard {
    const store: Auth.AuthStore
    var selectedGenres: seq<string>

    constructor (auth: Auth.AuthStore)
      ensures store == auth
      ensures selectedGenres == InitialSelection(auth.user)
    {
      store := auth;
      selectedGenres := InitialSelection(auth.user);
    }

    /** `toggleGenre`: removes the genre when it is selected, otherwise
        appends it; no other genre changes, and a duplicate-free selection
        stays duplicate-free. */
    method ToggleGenre(genre: string)
      modifies this`selectedGenres
      ensures selectedGenres == Toggle(old(selectedGenres), genre)
      ensures genre in selectedGenres <==> genre !in old(selectedGenres)
      ensures genre !in old(selectedGenres) ==> selectedGenres == old(selectedGenres) + [genre]
      ensures forall g :: g != genre ==> (g in selectedGenres <==> g in old(selectedGenres))
      ensures NoDuplicates(old(selectedGenres)) ==> NoDuplicates(selectedGenres)
    {
      if NoDuplicates(selectedGenres) {
        ToggleNoDuplicates(selectedGenres, genre);
      }
      if genre in selectedGenres {
        selectedGenres := Remove(selectedGenres, genre);
      } else {
        selectedGenres := selectedGenres + [genre];
      }
    }

    /** `handleSave`: the selection becomes the signed-in user's preferred
        genres; signed out, nothing happens. */
    method HandleSave()
      modifies store`user
      ensures old(store.user).None? ==> store.user == None
      ensures old(store.user).Some? ==> store.user == Some(old(store.user).value.(preferredGenres := Some(selectedGenres)))
    {
      store.UpdateUser(Auth.EmptyPatch.(preferredGenres := Some(Some(selectedGenres))));
    }
  }

  /** Saving and reopening the card shows the saved selection. */
  method SaveThenReopen(auth: Auth.AuthStore, genre: string) returns (reopened: GenrePreferencesCard)
    requires auth.user.Some?
    modifies auth`user
    ensures reopened.selectedGenres == Toggle(InitialSelection(old(auth.user)), genre)
  {
    var card := new GenrePreferencesCard(auth);
    card.ToggleGenre(genre);
    card.HandleSave();
    reopened := new GenrePreferencesCard(auth);
  }
}
