/** The mock session store of src/context/AuthContext.tsx: a list of stored
    accounts (the module-level `mockUsers` array), the signed-in user, and
    the operations that change them. */
module Auth {
  import opened Types
  import opened Lists
  import Text

  /** The single stored account at start-up. */
  const JohnDoe := User(
    "1", "John Doe", "john@example.com",
    "https://images.unsplash.com/photo-1472099645785-5658abf4ff4e?w=100&h=100&fit=crop",
    "Event enthusiast and music lover",
    true, false, 234, 189, None)

  /** The avatar every new account gets. */
  const SignUpAvatar := "https://images.unsplash.com/photo-1535713875002-d1d0cf377fde?w=100&h=100&fit=crop"

  const InvalidCredentials := "Invalid credentials"

  /** `mockUsers.find(u => u.email === email)`. */
  function FindByEmail(users: seq<User>, email: string): Option<User>
  {
    Find(users, (u: User) => u.email == email)
  }

  /** The account `signUp` builds when `n - 1` accounts are stored. */
  function NewAccount(n: nat, name: string, email: string, isOrganizer: bool): User
  {
    User(Text.DecimalString(n), name, email, SignUpAvatar, "", isOrganizer, false, 0, 0, Some([]))
  }

  /** Stored account number `i + 1` has the id `String(i + 1)`; this holds
      initially and `signUp` keeps it. */
  predicate SequentialIds(users: seq<User>)
  {
    forall i :: 0 <= i < |users| ==> users[i].id == Text.DecimalString(i + 1)
  }

  /** With sequential ids no two stored accounts share an id. */
  lemma SequentialIdsUnique(users: seq<User>, i: int, j: int)
    requires SequentialIds(users)
    requires 0 <= i < j < |users|
    ensures users[i].id != users[j].id
  {
    if users[i].id == users[j].id {
      Text.DecimalInjective(i + 1, j + 1);
    }
  }

  /** `signUp` does not reject an e-mail address that is already stored; a
      later `signIn` with it still finds the earliest account. */
  lemma DuplicateEmailFindsEarliest(users: seq<User>, name: string, email: string, isOrganizer: bool)
    requires FindByEmail(users, email).Some?
    ensures FindByEmail(users + [NewAccount(|users| + 1, name, email, isOrganizer)], email) == FindByEmail(users, email)
  {
    FindAppend(users, [NewAccount(|users| + 1, name, email, isOrganizer)], (u: User) => u.email == email);
  }

  /** `Partial<User>`: the fields an update supplies. */
  datatype UserPatch = UserPatch(
    id: Option<string>,
    name: Option<string>,
    email: Option<string>,
    avatar: Option<string>,
    bio: Option<string>,
    isOrganizer: Option<bool>,
    hasPaidPlan: Option<bool>,
    followers: Option<int>,
    following: Option<int>,
    preferredGenres: Option<Option<seq<string>>>)

  const EmptyPatch := UserPatch(None, None, None, None, None, None, None, None, None, None)

  /** `{ ...user, ...data }`. */
  function ApplyPatch(u: User, p: UserPatch): User
  {
    User(
      p.id.GetOr(u.id), p.name.GetOr(u.name), p.email.GetOr(u.email),
      p.avatar.GetOr(u.avatar), p.bio.GetOr(u.bio),
      p.isOrganizer.GetOr(u.isOrganizer), p.hasPaidPlan.GetOr(u.hasPaidPlan),
      p.followers.GetOr(u.followers), p.following.GetOr(u.following),
      p.preferredGenres.GetOr(u.preferredGenres))
  }

  /** The data `updateProfile` receives, as a patch. */
  function ProfilePatch(name: string, bio: string, avatar: string): UserPatch
  {
    EmptyPatch.(name := Some(name), bio := Some(bio), avatar := Some(avatar))
  }

  /** A patch overrides exactly the fields it supplies: an empty patch
      changes nothing, applying a patch twice is applying it once, and
      `updateProfile`'s data replaces name, bio and avatar only. */
  lemma PatchOverridesSuppliedFields(u: User, p: UserPatch, name: string, bio: string, avatar: string)
    ensures ApplyPatch(u, EmptyPatch) == u
    ensures ApplyPatch(ApplyPatch(u, p), p) == ApplyPatch(u, p)
    ensures ApplyPatch(u, ProfilePatch(name, bio, avatar)) == u.(name := name, bio := bio, avatar := avatar)
  {
  }

  /** The guard of the organizer pages: an organizer stays (`None`), and
      anyone else, a visitor who is not signed in included, is sent to
      `elsewhere`. */
  function OrganizerOnly(user: Option<User>, elsewhere: string): (r: Option<string>)
    ensures r.None? <==> user.Some? && user.value.isOrganizer
    ensures r.Some? ==> r.value == elsewhere
  {
    if !(user.Some? && user.value.isOrganizer) then Some(elsewhere) else None
  }

  /** The provider's state. `users` stands for the module-level array;
      the constructor is the first and only mount of the provider, which the
      app renders once, so the array starts as its initial literal. */
  class AuthStore {
    var users: seq<User>
    var user: Option<User>

    ghost predicate Valid()
      reads this
    {
      SequentialIds(users)
    }

    /** Initially only John Doe is stored and nobody is signed in. */
    constructor ()
      ensures Valid()
      ensures users == [JohnDoe] && user == None
    {
      users := [JohnDoe];
      user := None;
    }

    /** `isAuthenticated: !!user`. */
    predicate IsAuthenticated()
      reads this
    {
      user.Some?
    }

    /** Signs in the first stored account with this e-mail address; the
        password is not checked. An unknown address throws and leaves the
        current user as it was. */
    method SignIn(email: string, password: string) returns (outcome: Outcome)
      modifies this`user
      ensures FindByEmail(users, email).Some? ==> user == FindByEmail(users, email) && outcome == Pass
      ensures FindByEmail(users, email).None? ==> user == old(user) && outcome == Fail(InvalidCredentials)
    {
      var found := FindByEmail(users, email);
      if found.Some? {
        user := found;
        outcome := Pass;
      } else {
        outcome := Fail(InvalidCredentials);
      }
    }

    /** Stores one new account numbered after the existing ones and signs it
        in; duplicate e-mail addresses are accepted. */
    method SignUp(name: string, email: string, password: string, isOrganizer: bool)
      requires Valid()
      modifies this
      ensures Valid()
      ensures users == old(users) + [NewAccount(|old(users)| + 1, name, email, isOrganizer)]
      ensures user == Some(users[|users| - 1])
      ensures user.value.id == Text.DecimalString(|old(users)| + 1)
      ensures !user.value.hasPaidPlan && user.value.followers == 0 && user.value.following == 0
      ensures user.value.preferredGenres == Some([]) && user.value.bio == ""
    {
      var newUser := NewAccount(|users| + 1, name, email, isOrganizer);
      users := users + [newUser];
      user := Some(newUser);
    }

    method SignOut()
      modifies this`user
      ensures user == None
    {
      user := None;
    }

    /** Replaces name, bio and avatar of the signed-in user; nothing
        happens when signed out, and the stored account is not touched. */
    method UpdateProfile(name: string, bio: string, avatar: string)
      modifies this`user
      ensures old(user).None? ==> user == None
      ensures old(user).Some? ==> user == Some(old(user).value.(name := name, bio := bio, avatar := avatar))
    {
      if user.Some? {
        user := Some(ApplyPatch(user.value, ProfilePatch(name, bio, avatar)));
        PatchOverridesSuppliedFields(old(user).value, EmptyPatch, name, bio, avatar);
      }
    }

    /** Overrides the supplied fields of the signed-in user; nothing happens
        when signed out, and the stored account is not touched. */
    method UpdateUser(patch: UserPatch)
      modifies this`user
      ensures old(user).None? ==> user == None
      ensures old(user).Some? ==> user == Some(ApplyPatch(old(user).value, patch))
    {
      if user.Some? {
        user := Some(ApplyPatch(user.value, patch));
      }
    }
  }

  /** `useAuth()`: the store in scope, or an error outside a provider. */
  function UseAuth(context: Option<AuthStore>): (r: Result<AuthStore>)
    ensures r.Err? <==> context.None?
    ensures context.Some? ==> r == Ok(context.value)
    ensures r.Err? ==> r.message == "useAuth must be used within an AuthProvider"
  {
    match context
    case Some(store) => Ok(store)
    case None => Err("useAuth must be used within an AuthProvider")
  }

  /** A session: updates change only the signed-in copy, so an upgrade is
      lost after signing out and in again. */
  method UpgradeIsNotStored()
  {
    var store := new AuthStore();
    assert store.users == [JohnDoe];
    var outcome := store.SignIn("john@example.com", "any password");
    assert outcome == Pass && store.user == Some(JohnDoe);
    store.UpdateUser(EmptyPatch.(hasPaidPlan := Some(true)));
    assert store.user.value.hasPaidPlan;
    store.SignOut();
    assert !store.IsAuthenticated();
    outcome := store.SignIn("john@example.com", "");
    assert store.user == Some(JohnDoe) && !store.user.value.hasPaidPlan;
    outcome := store.SignIn("nobody@example.com", "");
    assert outcome == Fail(InvalidCredentials) && store.user == Some(JohnDoe);
  }
}
