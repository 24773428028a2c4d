/** The pricing page (src/pages/PricingPage.tsx): which of the two plans is
    the current one, what each plan's button offers, and the mocked upgrade
    to the pro plan. */
module Pricing {
  import opened Types
  import Auth

  /** `plan.isCurrent`: the free plan for a signed-in user without a paid
      plan, the pro plan for a paying user; no plan for a visitor. */
  predicate IsCurrent(planId: string, user: Option<User>)
  {
    if planId == "free" then user.Some? && !user.value.hasPaidPlan
    else if planId == "pro" then user.Some? && user.value.hasPaidPlan
    else false
  }

  /** At most one plan is current, and for a signed-in user exactly one. */
  lemma OneCurrentPlan(user: Option<User>)
    ensures !(IsCurrent("free", user) && IsCurrent("pro", user))
    ensures user.Some? <==> IsCurrent("free", user) || IsCurrent("pro", user)
  {
  }

  /** The translation key of a plan's button label: the current plan says
      so, otherwise a signed-in user is offered the plan and a visitor is
      asked to sign in. */
  function ButtonLabel(planId: string, user: Option<User>): (r: string)
    ensures r == "currentPlan" <==> IsCurrent(planId, user)
    ensures r == "selectPlan" <==> !IsCurrent(planId, user) && user.Some?
    ensures r == "signInToSubscribe" <==> user.None?
  {
    if IsCurrent(planId, user) then "currentPlan"
    else if user.Some? then "selectPlan"
    else "signInToSubscribe"
  }

  /** What selecting a plan does, as values: the user afterwards and the
      route taken, if any. */
  datatype Selection = Selection(user: Option<User>, route: Option<string>)

  /** `handleSelectPlan` on values: only 'pro' does anything; a visitor is
      sent to sign in, a signed-in user is upgraded and sent to the
      dashboard (organizers) or the profile (everyone else). */
  function SelectPlan(user: Option<User>, planId: string): (r: Selection)
    ensures planId != "pro" ==> r == Selection(user, None)
    ensures planId == "pro" && user.None? ==> r == Selection(None, Some("/signin"))
    ensures planId == "pro" && user.Some? ==>
      r.user == Some(user.value.(hasPaidPlan := true))
      && r.route == Some(if user.value.isOrganizer then "/dashboard" else "/profile")
  {
    if planId != "pro" then Selection(user, None)
    else if user.None? then Selection(None, Some("/signin"))
    else
      var upgraded := Auth.ApplyPatch(user.value, Auth.EmptyPatch.(hasPaidPlan := Some(true)));
      Selection(Some(upgraded), Some(if user.value.isOrganizer then "/dashboard" else "/profile"))
  }

  /** After upgrading, pro is the current plan and its button is disabled;
      upgrading again changes nothing about the user. */
  lemma UpgradeMakesProCurrent(user: User)
    ensures IsCurrent("pro", SelectPlan(Some(user), "pro").user)
    ensures !IsCurrent("free", SelectPlan(Some(user), "pro").user)
    ensures SelectPlan(SelectPlan(Some(user), "pro").user, "pro").user == SelectPlan(Some(user), "pro").user
  {
  }

  /** The only plan a signed-in user can click that changes anything is pro
      while it is not current: the current plan's button is disabled, and
      free does nothing. */
  lemma OnlyEnabledProChangesUser(user: User, planId: string)
    requires !IsCurrent(planId, Some(user))
    requires SelectPlan(Some(user), planId).user != Some(user)
    ensures planId == "pro" && !user.hasPaidPlan
  {
  }

  /** `handleSelectPlan` against the authentication provider. */
  method HandleSelectPlan(store: Auth.AuthStore, planId: string) returns (route: Option<string>)
    modifies store`user
    ensures Selection(store.user, route) == SelectPlan(old(store.user), planId)
  {
    if planId == "pro" {
      if store.user.None? {
        return Some("/signin");
      }
      var signedIn := store.user.value;
      store.UpdateUser(Auth.EmptyPatch.(hasPaidPlan := Some(true)));
      if signedIn.isOrganizer {
        route := Some("/dashboard");
      } else {
        route := Some("/profile");
      }
    } else {
      route := None;
    }
  }
}
