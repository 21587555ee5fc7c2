/** The super-admin sidebar: which navigation item is highlighted, and sign-out. */
module Sidebar {
  import opened Wrappers
  import opened Text
  import opened Browser

  const DashboardHref := "/super-admin"
  const UsersHref := "/super-admin/users"
  const PlansHref := "/super-admin/plans"
  const TransactionsHref := "/super-admin/transactions"
  const AdminsHref := "/super-admin/admins"

  /** The five navigation entries, in display order. */
  const Navigation: seq<string> := [DashboardHref, UsersHref, PlansHref, TransactionsHref, AdminsHref]

  /** `isActive`: an exact match, or a prefix match for any entry but the dashboard. */
  predicate IsActive(pathname: Option<string>, href: string) {
    (pathname.Some? && pathname.value == href)
    || (href != DashboardHref && pathname.Some? && StartsWith(pathname.value, href))
  }

  /** The dashboard entry is highlighted only at exactly its own path. */
  lemma DashboardExactOnly(pathname: Option<string>)
    ensures IsActive(pathname, DashboardHref) <==> pathname == Some(DashboardHref)
  {
  }

  /** Sub-routes highlight their section: `/super-admin/users/7/edit` highlights User Management. */
  lemma SubRouteHighlights(rest: string)
    ensures IsActive(Some(UsersHref + rest), UsersHref)
    ensures rest != [] ==> !IsActive(Some(UsersHref + rest), DashboardHref)
  {
    assert UsersHref <= UsersHref + rest;
    if rest != [] {
      assert |UsersHref + rest| != |DashboardHref|;
    }
  }

  /** Strings that differ at a position cannot both be prefixes of one string. */
  lemma DivergentPrefixes(s: string, a: string, b: string, k: nat)
    requires k < |a| && k < |b| && a[k] != b[k]
    ensures !(a <= s && b <= s)
  {
  }

  /** The section entries differ at position 13, just after "/super-admin/". */
  lemma SectionsDiverge(i: nat, j: nat)
    requires 1 <= i < j < |Navigation|
    ensures |Navigation[i]| > 13 && |Navigation[j]| > 13 && Navigation[i][13] != Navigation[j][13]
  {
    assert UsersHref[13] == 'u' && PlansHref[13] == 'p';
    assert TransactionsHref[13] == 't' && AdminsHref[13] == 'a';
  }

  /** For any pathname at most one of the five entries is highlighted. */
  lemma AtMostOneActive(pathname: Option<string>, i: nat, j: nat)
    requires i < j < |Navigation|
    ensures !(IsActive(pathname, Navigation[i]) && IsActive(pathname, Navigation[j]))
  {
    assert |Navigation[j]| > |DashboardHref|;
    if i > 0 && pathname.Some? {
      SectionsDiverge(i, j);
      DivergentPrefixes(pathname.value, Navigation[i], Navigation[j], 13);
    }
  }

  /** Sign Out: drop the token and the user, then go to the login page. */
  method SignOut(w: Window)
    modifies w
    ensures w.storage == old(w.storage) - {"token", "user"}
    ensures w.trace == old(w.trace) + [RemoveItem("token"), RemoveItem("user"), Navigate("/login")]
  {
    w.RemoveItem("token");
    w.RemoveItem("user");
    w.Navigate("/login");
  }
}
