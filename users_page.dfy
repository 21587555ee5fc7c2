/** The super-admin user list: the search filter, the delete flow, the action menu and display fallbacks. */
module UsersPage {
  import opened Wrappers
  import opened Text
  import opened Seqs
  import opened Browser

  /** A user as the list receives it; `email` is always present. */
  datatype ClientUser = ClientUser(
    id: string,
    email: string,
    firstName: Option<string>,
    lastName: Option<string>,
    selectedPlan: Option<string>,
    paymentStatus: Option<string>)

  /** Email, first name or last name contains the search text, case-insensitively. */
  predicate UserMatches(search: string, u: ClientUser) {
    IncludesIgnoreCase(u.email, search)
    || (u.firstName.Some? && IncludesIgnoreCase(u.firstName.value, search))
    || (u.lastName.Some? && IncludesIgnoreCase(u.lastName.value, search))
  }

  /** `filteredUsers`. */
  function FilterUsers(users: seq<ClientUser>, search: string): (r: seq<ClientUser>)
    ensures forall k :: 0 <= k < |r| ==> UserMatches(search, r[k])
    ensures forall j :: 0 <= j < |users| && UserMatches(search, users[j]) ==> users[j] in r
  {
    Filter(users, (u: ClientUser) => UserMatches(search, u))
  }

  /** The filter keeps an order-preserving subsequence, and an empty search keeps every user. */
  lemma FilterUsersCorrect(users: seq<ClientUser>, search: string)
    ensures Subseq(FilterUsers(users, search), users)
    ensures FilterUsers(users, "") == users
  {
    FilterIsSubseq(users, (u: ClientUser) => UserMatches(search, u));
    forall j | 0 <= j < |users| ensures UserMatches("", users[j]) {
      EmptyIsContained(ToLower(users[j].email));
    }
  }

  /** The list after a confirmed, successful delete of `id`. */
  function WithoutUser(users: seq<ClientUser>, id: string): (r: seq<ClientUser>)
    ensures forall k :: 0 <= k < |r| ==> r[k].id != id
    ensures forall j :: 0 <= j < |users| && users[j].id != id ==> users[j] in r
  {
    Filter(users, (u: ClientUser) => u.id != id)
  }

  /** Only rows with that id go, and the rest keep their order. */
  lemma WithoutUserKeepsOrder(users: seq<ClientUser>, id: string)
    ensures Subseq(WithoutUser(users, id), users)
    ensures (forall j :: 0 <= j < |users| ==> users[j].id != id) ==> WithoutUser(users, id) == users
  {
    FilterIsSubseq(users, (u: ClientUser) => u.id != id);
  }

  /** The avatar letter: the first name's first letter, else the email's; none when both are empty. */
  function AvatarInitial(u: ClientUser): (c: Option<char>)
    ensures TruthyStr(u.firstName) ==> c == Some(u.firstName.value[0])
    ensures !TruthyStr(u.firstName) && u.email != "" ==> c == Some(u.email[0])
    ensures c.None? <==> !TruthyStr(u.firstName) && u.email == ""
  {
    if TruthyStr(u.firstName) then Some(u.firstName.value[0])
    else if u.email != "" then Some(u.email[0])
    else None
  }

  /**
   * The plan label falls back to "Free", the payment label to "Unpaid".
   * The dashboard page draws its own labels (`DashboardPage.PlanLabel`,
   * `DashboardPage.PaymentLabel`) with the fallbacks "None" and "Pending".
   */
  function PlanLabel(u: ClientUser): (s: string)
    ensures TruthyStr(u.selectedPlan) ==> s == u.selectedPlan.value
    ensures !TruthyStr(u.selectedPlan) ==> s == "Free"
  {
    OrStr(u.selectedPlan, "Free")
  }

  function PaymentLabel(u: ClientUser): (s: string)
    ensures TruthyStr(u.paymentStatus) ==> s == u.paymentStatus.value
    ensures !TruthyStr(u.paymentStatus) ==> s == "Unpaid"
  {
    OrStr(u.paymentStatus, "Unpaid")
  }

  /** Where the action menu is drawn. */
  datatype Position = Position(top: int, right: int)

  class UserList {
    var users: seq<ClientUser>
    var openActionId: Option<string>
    var dropdownPos: Position
    const window: Window

    constructor (w: Window, fetched: seq<ClientUser>)
      ensures window == w && users == fetched && openActionId.None? && dropdownPos == Position(0, 0)
    {
      window := w;
      users, openActionId, dropdownPos := fetched, None, Position(0, 0);
    }

    /**
     * `toggleDropdown`: clicking the open row's button closes the menu;
     * any other row opens its own menu below the button.
     */
    method ToggleDropdown(userId: string, rectBottom: int, rectRight: int, scrollY: int, innerWidth: int)
      modifies this`openActionId, this`dropdownPos
      ensures old(openActionId) == Some(userId) ==> openActionId.None? && dropdownPos == old(dropdownPos)
      ensures old(openActionId) != Some(userId) ==>
                openActionId == Some(userId) && dropdownPos == Position(rectBottom + scrollY, innerWidth - rectRight - 10)
    {
      if openActionId == Some(userId) {
        openActionId := None;
      } else {
        dropdownPos := Position(rectBottom + scrollY, innerWidth - rectRight - 10);
        openActionId := Some(userId);
      }
    }

    /**
     * `handleDelete`: without confirmation nothing happens; with it the
     * request goes out, and only when it succeeds is the row dropped.
     */
    method HandleDelete(userId: string, confirmed: bool, requestSucceeded: bool)
      modifies this`users, window`trace
      ensures !confirmed ==> users == old(users) && window.trace == old(window.trace)
      ensures confirmed ==> window.trace == old(window.trace) + [Request("DELETE", "/super-admin/users/" + userId)]
      ensures users == if confirmed && requestSucceeded then WithoutUser(old(users), userId) else old(users)
    {
      if confirmed {
        window.Request("DELETE", "/super-admin/users/" + userId);
        if requestSucceeded {
          users := WithoutUser(users, userId);
        }
      }
    }
  }
}
