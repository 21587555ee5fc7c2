/**
 * The client dashboard: confirming a checkout on return from the payment
 * page, loading the profile (none yet means the onboarding wizard), and
 * which actions the overview offers.
 */
module DashboardPage {
  import opened Wrappers
  import opened Text
  import opened Browser

  /** The profile fields the page reads; `None` is a null or absent value. */
  datatype Profile = Profile(
    websiteStatus: Option<string>,
    selectedPlan: Option<string>,
    planPrice: Option<string>,
    paymentStatus: Option<string>,
    previewUrl: Option<string>)

  /** The reply to `GET /users/profile`; an error may carry an HTTP status. */
  datatype Fetch = Fetched(profile: Profile) | FetchError(status: Option<nat>)

  /** The page came back from checkout: `payment_status=success` and a non-empty `session_id`. */
  predicate ReturnsFromCheckout(query: map<string, string>) {
    "payment_status" in query && query["payment_status"] == "success"
    && "session_id" in query && query["session_id"] != ""
  }

  /**
   * The requests `checkProfile` makes, in order: the session check when
   * returning from checkout (and the address cleanup when it succeeds),
   * then always the profile fetch.
   */
  function CheckEffects(query: map<string, string>, pathname: string, verified: bool): (r: seq<Effect>)
    ensures Request("POST", "/subscription/verify-session") in r <==> ReturnsFromCheckout(query)
    ensures ReplaceUrl(pathname) in r <==> ReturnsFromCheckout(query) && verified
    ensures r != [] && r[|r| - 1] == Request("GET", "/users/profile")
    ensures Request("GET", "/users/profile") !in r[..|r| - 1]
  {
    (if ReturnsFromCheckout(query)
     then [Request("POST", "/subscription/verify-session")] + (if verified then [ReplaceUrl(pathname)] else [])
     else [])
    + [Request("GET", "/users/profile")]
  }

  /** A failed session check is swallowed: the profile is fetched exactly as after a successful one. */
  lemma VerifyFailureStillFetches(query: map<string, string>, pathname: string)
    requires ReturnsFromCheckout(query)
    ensures CheckEffects(query, pathname, false)
            == [Request("POST", "/subscription/verify-session"), Request("GET", "/users/profile")]
  {
  }

  /** The profile after the fetch: the record, none on a 404, and unchanged on any other error. */
  function ProfileAfter(before: Option<Profile>, fetch: Fetch): (r: Option<Profile>)
    ensures fetch.Fetched? ==> r == Some(fetch.profile)
    ensures fetch == FetchError(Some(404)) ==> r == None
    ensures fetch.FetchError? && fetch.status != Some(404) ==> r == before
  {
    match fetch
    case Fetched(p) => Some(p)
    case FetchError(status) => if status == Some(404) then None else before
  }

  /** What the page shows. */
  datatype View = Spinner | Wizard | Overview(profile: Profile)

  function ViewOf(loading: bool, profile: Option<Profile>): (v: View)
    ensures v == Wizard <==> !loading && profile.None?
    ensures v.Overview? <==> !loading && profile.Some?
  {
    if loading then Spinner else if profile.None? then Wizard else Overview(profile.value)
  }

  /** A first visit answered with 404 lands in the onboarding wizard. */
  lemma NotFoundShowsWizard(before: Option<Profile>)
    ensures ViewOf(false, ProfileAfter(before, FetchError(Some(404)))) == Wizard
  {
  }

  /** The buttons under the project status. */
  datatype Action = ContactUs | PreviewSite | Publish(planName: Option<string>)

  function Actions(p: Profile): (r: seq<Action>)
    ensures p.paymentStatus == Some("Paid") ==> r == [ContactUs]
    ensures ContactUs in r <==> p.paymentStatus == Some("Paid")
    ensures PreviewSite in r <==> p.paymentStatus != Some("Paid") && TruthyStr(p.previewUrl)
  {
    if p.paymentStatus == Some("Paid") then [ContactUs]
    else (if TruthyStr(p.previewUrl) then [PreviewSite] else [])
         + (if p.websiteStatus == Some("Ready to Launch") then [Publish(p.selectedPlan)] else [])
  }

  /** Publish is offered only to an unpaid profile that is ready to launch, and carries its selected plan. */
  lemma PublishGating(p: Profile, planName: Option<string>)
    ensures Publish(planName) in Actions(p)
            <==> p.paymentStatus != Some("Paid") && p.websiteStatus == Some("Ready to Launch")
                 && planName == p.selectedPlan
  {
  }

  /** The labels and their fallbacks. */
  function StatusLabel(p: Profile): (s: string)
    ensures TruthyStr(p.websiteStatus) ==> s == p.websiteStatus.value
    ensures !TruthyStr(p.websiteStatus) ==> s == "In Review"
  {
    OrStr(p.websiteStatus, "In Review")
  }

  /**
   * The plan label falls back to "None", the payment label to "Pending";
   * the users page's `UsersPage.PlanLabel` and `UsersPage.PaymentLabel`
   * fall back to "Free" and "Unpaid" instead.
   */
  function PlanLabel(p: Profile): (s: string)
    ensures TruthyStr(p.selectedPlan) ==> s == p.selectedPlan.value
    ensures !TruthyStr(p.selectedPlan) ==> s == "None"
  {
    OrStr(p.selectedPlan, "None")
  }

  function PaymentLabel(p: Profile): (s: string)
    ensures TruthyStr(p.paymentStatus) ==> s == p.paymentStatus.value
    ensures !TruthyStr(p.paymentStatus) ==> s == "Pending"
  {
    OrStr(p.paymentStatus, "Pending")
  }

  datatype Tone = Green | Blue | Yellow | Orange

  /** The website-status badge colour; any other status, or none, is yellow. */
  function StatusTone(p: Profile): (t: Tone)
    ensures t == Green <==> p.websiteStatus == Some("Ready to Launch")
    ensures t == Blue <==> p.websiteStatus == Some("In Development")
  {
    if p.websiteStatus == Some("Ready to Launch") then Green
    else if p.websiteStatus == Some("In Development") then Blue
    else Yellow
  }

  /** The payment badge: green only for "Paid". */
  function PaymentTone(p: Profile): (t: Tone)
    ensures t == Green <==> p.paymentStatus == Some("Paid")
    ensures t != Green ==> t == Orange
  {
    if p.paymentStatus == Some("Paid") then Green else Orange
  }

  class Dashboard {
    var loading: bool
    var profile: Option<Profile>
    const window: Window

    constructor (w: Window)
      ensures window == w && loading && profile == None
    {
      window := w;
      loading, profile := true, None;
    }

    function View(): View
      reads this
    {
      ViewOf(loading, profile)
    }

    /** `checkProfile`, once its requests have been answered. */
    method CheckProfile(query: map<string, string>, pathname: string, verified: bool, fetch: Fetch)
      modifies this`loading, this`profile, window`trace
      ensures !loading && profile == ProfileAfter(old(profile), fetch)
      ensures window.trace == old(window.trace) + CheckEffects(query, pathname, verified)
    {
      if ReturnsFromCheckout(query) {
        window.Request("POST", "/subscription/verify-session");
        if verified {
          window.ReplaceUrl(pathname);
        }
      }
      window.Request("GET", "/users/profile");
      match fetch {
        case Fetched(p) =>
          profile := Some(p);
        case FetchError(status) =>
          if status == Some(404) {
            profile := None;
          }
      }
      loading := false;
    }

    /**
     * The Publish button: asks for a checkout session for the selected plan
     * and follows the returned address; a failure only stays on the page.
     */
    method HandlePublish(checkoutUrl: Option<string>) returns (planName: Option<string>)
      requires profile.Some?
      modifies window`trace
      ensures planName == profile.value.selectedPlan
      ensures window.trace == old(window.trace) + [Request("POST", "/subscription/create-checkout-session")]
                              + (if checkoutUrl.Some? then [Navigate(checkoutUrl.value)] else [])
    {
      planName := profile.value.selectedPlan;
      window.Request("POST", "/subscription/create-checkout-session");
      if checkoutUrl.Some? {
        window.Navigate(checkoutUrl.value);
      }
    }
  }
}
