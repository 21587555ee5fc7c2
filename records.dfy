/**
 * The rows the backend keeps in its relational store: users, plans,
 * business profiles, subscriptions, transactions, the system-settings
 * singleton and page-content sections.
 */
module Records {
  import opened Wrappers

  /** Account roles. `Editor` exists in the front end's routing only as a value a server may send. */
  datatype Role = User | Editor | Admin | SuperAdmin

  /** Subscription status kept locally. */
  datatype SubStatus = Active | Canceled

  /** A user. Nullable personal columns are `Option`s; `createdAt` is the creation time in ms. */
  datatype UserRow = UserRow(
    id: nat,
    email: string,
    passwordHash: string,
    role: Role,
    firstName: Option<string>,
    lastName: Option<string>,
    mobile: Option<string>,
    country: Option<string>,
    state: Option<string>,
    city: Option<string>,
    stripeCustomerId: Option<string>,
    createdAt: int)

  /** A subscription plan with its price in both currencies and its processor price ids. */
  datatype PlanRow = PlanRow(
    id: nat,
    name: string,
    priceInr: real,
    priceUsd: real,
    interval: string,
    features: seq<string>,
    isPopular: bool,
    isActive: bool,
    stripePriceIdInr: Option<string>,
    stripePriceIdUsd: Option<string>,
    createdAt: int)

  /**
   * A business profile: the owning user and its text columns by column name
   * (a missing key is a null column).
   */
  datatype ProfileRow = ProfileRow(userId: nat, cols: map<string, string>)

  const PaymentStatusCol := "payment_status"
  const PlanPriceCol := "plan_price"
  const SelectedPlanCol := "selected_plan"
  const WebsiteStatusCol := "website_status"

  /** The profile columns the onboarding upsert takes from the request body. */
  const BusinessCols: set<string> := {
    "business_name", "industry", "description", "website_goal", "target_audience",
    "logo_url", "primary_color", "secondary_color", "contact_email", "contact_phone",
    "selected_plan", "plan_price", "payment_status", "existing_website" }

  /** A local subscription; `currentPeriodEnd` is in ms. */
  datatype SubscriptionRow = SubscriptionRow(
    userId: nat,
    planId: nat,
    stripeSubscriptionId: string,
    status: SubStatus,
    currentPeriodEnd: int)

  /** A ledger entry for one processor payment. */
  datatype TransactionRow = TransactionRow(
    userId: nat,
    amount: real,
    currency: string,
    status: string,
    stripePaymentId: string,
    createdAt: int)

  /** The system-settings row. */
  datatype SettingsRow = SettingsRow(
    aiGenerationEnabled: Option<bool>,
    openaiApiKey: Option<string>,
    googleClientId: Option<string>,
    stripeSecretKey: Option<string>,
    stripePublishableKey: Option<string>,
    stripeWebhookSecret: Option<string>)

  /** The row `create({ data: {} })` makes. */
  const EmptySettings := SettingsRow(None, None, None, None, None, None)

  /** One section of a content page; unique on (page, section). */
  datatype ContentRow = ContentRow(pageName: string, sectionName: string, content: string, isActive: bool)

  /** The claims a session token carries. */
  datatype Claims = Claims(id: nat, email: string, role: Role)
}
