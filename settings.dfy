/**
 * The system-settings singleton: get-or-create, the public feature flag,
 * and the update of the six stored values.
 */
module Settings {
  import opened Wrappers
  import opened Records
  import opened Db
  import opened StripeConfig

  /** The table after the get-or-create step: an empty row is added only when none exists. */
  function EnsureRow(settings: seq<SettingsRow>): (r: seq<SettingsRow>)
    ensures r != [] && |r| == if settings == [] then 1 else |settings|
    ensures settings != [] ==> r == settings
    ensures settings == [] ==> r == [EmptySettings]
  {
    if settings == [] then [EmptySettings] else settings
  }

  /** Repeating the step never adds a second row. */
  lemma EnsureRowIdempotent(settings: seq<SettingsRow>)
    requires |settings| <= 1
    ensures EnsureRow(EnsureRow(settings)) == EnsureRow(settings)
    ensures |EnsureRow(settings)| == 1
  {
  }

  /** The get-or-create both handlers start with; the row it returns. */
  method FindOrCreate(db: Store) returns (row: SettingsRow)
    requires db.Valid()
    modifies db`settings
    ensures db.Valid()
    ensures db.settings == EnsureRow(old(db.settings)) && row == db.settings[0]
  {
    if db.settings == [] {
      db.settings := [EmptySettings];
    }
    row := db.settings[0];
  }

  /** `getSettings`: the whole row, secrets included, unmasked. */
  method GetSettings(db: Store) returns (row: SettingsRow)
    requires db.Valid()
    modifies db`settings
    ensures db.Valid()
    ensures db.settings == EnsureRow(old(db.settings)) && row == db.settings[0]
  {
    row := FindOrCreate(db);
  }

  /** The one field `getPublicSettings` exposes. */
  datatype PublicSettings = PublicSettings(aiGenerationEnabled: Option<bool>)

  function PublicView(row: SettingsRow): (p: PublicSettings)
    ensures p.aiGenerationEnabled == row.aiGenerationEnabled
  {
    PublicSettings(row.aiGenerationEnabled)
  }

  /** The public view carries nothing of the secrets: rows that differ only in secrets look the same. */
  lemma PublicViewHidesSecrets(a: SettingsRow, b: SettingsRow)
    requires a.aiGenerationEnabled == b.aiGenerationEnabled
    ensures PublicView(a) == PublicView(b)
  {
  }

  method GetPublicSettings(db: Store) returns (view: PublicSettings)
    requires db.Valid()
    modifies db`settings
    ensures db.Valid()
    ensures db.settings == EnsureRow(old(db.settings)) && view == PublicView(db.settings[0])
  {
    var row := FindOrCreate(db);
    view := PublicView(row);
  }

  /** The six values an update body may carry (`Keep` = not sent). */
  datatype SettingsPatch = SettingsPatch(
    aiGenerationEnabled: Patch<bool>,
    openaiApiKey: Patch<string>,
    googleClientId: Patch<string>,
    stripeSecretKey: Patch<string>,
    stripePublishableKey: Patch<string>,
    stripeWebhookSecret: Patch<string>)

  /** The row after `systemSettings.update` with the body's six fields. */
  function ApplySettings(row: SettingsRow, p: SettingsPatch): (r: SettingsRow)
    ensures r.aiGenerationEnabled == ApplyPatch(row.aiGenerationEnabled, p.aiGenerationEnabled)
    ensures r.openaiApiKey == ApplyPatch(row.openaiApiKey, p.openaiApiKey)
    ensures r.googleClientId == ApplyPatch(row.googleClientId, p.googleClientId)
    ensures r.stripeSecretKey == ApplyPatch(row.stripeSecretKey, p.stripeSecretKey)
    ensures r.stripePublishableKey == ApplyPatch(row.stripePublishableKey, p.stripePublishableKey)
    ensures r.stripeWebhookSecret == ApplyPatch(row.stripeWebhookSecret, p.stripeWebhookSecret)
  {
    SettingsRow(ApplyPatch(row.aiGenerationEnabled, p.aiGenerationEnabled),
                ApplyPatch(row.openaiApiKey, p.openaiApiKey),
                ApplyPatch(row.googleClientId, p.googleClientId),
                ApplyPatch(row.stripeSecretKey, p.stripeSecretKey),
                ApplyPatch(row.stripePublishableKey, p.stripePublishableKey),
                ApplyPatch(row.stripeWebhookSecret, p.stripeWebhookSecret))
  }

  /** The table after `updateSettings`: the first row, created first if absent, carries the patch. */
  function UpdateSettingsSpec(settings: seq<SettingsRow>, p: SettingsPatch): (r: seq<SettingsRow>)
    ensures |r| == |EnsureRow(settings)|
  {
    var s := EnsureRow(settings);
    s[0 := ApplySettings(s[0], p)]
  }

  /** An update with nothing sent leaves the row that get-or-create yields. */
  lemma EmptyUpdateChangesNothing(settings: seq<SettingsRow>)
    ensures UpdateSettingsSpec(settings, SettingsPatch(Keep, Keep, Keep, Keep, Keep, Keep)) == EnsureRow(settings)
  {
    var s := EnsureRow(settings);
    assert ApplySettings(s[0], SettingsPatch(Keep, Keep, Keep, Keep, Keep, Keep)) == s[0];
  }

  /**
   * A non-empty secret key or webhook secret saved here is what the payment
   * client uses from then on, whatever the environment holds.
   */
  lemma SavedKeysAreUsed(settings: seq<SettingsRow>, p: SettingsPatch, key: string, secret: string,
                         envKey: Option<string>, envSecret: Option<string>)
    requires p.stripeSecretKey == Set(key) && key != ""
    requires p.stripeWebhookSecret == Set(secret) && secret != ""
    ensures SecretKey(UpdateSettingsSpec(settings, p), envKey) == Some(key)
    ensures WebhookSecret(UpdateSettingsSpec(settings, p), envSecret) == Some(secret)
  {
  }

  /** Clearing the saved key makes the client fall back to the environment. */
  lemma ClearedKeyFallsBack(settings: seq<SettingsRow>, p: SettingsPatch, envKey: Option<string>)
    requires p.stripeSecretKey.SetNull? || p.stripeSecretKey == Set("")
    ensures SecretKey(UpdateSettingsSpec(settings, p), envKey) == (if TruthyStr(envKey) then envKey else None)
  {
  }

  method UpdateSettings(db: Store, p: SettingsPatch) returns (updated: SettingsRow)
    requires db.Valid()
    modifies db`settings
    ensures db.Valid()
    ensures db.settings == UpdateSettingsSpec(old(db.settings), p) && updated == db.settings[0]
  {
    var row := FindOrCreate(db);
    updated := ApplySettings(row, p);
    db.settings := db.settings[0 := updated];
  }
}
