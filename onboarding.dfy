/**
 * The onboarding wizard a client fills in before the dashboard: five steps,
 * the data it preloads (plans, the account, a location guess), the field
 * handlers and the final save.
 */
module Onboarding {
  import opened Wrappers
  import opened Text
  import opened Seqs
  import opened Browser

  /** The wizard's form: field name to text, as the page keeps it. */
  type Form = map<string, string>

  /** A field's text; every field the page uses starts out present. */
  function Field(form: Form, key: string): string {
    if key in form then form[key] else ""
  }

  const InitialForm: Form := map[
    "first_name" := "", "last_name" := "", "mobile" := "", "country" := "", "state" := "", "city" := "",
    "business_name" := "", "industry" := "", "description" := "", "existing_website" := "",
    "website_goal" := "", "target_audience" := "", "primary_color" := "#000000",
    "secondary_color" := "#ffffff", "contact_email" := "", "contact_phone" := "", "logo_url" := "",
    "selected_plan" := "", "plan_price" := ""]

  const FirstStep := 1
  const LastStep := 5

  /** A plan as the public listing returns it; `price` is its printed amount. */
  datatype PlanOption = PlanOption(id: string, name: string, price: string)

  /** The saved choice names this plan, ignoring case, or is its id. */
  predicate PlanMatches(saved: string, p: PlanOption) {
    ToLower(p.name) == ToLower(saved) || p.id == saved
  }

  /**
   * The plan remembered from the pricing page: the first listed plan it
   * matches gives its name and price; no saved value or no match gives
   * an empty plan and price.
   */
  function Preselect(plans: seq<PlanOption>, saved: Option<string>): (r: (string, string))
    ensures !TruthyStr(saved) ==> r == ("", "")
    ensures TruthyStr(saved) && (forall i :: 0 <= i < |plans| ==> !PlanMatches(saved.value, plans[i])) ==> r == ("", "")
    ensures TruthyStr(saved) && (exists i :: 0 <= i < |plans| && PlanMatches(saved.value, plans[i])) ==>
              exists i :: (0 <= i < |plans| && PlanMatches(saved.value, plans[i])
                           && (forall j :: 0 <= j < i ==> !PlanMatches(saved.value, plans[j]))
                           && r == (plans[i].name, plans[i].price))
  {
    if !TruthyStr(saved) then ("", "")
    else match FindIndex(plans, p => PlanMatches(saved.value, p))
      case Some(i) => (plans[i].name, plans[i].price)
      case None => ("", "")
  }

  /** A saved name written in another case still finds the plan. */
  lemma PreselectIgnoresCase(plans: seq<PlanOption>, saved: string)
    requires plans != [] && saved != "" && ToLower(saved) == ToLower(plans[0].name)
    ensures Preselect(plans, Some(saved)) == (plans[0].name, plans[0].price)
  {
    var p := (o: PlanOption) => PlanMatches(saved, o);
    assert p(plans[0]);
    var k := FindIndex(plans, p);
    assert k == Some(0);
  }

  /** What `/auth/me` returns that the wizard uses. */
  datatype UserInfo = UserInfo(firstName: Option<string>, lastName: Option<string>, email: Option<string>)

  /** What the location lookup answers. */
  datatype IpData = IpData(countryCode: Option<string>, countryName: Option<string>, region: Option<string>, city: Option<string>)

  /** The lookup counts only when it answered with a country code. */
  predicate Located(ip: Option<IpData>) {
    ip.Some? && TruthyStr(ip.value.countryCode)
  }

  /** The phone input's country: the detected code in lower case, else "us". */
  function CountryCode(ip: Option<IpData>): (r: string)
    ensures Located(ip) ==> r == ToLower(ip.value.countryCode.value)
    ensures !Located(ip) ==> r == "us"
  {
    if Located(ip) then ToLower(ip.value.countryCode.value) else "us"
  }

  /** `prev || detected || ''`: a filled field is kept, an empty one takes the guess. */
  function FillIfEmpty(current: string, detected: Option<string>): (r: string)
    ensures current != "" ==> r == current
    ensures current == "" && TruthyStr(detected) ==> r == detected.value
    ensures current == "" && !TruthyStr(detected) ==> r == ""
  {
    if current != "" then current else OrStr(detected, "")
  }

  function Guess(ip: Option<IpData>, pick: IpData -> Option<string>): Option<string> {
    if Located(ip) then pick(ip.value) else None
  }

  /** The fields the initial merge writes. */
  const MergedKeys: set<string> :=
    {"first_name", "last_name", "contact_email", "country", "state", "city", "selected_plan", "plan_price"}

  /**
   * The form after loading: names and contact email from the account,
   * location only where the form is still empty, and the preselected plan.
   */
  function InitMerge(prev: Form, user: UserInfo, ip: Option<IpData>, plan: (string, string)): (r: Form)
    ensures r.Keys == prev.Keys + MergedKeys
    ensures forall k :: k in prev && k !in MergedKeys ==> r[k] == prev[k]
    ensures r["first_name"] == OrStr(user.firstName, "") && r["last_name"] == OrStr(user.lastName, "")
    ensures r["contact_email"] == OrStr(user.email, "")
    ensures r["selected_plan"] == plan.0 && r["plan_price"] == plan.1
  {
    prev["first_name" := OrStr(user.firstName, "")]
        ["last_name" := OrStr(user.lastName, "")]
        ["contact_email" := OrStr(user.email, "")]
        ["country" := FillIfEmpty(Field(prev, "country"), Guess(ip, (d: IpData) => d.countryName))]
        ["state" := FillIfEmpty(Field(prev, "state"), Guess(ip, (d: IpData) => d.region))]
        ["city" := FillIfEmpty(Field(prev, "city"), Guess(ip, (d: IpData) => d.city))]
        ["selected_plan" := plan.0]
        ["plan_price" := plan.1]
  }

  /** The location fields are filled from the guess only where the form had none. */
  lemma InitMergeLocation(prev: Form, user: UserInfo, ip: Option<IpData>, plan: (string, string))
    ensures var r := InitMerge(prev, user, ip, plan);
            r["country"] == FillIfEmpty(Field(prev, "country"), Guess(ip, (d: IpData) => d.countryName))
            && r["state"] == FillIfEmpty(Field(prev, "state"), Guess(ip, (d: IpData) => d.region))
            && r["city"] == FillIfEmpty(Field(prev, "city"), Guess(ip, (d: IpData) => d.city))
  {
  }

  /** A location the user already entered survives any guess. */
  lemma FilledLocationKept(prev: Form, user: UserInfo, ip: Option<IpData>, plan: (string, string))
    requires Field(prev, "country") != "" && Field(prev, "state") != "" && Field(prev, "city") != ""
    ensures var r := InitMerge(prev, user, ip, plan);
            r["country"] == prev["country"] && r["state"] == prev["state"] && r["city"] == prev["city"]
  {
    InitMergeLocation(prev, user, ip, plan);
  }

  /** A plan card: its name and its price as text, nothing else. */
  function WithPlan(form: Form, plan: PlanOption): (r: Form)
    ensures r.Keys == form.Keys + {"selected_plan", "plan_price"}
    ensures r["selected_plan"] == plan.name && r["plan_price"] == plan.price
    ensures forall k :: k in form && k != "selected_plan" && k != "plan_price" ==> r[k] == form[k]
  {
    form["selected_plan" := plan.name]["plan_price" := plan.price]
  }

  /** The industry drop-down: "Other" opens the free-text field with an empty industry. */
  function ChooseIndustry(form: Form, choice: string): (r: (bool, Form))
    ensures r.0 <==> choice == "Other"
    ensures r.1 == form["industry" := if choice == "Other" then "" else choice]
  {
    if choice == "Other" then (true, form["industry" := ""]) else (false, form["industry" := choice])
  }

  /** What the drop-down shows. */
  function ShownIndustry(custom: bool, form: Form): string {
    if custom then "Other" else Field(form, "industry")
  }

  /** The drop-down shows back whatever was chosen in it. */
  lemma ChosenIndustryShown(form: Form, choice: string)
    ensures var (custom, f) := ChooseIndustry(form, choice); ShownIndustry(custom, f) == choice
  {
  }

  /** Next refuses to leave the first step without a mobile number. */
  predicate MobileMissing(step: int, form: Form) {
    step == 1 && Field(form, "mobile") == ""
  }

  /** `handleNext`: the step it moves to. */
  function NextStep(step: int, form: Form): (r: int)
    ensures MobileMissing(step, form) ==> r == step
    ensures !MobileMissing(step, form) ==> r == step + 1
  {
    if MobileMissing(step, form) then step else step + 1
  }

  /** From a step that shows Next, the next step is still a step, and at most one further. */
  lemma NextStaysInRange(step: int, form: Form)
    requires FirstStep <= step < LastStep
    ensures FirstStep <= NextStep(step, form) <= LastStep
    ensures step <= NextStep(step, form) <= step + 1
    ensures step == 1 ==> (NextStep(step, form) == 2 <==> Field(form, "mobile") != "")
  {
  }

  /** The forward button: Next below the last step, Complete Setup on it. */
  datatype Forward = Next(disabled: bool) | Complete(disabled: bool)

  function ForwardButton(step: int, loading: bool, form: Form): (r: Forward)
    ensures r.Next? <==> step < LastStep
  {
    if step < LastStep then Next(step == LastStep && Field(form, "selected_plan") == "") else Complete(loading)
  }

  /**
   * The plan condition on Next can never hold where Next is shown, and
   * Complete Setup waits only for a save in flight: no plan is required.
   */
  lemma SubmitNotGatedOnPlan(step: int, loading: bool, form: Form, plan: string)
    ensures ForwardButton(step, loading, form).Next? ==> !ForwardButton(step, loading, form).disabled
    ensures ForwardButton(step, loading, form) == ForwardButton(step, loading, form["selected_plan" := plan])
    ensures step >= LastStep ==> (ForwardButton(step, loading, form).disabled <==> loading)
  {
  }

  /** Back is disabled on the first step. */
  predicate BackDisabled(step: int) {
    step == FirstStep
  }

  /** The AI helper needs a business name and an industry. */
  predicate CanOpenAi(form: Form) {
    Field(form, "business_name") != "" && Field(form, "industry") != ""
  }

  /** The requests `initData` sends: the plans and the account, then the location and the plans again once the account is known. */
  function InitRequests(signedIn: bool): (rs: seq<Effect>)
    ensures |rs| == if signedIn then 4 else 2
    ensures rs[..2] == [Request("GET", "/plans"), Request("GET", "/auth/me")]
    ensures signedIn ==> rs[2..] == [Request("GET", "https://ipapi.co/json/"), Request("GET", "/plans")]
  {
    [Request("GET", "/plans"), Request("GET", "/auth/me")]
    + (if signedIn then [Request("GET", "https://ipapi.co/json/"), Request("GET", "/plans")] else [])
  }

  class Wizard {
    var step: int
    var loading: bool
    var form: Form
    var errors: map<string, bool>
    var isCustomIndustry: bool
    var countryCode: string
    var plans: seq<PlanOption>
    var currencySymbol: string
    var aiEnabled: Option<bool>
    var showAiModal: bool
    var aiPrompt: string
    var generatedContent: string
    var isGenerating: bool
    const window: Window

    /** The step is one of the five. */
    ghost predicate Valid()
      reads this
    {
      FirstStep <= step <= LastStep
    }

    constructor (w: Window)
      ensures Valid() && step == FirstStep && form == InitialForm && errors == map[]
      ensures !loading && !isCustomIndustry && countryCode == "us" && plans == [] && currencySymbol == "$"
      ensures aiEnabled == Some(true) && !showAiModal && aiPrompt == "" && generatedContent == "" && !isGenerating
      ensures window == w
    {
      window := w;
      step, loading, form, errors := FirstStep, false, InitialForm, map[];
      isCustomIndustry, countryCode, plans, currencySymbol := false, "us", [], "$";
      aiEnabled, showAiModal, aiPrompt, generatedContent, isGenerating := Some(true), false, "", "", false;
    }

    /**
     * `initData` once its requests are answered (`None` is a failed
     * request): the plan list, then the account, the location guess and a
     * second plan list for the preselection. A failed account or second
     * list fetch abandons the rest.
     */
    method InitData(listed: Option<seq<PlanOption>>, symbol: Option<string>, user: Option<UserInfo>,
                    ip: Option<IpData>, relisted: Option<seq<PlanOption>>)
      modifies this`plans, this`currencySymbol, this`countryCode, this`form, window`trace
      ensures plans == (if listed.Some? then listed.value else old(plans))
      ensures currencySymbol == (if listed.Some? then OrStr(symbol, "$") else old(currencySymbol))
      ensures countryCode == (if user.Some? then CountryCode(ip) else old(countryCode))
      ensures form == (if user.Some? && relisted.Some?
                       then InitMerge(old(form), user.value, ip,
                                      Preselect(relisted.value, Lookup(old(window.storage), "selected_plan")))
                       else old(form))
      ensures window.trace == old(window.trace) + InitRequests(user.Some?)
    {
      var saved := Lookup(window.storage, "selected_plan");
      ghost var before := window.trace;
      window.Request("GET", "/plans");
      window.Request("GET", "/auth/me");
      if user.Some? {
        ghost var middle := window.trace;
        window.Request("GET", "https://ipapi.co/json/");
        window.Request("GET", "/plans");
        assert window.trace == middle + [Request("GET", "https://ipapi.co/json/"), Request("GET", "/plans")];
      }
      assert window.trace == before + InitRequests(user.Some?);
      TakeInitReplies(listed, symbol, user, ip, relisted, saved);
    }

    /** The state `initData` sets from its replies; `saved` is the stored plan choice. */
    method TakeInitReplies(listed: Option<seq<PlanOption>>, symbol: Option<string>, user: Option<UserInfo>,
                           ip: Option<IpData>, relisted: Option<seq<PlanOption>>, saved: Option<string>)
      modifies this`plans, this`currencySymbol, this`countryCode, this`form
      ensures plans == (if listed.Some? then listed.value else old(plans))
      ensures currencySymbol == (if listed.Some? then OrStr(symbol, "$") else old(currencySymbol))
      ensures countryCode == (if user.Some? then CountryCode(ip) else old(countryCode))
      ensures form == (if user.Some? && relisted.Some?
                       then InitMerge(old(form), user.value, ip, Preselect(relisted.value, saved))
                       else old(form))
    {
      if listed.Some? {
        plans := listed.value;
        currencySymbol := OrStr(symbol, "$");
      }
      if user.Some? {
        countryCode := CountryCode(ip);
        if relisted.Some? {
          form := InitMerge(form, user.value, ip, Preselect(relisted.value, saved));
        }
      }
    }

    /** The settings fetch: the AI switch follows the public settings when they arrive. */
    method FetchSettings(reply: Option<Option<bool>>)
      modifies this`aiEnabled
      ensures aiEnabled == (if reply.Some? then reply.value else old(aiEnabled))
    {
      if reply.Some? {
        aiEnabled := reply.value;
      }
    }

    /** `handleChange`: one named field takes the typed value. */
    method HandleChange(name: string, value: string)
      modifies this`form
      ensures form == old(form)[name := value]
    {
      form := form[name := value];
    }

    /** The phone input: a non-empty number also clears the mobile error. */
    method ChangeMobile(phone: string)
      modifies this`form, this`errors
      ensures form == old(form)["mobile" := phone]
      ensures errors == if phone != "" then old(errors)["mobile" := false] else old(errors)
    {
      form := form["mobile" := phone];
      if phone != "" {
        errors := errors["mobile" := false];
      }
    }

    /** `handleNext`, reachable only below the last step. */
    method HandleNext()
      requires Valid() && step < LastStep
      modifies this`step, this`errors
      ensures Valid() && step == NextStep(old(step), form)
      ensures errors == old(errors)["mobile" := MobileMissing(old(step), form)]
    {
      NextStaysInRange(step, form);
      if step == 1 && Field(form, "mobile") == "" {
        errors := errors["mobile" := true];
        return;
      }
      errors := errors["mobile" := false];
      step := step + 1;
    }

    /** `handlePrev`, reachable only when Back is enabled. */
    method HandlePrev()
      requires Valid() && !BackDisabled(step)
      modifies this`step
      ensures Valid() && step == old(step) - 1
    {
      step := step - 1;
    }

    /** A plan card click. */
    method SelectPlan(plan: PlanOption)
      modifies this`form
      ensures form == WithPlan(old(form), plan)
    {
      form := WithPlan(form, plan);
    }

    /** The industry drop-down. */
    method SelectIndustry(choice: string)
      modifies this`form, this`isCustomIndustry
      ensures (isCustomIndustry, form) == ChooseIndustry(old(form), choice)
    {
      if choice == "Other" {
        isCustomIndustry := true;
        form := form["industry" := ""];
      } else {
        isCustomIndustry := false;
        form := form["industry" := choice];
      }
    }

    /** `handleOpenAiModal`: opens a fresh modal only with a business name and an industry. */
    method OpenAiModal()
      modifies this`showAiModal, this`generatedContent, this`aiPrompt
      ensures CanOpenAi(form) ==> showAiModal && generatedContent == "" && aiPrompt == ""
      ensures !CanOpenAi(form) ==> showAiModal == old(showAiModal)
                                   && generatedContent == old(generatedContent) && aiPrompt == old(aiPrompt)
    {
      if Field(form, "business_name") == "" || Field(form, "industry") == "" {
        return;
      }
      showAiModal, generatedContent, aiPrompt := true, "", "";
    }

    /** `triggerAiGeneration`: a blank prompt sends nothing; a reply fills the draft. */
    method TriggerAiGeneration(reply: Option<string>)
      modifies this`generatedContent, this`isGenerating, window`trace
      ensures Trim(aiPrompt) == "" ==> generatedContent == old(generatedContent) && window.trace == old(window.trace)
                                       && isGenerating == old(isGenerating)
      ensures Trim(aiPrompt) != "" ==> !isGenerating
                                       && window.trace == old(window.trace) + [Request("POST", "/ai/generate-description")]
                                       && generatedContent == (if reply.Some? then reply.value else old(generatedContent))
    {
      if Trim(aiPrompt) == "" {
        return;
      }
      isGenerating := true;
      window.Request("POST", "/ai/generate-description");
      if reply.Some? {
        generatedContent := reply.value;
      }
      isGenerating := false;
    }

    /** `handleUseContent`: the draft becomes the description and the modal closes. */
    method UseContent()
      modifies this`form, this`showAiModal
      ensures form == old(form)["description" := generatedContent] && !showAiModal
    {
      form := form["description" := generatedContent];
      showAiModal := false;
    }

    /** `handleLogoUpload`: only an uploaded file's address is stored. */
    method UploadLogo(hasFile: bool, uploadedUrl: Option<string>)
      modifies this`form, window`trace
      ensures form == (if hasFile && uploadedUrl.Some? then old(form)["logo_url" := uploadedUrl.value] else old(form))
      ensures window.trace == old(window.trace) + (if hasFile then [Request("POST", "/upload/logo")] else [])
    {
      if !hasFile {
        return;
      }
      window.Request("POST", "/upload/logo");
      if uploadedUrl.Some? {
        form := form["logo_url" := uploadedUrl.value];
      }
    }

    /** `handleSubmit`: the whole form is saved, and only a save reloads the page. */
    method HandleSubmit(saved: bool) returns (sent: Form)
      modifies this`loading, window`trace
      ensures sent == form && !loading
      ensures window.trace == old(window.trace) + [Request("POST", "/users/profile")] + (if saved then [Reload] else [])
    {
      loading := true;
      sent := form;
      window.Request("POST", "/users/profile");
      if saved {
        window.Reload();
      }
      loading := false;
    }
  }

  /** `localStorage.getItem`. */
  function Lookup(storage: map<string, string>, key: string): (r: Option<string>)
    ensures r.Some? <==> key in storage
    ensures r.Some? ==> r.value == storage[key]
  {
    if key in storage then Some(storage[key]) else None
  }
}
