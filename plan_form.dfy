/** The super-admin plan editor: loading a plan, the field and feature handlers, and the submit payload. */
module PlanForm {
  import opened Wrappers
  import opened Text
  import opened Seqs
  import opened Browser

  /** The form state; prices are the text of their inputs. */
  datatype FormData = FormData(
    name: string,
    priceInr: string,
    priceUsd: string,
    interval: string,
    features: seq<string>,
    isPopular: bool,
    stripePriceIdInr: string,
    stripePriceIdUsd: string,
    isActive: bool)

  const EmptyForm := FormData("", "", "", "MONTHLY", [""], false, "", "", true)

  /** A plan handed to the editor; `features` is `None` when it is absent or not an array. */
  datatype InitialPlan = InitialPlan(
    id: Option<string>,
    name: Option<string>,
    priceInr: Option<string>,
    priceUsd: Option<string>,
    interval: Option<string>,
    features: Option<seq<string>>,
    isPopular: Option<bool>,
    stripePriceIdInr: Option<string>,
    stripePriceIdUsd: Option<string>,
    isActive: Option<bool>)

  /** The form filled from a loaded plan, with the same fallbacks as the empty form. */
  function FromInitial(p: InitialPlan): (f: FormData)
    ensures f.features == if p.features.Some? && p.features.value != [] then p.features.value else [""]
    ensures f.isActive == if p.isActive.Some? then p.isActive.value else true
    ensures f.isPopular == (p.isPopular == Some(true))
    ensures f.interval == OrStr(p.interval, "MONTHLY") && f.name == OrStr(p.name, "")
    ensures f.features != []
  {
    FormData(OrStr(p.name, ""), OrStr(p.priceInr, ""), OrStr(p.priceUsd, ""), OrStr(p.interval, "MONTHLY"),
             if p.features.Some? && p.features.value != [] then p.features.value else [""],
             p.isPopular == Some(true), OrStr(p.stripePriceIdInr, ""), OrStr(p.stripePriceIdUsd, ""),
             if p.isActive.Some? then p.isActive.value else true)
  }

  /** A plan with nothing set loads as the empty form. */
  lemma BlankPlanLoadsEmpty()
    ensures FromInitial(InitialPlan(None, None, None, None, None, None, None, None, None, None)) == EmptyForm
  {
  }

  /** The three inputs `handleChange` serves. */
  datatype TextField = NameField | IntervalField | PriceUsdField

  /** `removeFeature`: `filter((_, i) => i !== index)`; an index past the end removes nothing. */
  function RemoveAt(s: seq<string>, index: nat): (r: seq<string>)
    ensures index < |s| ==> (|r| == |s| - 1
                             && (forall k :: 0 <= k < index ==> r[k] == s[k])
                             && (forall k :: index <= k < |r| ==> r[k] == s[k + 1]))
    ensures index >= |s| ==> r == s
  {
    if index < |s| then s[..index] + s[index + 1..] else s
  }

  /** Submit drops every feature that is blank once trimmed. */
  predicate NotBlank(f: string) { Trim(f) != "" }

  function CleanFeatures(features: seq<string>): (r: seq<string>)
    ensures forall k :: 0 <= k < |r| ==> Trim(r[k]) != ""
    ensures forall j :: 0 <= j < |features| && Trim(features[j]) != "" ==> features[j] in r
  {
    Filter(features, NotBlank)
  }

  /** The cleaned list keeps the order, and a list with no blank entry is kept whole. */
  lemma CleanFeaturesKeepsOrder(features: seq<string>)
    ensures Subseq(CleanFeatures(features), features)
    ensures (forall j :: 0 <= j < |features| ==> Trim(features[j]) != "") ==> CleanFeatures(features) == features
  {
    FilterIsSubseq(features, NotBlank);
  }

  /** What submit sends: the form without `price_inr`, with the cleaned features. */
  datatype Payload = Payload(
    name: string,
    priceUsd: string,
    interval: string,
    features: seq<string>,
    isPopular: bool,
    stripePriceIdInr: string,
    stripePriceIdUsd: string,
    isActive: bool)

  function PayloadOf(f: FormData): (p: Payload)
    ensures p.features == CleanFeatures(f.features)
    ensures p.name == f.name && p.priceUsd == f.priceUsd && p.interval == f.interval
    ensures p.isPopular == f.isPopular && p.isActive == f.isActive
  {
    Payload(f.name, f.priceUsd, f.interval, CleanFeatures(f.features), f.isPopular,
            f.stripePriceIdInr, f.stripePriceIdUsd, f.isActive)
  }

  /** The INR price typed into the form never reaches the server. */
  lemma PayloadIgnoresInr(f: FormData, inr: string)
    ensures PayloadOf(f.(priceInr := inr)) == PayloadOf(f)
  {
  }

  /** `PUT /plans/{id}` when editing a plan with an id, else `POST /plans`. */
  function SubmitTarget(isEdit: bool, id: Option<string>): (r: (string, string))
    ensures isEdit && TruthyStr(id) ==> r == ("PUT", "/plans/" + id.value)
    ensures !(isEdit && TruthyStr(id)) ==> r == ("POST", "/plans")
  {
    if isEdit && TruthyStr(id) then ("PUT", "/plans/" + id.value) else ("POST", "/plans")
  }

  class Editor {
    var form: FormData
    var loading: bool
    const window: Window

    constructor (w: Window)
      ensures window == w && form == EmptyForm && !loading
    {
      window := w;
      form, loading := EmptyForm, false;
    }

    /** The effect on `initialData`: the form is replaced when a plan is given. */
    method Load(initial: Option<InitialPlan>)
      modifies this`form
      ensures form == if initial.Some? then FromInitial(initial.value) else old(form)
    {
      if initial.Some? {
        form := FromInitial(initial.value);
      }
    }

    method HandleChange(field: TextField, value: string)
      modifies this`form
      ensures form == match field
                      case NameField => old(form).(name := value)
                      case IntervalField => old(form).(interval := value)
                      case PriceUsdField => old(form).(priceUsd := value)
    {
      match field {
        case NameField => form := form.(name := value);
        case IntervalField => form := form.(interval := value);
        case PriceUsdField => form := form.(priceUsd := value);
      }
    }

    /**
     * `handleFeatureChange`: copy the list, write one slot of the copy and
     * store it; only that entry changes and the length stays.
     */
    method HandleFeatureChange(index: nat, value: string)
      requires index < |form.features|
      modifies this`form
      ensures form == old(form).(features := old(form).features[index := value])
      ensures |form.features| == |old(form).features| && form.features[index] == value
      ensures forall k :: 0 <= k < |form.features| && k != index ==> form.features[k] == old(form).features[k]
    {
      var features := form.features;
      var copy := new string[|features|];
      var i := 0;
      while i < |features|
        invariant 0 <= i <= |features|
        invariant forall k :: 0 <= k < i ==> copy[k] == features[k]
        invariant form == old(form)
      {
        copy[i] := features[i];
        i := i + 1;
      }
      copy[index] := value;
      assert copy[..] == features[index := value];
      form := form.(features := copy[..]);
    }

    /** `addFeature`: exactly one empty entry at the end. */
    method AddFeature()
      modifies this`form
      ensures form == old(form).(features := old(form).features + [""])
    {
      form := form.(features := form.features + [""]);
    }

    method RemoveFeature(index: nat)
      modifies this`form
      ensures form == old(form).(features := RemoveAt(old(form).features, index))
    {
      form := form.(features := RemoveAt(form.features, index));
    }

    /** The two switches each flip their own flag. */
    method TogglePopular()
      modifies this`form
      ensures form == old(form).(isPopular := !old(form).isPopular)
    {
      form := form.(isPopular := !form.isPopular);
    }

    method ToggleActive()
      modifies this`form
      ensures form == old(form).(isActive := !old(form).isActive)
    {
      form := form.(isActive := !form.isActive);
    }

    /**
     * `handleSubmit` once the request has settled: the payload goes to the
     * target, and only a successful save navigates back to the plan list.
     */
    method HandleSubmit(isEdit: bool, id: Option<string>, succeeded: bool) returns (sent: Payload)
      modifies this`loading, window`trace
      ensures sent == PayloadOf(form) && !loading
      ensures var (verb, path) := SubmitTarget(isEdit, id);
              window.trace == old(window.trace) + [Request(verb, path)]
                              + (if succeeded then [Navigate("/super-admin/plans")] else [])
    {
      loading := true;
      sent := PayloadOf(form);
      var (verb, path) := SubmitTarget(isEdit, id);
      window.Request(verb, path);
      if succeeded {
        window.Navigate("/super-admin/plans");
      }
      loading := false;
    }
  }
}
