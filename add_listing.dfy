/** The contractor subscription page: the membership tiers drawn from the stored (or
    default) listing strategy, and the four-step vetting wizard that collects a partner's
    details and authorises the subscription. */
module AddListing {
  import opened Wrappers
  import opened Strings
  import opened Types
  import opened LocalStorage
  import opened Gemini
  import opened AdminSection

  // ---------------------------------------------------------------- strategy

  /** The strategy shown until one has been generated in the control center. */
  const DefaultStrategy := ListingStrategy(
    Some("The Future of GTA Emergency Roofing is Here. Join the elite network providing 24/7 relief."),
    Some("• Dominant local SEO presence\n• Pre-triaged emergency leads\n• Brand association with GTA Roof Guard"),
    Some([PricingOption(Some("Essential"), Some("$49"),
                        Some(["Basic SEO Listing", "Emergency Lead Notifications", "Standard Support"])),
          PricingOption(Some("Professional"), Some("$149"),
                        Some(["Priority Dispatching", "Vetted Badge", "Advanced Analytics", "24/7 Support"])),
          PricingOption(Some("Elite"), Some("$399"),
                        Some(["Exclusive City Territory", "Dedicated Account Manager", "Custom Marketing Kit",
                              "Unlimited Lead Routing"]))]))

  /** The strategy the page settles on after its mount effect: a saved strategy replaces
      the default only when the saved string is non-empty and `JSON.parse` accepts it,
      whatever fields the parsed object has. */
  function StoredStrategy(saved: Option<string>, parse: string -> Result<ListingStrategy, string>)
    : (s: ListingStrategy)
    ensures (saved.None? || saved.value == "") ==> s == DefaultStrategy
    ensures saved.Some? && saved.value != "" && parse(saved.value).Failure? ==> s == DefaultStrategy
    ensures saved.Some? && saved.value != "" && parse(saved.value).Success? ==> s == parse(saved.value).value
  {
    if saved.Some? && saved.value != "" then
      match parse(saved.value)
      case Success(st) => st
      case Failure(_) => DefaultStrategy
    else DefaultStrategy
  }

  /** A value written by `JSON.stringify` and read back by `JSON.parse` loads as written. */
  lemma SavedStrategyReloads(s: ListingStrategy, parse: string -> Result<ListingStrategy, string>,
                             serialize: ListingStrategy -> string)
    requires serialize(s) != "" && parse(serialize(s)) == Success(s)
    ensures StoredStrategy(Some(serialize(s)), parse) == s
  {
  }

  /** The roadmap points listed under the strategy, one per line of `marketingStrategy`;
      `None` when the strategy has no such field, where `split` throws during the render. */
  function RoadmapPoints(strategy: ListingStrategy): (points: Option<seq<string>>)
    ensures points.None? <==> strategy.marketingStrategy.None?
    ensures points.Some? ==> |points.value| == Count(strategy.marketingStrategy.value, '\n') + 1
    ensures points.Some? ==> Join(points.value, "\n") == strategy.marketingStrategy.value
  {
    match strategy.marketingStrategy
    case None => None
    case Some(text) =>
      SplitCount(text, '\n');
      JoinSplit(text, '\n');
      Some(Split(text, '\n'))
  }

  /** The feature lists of the tier cards, in order; `None` as soon as one tier has no
      `features`, where `tier.features.map` throws during the render. */
  function TierFeatures(options: seq<PricingOption>): (lists: Option<seq<seq<string>>>)
    ensures lists.Some? <==> forall i :: 0 <= i < |options| ==> options[i].features.Some?
    ensures lists.Some? ==> |lists.value| == |options|
    ensures lists.Some? ==> forall i :: 0 <= i < |options| ==> lists.value[i] == options[i].features.value
  {
    if options == [] then Some([])
    else
      var rest := TierFeatures(options[1..]);
      assert forall i :: 1 <= i < |options| ==> options[i] == options[1..][i - 1];
      if options[0].features.Some? && rest.Some? then Some([options[0].features.value] + rest.value)
      else None
  }

  /** The strategy-driven part of the page as rendered: the quoted copy (a missing one
      renders as nothing), the roadmap points, the tiers and their feature lists. */
  datatype StrategyView = StrategyView(
    copy: string, roadmap: seq<string>, tiers: seq<PricingOption>, features: seq<seq<string>>)

  /** The render of the strategy sections; `None` is the `TypeError` the render throws
      when `marketingStrategy`, `pricingOptions` or some tier's `features` is missing. */
  function StrategyPage(strategy: ListingStrategy): (view: Option<StrategyView>)
    ensures view.Some? <==> strategy.marketingStrategy.Some? && strategy.pricingOptions.Some?
                            && forall i :: 0 <= i < |strategy.pricingOptions.value| ==>
                                 strategy.pricingOptions.value[i].features.Some?
    ensures view.Some? ==> view.value.copy == strategy.marketingCopy.GetOr("")
    ensures view.Some? ==> Join(view.value.roadmap, "\n") == strategy.marketingStrategy.value
    ensures view.Some? ==> view.value.tiers == strategy.pricingOptions.value
    ensures view.Some? ==> |view.value.features| == |view.value.tiers|
                           && forall i :: 0 <= i < |view.value.tiers| ==>
                                view.value.features[i] == view.value.tiers[i].features.value
  {
    var roadmap := RoadmapPoints(strategy);
    if roadmap.None? || strategy.pricingOptions.None? then None
    else
      var features := TierFeatures(strategy.pricingOptions.value);
      if features.None? then None
      else Some(StrategyView(strategy.marketingCopy.GetOr(""), roadmap.value,
                             strategy.pricingOptions.value, features.value))
  }

  /** The default strategy renders, with its three tier cards. */
  lemma DefaultStrategyRenders()
    ensures StrategyPage(DefaultStrategy).Some?
    ensures |StrategyPage(DefaultStrategy).value.tiers| == 3
  {
    assert forall i :: 0 <= i < 3 ==> DefaultStrategy.pricingOptions.value[i].features.Some?;
  }

  /** A saved `{}` replaces the default and the render then throws. */
  lemma SavedEmptyObjectBreaksPage(saved: string, parse: string -> Result<ListingStrategy, string>)
    requires saved != "" && parse(saved) == Success(EmptyStrategy)
    ensures StoredStrategy(Some(saved), parse) == EmptyStrategy
    ensures StrategyPage(StoredStrategy(Some(saved), parse)).None?
  {
  }

  // ---------------------------------------------------------------- specialties

  /** The buttons of the capabilities step. */
  const SpecialtyChoices := ["Asphalt", "Metal", "Cedar", "Slate", "Flat/TPO", "Copper"]

  /** `items.filter(item => item !== s)`. */
  function Without(items: seq<string>, s: string): (r: seq<string>)
    ensures |r| <= |items|
    ensures s !in r
    ensures forall t :: t != s ==> (t in r <==> t in items)
    ensures s !in items ==> r == items
    ensures s in items ==> |r| < |items|
  {
    if items == [] then [] else Keep(items[0], s) + Without(items[1..], s)
  }

  /** One item of the filter: dropped when it is `s`. */
  function Keep(item: string, s: string): (r: seq<string>)
    ensures r == [] <==> item == s
    ensures s !in r && |r| <= 1
    ensures forall t :: t in r <==> t == item && t != s
  {
    if item == s then [] else [item]
  }

  lemma {:induction false} WithoutAppend(a: seq<string>, b: seq<string>, s: string)
    ensures Without(a + b, s) == Without(a, s) + Without(b, s)
  {
    if a == [] {
      assert a + b == b;
    } else {
      var c := a + b;
      assert c[0] == a[0];
      assert c[1..] == a[1..] + b;
      WithoutAppend(a[1..], b, s);
      var head := Keep(a[0], s);
      calc {
        Without(c, s);
        head + Without(a[1..] + b, s);
        head + (Without(a[1..], s) + Without(b, s));
        (head + Without(a[1..], s)) + Without(b, s);
      }
    }
  }

  /** `toggleSpecialty(s)`: remove every `s` when present, otherwise append it. */
  function ToggleSpecialty(specialties: seq<string>, s: string): (r: seq<string>)
    ensures s in r <==> s !in specialties
    ensures s !in specialties ==> r == specialties + [s]
    ensures s in specialties ==> |r| < |specialties|
    ensures forall t :: t != s ==> (t in r <==> t in specialties)
  {
    if s in specialties then Without(specialties, s) else specialties + [s]
  }

  /** The other specialties keep their relative order: filtering `s` out of the list
      before and after the toggle gives the same sequence. */
  lemma ToggleKeepsOthers(specialties: seq<string>, s: string)
    ensures Without(ToggleSpecialty(specialties, s), s) == Without(specialties, s)
  {
    if s !in specialties {
      WithoutAppend(specialties, [s], s);
      assert Without([s], s) == [];
    }
  }

  /** Toggling an absent specialty twice gives back the original list. */
  lemma ToggleTwice(specialties: seq<string>, s: string)
    requires s !in specialties
    ensures ToggleSpecialty(ToggleSpecialty(specialties, s), s) == specialties
  {
    var once := specialties + [s];
    WithoutAppend(specialties, [s], s);
    assert Without([s], s) == [];
  }

  predicate NoDuplicates(items: seq<string>) {
    forall i, j :: 0 <= i < j < |items| ==> items[i] != items[j]
  }

  lemma {:induction false} WithoutNoDuplicates(items: seq<string>, s: string)
    requires NoDuplicates(items)
    ensures NoDuplicates(Without(items, s))
  {
    if items != [] {
      WithoutNoDuplicates(items[1..], s);
      assert items[0] !in items[1..];
    }
  }

  /** A list built only by toggles never holds a specialty twice. */
  lemma ToggleKeepsNoDuplicates(specialties: seq<string>, s: string)
    requires NoDuplicates(specialties)
    ensures NoDuplicates(ToggleSpecialty(specialties, s))
  {
    if s in specialties {
      WithoutNoDuplicates(specialties, s);
    }
  }

  // ---------------------------------------------------------------- wizard

  datatype ListingForm = ListingForm(
    name: string, website: string, address: string, city: string, email: string, phone: string,
    license: string, years: string, specialties: seq<string>, is247: bool, hasInsurance: bool)

  const DefaultForm := ListingForm("", "", "", "", "", "", "", "5", [], true, false)

  datatype SyncStatus = SyncIdle | Syncing | SyncComplete

  const FirstStep := 1
  const LastStep := 4
  const SheetsLabel := "Pushed to Google Sheets"
  const LocalLabel := "Local Only"

  /** The "Data Sync" line of the success notice: a non-empty saved sheet link counts. */
  function SyncLabel(savedSheet: Option<string>): (line: string)
    ensures line == SheetsLabel <==> savedSheet.Some? && savedSheet.value != ""
    ensures line == SheetsLabel || line == LocalLabel
  {
    if savedSheet.Some? && savedSheet.value != "" then SheetsLabel else LocalLabel
  }

  const NoticeLead := "Success! Vetting Protocol Complete for "
  const NoticeTier := ".\n\nAI Status: Verified\nTier: "
  const NoticeSync := "\nData Sync: "

  /** The text of the success `alert`: it opens with the company name and closes with
      the sync line, and the tier is written as a template literal writes it. */
  function SuccessNotice(name: string, tier: Option<string>, sync: string): (notice: string)
    ensures StartsWith(notice, NoticeLead + name)
    ensures EndsWith(notice, NoticeSync + sync)
    ensures tier.Some? ==> notice == NoticeLead + name + NoticeTier + tier.value + (NoticeSync + sync)
    ensures tier.None? ==> notice == NoticeLead + name + NoticeTier + UndefinedText + (NoticeSync + sync)
  {
    var head := NoticeLead + name;
    var tail := NoticeSync + sync;
    var notice := head + NoticeTier + Interpolate(tier) + tail;
    StartsWithConcat(head, NoticeTier + Interpolate(tier) + tail);
    assert notice == head + (NoticeTier + Interpolate(tier) + tail);
    EndsWithConcat(head + NoticeTier + Interpolate(tier), tail);
    notice
  }

  class ListingWizard {
    var strategy: ListingStrategy
    var form: ListingForm
    var currentStep: int
    var selectedTier: Option<PricingOption>
    var isSubmitting: bool
    var showModal: bool
    var syncStatus: SyncStatus
    const store: LocalStore

    /** Between events: the step is one of the four, an open modal has a tier, no
        authorisation is in flight, and the specialties are distinct choices. */
    ghost predicate Valid()
      reads this
    {
      FirstStep <= currentStep <= LastStep &&
      (showModal ==> selectedTier.Some?) &&
      !isSubmitting && syncStatus == SyncIdle &&
      NoDuplicates(form.specialties) &&
      (forall i :: 0 <= i < |form.specialties| ==> form.specialties[i] in SpecialtyChoices)
    }

    /** The initial state and the mount effect that loads the saved strategy. */
    constructor (store: LocalStore, parse: string -> Result<ListingStrategy, string>)
      ensures Valid()
      ensures this.store == store
      ensures strategy == StoredStrategy(store.GetItem(StrategyKey), parse)
      ensures form == DefaultForm && currentStep == FirstStep && selectedTier == None && !showModal
    {
      this.store := store;
      form := DefaultForm;
      currentStep := FirstStep;
      selectedTier := None;
      isSubmitting := false;
      showModal := false;
      syncStatus := SyncIdle;
      strategy := DefaultStrategy;
      new;
      var saved := store.GetItem(StrategyKey);
      if saved.Some? && saved.value != "" {
        var parsed := parse(saved.value);
        if parsed.Success? {
          strategy := parsed.value;
        }
      }
    }

    /** Back is shown from the second step on. */
    predicate CanGoBack(): (ok: bool)
      reads this
      ensures ok ==> showModal && FirstStep < currentStep
      ensures showModal && FirstStep < currentStep ==> ok
    {
      showModal && currentStep > FirstStep
    }

    /** Continue is shown before the last step and disabled on the first step while the
        company name is empty. */
    predicate CanContinue(): (ok: bool)
      reads this
      ensures ok <==> showModal && currentStep < LastStep && (currentStep == FirstStep ==> form.name != "")
    {
      showModal && currentStep < LastStep && !(currentStep == FirstStep && form.name == "")
    }

    /** Complete Authorization is shown on the last step when no sync is under way and
        is disabled while submitting or while email or phone is empty. */
    predicate CanAuthorize(): (ok: bool)
      reads this
      ensures ok ==> showModal && currentStep == LastStep && !isSubmitting
      ensures ok ==> form.email != "" && form.phone != ""
      ensures (showModal && currentStep == LastStep && syncStatus == SyncIdle && !isSubmitting
               && form.email != "" && form.phone != "") ==> ok
    {
      showModal && currentStep == LastStep && syncStatus != Syncing &&
      !isSubmitting && form.email != "" && form.phone != ""
    }

    /** `handleOpenVetting(tier)`: a tier's "Partner with" button. */
    method OpenVetting(tier: PricingOption)
      requires Valid()
      modifies this
      ensures Valid()
      ensures selectedTier == Some(tier) && currentStep == FirstStep && showModal
      ensures form == old(form) && strategy == old(strategy)
    {
      selectedTier := Some(tier);
      currentStep := FirstStep;
      showModal := true;
    }

    /** The close button: the step and the tier are kept for the next opening. */
    method CloseModal()
      requires Valid()
      modifies this
      ensures Valid()
      ensures !showModal
      ensures currentStep == old(currentStep) && selectedTier == old(selectedTier) && form == old(form)
      ensures strategy == old(strategy)
    {
      showModal := false;
    }

    /** `nextStep`, reachable only through an enabled Continue button. */
    method NextStep()
      requires Valid() && CanContinue()
      modifies this
      ensures Valid()
      ensures currentStep == old(currentStep) + 1
      ensures showModal && selectedTier == old(selectedTier) && form == old(form) && strategy == old(strategy)
    {
      currentStep := currentStep + 1;
    }

    /** `prevStep`, reachable only through the Back button. */
    method PrevStep()
      requires Valid() && CanGoBack()
      modifies this
      ensures Valid()
      ensures currentStep == old(currentStep) - 1
      ensures showModal && selectedTier == old(selectedTier) && form == old(form) && strategy == old(strategy)
    {
      currentStep := currentStep - 1;
    }

    /** The identification fields of the first step. */
    method EditIdentity(name: string, website: string, address: string)
      requires Valid() && showModal && currentStep == 1
      modifies this
      ensures Valid()
      ensures form == old(form).(name := name, website := website, address := address)
      ensures currentStep == old(currentStep) && showModal && selectedTier == old(selectedTier)
      ensures strategy == old(strategy)
    {
      form := form.(name := name, website := website, address := address);
    }

    /** A specialty button of the second step. */
    method ToggleSpecialtyChoice(s: string)
      requires Valid() && showModal && currentStep == 2
      requires s in SpecialtyChoices
      modifies this
      ensures Valid()
      ensures form == old(form).(specialties := ToggleSpecialty(old(form.specialties), s))
      ensures currentStep == old(currentStep) && showModal && selectedTier == old(selectedTier)
      ensures strategy == old(strategy)
    {
      ToggleKeepsNoDuplicates(form.specialties, s);
      var toggled := ToggleSpecialty(form.specialties, s);
      forall i | 0 <= i < |toggled| ensures toggled[i] in SpecialtyChoices {
        if toggled[i] != s {
          assert toggled[i] in form.specialties;
        }
      }
      form := form.(specialties := toggled);
    }

    /** The license field and the insurance box of the third step. */
    method EditVetting(license: string, toggleInsurance: bool)
      requires Valid() && showModal && currentStep == 3
      modifies this
      ensures Valid()
      ensures form == old(form).(license := license,
                                 hasInsurance := if toggleInsurance then !old(form.hasInsurance) else old(form.hasInsurance))
      ensures currentStep == old(currentStep) && showModal && selectedTier == old(selectedTier)
      ensures strategy == old(strategy)
    {
      form := form.(license := license);
      if toggleInsurance {
        form := form.(hasInsurance := !form.hasInsurance);
      }
    }

    /** The contact fields of the last step. */
    method EditContact(email: string, phone: string)
      requires Valid() && showModal && currentStep == LastStep
      modifies this
      ensures Valid()
      ensures form == old(form).(email := email, phone := phone)
      ensures currentStep == old(currentStep) && showModal && selectedTier == old(selectedTier)
      ensures strategy == old(strategy)
    {
      form := form.(email := email, phone := phone);
    }

    /** `finalizePartnership` through the enabled authorisation button. The returned
        notice is the success `alert`; the wizard closes, returns to the first step and
        clears the form, while the tier stays selected. Storage is only read. */
    method FinalizePartnership() returns (notice: string)
      requires Valid() && CanAuthorize()
      ensures Valid()
      modifies this
      ensures notice == SuccessNotice(old(form.name), old(selectedTier).value.tier, SyncLabel(store.GetItem(SheetKey)))
      ensures !showModal && currentStep == FirstStep && syncStatus == SyncIdle && !isSubmitting
      ensures form == DefaultForm
      ensures selectedTier == old(selectedTier) && strategy == old(strategy)
    {
      isSubmitting := true;
      syncStatus := Syncing;
      var sheetLink := store.GetItem(SheetKey);
      syncStatus := SyncComplete;
      isSubmitting := false;
      notice := SuccessNotice(form.name, selectedTier.value.tier, SyncLabel(sheetLink));
      showModal := false;
      currentStep := FirstStep;
      syncStatus := SyncIdle;
      form := DefaultForm;
    }
  }

  // ---------------------------------------------------------------- hand-off

  /** The strategy lab and this page share `gta_roof_guard_strategy`: a lab run followed
      by a fresh mount of this page on the same store. When `JSON.parse` reads back what
      `JSON.stringify` writes, a successful run's strategy is the one the page loads,
      and a failed run leaves the page loading what was saved before. */
  method PublishStrategy(console: AdminConsole, env: Environment, outcome: ProviderOutcome,
                         parse: string -> Result<ListingStrategy, string>,
                         serialize: ListingStrategy -> string)
    returns (wizard: ListingWizard)
    requires console.Valid()
    requires forall s :: serialize(s) != "" && parse(serialize(s)) == Success(s)
    modifies console, console.store
    ensures var x := GenerateNetworkStrategy(env, old(console.marketContext), outcome, parse);
            (x.result.Success? ==> wizard.strategy == x.result.value) &&
            (x.result.Failure? ==> wizard.strategy == StoredStrategy(old(console.store.GetItem(StrategyKey)), parse))
    ensures wizard.store == console.store && wizard.Valid() && !wizard.showModal
  {
    var _ := console.RunStrategyLab(env, outcome, parse, serialize);
    wizard := new ListingWizard(console.store, parse);
  }

  /** An empty reply to the strategy lab parses as `{}`; once the lab has stored it, the
      page loads it in place of the default and its render throws. */
  lemma EmptyStrategyReplyBreaksPage(env: Environment, marketContext: string, response: ProviderResponse,
                                     parse: string -> Result<ListingStrategy, string>,
                                     serialize: ListingStrategy -> string)
    requires HasApiKey(env)
    requires response.text.None? || response.text.value == ""
    requires parse(EmptyJsonText) == Success(EmptyStrategy)
    requires serialize(EmptyStrategy) != "" && parse(serialize(EmptyStrategy)) == Success(EmptyStrategy)
    ensures var x := GenerateNetworkStrategy(env, marketContext, Responded(response), parse);
            x.result == Success(EmptyStrategy) &&
            StrategyPage(StoredStrategy(Some(serialize(x.result.value)), parse)).None?
  {
    SavedEmptyObjectBreaksPage(serialize(EmptyStrategy), parse);
  }
}
