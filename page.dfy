/**
 * The home page's state: the plan on screen, the loading flag and the browser's
 * local storage, where the plan is kept under the key "fitnessPlan".  Three
 * handlers change it: the startup load, plan generation and regeneration.
 *
 * `parse` stands for `JSON.parse` (None when it throws) and `serialize` for
 * `JSON.stringify`; the only facts used about them are that parsing a
 * serialized plan gives the plan back and that the empty string does not
 * parse.  The request to the plan route, and whether saving to local storage
 * succeeds, are outcomes passed in by the caller.
 */
module Page {
  import opened Wrappers
  import opened Types
  import GeneratePlan

  const PlanKey := "fitnessPlan"
  const GenerateAlert := "Failed to generate plan. Please check your API keys and try again."

  /** What `fetch('/api/generate-plan', …)` gives: a response, whose body may fail to parse, or a thrown error. */
  datatype FetchOutcome =
    | Responded(status: nat, data: Option<FitnessPlan>)
    | NetworkError

  /** `response.ok` */
  predicate IsOk(status: nat)
  {
    200 <= status <= 299
  }

  /** A generation succeeds when the response is ok and its body parses. */
  predicate Succeeded(outcome: FetchOutcome)
  {
    outcome.Responded? && IsOk(outcome.status) && outcome.data.Some?
  }

  /** What the page shows: the form (with its loading flag) while there is no plan, the plan otherwise. */
  datatype View = FormView(loading: bool) | PlanView(plan: FitnessPlan)

  /** The state the handlers change, as a value: the plan on screen and local storage. */
  datatype PageState = PageState(plan: Option<FitnessPlan>, storage: map<string, string>)

  /** `JSON.parse(JSON.stringify(p))` gives `p` back, and `JSON.parse('')` throws. */
  ghost predicate RoundTrip(parse: string -> Option<FitnessPlan>, serialize: FitnessPlan -> string)
  {
    && parse("").None?
    && forall p :: parse(serialize(p)) == Some(p)
  }

  /** `localStorage.getItem('fitnessPlan')` is truthy: present and not empty. */
  predicate HasSaved(storage: map<string, string>)
  {
    PlanKey in storage && storage[PlanKey] != ""
  }

  /** The startup load: a saved plan that parses is shown, one that does not is removed. */
  function Load(s: PageState, parse: string -> Option<FitnessPlan>): PageState
  {
    if !HasSaved(s.storage) then s
    else match parse(s.storage[PlanKey])
      case Some(p) => PageState(Some(p), s.storage)
      case None => PageState(s.plan, s.storage - {PlanKey})
  }

  /**
   * The end of a generation: a successful one shows the plan and then saves it,
   * a failed one changes nothing.  `stored` is false when `localStorage.setItem`
   * throws (quota exceeded, storage disabled): the plan is already on screen by
   * then, and storage keeps what it had.
   */
  function Generated(s: PageState, outcome: FetchOutcome, stored: bool, serialize: FitnessPlan -> string): PageState
  {
    if Succeeded(outcome) then
      PageState(outcome.data, if stored then s.storage[PlanKey := serialize(outcome.data.value)] else s.storage)
    else s
  }

  /** The alert is raised when the request failed or the plan could not be saved. */
  predicate GenerationAlerts(outcome: FetchOutcome, stored: bool)
  {
    !Succeeded(outcome) || !stored
  }

  /** Regeneration: the plan is dropped from the screen and from storage. */
  function Regenerated(s: PageState): PageState
  {
    PageState(None, s.storage - {PlanKey})
  }

  /**
   * The plan on screen and the saved plan agree: a plan on screen is the one
   * saved, and a saved plan is on screen.
   */
  predicate InStep(s: PageState, parse: string -> Option<FitnessPlan>)
  {
    && (s.plan.Some? ==> PlanKey in s.storage && parse(s.storage[PlanKey]) == s.plan)
    && (HasSaved(s.storage) ==> s.plan.Some?)
  }

  /** After the startup load, screen and storage agree. */
  lemma LoadSynchronises(s: PageState, parse: string -> Option<FitnessPlan>)
    requires s.plan.None?
    ensures InStep(Load(s, parse), parse)
  {
  }

  /** Loading twice is loading once. */
  lemma LoadIdempotent(s: PageState, parse: string -> Option<FitnessPlan>)
    ensures Load(Load(s, parse), parse) == Load(s, parse)
  {
  }

  /** A failed load removes only the plan's key. */
  lemma FailedLoadRemovesOnlyPlan(s: PageState, parse: string -> Option<FitnessPlan>, key: string)
    requires HasSaved(s.storage) && parse(s.storage[PlanKey]).None?
    requires key != PlanKey
    ensures PlanKey !in Load(s, parse).storage
    ensures key in Load(s, parse).storage <==> key in s.storage
    ensures key in s.storage ==> Load(s, parse).storage[key] == s.storage[key]
  {
  }

  /** Generation keeps screen and storage in step, unless the plan could not be saved. */
  lemma GenerationKeepsInStep(
    s: PageState, outcome: FetchOutcome, stored: bool,
    parse: string -> Option<FitnessPlan>, serialize: FitnessPlan -> string)
    requires RoundTrip(parse, serialize) && InStep(s, parse)
    ensures stored || !Succeeded(outcome) ==> InStep(Generated(s, outcome, stored, serialize), parse)
  {
    if Succeeded(outcome) && stored {
      assert parse(serialize(outcome.data.value)) == Some(outcome.data.value);
    }
  }

  /**
   * A plan that could not be saved is shown but not stored: with nothing saved
   * before, screen and storage are out of step, and a reload shows the form.
   */
  lemma UnsavedPlanOutOfStep(
    s: PageState, outcome: FetchOutcome,
    parse: string -> Option<FitnessPlan>, serialize: FitnessPlan -> string)
    requires Succeeded(outcome) && PlanKey !in s.storage
    ensures Generated(s, outcome, false, serialize).plan == outcome.data
    ensures !InStep(Generated(s, outcome, false, serialize), parse)
    ensures Load(PageState(None, Generated(s, outcome, false, serialize).storage), parse) == PageState(None, s.storage)
  {
  }

  /** A generated plan survives a reload: a fresh page loads exactly that plan. */
  lemma GeneratedPlanSurvivesReload(
    s: PageState, status: nat, plan: FitnessPlan,
    parse: string -> Option<FitnessPlan>, serialize: FitnessPlan -> string)
    requires RoundTrip(parse, serialize) && IsOk(status)
    ensures var saved := Generated(s, Responded(status, Some(plan)), true, serialize).storage;
      Load(PageState(None, saved), parse).plan == Some(plan)
  {
    var saved := Generated(s, Responded(status, Some(plan)), true, serialize).storage;
    assert parse(serialize(plan)) == Some(plan);
    assert HasSaved(saved);
  }

  /** Regeneration keeps screen and storage in step, and a reload afterwards shows the form. */
  lemma RegenerationClears(s: PageState, parse: string -> Option<FitnessPlan>)
    ensures InStep(Regenerated(s), parse)
    ensures Load(Regenerated(s), parse) == Regenerated(s)
  {
  }

  /** The plan route always answers with an ok status, so the page's `!response.ok` check never fires on its answers. */
  lemma PlanRouteAnswersOk(
    body: Option<UserFormData>,
    generate: string -> Option<string>,
    parse: string -> Option<FitnessPlan>)
    ensures IsOk(GeneratePlan.PlanRoute(body, generate, parse).status)
  {
  }

  /** The page component. */
  class Home {
    var plan: Option<FitnessPlan>
    var loading: bool
    var storage: map<string, string>
    const parse: string -> Option<FitnessPlan>
    const serialize: FitnessPlan -> string

    /** The state the handlers change, as a value. */
    function State(): PageState
      reads this
    {
      PageState(plan, storage)
    }

    /** The JSON functions the page uses round-trip plans. */
    ghost predicate Valid()
      reads this
    {
      RoundTrip(parse, serialize)
    }

    /** The first render: no plan, not loading, storage as the browser kept it. */
    constructor(saved: map<string, string>, parse: string -> Option<FitnessPlan>, serialize: FitnessPlan -> string)
      requires RoundTrip(parse, serialize)
      ensures Valid() && this.parse == parse && this.serialize == serialize
      ensures plan.None? && !loading && storage == saved
    {
      this.parse := parse;
      this.serialize := serialize;
      plan := None;
      loading := false;
      storage := saved;
    }

    /** The startup effect; run on the first render, it leaves screen and storage in step. */
    method LoadSaved()
      modifies this
      ensures State() == Load(old(State()), parse)
      ensures loading == old(loading)
      ensures old(plan.None?) ==> InStep(State(), parse)
    {
      if plan.None? {
        LoadSynchronises(State(), parse);
      }
      if PlanKey in storage && storage[PlanKey] != "" {
        var parsed := parse(storage[PlanKey]);
        if parsed.Some? {
          plan := parsed;
        } else {
          storage := storage - {PlanKey};
        }
      }
    }

    /** `setLoading(true)`, before the request is sent. */
    method StartGeneration()
      modifies this
      ensures loading
      ensures State() == old(State())
    {
      loading := true;
    }

    /**
     * The rest of `handleGeneratePlan`, once the request has an outcome and
     * `stored` says whether `setItem` succeeded; a failure raises the alert.
     */
    method FinishGeneration(outcome: FetchOutcome, stored: bool) returns (alert: Option<string>)
      requires Valid()
      modifies this
      ensures !loading
      ensures State() == Generated(old(State()), outcome, stored, serialize)
      ensures alert == if GenerationAlerts(outcome, stored) then Some(GenerateAlert) else None
      ensures old(InStep(State(), parse)) && (stored || !Succeeded(outcome)) ==> InStep(State(), parse)
    {
      if InStep(State(), parse) {
        GenerationKeepsInStep(State(), outcome, stored, parse, serialize);
      }
      alert := None;
      if outcome.NetworkError? || !IsOk(outcome.status) || outcome.data.None? {
        alert := Some(GenerateAlert);
      } else {
        plan := outcome.data;
        if stored {
          storage := storage[PlanKey := serialize(outcome.data.value)];
        } else {
          alert := Some(GenerateAlert);
        }
      }
      loading := false;
    }

    /** `handleGeneratePlan`: loading while the request runs, then the outcome is applied. */
    method HandleGeneratePlan(outcome: FetchOutcome, stored: bool) returns (alert: Option<string>)
      requires Valid()
      modifies this
      ensures !loading
      ensures State() == Generated(old(State()), outcome, stored, serialize)
      ensures alert.Some? <==> GenerationAlerts(outcome, stored)
      ensures old(InStep(State(), parse)) && (stored || !Succeeded(outcome)) ==> InStep(State(), parse)
    {
      StartGeneration();
      alert := FinishGeneration(outcome, stored);
    }

    /** `handleRegenerate` */
    method Regenerate()
      modifies this
      ensures State() == Regenerated(old(State()))
      ensures loading == old(loading)
      ensures InStep(State(), parse)
    {
      RegenerationClears(State(), parse);
      plan := None;
      storage := storage - {PlanKey};
    }

    /** `!plan ? <FitnessForm …/> : <PlanDisplay …/>` */
    function CurrentView(): (v: View)
      reads this
      ensures v.FormView? <==> plan.None?
      ensures v.FormView? ==> v.loading == loading
      ensures v.PlanView? ==> plan == Some(v.plan)
    {
      if plan.None? then FormView(loading) else PlanView(plan.value)
    }
  }
}
