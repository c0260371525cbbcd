/**
 * The plans hub: a fast-track form that "generates" a plan (after a fixed delay it shows
 * three canned assumptions) and a validated mode that lists the high-risk assumptions.
 * The toasts it posts through its `addToast` prop are returned as `ToastRequest`s; the
 * documents hub, which mounts it, queues them.
 */
module PlansHub {
  import opened DocumentTypes

  /** The assumptions every generation produces. */
  const MockAssumptions: seq<Assumption> := [
    Assumption("a1", "Small businesses will pay $99/month for this solution.", High, Untested, "Financial Projections"),
    Assumption("a2", "The problem occurs frequently enough to justify a dedicated solution.", High, Untested, "Problem Statement"),
    Assumption("a3", "Users cannot easily solve this problem with existing tools.", High, Untested, "Competitive Analysis")]

  const GeneratedMessage: string := "Business plan assumptions generated successfully!"
  const ClearedMessage: string := "Assumption dashboard cleared."

  // ---------------------------------------------------------------------------
  // The form
  // ---------------------------------------------------------------------------

  datatype FormData = FormData(problem: string, solution: string, market: string, advantage: string)

  const EmptyForm: FormData := FormData("", "", "", "")

  datatype Field = Problem | Solution | Market | Advantage

  function FieldValue(f: FormData, field: Field): string {
    match field
    case Problem => f.problem
    case Solution => f.solution
    case Market => f.market
    case Advantage => f.advantage
  }

  /** A field's `onChange`: that field takes the new value and every other field keeps its own. */
  function SetField(f: FormData, field: Field, value: string): (g: FormData)
    ensures FieldValue(g, field) == value
    ensures forall other :: other != field ==> FieldValue(g, other) == FieldValue(f, other)
  {
    match field
    case Problem => f.(problem := value)
    case Solution => f.(solution := value)
    case Market => f.(market := value)
    case Advantage => f.(advantage := value)
  }

  /** The generate button is enabled only when no generation is running and the problem and
      the solution are both filled in. */
  predicate GenerateEnabled(isLoading: bool, f: FormData) {
    !isLoading && f.problem != "" && f.solution != ""
  }

  /** The market and the advantage are not required: editing them never enables or
      disables generation. */
  lemma OptionalFieldsDoNotGate(isLoading: bool, f: FormData, field: Field, value: string)
    requires field == Market || field == Advantage
    ensures GenerateEnabled(isLoading, SetField(f, field, value)) == GenerateEnabled(isLoading, f)
  {
    assert FieldValue(SetField(f, field, value), Problem) == f.problem;
    assert FieldValue(SetField(f, field, value), Solution) == f.solution;
  }

  // ---------------------------------------------------------------------------
  // The dashboard
  // ---------------------------------------------------------------------------

  /** The high-risk assumptions, in their original order. */
  function HighRisk(assumptions: seq<Assumption>): (r: seq<Assumption>)
    ensures |r| <= |assumptions|
    ensures forall a :: a in r <==> a in assumptions && a.risk == High
  {
    if assumptions == [] then []
    else (if assumptions[0].risk == High then [assumptions[0]] else []) + HighRisk(assumptions[1..])
  }

  /** The filter works item by item, so the dashboard keeps the list's order. */
  lemma {:induction false} HighRiskDistributes(a: seq<Assumption>, b: seq<Assumption>)
    ensures HighRisk(a + b) == HighRisk(a) + HighRisk(b)
    decreases |a|
  {
    if a == [] {
      assert a + b == b;
    } else {
      assert (a + b)[0] == a[0];
      assert (a + b)[1..] == a[1..] + b;
      HighRiskDistributes(a[1..], b);
    }
  }

  /** A list of high-risk assumptions is shown whole. */
  lemma {:induction false} HighRiskKeepsAllHigh(a: seq<Assumption>)
    requires forall i :: 0 <= i < |a| ==> a[i].risk == High
    ensures HighRisk(a) == a
    decreases |a|
  {
    if a != [] {
      HighRiskKeepsAllHigh(a[1..]);
      assert a == [a[0]] + a[1..];
    }
  }

  /** What the plans hub shows. */
  datatype PlansScreen =
    | GenerateForm(form: FormData, enabled: bool, loading: bool)
    | Dashboard(count: nat, shown: seq<Assumption>)
    | Banner

  /** The form in fast-track mode; in validated mode the dashboard when there are
      assumptions, of which it lists the high-risk ones, and the banner otherwise. */
  function ScreenOf(mode: Mode, assumptions: seq<Assumption>, isLoading: bool, f: FormData): (s: PlansScreen)
    ensures mode == FastTrack <==> s.GenerateForm?
    ensures s.GenerateForm? ==> s.form == f && s.enabled == GenerateEnabled(isLoading, f) && s.loading == isLoading
    ensures s.Dashboard? <==> mode == ValidatedMode && assumptions != []
    ensures s.Dashboard? ==> s.count == |assumptions| && s.shown == HighRisk(assumptions)
    ensures s.Banner? <==> mode == ValidatedMode && assumptions == []
  {
    match mode
    case FastTrack => GenerateForm(f, GenerateEnabled(isLoading, f), isLoading)
    case ValidatedMode => if assumptions != [] then Dashboard(|assumptions|, HighRisk(assumptions)) else Banner
  }

  /** After a generation the dashboard lists all three canned assumptions. */
  lemma GeneratedDashboardShowsAll(f: FormData)
    ensures ScreenOf(ValidatedMode, MockAssumptions, false, f) == Dashboard(3, MockAssumptions)
  {
    HighRiskKeepsAllHigh(MockAssumptions);
  }

  /** The plans hub's state. */
  class PlansApp {
    var mode: Mode
    var assumptions: seq<Assumption>
    var formData: FormData
    var isLoading: bool

    /** The state of a freshly mounted plans hub. */
    predicate Initial()
      reads this
    {
      mode == FastTrack && assumptions == [] && formData == EmptyForm && !isLoading
    }

    /** Fast-track mode, no assumptions, an empty form, not loading. */
    constructor ()
      ensures Initial()
    {
      mode := FastTrack;
      assumptions := [];
      formData := EmptyForm;
      isLoading := false;
    }

    /** A click on the generate button, which does nothing while the button is disabled;
        otherwise generation starts and its timer is set. The timer is pending exactly
        while `isLoading` holds: only the click sets it, and only the timer clears it. */
    method ClickGenerate()
      modifies this
      ensures isLoading == (old(isLoading) || GenerateEnabled(old(isLoading), old(formData)))
      ensures mode == old(mode) && assumptions == old(assumptions) && formData == old(formData)
    {
      if GenerateEnabled(isLoading, formData) {
        isLoading := true;
      }
    }

    /** The pending generation timer fires: the canned assumptions, validated mode,
        loading over, and one success toast to post. */
    method GenerationFinished() returns (toast: ToastRequest)
      requires isLoading
      modifies this
      ensures assumptions == MockAssumptions && mode == ValidatedMode && !isLoading
      ensures formData == old(formData)
      ensures toast == ToastRequest(GeneratedMessage, Success)
    {
      assumptions := MockAssumptions;
      mode := ValidatedMode;
      isLoading := false;
      toast := ToastRequest(GeneratedMessage, Success);
    }

    /** The dashboard's close button: no assumptions, fast-track mode, one info toast to
        post. */
    method ClearAssumptions() returns (toast: ToastRequest)
      modifies this
      ensures assumptions == [] && mode == FastTrack
      ensures formData == old(formData) && isLoading == old(isLoading)
      ensures toast == ToastRequest(ClearedMessage, Info)
    {
      assumptions := [];
      mode := FastTrack;
      toast := ToastRequest(ClearedMessage, Info);
    }

    /** A mode toggle button: only the mode changes. */
    method SetMode(m: Mode)
      modifies this
      ensures mode == m
      ensures assumptions == old(assumptions) && formData == old(formData) && isLoading == old(isLoading)
    {
      mode := m;
    }

    /** Typing in a form field: only that field changes. */
    method EditField(field: Field, value: string)
      modifies this
      ensures formData == SetField(old(formData), field, value)
      ensures mode == old(mode) && assumptions == old(assumptions) && isLoading == old(isLoading)
    {
      formData := SetField(formData, field, value);
    }

    function Screen(): PlansScreen
      reads this
    {
      ScreenOf(mode, assumptions, isLoading, formData)
    }
  }
}
