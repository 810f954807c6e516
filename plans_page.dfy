/** The subscription plans page (app/plans/page.tsx): a plan list with a create/edit
    form, deletion after confirmation, and an active switch per plan. The plan shape
    is the one the page reads and sends (price_usd and a features record). */
module PlansPage {
  import opened Wrappers
  import opened Query
  import Browser
  import LibApi

  datatype PlanFeatures = PlanFeatures(servers: string, bandwidth: string, devices: int, support: string)

  datatype Plan = Plan(
    id: string,
    name: string,
    description: string,
    price_usd: real,
    duration_days: int,
    features: PlanFeatures,
    is_active: bool)

  /** The eight inputs of the form. */
  datatype PlanForm = PlanForm(
    name: string,
    description: string,
    price_usd: real,
    duration_days: int,
    servers: string,
    bandwidth: string,
    devices: int,
    support: string)

  /** The body sent to create or update a plan: the features regrouped. */
  datatype PlanPayload = PlanPayload(
    name: string,
    description: string,
    price_usd: real,
    duration_days: int,
    features: PlanFeatures)

  datatype PlanRequest =
    | CreatePlan(payload: PlanPayload)
    | UpdatePlan(id: string, payload: PlanPayload)
    | DeletePlan(id: string)
    | SetPlanStatus(id: string, status: string)

  const PlansKey: QueryKey := ["plans"]

  /** Every text input is registered as required (the numeric ones always hold a number here). */
  predicate Complete(f: PlanForm) {
    f.name != "" && f.description != "" && f.servers != "" && f.bandwidth != "" && f.support != ""
  }

  /** `onSubmit`'s `planData`: the four feature inputs grouped under `features`. */
  function Payload(f: PlanForm): (p: PlanPayload)
    ensures p.name == f.name && p.description == f.description
    ensures p.price_usd == f.price_usd && p.duration_days == f.duration_days
    ensures p.features == PlanFeatures(f.servers, f.bandwidth, f.devices, f.support)
  {
    PlanPayload(f.name, f.description, f.price_usd, f.duration_days,
      PlanFeatures(f.servers, f.bandwidth, f.devices, f.support))
  }

  /** `handleEdit`'s `setValue` calls: the form loaded from a plan. */
  function FormOf(plan: Plan): (f: PlanForm)
    ensures f.name == plan.name && f.description == plan.description
    ensures f.price_usd == plan.price_usd && f.duration_days == plan.duration_days
    ensures f.servers == plan.features.servers && f.bandwidth == plan.features.bandwidth
    ensures f.devices == plan.features.devices && f.support == plan.features.support
  {
    PlanForm(plan.name, plan.description, plan.price_usd, plan.duration_days,
      plan.features.servers, plan.features.bandwidth, plan.features.devices, plan.features.support)
  }

  /** Saving an edited plan without touching the form sends the plan's own fields back:
      loading and regrouping lose nothing. */
  lemma UnchangedEditResendsPlan(plan: Plan)
    ensures Payload(FormOf(plan)) ==
      PlanPayload(plan.name, plan.description, plan.price_usd, plan.duration_days, plan.features)
  {
  }

  /** Two forms with the same payload are the same form. */
  lemma PayloadIsInjective(f: PlanForm, g: PlanForm)
    requires Payload(f) == Payload(g)
    ensures f == g
  {
    assert Payload(f).features == Payload(g).features;
  }

  /** `is_active ? 'active' : 'inactive'` */
  function StatusValue(isActive: bool): (s: string)
    ensures s == "active" <==> isActive
    ensures s == "inactive" <==> !isActive
  {
    if isActive then "active" else "inactive"
  }

  class PlansPage {
    var showForm: bool
    var editingPlan: Option<Plan>
    /** The form's values; None after `reset()`, when the required inputs are empty. */
    var values: Option<PlanForm>
    var requests: seq<PlanRequest>
    const window: Browser.Window
    const effects: Effects

    /** A plan is only ever edited inside the open form. */
    predicate Consistent()
      reads this
    {
      editingPlan.Some? ==> showForm
    }

    constructor (w: Browser.Window, fx: Effects)
      ensures window == w && effects == fx && !showForm && editingPlan == None && values == None && requests == []
      ensures Consistent()
    {
      window := w;
      effects := fx;
      showForm := false;
      editingPlan := None;
      values := None;
      requests := [];
    }

    /** The 'Add Plan' button. */
    method OpenForm()
      modifies this
      requires Consistent()
      ensures Consistent()
      ensures showForm && editingPlan == old(editingPlan) && values == old(values) && requests == old(requests)
    {
      showForm := true;
    }

    /** Typing into the form. */
    method Fill(f: PlanForm)
      modifies this
      requires Consistent()
      ensures Consistent()
      ensures values == Some(f)
      ensures showForm == old(showForm) && editingPlan == old(editingPlan) && requests == old(requests)
    {
      values := Some(f);
    }

    /** `handleEdit`: remember the plan, load its fields, open the form. */
    method Edit(plan: Plan)
      modifies this
      requires Consistent()
      ensures Consistent()
      ensures editingPlan == Some(plan) && values == Some(FormOf(plan)) && showForm
      ensures requests == old(requests)
    {
      editingPlan := Some(plan);
      values := Some(FormOf(plan));
      showForm := true;
    }

    /** The form's submit: when every required input is filled, update the plan being
        edited or create a new one; a success closes and resets the form. */
    method Submit(outcome: Outcome)
      modifies this, effects, window
      ensures window.localStorage ==
        if old(showForm && values.Some? && Complete(values.value)) then LibApi.StorageAfter(old(window.localStorage), outcome) else old(window.localStorage)
      ensures window.navigations ==
        old(window.navigations) + if old(showForm && values.Some? && Complete(values.value)) then LibApi.RedirectsAfter(outcome) else []
      requires Consistent()
      ensures Consistent()
      ensures old(!(showForm && values.Some? && Complete(values.value))) ==>
        requests == old(requests) && showForm == old(showForm) && editingPlan == old(editingPlan)
        && values == old(values)
        && effects.invalidated == old(effects.invalidated) && effects.toasts == old(effects.toasts)
      ensures old(showForm && values.Some? && Complete(values.value) && editingPlan.Some?) ==>
        requests == old(requests) + [UpdatePlan(old(editingPlan.value.id), Payload(old(values.value)))]
        && effects.invalidated == old(effects.invalidated) + Invalidations(outcome, PlansKey)
        && effects.toasts == old(effects.toasts)
          + [Notice(outcome, "Plan updated successfully", "Failed to update plan")]
      ensures old(showForm && values.Some? && Complete(values.value) && editingPlan.None?) ==>
        requests == old(requests) + [CreatePlan(Payload(old(values.value)))]
        && effects.invalidated == old(effects.invalidated) + Invalidations(outcome, PlansKey)
        && effects.toasts == old(effects.toasts)
          + [Notice(outcome, "Plan created successfully", "Failed to create plan")]
      ensures old(showForm && values.Some? && Complete(values.value)) ==>
        if outcome.Succeeded? then !showForm && editingPlan == None && values == None
        else showForm == old(showForm) && editingPlan == old(editingPlan) && values == old(values)
    {
      if showForm && values.Some? && Complete(values.value) {
        var payload := Payload(values.value);
        match editingPlan
        case Some(plan) =>
          requests := requests + [UpdatePlan(plan.id, payload)];
          LibApi.Settle(window, effects, outcome, PlansKey, "Plan updated successfully", "Failed to update plan");
          if outcome.Succeeded? {
            showForm := false;
            editingPlan := None;
            values := None;
          }
        case None =>
          requests := requests + [CreatePlan(payload)];
          LibApi.Settle(window, effects, outcome, PlansKey, "Plan created successfully", "Failed to create plan");
          if outcome.Succeeded? {
            showForm := false;
            values := None;
          }
      }
    }

    /** `handleDelete`: delete only after the user confirms. */
    method Delete(id: string, confirmed: bool, outcome: Outcome)
      modifies this, effects, window
      ensures window.localStorage ==
        if confirmed then LibApi.StorageAfter(old(window.localStorage), outcome) else old(window.localStorage)
      ensures window.navigations ==
        old(window.navigations) + if confirmed then LibApi.RedirectsAfter(outcome) else []
      requires Consistent()
      ensures Consistent()
      ensures showForm == old(showForm) && editingPlan == old(editingPlan) && values == old(values)
      ensures requests == old(requests) + (if confirmed then [DeletePlan(id)] else [])
      ensures confirmed ==>
        effects.invalidated == old(effects.invalidated) + Invalidations(outcome, PlansKey)
        && effects.toasts == old(effects.toasts)
          + [Notice(outcome, "Plan deleted successfully", "Failed to delete plan")]
      ensures !confirmed ==>
        effects.invalidated == old(effects.invalidated) && effects.toasts == old(effects.toasts)
    {
      if confirmed {
        requests := requests + [DeletePlan(id)];
        LibApi.Settle(window, effects, outcome, PlansKey, "Plan deleted successfully", "Failed to delete plan");
      }
    }

    /** The active switch of a row: the new status goes out as 'active' or 'inactive'. */
    method SetStatus(id: string, checked: bool, outcome: Outcome)
      modifies this, effects, window
      ensures window.localStorage == LibApi.StorageAfter(old(window.localStorage), outcome)
      ensures window.navigations == old(window.navigations) + LibApi.RedirectsAfter(outcome)
      requires Consistent()
      ensures Consistent()
      ensures showForm == old(showForm) && editingPlan == old(editingPlan) && values == old(values)
      ensures requests == old(requests) + [SetPlanStatus(id, StatusValue(checked))]
      ensures effects.invalidated == old(effects.invalidated) + Invalidations(outcome, PlansKey)
      ensures effects.toasts == old(effects.toasts)
        + [Notice(outcome, "Plan status updated", "Failed to update plan status")]
    {
      requests := requests + [SetPlanStatus(id, StatusValue(checked))];
      LibApi.Settle(window, effects, outcome, PlansKey, "Plan status updated", "Failed to update plan status");
    }

    /** The Cancel button: close the form, forget the plan being edited, reset the inputs. */
    method Cancel()
      modifies this
      requires Consistent()
      ensures Consistent()
      ensures !showForm && editingPlan == None && values == None && requests == old(requests)
    {
      showForm := false;
      editingPlan := None;
      values := None;
    }
  }
}
