/**
 * The plans page of the admin panel: the plan form, the payload `handleSubmit`
 * sends (numbers parsed with `parseFloat`/`parseInt`, an empty traffic field
 * meaning unlimited), the form `openEditModal` fills from a stored plan, and
 * the server check-boxes that `toggleServer` flips.
 */
module PlansPage {
  import opened Wrappers
  import opened Text
  import JsValues

  /** A stored plan as the list endpoint returns it; money and sizes are whole numbers here. */
  datatype Plan = Plan(
    id: string,
    name: string,
    description: Option<string>,
    price: int,
    durationDays: int,
    trafficGb: Option<int>,
    userLimit: int,
    serverIds: Option<seq<string>>,
    isActive: bool,
    isTest: bool,
    sortOrder: int)

  /** The controlled inputs of the modal; every number is still the text typed. */
  datatype PlanForm = PlanForm(
    name: string,
    description: string,
    price: string,
    durationDays: string,
    trafficGb: string,
    userLimit: string,
    serverIds: seq<string>,
    isActive: bool,
    isTest: bool,
    sortOrder: string)

  /** The JSON body; `None` is `null` (a `NaN` from the parse is serialised as `null` too). */
  datatype PlanPayload = PlanPayload(
    name: string,
    description: string,
    price: Option<real>,
    durationDays: Option<int>,
    trafficGb: Option<real>,
    userLimit: Option<int>,
    serverIds: seq<string>,
    isActive: bool,
    isTest: bool,
    sortOrder: Option<int>)

  datatype PlanRequest = Create(payload: PlanPayload) | Update(id: string, payload: PlanPayload)

  /** The form `resetForm` installs: one user, sort order 0, no servers, active, not a test plan. */
  const DefaultForm := PlanForm("", "", "", "", "", "1", [], true, false, "0")

  // ---------------------------------------------------------------- server check-boxes

  /** `ids.filter(x => x !== id)`. */
  function Remove(ids: seq<string>, id: string): (r: seq<string>)
    ensures forall x :: x in r <==> x in ids && x != id
    ensures |r| <= |ids|
  {
    if ids == [] then []
    else if ids[0] == id then Remove(ids[1..], id)
    else [ids[0]] + Remove(ids[1..], id)
  }

  /** `toggleServer`: drop the id when it is ticked, otherwise append it at the end. */
  function Toggle(ids: seq<string>, id: string): (r: seq<string>)
    ensures id in r <==> id !in ids
    ensures forall x :: x != id ==> (x in r <==> x in ids)
  {
    if id in ids then Remove(ids, id) else ids + [id]
  }

  lemma {:induction false} RemoveAbsent(ids: seq<string>, id: string)
    requires id !in ids
    ensures Remove(ids, id) == ids
  {
    if ids != [] {
      RemoveAbsent(ids[1..], id);
    }
  }

  lemma {:induction false} RemoveConcat(a: seq<string>, b: seq<string>, id: string)
    ensures Remove(a + b, id) == Remove(a, id) + Remove(b, id)
  {
    if a == [] {
      assert a + b == b;
    } else {
      assert (a + b)[1..] == a[1..] + b;
      RemoveConcat(a[1..], b, id);
    }
  }

  /** Ticking a server and unticking it again gives back the list as it was. */
  lemma ToggleTwiceAbsent(ids: seq<string>, id: string)
    requires id !in ids
    ensures Toggle(Toggle(ids, id), id) == ids
  {
    RemoveConcat(ids, [id], id);
    RemoveAbsent(ids, id);
  }

  /** Unticking a ticked server and ticking it again moves it to the end of the list. */
  lemma ToggleTwicePresent(ids: seq<string>, id: string)
    requires id in ids
    ensures Toggle(Toggle(ids, id), id) == Remove(ids, id) + [id]
  {
  }

  /** A toggle leaves the other servers, in their order, as they were. */
  lemma ToggleKeepsOthers(ids: seq<string>, id: string)
    ensures Remove(Toggle(ids, id), id) == Remove(ids, id)
  {
    if id in ids {
      RemoveAbsent(Remove(ids, id), id);
    } else {
      RemoveConcat(ids, [id], id);
      assert Remove([id], id) == [];
    }
  }

  // ---------------------------------------------------------------- payload and edit form

  /** The body `handleSubmit` sends: the form with its number fields parsed, an empty traffic field as `null`. */
  function Payload(form: PlanForm): (p: PlanPayload)
    ensures p.name == form.name && p.description == form.description
    ensures p.serverIds == form.serverIds && p.isActive == form.isActive && p.isTest == form.isTest
    ensures form.trafficGb == "" ==> p.trafficGb.None?
    ensures form.trafficGb != "" ==> p.trafficGb == JsValues.ParseFloat(form.trafficGb)
  {
    PlanPayload(
      form.name,
      form.description,
      JsValues.ParseFloat(form.price),
      JsValues.ParseInt(form.durationDays),
      if form.trafficGb != "" then JsValues.ParseFloat(form.trafficGb) else None,
      JsValues.ParseInt(form.userLimit),
      form.serverIds,
      form.isActive,
      form.isTest,
      JsValues.ParseInt(form.sortOrder))
  }

  /** The form `openEditModal` fills: numbers as their decimal text, no description or traffic as ''. */
  function EditForm(plan: Plan): (form: PlanForm)
    ensures form.name == plan.name
    ensures plan.description.None? ==> form.description == ""
    ensures plan.trafficGb.None? <==> form.trafficGb == ""
    ensures form.serverIds == plan.serverIds.GetOr([])
    ensures form.isActive == plan.isActive && form.isTest == plan.isTest
  {
    PlanForm(
      plan.name,
      plan.description.GetOr(""),
      IntToString(plan.price),
      IntToString(plan.durationDays),
      if plan.trafficGb.Some? then IntToString(plan.trafficGb.value) else "",
      IntToString(plan.userLimit),
      plan.serverIds.GetOr([]),
      plan.isActive,
      plan.isTest,
      IntToString(plan.sortOrder))
  }

  lemma IntToStringNotEmpty(i: int)
    ensures IntToString(i) != ""
  {
    assert |Digits(if i < 0 then -i else i)| > 0;
  }

  /**
   * Saving an opened plan without touching the form sends the plan back: every number
   * as stored, a missing traffic limit as `null` and so still unlimited (a traffic of 0
   * is shown as "0" and sent back as 0), a missing description as ''.
   */
  lemma EditRoundTrip(plan: Plan)
    ensures Payload(EditForm(plan)) == PlanPayload(
      plan.name,
      plan.description.GetOr(""),
      Some(plan.price as real),
      Some(plan.durationDays),
      if plan.trafficGb.Some? then Some(plan.trafficGb.value as real) else None,
      Some(plan.userLimit),
      plan.serverIds.GetOr([]),
      plan.isActive,
      plan.isTest,
      Some(plan.sortOrder))
  {
    JsValues.ParseIntToString(plan.price);
    JsValues.ParseIntToString(plan.durationDays);
    JsValues.ParseIntToString(plan.userLimit);
    JsValues.ParseIntToString(plan.sortOrder);
    if plan.trafficGb.Some? {
      JsValues.ParseIntToString(plan.trafficGb.value);
      IntToStringNotEmpty(plan.trafficGb.value);
    }
  }

  /** Submitting the reset form as it is sends one user and sort order 0 but no price or duration (`NaN`, so `null`). */
  lemma DefaultPayload()
    ensures Payload(DefaultForm) == PlanPayload("", "", None, None, None, Some(1), [], true, false, Some(0))
  {
    JsValues.ParseIntToString(1);
    JsValues.ParseIntToString(0);
    assert IntToString(1) == "1" && IntToString(0) == "0";
  }

  // ---------------------------------------------------------------- page state

  class Page {
    var plans: seq<Plan>
    var formData: PlanForm
    var editingPlan: Option<Plan>
    var showModal: bool

    constructor ()
      ensures plans == [] && formData == DefaultForm && editingPlan.None? && !showModal
    {
      plans := [];
      formData := DefaultForm;
      editingPlan := None;
      showModal := false;
    }

    /** `openEditModal`: the plan's form in an open modal, the plan remembered for the update. */
    method OpenEditModal(plan: Plan)
      modifies this
      ensures editingPlan == Some(plan) && formData == EditForm(plan) && showModal
      ensures plans == old(plans)
    {
      editingPlan := Some(plan);
      formData := EditForm(plan);
      showModal := true;
    }

    /** `resetForm`: the default form and no plan being edited. */
    method ResetForm()
      modifies this
      ensures formData == DefaultForm && editingPlan.None?
      ensures plans == old(plans) && showModal == old(showModal)
    {
      editingPlan := None;
      formData := DefaultForm;
    }

    /** A server check-box: only the server list of the form changes. */
    method ToggleServer(id: string)
      modifies this
      ensures formData == old(formData).(serverIds := Toggle(old(formData).serverIds, id))
      ensures plans == old(plans) && editingPlan == old(editingPlan) && showModal == old(showModal)
    {
      formData := formData.(serverIds := Toggle(formData.serverIds, id));
    }

    /** The request `handleSubmit` sends: a PUT of the edited plan, otherwise a POST. */
    method SubmitRequest() returns (req: PlanRequest)
      ensures req.Update? <==> editingPlan.Some?
      ensures req.Update? ==> req.id == editingPlan.value.id
      ensures req.payload == Payload(formData)
    {
      if editingPlan.Some? {
        req := Update(editingPlan.value.id, Payload(formData));
      } else {
        req := Create(Payload(formData));
      }
    }

    /** After a successful save: the modal closes and the form is reset. */
    method SubmitSucceeded()
      modifies this
      ensures !showModal && formData == DefaultForm && editingPlan.None?
      ensures plans == old(plans)
    {
      showModal := false;
      ResetForm();
    }

    /** `fetchData` with the plans the server returned. */
    method Loaded(list: seq<Plan>)
      modifies this
      ensures plans == list
      ensures formData == old(formData) && editingPlan == old(editingPlan) && showModal == old(showModal)
    {
      plans := list;
    }
  }
}
