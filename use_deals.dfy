/**
 * The `useDeals` hook: the signed-in user's deal list and a `loading` flag,
 * kept in step with the remote `deals` table by fetch, create, update and
 * delete. Each store call's outcome is a parameter; the calls issued and the
 * toasts shown are recorded in order.
 */
module UseDeals {
  import opened Wrappers
  import opened Remote

  /** A row of the `deals` table. */
  datatype Deal = Deal(
    id: string,
    userId: string,
    contactId: Option<string>,
    name: string,
    company: Option<string>,
    value: int,
    stage: string,
    priority: Option<string>,
    probability: Option<int>,
    expectedCloseDate: Option<string>,
    daysInStage: Option<int>,
    lastActivity: Option<string>,
    notes: Option<string>,
    createdAt: string,
    updatedAt: string)

  function DealId(d: Deal): string {
    d.id
  }

  /** The record handed to `createDeal`, as the creation dialog builds it. */
  datatype DealDraft = DealDraft(
    name: string,
    company: string,
    value: int,
    priority: string,
    notes: string,
    probability: int,
    stage: string,
    daysInStage: int)

  /** `Partial<Deal>`: the fields an update sets; `None` leaves a field out of the patch. */
  datatype DealPatch = DealPatch(
    name: Option<string>,
    company: Option<string>,
    value: Option<int>,
    stage: Option<string>,
    priority: Option<string>,
    probability: Option<int>,
    daysInStage: Option<int>,
    lastActivity: Option<string>,
    notes: Option<string>)

  /** A call on the `deals` table. */
  datatype DealRequest =
    | SelectDeals(user: UserId)
    | InsertDeal(user: UserId, draft: DealDraft)
    | UpdateDeal(id: string, patch: DealPatch)
    | DeleteDeal(id: string)

  class DealsHook {
    var deals: seq<Deal>
    var loading: bool
    /** The store calls issued so far, oldest first. */
    var requests: seq<DealRequest>
    /** The toasts shown so far, oldest first. */
    var toasts: seq<Toast>

    constructor ()
      ensures deals == [] && loading && requests == [] && toasts == []
    {
      deals := [];
      loading := true;
      requests := [];
      toasts := [];
    }

    /** `fetchDeals`: with no user nothing happens; otherwise `loading` ends false whatever the outcome. */
    method Fetch(user: Option<UserId>, response: Response<Option<seq<Deal>>>)
      modifies this
      ensures user.None? ==> deals == old(deals) && loading == old(loading)
                             && requests == old(requests) && toasts == old(toasts)
      ensures user.Some? ==> requests == old(requests) + [SelectDeals(user.value)] && !loading
      ensures user.Some? && response.Ok? ==> deals == response.data.GetOr([]) && toasts == old(toasts)
      ensures user.Some? && response.Err? ==>
                deals == old(deals) && toasts == old(toasts) + [ErrorToast("Failed to fetch deals")]
    {
      if user.None? {
        return;
      }
      requests := requests + [SelectDeals(user.value)];
      match response {
        case Ok(rows) =>
          deals := rows.GetOr([]);
        case Err(_) =>
          toasts := toasts + [ErrorToast("Failed to fetch deals")];
      }
      loading := false;
    }

    /** `createDeal`: the store's returned record is put in front of the list. */
    method Create(user: Option<UserId>, draft: DealDraft, response: Response<Deal>) returns (created: Option<Deal>)
      modifies this
      ensures loading == old(loading)
      ensures user.None? ==> created.None? && deals == old(deals)
                             && requests == old(requests) && toasts == old(toasts)
      ensures user.Some? ==> requests == old(requests) + [InsertDeal(user.value, draft)]
      ensures user.Some? && response.Ok? ==>
                && created == Some(response.data)
                && deals == [response.data] + old(deals)
                && toasts == old(toasts) + [SuccessToast("Deal created successfully")]
      ensures user.Some? && response.Err? ==>
                && created.None?
                && deals == old(deals)
                && toasts == old(toasts) + [ErrorToast("Failed to create deal")]
    {
      created := None;
      if user.None? {
        return;
      }
      requests := requests + [InsertDeal(user.value, draft)];
      match response {
        case Ok(record) =>
          deals := [record] + deals;
          toasts := toasts + [SuccessToast("Deal created successfully")];
          created := Some(record);
        case Err(_) =>
          toasts := toasts + [ErrorToast("Failed to create deal")];
      }
    }

    /** `updateDeal`: every entry with the id is replaced by the store's returned record; no user check. */
    method Update(id: string, patch: DealPatch, response: Response<Deal>) returns (updated: Option<Deal>)
      modifies this
      ensures loading == old(loading)
      ensures requests == old(requests) + [UpdateDeal(id, patch)]
      ensures response.Ok? ==>
                && updated == Some(response.data)
                && deals == ReplaceById(old(deals), DealId, id, response.data)
                && toasts == old(toasts) + [SuccessToast("Deal updated successfully")]
      ensures response.Err? ==>
                && updated.None?
                && deals == old(deals)
                && toasts == old(toasts) + [ErrorToast("Failed to update deal")]
    {
      requests := requests + [UpdateDeal(id, patch)];
      match response {
        case Ok(record) =>
          deals := ReplaceById(deals, DealId, id, record);
          toasts := toasts + [SuccessToast("Deal updated successfully")];
          updated := Some(record);
        case Err(_) =>
          toasts := toasts + [ErrorToast("Failed to update deal")];
          updated := None;
      }
    }

    /** `deleteDeal`: exactly the entries with the id are dropped; no user check. */
    method Delete(id: string, response: Response<()>)
      modifies this
      ensures loading == old(loading)
      ensures requests == old(requests) + [DeleteDeal(id)]
      ensures response.Ok? ==>
                && deals == RemoveById(old(deals), DealId, id)
                && toasts == old(toasts) + [SuccessToast("Deal deleted successfully")]
      ensures response.Err? ==>
                && deals == old(deals)
                && toasts == old(toasts) + [ErrorToast("Failed to delete deal")]
    {
      requests := requests + [DeleteDeal(id)];
      match response {
        case Ok(_) =>
          deals := RemoveById(deals, DealId, id);
          toasts := toasts + [SuccessToast("Deal deleted successfully")];
        case Err(_) =>
          toasts := toasts + [ErrorToast("Failed to delete deal")];
      }
    }
  }
}
