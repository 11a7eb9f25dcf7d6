/**
 * The `useRealContacts` hook: the same contact list as `useContacts`, with
 * fetch and create only, and no required fields on create.
 */
module UseRealContacts {
  import opened Wrappers
  import opened Remote
  import opened UseContacts

  /** `RealContact` has exactly the columns of `Contact`. */
  type RealContact = Contact

  class RealContactsHook {
    var contacts: seq<RealContact>
    var loading: bool
    var requests: seq<ContactRequest>
    var toasts: seq<Toast>

    constructor ()
      ensures contacts == [] && loading && requests == [] && toasts == []
    {
      contacts := [];
      loading := true;
      requests := [];
      toasts := [];
    }

    /** `fetchContacts`: with no user nothing happens; otherwise `loading` ends false. */
    method Fetch(user: Option<UserId>, response: Response<Option<seq<RealContact>>>)
      modifies this
      ensures user.None? ==> contacts == old(contacts) && loading == old(loading)
                             && requests == old(requests) && toasts == old(toasts)
      ensures user.Some? ==> requests == old(requests) + [SelectContacts] && !loading
      ensures user.Some? && response.Ok? ==> contacts == response.data.GetOr([]) && toasts == old(toasts)
      ensures user.Some? && response.Err? ==>
                contacts == old(contacts) && toasts == old(toasts) + [ErrorToast("Failed to fetch contacts")]
    {
      if user.None? {
        return;
      }
      requests := requests + [SelectContacts];
      if response.Ok? {
        contacts := response.data.GetOr([]);
      } else {
        toasts := toasts + [ErrorToast("Failed to fetch contacts")];
      }
      loading := false;
    }

    /** `createContact`: exactly one record, the store's, is added in front. */
    method Create(user: Option<UserId>, fields: ContactPatch, response: Response<RealContact>)
      returns (created: Option<RealContact>)
      modifies this
      ensures loading == old(loading)
      ensures user.None? ==> created.None? && contacts == old(contacts)
                             && requests == old(requests) && toasts == old(toasts)
      ensures user.Some? ==> requests == old(requests) + [InsertContact(user.value, fields)]
      ensures user.Some? && response.Ok? ==>
                && created == Some(response.data)
                && contacts == [response.data] + old(contacts)
                && |contacts| == |old(contacts)| + 1
                && toasts == old(toasts) + [SuccessToast("Contact created successfully")]
      ensures user.Some? && response.Err? ==>
                && created.None?
                && contacts == old(contacts)
                && toasts == old(toasts) + [ErrorToast("Failed to create contact")]
    {
      created := None;
      if user.None? {
        return;
      }
      requests := requests + [InsertContact(user.value, fields)];
      if response.Ok? {
        contacts := [response.data] + contacts;
        toasts := toasts + [SuccessToast("Contact created successfully")];
        created := Some(response.data);
      } else {
        toasts := toasts + [ErrorToast("Failed to create contact")];
      }
    }
  }
}
