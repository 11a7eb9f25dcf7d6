/**
 * The `useContacts` hook: the contact list and a `loading` flag, kept in step
 * with the remote `contacts` table by fetch, create and update.
 */
module UseContacts {
  import opened Wrappers
  import opened Remote

  /** A row of the `contacts` table. */
  datatype Contact = Contact(
    id: string,
    firstName: string,
    lastName: string,
    email: Option<string>,
    phone: Option<string>,
    company: Option<string>,
    position: Option<string>,
    status: Option<string>,
    source: Option<string>,
    notes: Option<string>,
    tags: Option<seq<string>>,
    createdAt: string,
    updatedAt: string)

  function ContactId(c: Contact): string {
    c.id
  }

  /** `Partial<Contact>`: the columns a call sets; `None` leaves a column out. */
  datatype ContactPatch = ContactPatch(
    firstName: Option<string>,
    lastName: Option<string>,
    email: Option<string>,
    phone: Option<string>,
    company: Option<string>,
    position: Option<string>,
    status: Option<string>,
    source: Option<string>,
    notes: Option<string>,
    tags: Option<seq<string>>)

  /** A call on the `contacts` table. */
  datatype ContactRequest =
    | SelectContacts
    | InsertContact(user: UserId, fields: ContactPatch)
    | UpdateContact(id: string, patch: ContactPatch)

  class ContactsHook {
    var contacts: seq<Contact>
    var loading: bool
    var requests: seq<ContactRequest>
    var toasts: seq<Toast>

    constructor ()
      ensures contacts == [] && loading && requests == [] && toasts == []
    {
      contacts := [];
      loading := true;
      requests := [];
      toasts := [];
    }

    /** `fetchContacts`: with no user nothing happens; otherwise `loading` ends false. */
    method Fetch(user: Option<UserId>, response: Response<Option<seq<Contact>>>)
      modifies this
      ensures user.None? ==> contacts == old(contacts) && loading == old(loading)
                             && requests == old(requests) && toasts == old(toasts)
      ensures user.Some? ==> requests == old(requests) + [SelectContacts] && !loading
      ensures user.Some? && response.Ok? ==> contacts == response.data.GetOr([]) && toasts == old(toasts)
      ensures user.Some? && response.Err? ==>
                contacts == old(contacts) && toasts == old(toasts) + [ErrorToast("Failed to fetch contacts")]
    {
      if user.None? {
        return;
      }
      requests := requests + [SelectContacts];
      match response {
        case Ok(rows) =>
          contacts := rows.GetOr([]);
        case Err(_) =>
          toasts := toasts + [ErrorToast("Failed to fetch contacts")];
      }
      loading := false;
    }

    /**
     * `createContact`: the first and last name are required of the caller;
     * the store's returned record goes in front of the list.
     */
    method Create(user: Option<UserId>, firstName: string, lastName: string, fields: ContactPatch,
                  response: Response<Contact>) returns (created: Option<Contact>)
      modifies this
      ensures loading == old(loading)
      ensures user.None? ==> created.None? && contacts == old(contacts)
                             && requests == old(requests) && toasts == old(toasts)
      ensures user.Some? ==>
                requests == old(requests)
                            + [InsertContact(user.value, fields.(firstName := Some(firstName), lastName := Some(lastName)))]
      ensures user.Some? && response.Ok? ==>
                && created == Some(response.data)
                && contacts == [response.data] + old(contacts)
                && toasts == old(toasts) + [SuccessToast("Contact created successfully")]
      ensures user.Some? && response.Err? ==>
                && created.None?
                && contacts == old(contacts)
                && toasts == old(toasts) + [ErrorToast("Failed to create contact")]
    {
      created := None;
      if user.None? {
        return;
      }
      var row := fields.(firstName := Some(firstName), lastName := Some(lastName));
      requests := requests + [InsertContact(user.value, row)];
      match response {
        case Ok(record) =>
          contacts := [record] + contacts;
          toasts := toasts + [SuccessToast("Contact created successfully")];
          created := Some(record);
        case Err(_) =>
          toasts := toasts + [ErrorToast("Failed to create contact")];
      }
    }

    /** `updateContact`: no user check, and a success shows no toast. */
    method Update(id: string, patch: ContactPatch, response: Response<Contact>) returns (updated: Option<Contact>)
      modifies this
      ensures loading == old(loading)
      ensures requests == old(requests) + [UpdateContact(id, patch)]
      ensures response.Ok? ==>
                && updated == Some(response.data)
                && contacts == ReplaceById(old(contacts), ContactId, id, response.data)
                && toasts == old(toasts)
      ensures response.Err? ==>
                && updated.None?
                && contacts == old(contacts)
                && toasts == old(toasts) + [ErrorToast("Failed to update contact")]
    {
      requests := requests + [UpdateContact(id, patch)];
      match response {
        case Ok(record) =>
          contacts := ReplaceById(contacts, ContactId, id, record);
          updated := Some(record);
        case Err(_) =>
          toasts := toasts + [ErrorToast("Failed to update contact")];
          updated := None;
      }
    }
  }
}
