/**
 * The contacts page: the case-insensitive search over name, company and
 * email, the empty-result message, and the badge styling per status.
 */
module ContactsPage {
  import opened Seqs
  import opened JsText
  import opened Wrappers

  datatype ContactStatus = Lead | Qualified | Opportunity | Customer | Vip | Inactive

  /** A contact as the page lists it. */
  datatype PageContact = PageContact(
    id: string,
    name: string,
    email: string,
    phone: string,
    company: string,
    position: string,
    status: ContactStatus,
    lastContact: string,
    value: string,
    notes: string)

  /** The lowercased term occurs in the lowercased name, company or email. */
  predicate Matches(c: PageContact, term: string) {
    var t := ToLower(term);
    Contains(ToLower(c.name), t) || Contains(ToLower(c.company), t) || Contains(ToLower(c.email), t)
  }

  function MatchesTerm(term: string): PageContact -> bool {
    (c: PageContact) => Matches(c, term)
  }

  /** `filteredContacts`. */
  function FilterContacts(contacts: seq<PageContact>, term: string): (r: seq<PageContact>)
    ensures IsSubsequence(r, contacts)
    ensures forall i :: 0 <= i < |contacts| ==> (contacts[i] in r <==> Matches(contacts[i], term))
    ensures forall i :: 0 <= i < |r| ==> Matches(r[i], term)
    ensures |r| == Count(contacts, MatchesTerm(term))
  {
    Filter(contacts, MatchesTerm(term))
  }

  /** An empty search term keeps every contact, in order. */
  lemma EmptyTermKeepsAll(contacts: seq<PageContact>)
    ensures FilterContacts(contacts, "") == contacts
  {
    forall i | 0 <= i < |contacts| ensures Matches(contacts[i], "") {
      ContainsEmpty(ToLower(contacts[i].name));
    }
    FilterKeepsAll(contacts, MatchesTerm(""));
  }

  /** Terms that lowercase to the same text give the same result. */
  lemma SearchIgnoresCase(contacts: seq<PageContact>, t1: string, t2: string)
    requires ToLower(t1) == ToLower(t2)
    ensures FilterContacts(contacts, t1) == FilterContacts(contacts, t2)
  {
    FilterCongruent(contacts, MatchesTerm(t1), MatchesTerm(t2));
  }

  /** Searching for the lowercased term is searching for the term. */
  lemma SearchLowercased(contacts: seq<PageContact>, term: string)
    ensures FilterContacts(contacts, ToLower(term)) == FilterContacts(contacts, term)
  {
    ToLowerIdempotent(term);
    SearchIgnoresCase(contacts, ToLower(term), term);
  }

  /** "No contacts found" is shown exactly when no contact matches. */
  function NoContactsFound(contacts: seq<PageContact>, term: string): (shown: bool)
    ensures shown <==> forall i :: 0 <= i < |contacts| ==> !Matches(contacts[i], term)
  {
    |FilterContacts(contacts, term)| == 0
  }

  /** One entry of `getStatusConfig`'s table. */
  datatype StatusConfig = StatusConfig(badgeLabel: string, className: string, leftBorder: string)

  function StatusLabel(s: ContactStatus): string {
    match s
    case Lead => "New Lead"
    case Qualified => "Qualified"
    case Opportunity => "Opportunity"
    case Customer => "Active Customer"
    case Vip => "VIP Customer"
    case Inactive => "Inactive"
  }

  function StatusClass(s: ContactStatus): string {
    match s
    case Lead => "bg-crm-status-lead/20 text-crm-status-lead border-crm-status-lead/50"
    case Qualified => "bg-crm-status-qualified/20 text-crm-status-qualified border-crm-status-qualified/50"
    case Opportunity => "bg-crm-status-opportunity/20 text-crm-status-opportunity border-crm-status-opportunity/50"
    case Customer => "bg-crm-status-customer/20 text-crm-status-customer border-crm-status-customer/50"
    case Vip => "bg-gradient-to-r from-crm-status-vip/30 to-yellow-500/30 text-crm-status-vip border-crm-status-vip/50"
    case Inactive => "bg-crm-status-inactive/20 text-crm-status-inactive border-crm-status-inactive/50"
  }

  function StatusBorder(s: ContactStatus): string {
    match s
    case Lead => "border-l-crm-status-lead"
    case Qualified => "border-l-crm-status-qualified"
    case Opportunity => "border-l-crm-status-opportunity"
    case Customer => "border-l-crm-status-customer"
    case Vip => "border-l-crm-status-vip"
    case Inactive => "border-l-crm-status-inactive"
  }

  /** `getStatusConfig`: every one of the six statuses has an entry. */
  function StatusConfigOf(s: ContactStatus): StatusConfig {
    StatusConfig(StatusLabel(s), StatusClass(s), StatusBorder(s))
  }

  /** The status a badge label names, if any. */
  function StatusOfLabel(text: string): Option<ContactStatus> {
    match text
    case "New Lead" => Some(Lead)
    case "Qualified" => Some(Qualified)
    case "Opportunity" => Some(Opportunity)
    case "Active Customer" => Some(Customer)
    case "VIP Customer" => Some(Vip)
    case "Inactive" => Some(Inactive)
    case _ => None
  }

  /** The label read back names the status it was made for. */
  lemma StatusLabelRoundTrip(s: ContactStatus)
    ensures StatusOfLabel(StatusLabel(s)) == Some(s)
  {
    match s
    case Lead =>
    case Qualified =>
    case Opportunity =>
    case Customer =>
    case Vip =>
    case Inactive =>
  }

  /** So the six statuses have six different labels. */
  lemma StatusLabelsDistinct(s: ContactStatus, t: ContactStatus)
    requires s != t
    ensures StatusLabel(s) != StatusLabel(t)
  {
    StatusLabelRoundTrip(s);
    StatusLabelRoundTrip(t);
  }
}
