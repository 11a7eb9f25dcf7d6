# CRM deal pipeline and list stores — a Dafny model

This project models the business rules of a small CRM web front end. The
front end is built from React components and hooks over a hosted record store.
It models:

- the **deal pipeline**: the stage-change confirmation dialog with its
  suggested-probability table; the deal creation dialog and the payload it
  builds; the deal card's overdue rule and progress bar; the deal detail page,
  with its append-only notes log, the splitter that shows the log, and the
  display defaults;
- the **list stores**: the deals, contacts and notifications hooks. Each holds
  a list and a `loading` flag and updates the list after a remote call:
  prepend on create, replace-by-id on update, filter on delete, mark read,
  and no change on failure;
- the **notification centre**: the relative-age label, the unread count, when
  "Mark All Read" is offered, and what a click does;
- the **contact search**: a case-insensitive substring filter;
- the **password and sign-in rules**: the strength indicator and the ordered
  sign-in / sign-up validation;
- the **team permissions**: which of four permissions a user card shows, and
  the performance colour bands.

Every record-store call (select, insert, update, delete) is a method
parameter of type `Response<T>` (`Ok(data)` or `Err(message)`). The sign-in
and sign-up calls are an `AuthOutcome` parameter instead: `Resolved(error)`
for a call that returned, with or without an error, or `Threw` for one that
threw. The
state classes record the calls they issue (`requests`) and the toasts they
show (`toasts`) as sequences, in order. The JavaScript built-ins the
components rely on are written out in `JsText`: `trim`, `includes`,
`toLowerCase`, `parseInt`, integer-to-decimal text, and the `x || d` default
idiom. `Seqs` holds `filter`, `map` and counting, with their laws.

Modules: `Wrappers`, `Seqs`, `JsText`, `Remote` (shared); `UseDeals`,
`DealDetails`, `StageChange`, `CreateDeal`, `DealCard`, `UseNotifications`,
`NotificationCenter`, `UseContacts`, `UseRealContacts`, `ContactsPage`,
`PasswordStrength`, `AuthPage`, `UserManagement` (one per source file).

## Model

| member | source | states |
|---|---|---|
| StageChange.StageProbabilities | src/components/StageChangeDialog.tsx:44-51 | the literal table from stage display name to percentage; its entries are stated by SuggestedTable and ClosedLostSuggestsFifty |
| StageChange.SuggestedProbability | src/components/StageChangeDialog.tsx:43-53 | the suggestion is always one of 10, 25, 50, 75, 100, so it lies in 0..100 |
| StageChange.SuggestedTable | src/components/StageChangeDialog.tsx:44-49 | Prospecting 10, Qualification 25, "Proposal Sent" 50, Negotiation 75, "Closed Won" 100 |
| StageChange.ClosedLostSuggestsFifty | src/components/StageChangeDialog.tsx:50-52 | "Closed Lost" is listed as 0, but `0 \|\| 50` makes its suggestion 50 |
| StageChange.UnknownStageSuggestsFifty | src/components/StageChangeDialog.tsx:52 | any name outside the table, stage ids such as `proposal` included, gets 50 |
| StageChange.SuggestsFiftyIff | src/components/StageChangeDialog.tsx:43-53 | the suggestion is 50 exactly when the stage is not Prospecting, Qualification, Negotiation or "Closed Won" |
| StageChange.StageChangeDialog.constructor | src/components/StageChangeDialog.tsx:27-28 | on mount the note is empty and the probability is the target stage's suggestion (the effect runs once) |
| StageChange.StageChangeDialog.SetToStage | src/components/StageChangeDialog.tsx:55-57 | a changed `toStage` sets the probability to its suggestion; an unchanged one changes nothing |
| StageChange.StageChangeDialog.EditProbability | src/components/StageChangeDialog.tsx:92 | the probability input sets only the probability |
| StageChange.StageChangeDialog.EditNote | src/components/StageChangeDialog.tsx:108 | the note input sets only the note |
| StageChange.StageChangeDialog.Confirm | src/components/StageChangeDialog.tsx:30-34 | `onConfirm` gets the note and probability held before the call; then note is "" and probability 50 |
| StageChange.StageChangeDialog.Cancel | src/components/StageChangeDialog.tsx:36-40 | the event is a cancel, never a confirm, with the same reset |
| StageChange.StageChangeDialog.OpenChange | src/components/StageChangeDialog.tsx:60 | closing the dialog by any means takes the cancel path |
| DealDetails.PriorityColor | src/pages/DealDetails.tsx:67-76 | `getPriorityColor`: the badge classes per priority, medium's for anything else (stated by ColorFallbacks) |
| DealDetails.StageColor | src/pages/DealDetails.tsx:77-87 | `getStageColor`: the colour per stage id, `#a78bfa` for anything else (stated by ColorFallbacks) |
| DealDetails.ColorFallbacks | src/pages/DealDetails.tsx:67-87 | an unknown priority gets the medium colour; an unknown stage gets `#a78bfa`, which otherwise only prospecting has |
| DealDetails.ShownProbability | src/pages/DealDetails.tsx:186 | `deal.probability \|\| 50` (stated by DisplayDefaults) |
| DealDetails.ShownDays | src/pages/DealDetails.tsx:198 | `deal.days_in_stage \|\| 0` (stated by DisplayDefaults) |
| DealDetails.ShownCompany | src/pages/DealDetails.tsx:141 | `deal.company \|\| 'No company specified'` (stated by DisplayDefaults) |
| DealDetails.DisplayDefaults | src/pages/DealDetails.tsx:141-198 | probability 0 or missing shows 50, other values as stored; missing days show 0; a missing or empty company shows "No company specified", any other as stored; a missing priority is coloured as medium |
| DealDetails.FindDeal | src/pages/DealDetails.tsx:24 | the result is a deal of the list with the id, and `None` exactly when no deal has it |
| DealDetails.FindDealIsFirst | src/pages/DealDetails.tsx:24 | the deal found is the first one carrying the id |
| DealDetails.AppendNote | src/pages/DealDetails.tsx:92-96 | the `updatedNotes` text: the entry alone for empty notes, else the old notes, a blank line and the entry (stated by AppendOnly and FormatNotesAfterAppend) |
| DealDetails.AppendOnly | src/pages/DealDetails.tsx:92-96 | the old notes are a prefix of the new ones, which end with `[ts] note`; with no old notes the result is that entry alone |
| DealDetails.SplitParagraphs | src/pages/DealDetails.tsx:119 | `split('\n\n')` gives at least one piece |
| DealDetails.JoinSplit | src/pages/DealDetails.tsx:119 | joining the pieces with "\n\n" gives back the original text |
| DealDetails.SplitNoBlankLine | src/pages/DealDetails.tsx:119 | text without two consecutive newlines splits into itself alone |
| DealDetails.SplitConcat | src/pages/DealDetails.tsx:117-120 | splitting `a + "\n\n" + b` gives the pieces of `a` then those of `b`, when `a` does not end in a newline |
| DealDetails.FormatNotes | src/pages/DealDetails.tsx:117-120 | empty notes give no entries; otherwise exactly the split pieces that are not whitespace only, in order |
| DealDetails.FormatNotesAfterAppend | src/pages/DealDetails.tsx:91-120 | round trip: the shown entries after adding a note are the old entries followed by exactly the new one |
| DealDetails.NotesPatch | src/pages/DealDetails.tsx:98 | the update's patch sets `notes` and nothing else |
| DealDetails.NoteEditor.constructor | src/pages/DealDetails.tsx:18-19 | the draft starts empty and the editor closed |
| DealDetails.NoteEditor.ToggleAdding | src/pages/DealDetails.tsx:226 | the "Add Note" button flips only the editor's open flag |
| DealDetails.NoteEditor.Edit | src/pages/DealDetails.tsx:240 | typing sets only the draft |
| DealDetails.NoteEditor.Cancel | src/pages/DealDetails.tsx:254-257 | cancel closes the editor and clears the draft |
| DealDetails.NoteEditor.AddNote | src/pages/DealDetails.tsx:89-106 | a blank draft changes nothing; otherwise exactly one update with the appended notes goes to the deals hook, which replaces the deal on success and shows "Deal updated successfully" or "Failed to update deal"; the editor is cleared and closed, and "Note added" is shown in both cases |
| UseDeals.DealsHook.constructor | src/hooks/useDeals.tsx:25-26 | no deals, loading |
| UseDeals.DealsHook.Fetch | src/hooks/useDeals.tsx:30-52 | no user: nothing changes; otherwise one select, the rows (or `[]`) on success, an error toast and unchanged deals on failure, and `loading` false either way |
| UseDeals.DealsHook.Create | src/hooks/useDeals.tsx:54-79 | no user: nothing changes; success puts the store's record in front of the old list and shows a success toast; failure leaves the list and shows one error toast |
| UseDeals.DealsHook.Update | src/hooks/useDeals.tsx:81-105 | no user check; success replaces every entry with the id by the store's record, failure leaves the list and shows one error toast |
| UseDeals.DealsHook.Delete | src/hooks/useDeals.tsx:107-128 | no user check; success drops exactly the entries with the id, failure leaves the list and shows one error toast |
| Remote.ReplaceById | src/hooks/useDeals.tsx:91 | length kept; entries with the id become the record, all others unchanged, in order |
| Remote.ReplaceByIdAbsent | src/hooks/useDeals.tsx:91 | an id no entry carries leaves the list unchanged |
| Remote.ReplaceByIdIdempotent | src/hooks/useDeals.tsx:91 | replacing twice by the same id and record is replacing once |
| Remote.RemoveById | src/hooks/useDeals.tsx:115 | the result is an order-preserving subsequence, no kept entry has the id, every other entry is kept, and exactly the entries with the id are gone (by count) |
| Remote.RemoveByIdAbsent | src/hooks/useDeals.tsx:115 | an id no entry carries leaves the list unchanged |
| Remote.RemoveByIdIdempotent | src/hooks/useDeals.tsx:115 | deleting twice is deleting once |
| CreateDeal.WithField | src/components/CreateDealDialog.tsx:46-48 | the chosen field gets the text; every other field keeps its value |
| CreateDeal.Payload | src/components/CreateDealDialog.tsx:29-35 | the stage is the dialog's stage, days in stage 0; name, company, priority and notes pass through |
| CreateDeal.PayloadProbability | src/components/CreateDealDialog.tsx:32 | unparsable text and "0" both give 50; the decimal text of any other non-negative integer gives that integer |
| CreateDeal.PayloadValue | src/components/CreateDealDialog.tsx:31 | the value is the parsed number, or 0 when the text does not parse |
| CreateDeal.InitialPayload | src/components/CreateDealDialog.tsx:18-33 | the untouched form submits a medium-priority deal at 50% with value 0 |
| CreateDeal.CreateDealDialog.constructor | src/components/CreateDealDialog.tsx:18-25 | the form starts at its initial values |
| CreateDeal.CreateDealDialog.Change | src/components/CreateDealDialog.tsx:46-48 | only the chosen field changes |
| CreateDeal.CreateDealDialog.Submit | src/components/CreateDealDialog.tsx:27-44 | the payload is built from the form as it was, then the form returns to priority "medium", probability "50", other fields empty |
| DealCard.IsOverdue | src/components/DealCard.tsx:81 | `isOverdue`: more than ten days in the stage or a non-zero count of overdue activities (stated over the activities by IsOverdueIff) |
| DealCard.IsOverdueIff | src/components/DealCard.tsx:81 | overdue iff more than ten days in the stage or some activity has type `overdue` |
| DealCard.TenDaysNotOverdue | src/components/DealCard.tsx:81 | exactly ten days with no overdue activity is not overdue |
| DealCard.OverdueIgnoresFlag | src/components/DealCard.tsx:81 | the optional `isOverdue` prop field plays no part |
| DealCard.OverdueBadge | src/components/DealCard.tsx:97-101 | the "Overdue" badge is shown iff the deal has been more than ten days in its stage or one of its activities has type `overdue` |
| DealCard.ProgressWidth | src/components/DealCard.tsx:149 | width is 20 per activity below five activities, and 100 exactly from five on; never above 100 |
| DealCard.ProgressWidthMonotone | src/components/DealCard.tsx:149 | more activities never make the bar shorter |
| DealCard.PriorityConfigOf | src/components/DealCard.tsx:26-58 | every one of the four priorities has a label and a colour |
| DealCard.GlowOnlyCritical | src/components/DealCard.tsx:26-57 | only `critical` has a glow class, and the four labels differ |
| DealCard.ActivityIconFallback | src/components/DealCard.tsx:60-69 | the five known types get their own icon, any other type the user icon |
| UseNotifications.NormalizeKind | src/hooks/useNotifications.tsx:38 | a known type is kept; a null or unknown type becomes `info` |
| UseNotifications.Normalize | src/hooks/useNotifications.tsx:36-39 | only the type changes, it becomes a known one, and an already known type is left as is |
| UseNotifications.NormalizeAll | src/hooks/useNotifications.tsx:36-39 | normalising keeps length and order, and every type ends up known |
| UseNotifications.NormalizeAllIdempotent | src/hooks/useNotifications.tsx:36-39 | normalising normalised rows changes nothing |
| UseNotifications.UnreadCount | src/hooks/useNotifications.tsx:102 | at most the list length, and 0 exactly when no entry is unread |
| UseNotifications.MarkRead | src/hooks/useNotifications.tsx:62-64 | entries with the id become read, all others are unchanged, length and order kept |
| UseNotifications.MarkReadIdempotent | src/hooks/useNotifications.tsx:63 | marking the same id twice is marking it once |
| UseNotifications.MarkReadCount | src/hooks/useNotifications.tsx:61-63 | the unread count drops by exactly the number of unread entries with the id |
| UseNotifications.MarkReadDecreases | src/hooks/useNotifications.tsx:61-63 | marking an unread entry's id lowers the unread count |
| UseNotifications.MarkAllRead | src/hooks/useNotifications.tsx:81-83 | every entry becomes read, nothing else changes |
| UseNotifications.MarkAllReadClears | src/hooks/useNotifications.tsx:80-82 | after marking all read the unread count is 0 |
| UseNotifications.NotificationsHook.constructor | src/hooks/useNotifications.tsx:18-19 | no notifications, loading |
| UseNotifications.NotificationsHook.Fetch | src/hooks/useNotifications.tsx:23-52 | no user: nothing changes; success stores the normalised rows (or `[]`), failure shows an error toast and keeps the list; `loading` false either way |
| UseNotifications.NotificationsHook.MarkAsRead | src/hooks/useNotifications.tsx:54-68 | no user check; success marks the id read; failure leaves the list and shows no toast |
| UseNotifications.NotificationsHook.MarkAllAsRead | src/hooks/useNotifications.tsx:70-96 | no user: nothing changes; success marks all read, so nothing is unread, with a success toast; failure keeps the list and shows an error toast |
| NotificationCenter.AgeOf | src/components/NotificationCenter.tsx:46-55 | the bucket for each age range in milliseconds; minutes, hours and days are the floored quotients, in 1..59, 1..23 and 1..6 |
| NotificationCenter.FloorComposes | src/components/NotificationCenter.tsx:47-49 | flooring to minutes then hours then days equals flooring straight to hours and to days |
| NotificationCenter.FormatDate | src/components/NotificationCenter.tsx:43-57 | `formatDate` over the age bucket (stated per age range by FormatDateRanges) |
| NotificationCenter.FormatDateRanges | src/components/NotificationCenter.tsx:43-57 | under a minute, future dates included, "Just now"; then "Nm ago", "Nh ago", "Nd ago" with the floored count; from a week on, the locale date |
| NotificationCenter.UnreadHeaderCount | src/components/NotificationCenter.tsx:78 | the header's number reads back as the unread count |
| NotificationCenter.ShowMarkAll | src/components/NotificationCenter.tsx:83 | "Mark All Read" is offered iff the unread count is positive |
| NotificationCenter.ClickLowersCount | src/components/NotificationCenter.tsx:116 | a click on an unread entry, once `markAsRead` succeeds, leaves that entry read and the unread count lower; a click on a read entry makes no call and leaves the list unchanged |
| NotificationCenter.UnknownKindIsInfo | src/components/NotificationCenter.tsx:17-41 | any type but success, warning and error gets the info icon, and exactly those get the blue border |
| UseContacts.ContactsHook.constructor | src/hooks/useContacts.tsx:24-25 | no contacts, loading |
| UseContacts.ContactsHook.Fetch | src/hooks/useContacts.tsx:29-50 | no user: nothing changes; success stores the rows (or `[]`), failure shows an error toast and keeps the list; `loading` false either way |
| UseContacts.ContactsHook.Create | src/hooks/useContacts.tsx:52-80 | no user: nothing changes; success puts the store's record in front, with a success toast; failure keeps the list and shows one error toast |
| UseContacts.ContactsHook.Update | src/hooks/useContacts.tsx:82-102 | no user check; success replaces the entries with the id and shows no toast; failure keeps the list and shows one error toast |
| UseRealContacts.RealContactsHook.constructor | src/hooks/useRealContacts.tsx:24-25 | no contacts, loading |
| UseRealContacts.RealContactsHook.Fetch | src/hooks/useRealContacts.tsx:29-50 | no user: nothing changes; success stores the rows (or `[]`), failure shows an error toast and keeps the list; `loading` false either way |
| UseRealContacts.RealContactsHook.Create | src/hooks/useRealContacts.tsx:52-80 | no user: nothing changes; success adds exactly the store's record, in front; failure keeps the list and shows one error toast |
| ContactsPage.Matches | src/pages/Contacts.tsx:99-103 | a contact matches when its lowercased name, company or email includes the lowercased term (stated by SearchIgnoresCase and SearchLowercased) |
| ContactsPage.FilterContacts | src/pages/Contacts.tsx:99-103 | a contact is kept iff the lowercased term occurs in its lowercased name, company or email; the result is an order-preserving subsequence whose length is the number of matching entries, so every matching duplicate is kept |
| ContactsPage.EmptyTermKeepsAll | src/pages/Contacts.tsx:99-103 | the empty term keeps every contact, in order |
| ContactsPage.SearchIgnoresCase | src/pages/Contacts.tsx:100-102 | terms that lowercase alike give the same result |
| ContactsPage.SearchLowercased | src/pages/Contacts.tsx:100-102 | searching for the lowercased term is searching for the term |
| ContactsPage.NoContactsFound | src/pages/Contacts.tsx:228 | "No contacts found" is shown iff no contact matches |
| ContactsPage.StatusLabelRoundTrip | src/pages/Contacts.tsx:63-97 | each of the six statuses has an entry whose label names that status back |
| ContactsPage.StatusLabelsDistinct | src/pages/Contacts.tsx:63-97 | different statuses have different labels |
| PasswordStrength.Requirements | src/components/PasswordStrengthIndicator.tsx:10-16 | five requirements; the first holds iff the password has at least 8 characters |
| PasswordStrength.Strength | src/components/PasswordStrengthIndicator.tsx:18 | strength lies in 0..5; it is 0 iff no requirement holds and 5 iff all do |
| PasswordStrength.SpecialClass | src/components/PasswordStrengthIndicator.tsx:15 | the special class is exactly the twenty characters of `!@#$%^&*(),.?":{}\|<>` |
| PasswordStrength.StrengthMonotone | src/components/PasswordStrengthIndicator.tsx:10-18 | appending a character never lowers the strength |
| PasswordStrength.StrengthLabel | src/components/PasswordStrengthIndicator.tsx:20-29 | `strengthLabels[strength - 1] \|\| 'Very Weak'`: strength 0 falls outside the array and reads "Very Weak"; strengths 1 to 5 read the label at `strength - 1` |
| PasswordStrength.StrengthLabelVeryWeak | src/components/PasswordStrengthIndicator.tsx:20-29 | the label is "Very Weak" exactly for strengths 0 and 1 |
| PasswordStrength.Bars | src/components/PasswordStrengthIndicator.tsx:34-41 | five bars, bar `i` coloured iff `i < strength` |
| PasswordStrength.ColouredBars | src/components/PasswordStrengthIndicator.tsx:34-41 | exactly `strength` bars are coloured, the first ones, all in the colour for that strength |
| PasswordStrength.Indicator | src/components/PasswordStrengthIndicator.tsx:22-42 | an empty password renders nothing; otherwise the coloured bars number the strength |
| AuthPage.WithField | src/pages/Auth.tsx:34-36 | the chosen field gets the text; every other field keeps its value |
| AuthPage.FirstBroken | src/pages/Auth.tsx:38-78 | no message iff no rule is broken |
| AuthPage.FirstBrokenIsFirst | src/pages/Auth.tsx:38-78 | the message is that of a broken rule with no broken rule before it |
| AuthPage.Validate | src/pages/Auth.tsx:38-78 | `validateForm`'s if-chain, the message of its toast or none (stated by ValidateIsFirstBroken and the lemmas after it) |
| AuthPage.ValidateIsFirstBroken | src/pages/Auth.tsx:38-78 | `validateForm` reports exactly the first broken rule in checking order, so at most one toast |
| AuthPage.MissingCredentialsFirst | src/pages/Auth.tsx:39-46 | an empty email or password fails in both modes, with that message |
| AuthPage.LoginNeedsOnlyCredentials | src/pages/Auth.tsx:38-77 | in login mode the form passes iff email and password are non-empty |
| AuthPage.SignUpValid | src/pages/Auth.tsx:39-77 | in sign-up mode the form passes iff email, password and both names are non-empty, the passwords match, and the password has at least 8 characters |
| AuthPage.OutcomeToast | src/pages/Auth.tsx:88-127 | the toast is destructive unless the call resolved without an error |
| AuthPage.AuthScreen.constructor | src/pages/Auth.tsx:13-27 | login mode, not loading, empty form |
| AuthPage.AuthScreen.InputChange | src/pages/Auth.tsx:34-36 | only the chosen field changes |
| AuthPage.AuthScreen.ToggleMode | src/pages/Auth.tsx:305 | the mode flips and what was typed is kept |
| AuthPage.AuthScreen.Submit | src/pages/Auth.tsx:80-131 | an invalid form shows one validation toast and calls nothing; a valid one calls `signIn` or `signUp`, shows the outcome's toast, and leaves `loading` false |
| UserManagement.HasPermission | src/components/UserManagement.tsx:215-217 | the check mark of permission `index` (stated by AllGrantsEverything, GrantsByRole and OnlyAllConsulted) |
| UserManagement.Grants | src/components/UserManagement.tsx:214-217 | four grants, one per displayed permission |
| UserManagement.AllGrantsEverything | src/components/UserManagement.tsx:215 | `all` grants all four |
| UserManagement.GrantsByRole | src/components/UserManagement.tsx:215-217 | without `all`: a manager gets the first three, a sales rep the first two, an admin none |
| UserManagement.GrantsPrefixClosed | src/components/UserManagement.tsx:215-217 | holding a permission means holding every one listed before it |
| UserManagement.OnlyAllConsulted | src/components/UserManagement.tsx:215-217 | permission strings other than `all` are never consulted |
| UserManagement.PerformanceColor | src/components/UserManagement.tsx:85-89 | `getPerformanceColor` (stated by PerformanceBands) |
| UserManagement.PerformanceGradient | src/components/UserManagement.tsx:91-95 | `getPerformanceGradient` (stated by PerformanceBands) |
| UserManagement.PerformanceBands | src/components/UserManagement.tsx:85-95 | 90 and up emerald, 70 to 89 amber, below 70 red, for both colour and gradient |
| UserManagement.SharedThresholds | src/components/UserManagement.tsx:85-95 | two scores get the same colour iff they get the same gradient |
| JsText.Trim | src/pages/DealDetails.tsx:90 | the result is the slice of the input left once a whitespace-only prefix and a whitespace-only suffix are cut off, and neither of its ends is whitespace |
| JsText.ToLower | src/pages/Contacts.tsx:100-102 | same length, every character mapped by the ASCII lower-casing |
| JsText.TrimEmptyIffBlank | src/pages/DealDetails.tsx:90 | `!s.trim()` holds exactly for whitespace-only strings |
| JsText.Contains | src/pages/Contacts.tsx:100-102 | `includes` as a recursive scan (stated as an occurrence at some index by ContainsIffOccurs) |
| JsText.ContainsIffOccurs | src/pages/Contacts.tsx:100-102 | `includes` holds iff the term occurs at some index |
| JsText.ParseInt | src/components/CreateDealDialog.tsx:32 | `parseInt` without a radix: leading whitespace, a sign, `0x` hex, the longest digit prefix, `NaN` as `None` (stated by ParseIntOfNatToString) |
| JsText.ParseIntOfNatToString | src/components/CreateDealDialog.tsx:32 | `parseInt` reads back the decimal text of every non-negative integer |

## Left out

- Remote store, authentication service, toasts, `console.error` and navigation: each remote call's result is a method parameter; toasts and calls are appended to per-object logs, not sent to one shared sink.
- Concurrency and interleaving of the asynchronous handlers: each handler runs to completion in one method call. React's batching and re-rendering are not modelled.
- `new Date()`, `toLocaleString`, `toLocaleDateString` and `Intl.NumberFormat`: timestamps are opaque strings. The age of a notification is an integer millisecond difference. The locale date is a parameter. An unparsable date (`NaN` difference) is not modelled.
- `parseFloat` and floating point: deal values are integers, and the creation dialog takes the already-parsed value as a parameter (`None` for `NaN`).
- Character semantics: `toLowerCase` is modelled on ASCII letters only. String length counts code points, where JavaScript counts UTF-16 units. The character classes of the password rules are predicates on characters.
- Object-literal lookups with keys inherited from `Object.prototype` (such as `toString`) are not modelled. Every such key is treated as missing.
- `StageChange.StageChangeDialog.EditProbability`: takes the number directly. `Number(e.target.value)` text conversion and `NaN` are not modelled.
- `AuthPage.AuthScreen.Submit`: the `loading` flag is true only while the call is pending. Since the call is a parameter, the model shows only the final `false`.
- The stage badge text on the detail page (`replace('-', ' ')`, upper-casing), `formatCurrency`, `getRoleConfig` and the rest of the rendering are presentation only.
- The stage-change dialog's `dealName`/`fromStage` props are display text only.
- Drag-and-drop stage transitions, grouping deals by stage, and per-stage totals are not in this model. The kanban board renders literal data with hard-coded totals.
- Reports, analytics, lead management, metrics, communications, activity feed, contact table and the create-contact dialog are not part of this model: they are static lists, chart rendering or plain field pass-through.
