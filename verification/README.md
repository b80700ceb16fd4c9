# Lead lifecycle rules of a lead-management front end

This project models, in Dafny, the business rules of a small lead-management
(CRM) web front end. Users list, filter, create, edit and annotate *leads*
(prospective customers) stored by a hosted backend. The model covers what the
pages compute themselves:

- the record types `Lead` and `LeadNote`, with the closed enumerations
  `LeadSource` (five values) and `LeadStatus` (three values);
- the list page's filter: a case-insensitive substring search on name or
  email, ANDed with a status filter whose sentinel is `"all"`;
- the dashboard figures: per-status counts, the conversion rate, and the five
  most recent leads;
- the status badge's label and class lookup;
- the add and edit forms: their initial values, field edits, the required-field
  guard, and the payloads they send (`''` becomes null or is omitted; `null`
  shows as `''`);
- the detail page's status, follow-up, note and delete mutations: their
  payloads, the note guard, and the cache keys each success handler invalidates;
- the client query cache, as a key→data store where invalidation marks every
  key with a given prefix stale;
- the two route guards (`ProtectedRoute`, `AuthRoute`);
- the header's display name and avatar initial.

One module per source file: `LeadTypes`, `LeadsPage`, `Dashboard`,
`StatusBadge`, `AddLead`, `EditLead`, `LeadDetail`, `AppRoutes` and
`DashboardLayout`. Shared modules: `Wrappers` (`Option`), `JsString` (the
JavaScript string operations the pages use), `ServicePayloads` (the argument
shapes of the backend calls) and `QueryCache`. The pure parts are functions
and lemmas. The page state that the source updates step by step is modelled
as classes: each form, the note box, the service calls fired, and the cache.
Their methods state the whole new state in terms of the pure functions.

Page state reaches the backend only as argument values. Every page class keeps
a log of the calls it fired (`sent`, `updates`, `notesSent`, `deletes`). A
success handler is a method that takes the shared `Cache`.

## Model

| member | source | states |
|---|---|---|
| `LeadTypes.ParseStatus` | src/lib/supabase-types.ts:2 | a string is a status exactly when it spells one of the three status names; parsing inverts `StatusName` |
| `LeadTypes.ParseSource` | src/lib/supabase-types.ts:1 | a string is a source exactly when it spells one of the five source names; parsing inverts `SourceName` |
| `LeadTypes.AllStatuses` | src/lib/supabase-types.ts:2 | the status type has exactly three values, each listed once |
| `LeadTypes.AllSources` | src/lib/supabase-types.ts:1 | the source type has exactly five values, each listed once |
| `LeadTypes.StatusStrings` | src/lib/supabase-types.ts:10 | the only status strings are `new`, `contacted` and `converted` |
| `LeadTypes.SourceStrings` | src/lib/supabase-types.ts:9 | the only source strings are `website`, `instagram`, `referral`, `linkedin` and `other` |
| `JsString.TrimEmptyIffBlank` | src/pages/AddLead.tsx:43 | `s.trim()` is empty (falsy) exactly when every character of `s` is white space |
| `JsString.TrimStart` | src/pages/AddLead.tsx:43 | the result is a suffix of `s` that does not start with white space, and the part removed is all white space |
| `JsString.TrimEnd` | src/pages/AddLead.tsx:43 | the result is a prefix of `s` that does not end with white space, and the part removed is all white space |
| `JsString.Trim` | src/pages/LeadDetail.tsx:165 | `trimEnd` after `trimStart`: no longer than `s`, and neither starting nor ending with white space |
| `JsString.TrimMiddle` | src/pages/LeadDetail.tsx:165 | `s.trim()` is the slice of `s` left between a white-space prefix and a white-space suffix |
| `JsString.OrElse` | src/components/DashboardLayout.tsx:20 | `a \|\| b` on an optional string: `a` when it is a non-empty string, else `b` (also `v \|\| ''` at src/pages/EditLead.tsx:40) |
| `JsString.Includes` | src/pages/Leads.tsx:40-41 | `includes` is true exactly when the needle occurs at some position of the haystack |
| `JsString.EmptyIncluded` | src/pages/Leads.tsx:18 | the empty search term occurs in every string |
| `JsString.LowerOfUpper` | src/pages/Leads.tsx:40-41 | lower-casing an upper-cased string equals lower-casing the original |
| `JsString.LowerIdempotent` | src/pages/Leads.tsx:40-41 | lower-casing twice is lower-casing once |
| `JsString.Capitalize` | src/pages/Dashboard.tsx:74 | the first character is upper-cased and the rest is kept |
| `StatusBadge.StatusConfig` | src/components/StatusBadge.tsx:3-7 | the lookup is total; the class is `status-badge-` plus the status name; the label is the status name with its first letter upper-cased |
| `StatusBadge.BadgeClasses` | src/components/StatusBadge.tsx:12 | the rendered class list ends with `status-badge-` plus the status name |
| `StatusBadge.ConfigInjective` | src/components/StatusBadge.tsx:4-6 | distinct statuses get distinct labels and distinct classes |
| `LeadsPage.Filtered` | src/pages/Leads.tsx:39-44 | a lead is listed iff it is an input lead whose lowered name or email contains the lowered search and whose status matches the filter (or the filter is `all`) |
| `LeadsPage.KeptPositions` | src/pages/Leads.tsx:39-44 | the kept positions are strictly increasing, in range, and are exactly the positions whose lead matches |
| `LeadsPage.FilteredIsSubsequence` | src/pages/Leads.tsx:39-44 | the filtered list is the input's leads at the kept positions, in input order (a subsequence) |
| `LeadsPage.FilterKeepsAllKept` | src/pages/Leads.tsx:39-44 | a list whose every lead matches passes through unchanged |
| `LeadsPage.FilterIdempotent` | src/pages/Leads.tsx:39-44 | filtering the filtered list again with the same search and filter changes nothing |
| `LeadsPage.InitialStateListsAll` | src/pages/Leads.tsx:18-19 | with the initial state (search `''`, filter `all`) every lead is listed |
| `LeadsPage.ConcreteStatusFilter` | src/pages/Leads.tsx:42 | with a status name as filter, every listed lead has that status |
| `LeadsPage.UnknownFilterListsNothing` | src/pages/Leads.tsx:42 | a filter that is neither `all` nor a status name lists nothing |
| `LeadsPage.SearchIgnoresCase` | src/pages/Leads.tsx:40-41 | two search terms equal after lower-casing give the same list |
| `LeadsPage.LoweredSearch` | src/pages/Leads.tsx:40-41 | searching with the lowered term gives the same list as the term as typed |
| `LeadsPage.UpperCaseSearch` | src/pages/Leads.tsx:40-41 | upper-casing the search term does not change the list |
| `LeadsPage.SearchExamples` | src/pages/Leads.tsx:40-41 | `ann` finds Ann Lee by name only; `Y.COM` finds bob@y.com by email only |
| `LeadsPage.View` | src/pages/Leads.tsx:51-101 | the header counts all fetched leads; the rows are exactly the filtered list, in input order; "No leads found" shows iff no lead matches |
| `LeadsPage.HeaderCountIgnoresFilters` | src/pages/Leads.tsx:51 | the header count is `leads.length` whatever the search and filter |
| `Dashboard.WithStatus` | src/pages/Dashboard.tsx:14-16 | the per-status filter keeps exactly the input leads of that status |
| `Dashboard.WithStatusIsFiltered` | src/pages/Dashboard.tsx:14-16 | the per-status filter is the list page's filter with an empty search and the status name as filter, so it keeps every occurrence, in input order |
| `Dashboard.WithStatusLength` | src/pages/Dashboard.tsx:14-16 | the per-status filter keeps one lead per position holding that status |
| `Dashboard.CountOf` | src/pages/Dashboard.tsx:14-16 | a status count is the number of positions in the list holding that status |
| `Dashboard.CountsPartitionTotal` | src/pages/Dashboard.tsx:13-16 | new + contacted + converted counts equal the total |
| `Dashboard.CountExtremes` | src/pages/Dashboard.tsx:14-16 | a status no lead has counts 0; a status every lead has counts the total |
| `Dashboard.ConversionRate` | src/pages/Dashboard.tsx:17 | 0 when the total is 0 (no division by zero); otherwise the percentage rounded half up; at most 100; 0 when nothing is converted; 100 when everything is |
| `Dashboard.RoundingBounds` | src/pages/Dashboard.tsx:17 | the exact quotient lies within half a percent of 100·converted/total, with the bounds and extremes above |
| `Dashboard.ComputeStats` | src/pages/Dashboard.tsx:13-17 | the stat cards: total is the lead count; each card is `CountOf` its status and the three sum to the total; the rate is `ConversionRate` of converted over total, between 0 and 100, with the extremes above |
| `Dashboard.RecentLeads` | src/pages/Dashboard.tsx:67 | the recent list is the prefix of the first min(5, total) leads |
| `Dashboard.InlineStatusLabel` | src/pages/Dashboard.tsx:74 | the recent list's capitalised status is the label the status badge shows |
| `Dashboard.InlineStatusClass` | src/pages/Dashboard.tsx:73 | the recent list's status class is the class the status badge uses |
| `ServicePayloads.NoneIfEmpty` | src/pages/AddLead.tsx:29 | `s \|\| undefined` never sends an empty string, and reading it back with `\|\| ''` gives `s` |
| `ServicePayloads.NullableRoundTrip` | src/pages/EditLead.tsx:40 | a nullable value survives `v \|\| ''` then `s \|\| null` exactly when it is not `''` |
| `QueryCache.MarkStale` | src/pages/EditLead.tsx:58 | invalidating a prefix keeps the data and makes stale exactly the cached keys starting with it |
| `QueryCache.Stored` | src/pages/EditLead.tsx:20-24 | a completed fetch makes its key fresh with the new data; no other key's data or freshness changes |
| `QueryCache.InvalidateAll` | src/pages/LeadDetail.tsx:41-42 | after a sequence of invalidations a key is fresh iff it was and no prefix matches it |
| `QueryCache.MatchesMember` | src/pages/LeadDetail.tsx:41-42 | any listed prefix of a key makes the list match that key |
| `QueryCache.Invalidations` | src/pages/LeadDetail.tsx:40-70 | one or two keys per handler, each a list, lead or notes key: the list key exactly for create, save, status change and delete; a lead key exactly for save, status and follow-up of that lead; a notes key exactly for a note on that lead (also src/pages/AddLead.tsx:34, src/pages/EditLead.tsx:58-59) |
| `QueryCache.AfterSuccess` | src/pages/LeadDetail.tsx:38-71 | the data is kept; a key is fresh afterwards iff it was fresh and no invalidated prefix matches it, so no key under an invalidated prefix is fresh |
| `QueryCache.KeyPrefixes` | src/pages/LeadDetail.tsx:26-36 | `['leads']`, `['lead', id]` and `['lead-notes', id]` never match one another; a lead key matches only its own id |
| `QueryCache.SuccessEffects` | src/pages/LeadDetail.tsx:38-71 | on the list, detail and notes keys, each mutation stales exactly the keys its `onSuccess` names (list: create, save, status, delete; lead: save, status, follow-up; notes: add note) and leaves the rest; a key whose data changed but is not named stays as it was |
| `QueryCache.InvalidateOne` | src/pages/LeadDetail.tsx:50 | invalidating one key is a single prefix invalidation |
| `QueryCache.InvalidateTwo` | src/pages/LeadDetail.tsx:41-42 | invalidating two keys is two prefix invalidations in call order |
| `QueryCache.Cache.constructor` | src/App.tsx:16 | a new cache holds nothing |
| `QueryCache.ReadAfterStore` | src/pages/LeadDetail.tsx:26-30 | after a fetch, and after invalidations that do not match its key, the entry is fresh and holds the fetched data |
| `QueryCache.Cache.Read` | src/pages/LeadDetail.tsx:26-30 | the data `useQuery` returns for a cached key, fresh or stale (a stale entry is shown while it refetches); which data that is follows from `Store` and `ReadAfterStore` |
| `QueryCache.Cache.Store` | src/pages/LeadDetail.tsx:26-30 | the cache after a fetch is `Stored` of the old one |
| `QueryCache.Cache.Invalidate` | src/pages/LeadDetail.tsx:41 | the cache after `invalidateQueries` is `MarkStale` of the old one |
| `AddLead.InitialAddForm` | src/pages/AddLead.tsx:17-23 | empty text fields and source `website` |
| `AddLead.WithInput` | src/pages/AddLead.tsx:65-90 | a field edit changes that field only |
| `AddLead.CreatePayload` | src/pages/AddLead.tsx:26-32 | name and email sent as typed; an empty phone or follow-up date is omitted; no status key; the form is recoverable from the payload |
| `AddLead.PayloadOfForm` | src/pages/AddLead.tsx:26-32 | every payload without an empty optional string is what its own form sends |
| `AddLead.Submit` | src/pages/AddLead.tsx:41-48 | once `handleSubmit` runs, the mutation fires with the payload exactly when both trimmed name and email are non-empty; otherwise the "required" toast |
| `AddLead.AddLeadPage.constructor` | src/pages/AddLead.tsx:17-23 | the page opens with the initial form and nothing sent |
| `AddLead.AddLeadPage.OnInput` | src/pages/AddLead.tsx:65-90 | the form becomes `WithInput` of the old form; nothing is sent |
| `AddLead.AddLeadPage.HandleSubmit` | src/pages/AddLead.tsx:41-48 | acts as `Submit` of the form decides: a rejection adds its "required" toast and sends nothing; a submission calls `createLead` with its payload |
| `AddLead.AddLeadPage.OnCreated` | src/pages/AddLead.tsx:33-37 | invalidates `['leads']` and navigates to `/leads` |
| `EditLead.InitialEditForm` | src/pages/EditLead.tsx:26-33 | empty text fields, source `website`, status `new` |
| `EditLead.FormFromLead` | src/pages/EditLead.tsx:35-46 | name, email, source and status are copied; a null phone or follow-up date shows as `''` |
| `EditLead.WithEdit` | src/pages/EditLead.tsx:83-119 | a field edit changes that field only |
| `EditLead.SavePayload` | src/pages/EditLead.tsx:48-56 | all six editable keys present; text fields as typed; an empty phone or follow-up date sent as null |
| `EditLead.SavePayloadInjective` | src/pages/EditLead.tsx:49-56 | different forms send different payloads |
| `EditLead.EditableFields` | src/pages/EditLead.tsx:49-56 | a lead's editable part carries all six keys |
| `EditLead.LoadThenSave` | src/pages/EditLead.tsx:35-56 | load then save without edits sends the lead's editable fields iff its phone and follow-up date are not `''` |
| `EditLead.EditLeadPage.constructor` | src/pages/EditLead.tsx:26-33 | the page opens with the initial form and nothing sent |
| `EditLead.EditLeadPage.OnLeadChanged` | src/pages/EditLead.tsx:35-46 | a loaded lead overwrites the form; no lead leaves it |
| `EditLead.EditLeadPage.OnInput` | src/pages/EditLead.tsx:83-119 | the form becomes `WithEdit` of the old form |
| `EditLead.EditLeadPage.OnSubmit` | src/pages/EditLead.tsx:79 | submitting sends `updateLead(id, SavePayload(form))` |
| `EditLead.EditLeadPage.OnSaved` | src/pages/EditLead.tsx:57-62 | invalidates `['leads']` and `['lead', id]`, then navigates to `/leads/id` |
| `LeadDetail.StatusUpdate` | src/pages/LeadDetail.tsx:39 | the status update carries the status key alone |
| `LeadDetail.FollowUpUpdate` | src/pages/LeadDetail.tsx:48 | the follow-up update carries that key alone; `''` becomes null |
| `LeadDetail.AddNoteEnabled` | src/pages/LeadDetail.tsx:166 | the add button is enabled exactly when no note is being saved and the text is not all white space |
| `LeadDetail.AddNoteClick` | src/pages/LeadDetail.tsx:165 | a click adds a note iff the text is not blank; the note carries the lead's id and the untrimmed text |
| `LeadDetail.ButtonMatchesClick` | src/pages/LeadDetail.tsx:165-166 | with no mutation pending the button is enabled iff a click adds the note; an enabled button means non-blank text |
| `LeadDetail.NotesPanelOf` | src/pages/LeadDetail.tsx:153-185 | the notes title counts `notes.length`; "No notes yet" shows iff there are none |
| `LeadDetail.LeadDetailPage.constructor` | src/pages/LeadDetail.tsx:23 | the note box starts empty and nothing is sent |
| `LeadDetail.LeadDetailPage.OnNoteInput` | src/pages/LeadDetail.tsx:160 | typing sets the note text only |
| `LeadDetail.LeadDetailPage.OnAddClick` | src/pages/LeadDetail.tsx:55-56 | a click sends the note exactly as `AddNoteClick` decides |
| `LeadDetail.LeadDetailPage.OnStatusSelect` | src/pages/LeadDetail.tsx:130 | selecting a status sends `updateLead(id, { status })` |
| `LeadDetail.LeadDetailPage.OnFollowUpInput` | src/pages/LeadDetail.tsx:144 | changing the date sends the follow-up update |
| `LeadDetail.LeadDetailPage.OnDeleteConfirm` | src/pages/LeadDetail.tsx:192 | confirming sends `deleteLead(id)` |
| `LeadDetail.LeadDetailPage.OnStatusUpdated` | src/pages/LeadDetail.tsx:40-44 | invalidates `['lead', id]` then `['leads']` |
| `LeadDetail.LeadDetailPage.OnFollowUpUpdated` | src/pages/LeadDetail.tsx:49-52 | invalidates `['lead', id]` only |
| `LeadDetail.LeadDetailPage.OnNoteAdded` | src/pages/LeadDetail.tsx:57-61 | invalidates `['lead-notes', id]` only and clears the note box |
| `LeadDetail.LeadDetailPage.OnDeleted` | src/pages/LeadDetail.tsx:66-70 | invalidates `['leads']` and navigates to `/leads` |
| `AppRoutes.ProtectedRoute` | src/App.tsx:18-23 | spinner iff loading; redirect to `/login` iff not loading and no session; the page inside the layout iff a session |
| `AppRoutes.AuthRoute` | src/App.tsx:25-30 | nothing iff loading; redirect to `/` iff not loading and a session; the bare page iff no session |
| `AppRoutes.GuardsComplement` | src/App.tsx:21-29 | once loaded, exactly one guard shows its page and the other redirects; while loading neither does |
| `DashboardLayout.DisplayName` | src/components/DashboardLayout.tsx:20 | the metadata name when non-empty, else `Admin`; never empty |
| `DashboardLayout.AvatarSource` | src/components/DashboardLayout.tsx:25 | the first non-empty of the name, the email and `A`; never empty |
| `DashboardLayout.AvatarInitial` | src/components/DashboardLayout.tsx:25 | always one character: the upper-cased first character of the source |

## Behaviour as written

Not every write invalidates every cached query that shows what it changed.
The model follows the code, as `QueryCache.SuccessEffects` states:

- A follow-up date change (src/pages/LeadDetail.tsx:47-50) invalidates
  `['lead', id]` only. It does not invalidate `['leads']`, although the list
  page shows follow-up dates (src/pages/Leads.tsx:108).
- A delete from the detail page (src/pages/LeadDetail.tsx:64-69) invalidates
  `['leads']` only. It does not invalidate the deleted lead's `['lead', id]`
  or `['lead-notes', id]`.
- Unlike the add page (src/pages/AddLead.tsx:43), the edit page has no
  blank-field guard of its own (src/pages/EditLead.tsx:79), so
  `EditLeadPage.OnSubmit` sends whatever the form holds.

## Left out

- The data-service calls in src/services/leadService.ts: ordering by
  `created_at`, not-found errors, partial-update semantics and cascading
  deletes happen on the backend. Only the argument shapes (`NewLead`,
  `LeadUpdate`, `NewNote`) are modelled.
- src/pages/Login.tsx and src/components/AppSidebar.tsx: auth-provider calls
  and sidebar chrome, with no logic of their own.
- The auth context, `NotFound`, `DeleteConfirmDialog`, the `ui/*` components
  and the backend client are not part of this model. A session is reduced to
  its presence, and a user to an optional metadata name and email.
- JSX rendering, skeletons, success and error toasts other than the add form's
  "required" message, and date formatting with `date-fns`.
- The query library's machinery: fetch timing, refetching, `isPending`,
  `onError`. Invalidation is modelled as marking entries stale. The
  `isPending` state appears only as a parameter of the note button's
  enabled state. The submit buttons' disabling while pending is not modelled.
- The browser's own form validation on the add and edit forms: the `required`
  attributes and the `type="email"` inputs (src/pages/AddLead.tsx:69,
  src/pages/EditLead.tsx:87). It can stop a submit before `handleSubmit` runs,
  so the add form's guard (`AddLead.Submit`) is modelled for the handler alone.
- Time-based staleness and refetch on mount. The query client keeps the
  library defaults (src/App.tsx:16), so every entry is stale by age once
  fetched, and a page that mounts `useQuery` refetches. "Fresh" in
  `QueryCache` means only "not invalidated since its last fetch".
- The list page's own delete mutation (src/pages/Leads.tsx:29-37, 118-134),
  which is outside the filtering and counting modelled here.
- The detail page's "Lead not found" and loading states (src/pages/LeadDetail.tsx:73-84).
- The route parameter `id` is assumed present (the source asserts it with `id!`).
- Dashboard.ConversionRate: computed exactly, with halves rounded up, as
  `(200·converted + total) / (2·total)`. The IEEE floating-point evaluation of
  `Math.round((converted / total) * 100)` is not modelled. It can differ: for
  29 converted leads out of 200, floating point gives 14 and the exact value is 15.
- JsString.ToLower: ASCII case mapping only. Unicode case mapping is not
  modelled, including mappings that change a string's length. Under full
  Unicode mapping `JsString.LowerOfUpper` and `LeadsPage.UpperCaseSearch` do
  not hold: `"ß".toUpperCase()` is `"SS"`, which lowers to `"ss"`.
- DashboardLayout.AvatarInitial: assumes upper-casing a character yields one
  character, which holds for the ASCII mapping used here. It also assumes `[0]`
  yields a whole character. JavaScript indexes UTF-16 code units, so a name or
  email that starts outside the Basic Multilingual Plane (an emoji) shows half
  a surrogate pair in the source and the whole character here.
- DashboardLayout.DisplayName: the metadata name is taken to be a string or
  missing. JavaScript truthiness of other JSON values is not modelled.
