# Lead manager — Dafny model

A model of the lead store of the browser lead-tracking widget in `script.js`:
the `LeadManager` object keeps an ordered list of sales leads (id, name, phone,
email, marketplace, status, notes, creation instant), a status filter and a
search text for the card list, the lead open in the edit form and the lead open
in the status picker, and writes the whole list to the browser's local storage
after every change.

- `text.dfy` (module `Text`): `toLowerCase` on ASCII letters and `includes`.
- `seqs.dfy` (module `Seqs`): `filter` and `findIndex` over sequences, and the
  order-preserving subsequence relation that says what `filter` keeps.
- `leads.dfy` (module `Leads`): the `Lead` record, the search rule, the query
  behind the card list, the per-status counts, the list left by add, edit,
  status change, delete and first-run seeding, and reading the stored entry,
  with the properties each of them has.
- `manager.dfy` (module `Manager`): the class `LeadManager` with the fields of
  the source object and one method per state-changing operation; each method's
  postcondition gives the new list as a function of the old one from `Leads`,
  and keeps the invariant `Persisted()` (reading the stored entry back yields
  the current list).

Host values are parameters: the clock readings (`Date.now()` and
`new Date()`) are integers in milliseconds, the confirmation dialog is a
`confirmed: bool`, the submitted form is a `LeadForm`, and the local-storage
entry is a `StoredBlob` (absent, unparseable, or a saved list).

## Behaviour a reader might not expect

The model follows the code in these places.

- Editing a lead also resets its status to "new" and its creation instant to
  the time of the edit, because the form data carries both into the merge
  (script.js:152-153, script.js:160). Only the id survives (`Leads.Merge`).
- Editing an id no lead has leaves the list as it was, but still saves it,
  closes the form and reports success (script.js:159, script.js:168-172).
  Changing the status of an id no lead has does nothing at all: no save, and
  the status picker stays open (script.js:176-186).
- A status change accepts any string; statuses are strings, and the five known
  ones are constants (script.js:179).
- Nothing checks that name or phone is non-empty.
- A new lead's id is the clock reading, so ids are unique only when that
  reading is not already in use (`Leads.AddKeepsDistinctIds`, script.js:164).
- A corrupt stored entry makes `JSON.parse` throw during construction; it is
  not read as an empty list (script.js:4, `Leads.LoadLeads`).
- An edit or status change acts on the FIRST lead with the id (`findIndex`,
  `find`); a delete removes EVERY lead with the id (`filter`).

## Model

| member | source | states |
|---|---|---|
| Text.LowerChar | script.js:212 | the result is never an upper-case ASCII letter; 'A'..'Z' map to the letter 32 code points later, everything else is unchanged |
| Text.Lower | script.js:212 | lower-casing keeps the length and lower-cases every character at its own position |
| Text.ContainsIffOccurs | script.js:227-231 | `includes` holds exactly when the pattern occurs at some index of the text |
| Text.ContainsLower | script.js:226-232 | if a field contains the typed text, its lower-cased form contains the lower-cased text |
| Seqs.Filter | script.js:221 | `filter` returns no more elements than it is given, each of them from the input and satisfying the predicate |
| Seqs.FilterIsSubsequence | script.js:221 | `filter` keeps the input order: its result is a subsequence of the input |
| Seqs.FilterMultiplicity | script.js:221 | every element satisfying the predicate keeps all its occurrences; every other element keeps none |
| Seqs.FilterKeepsAll | script.js:191 | filtering with a predicate every element satisfies returns the input unchanged |
| Seqs.FilterIdempotent | script.js:191 | filtering twice with the same predicate equals filtering once |
| Seqs.FindIndex | script.js:158 | `findIndex` returns -1 exactly when no element matches, otherwise the smallest index of a matching element |
| Leads.FilteredLeads | script.js:216-235 | with filter "all" and empty search the query returns the stored list itself; it never returns more leads than stored |
| Leads.FilteredLeadsSpec | script.js:216-235 | the query result is an order-preserving subsequence of the list that keeps every occurrence of each lead passing both the status filter and the search, and nothing else |
| Leads.SearchIgnoresCaseExample | script.js:225-232 | the search text "olx" finds a lead whose marketplace is "OLX" |
| Leads.SearchIgnoresCase | script.js:211-232 | a query typed in any case, once stored lower-cased, finds every lead whose name, email, marketplace or notes contains it |
| Leads.PhoneNotCaseFolded | script.js:228 | the phone is not lower-cased: a phone "ABC" is not found by the stored query for "ABC" |
| Leads.CountIsMultiplicity | script.js:311-317 | each per-status count is the number of times that status occurs among the leads' statuses |
| Leads.StatsTotal | script.js:311-317 | the five counts sum to at most the list length, and to exactly the list length iff every lead has one of the five known statuses |
| Leads.StatsAfterPrepend | script.js:152-166 | adding a lead raises the "new" count by one and leaves the other four counts unchanged |
| Leads.AddLead | script.js:162-166 | an add prepends one lead with id equal to the clock reading, the form's name, phone, email, marketplace and notes, status "new" and the given creation instant, followed by the old list unchanged |
| Leads.AddKeepsDistinctIds | script.js:164-165 | on a list with distinct ids, ids stay distinct after an add exactly when the clock reading is not already an id |
| Leads.Merge | script.js:160 | the merged record keeps the old id and takes the form's fields, status "new" and the new creation instant |
| Leads.EditSpec | script.js:156-161 | an edit replaces only the first lead with the id by the merged record, keeps the length, every other lead and every id; an absent id leaves the list unchanged |
| Leads.SetStatusSpec | script.js:175-179 | a status change replaces only the status of the first lead with the id; every other field, every other lead, the ids and the length are unchanged; an absent id changes nothing |
| Leads.DeleteSpec | script.js:189-191 | a delete leaves no lead with the id, and keeps every other lead with all its occurrences in the original order |
| Leads.DeleteIdempotent | script.js:191 | deleting the same id twice gives the same list as deleting it once |
| Leads.DeleteAbsent | script.js:191 | deleting an id that no lead has leaves the list unchanged |
| Leads.DeleteKeepsDistinctIds | script.js:191 | a delete keeps the ids of the remaining leads distinct |
| Leads.SampleLeads | script.js:58-89 | the seed is three leads with ids 1, 2, 3, created now, one day and two days earlier |
| Leads.SampleLeadsSpec | script.js:58-89 | the seeded ids are distinct and the seed holds one "new", one "processing" and one "positive" lead |
| Leads.Seeded | script.js:56-91 | an empty list is replaced by the three example leads; any other list is kept as it is |
| Leads.LoadLeads | script.js:4 | reading the stored entry fails exactly when it is unparseable; a missing entry reads as the empty list, a saved list reads back as itself |
| Manager.LeadManager.constructor | script.js:3-17 | start-up reads the stored list, seeds it when empty, starts with filter "all", empty search, no lead open, and leaves the stored entry equal to the list |
| Manager.LeadManager.SaveToStorage | script.js:325-327 | the stored entry becomes the current list |
| Manager.LeadManager.AddSampleData | script.js:56-95 | an empty list is replaced by the seed and saved; a non-empty list and the stored entry are untouched |
| Manager.LeadManager.OpenModal | script.js:98-99 | opening the edit form records the lead it is for (or none for a new lead) |
| Manager.LeadManager.CloseModal | script.js:118-122 | closing the edit form forgets the lead being edited |
| Manager.LeadManager.OpenStatusModal | script.js:124-125 | opening the status picker records its lead |
| Manager.LeadManager.CloseStatusModal | script.js:130-134 | closing the status picker forgets its lead |
| Manager.LeadManager.SaveLead | script.js:144-173 | with a truthy open lead the list becomes the edit of that id, otherwise the add of a new lead; the list is saved and the edit form closed |
| Manager.LeadManager.ChangeLeadStatus | script.js:175-187 | when the picker's lead is truthy and found, the list becomes the status change of that id, is saved and the picker closed; otherwise nothing changes |
| Manager.LeadManager.DeleteLead | script.js:189-197 | when confirmed, every lead with the id is removed and the list saved; when not, nothing changes |
| Manager.LeadManager.SetFilter | script.js:199-200 | the status filter becomes the given value |
| Manager.LeadManager.SetSearch | script.js:211-212 | the search text is stored lower-cased |
| Manager.LeadManager.GetFilteredLeads | script.js:216-236 | the shown leads are a subsequence of the list keeping every occurrence of each lead that passes the current filter and search, and nothing else; the whole list under "all" with empty search |
| Manager.LeadManager.UpdateStats | script.js:310-317 | each summary count is the number of leads with exactly that status; the counts together are at most the list length |

## Left out

- Rendering and event wiring: `setupEventListeners`, `renderLeads`,
  `createLeadCard`, `fillForm`, the form reset and title in `openModal`, the
  class changes that show and hide the two dialogs, and the active-button
  update in `setFilter` (script.js:19-54, 98-142, 203-208, 238-308). They only
  produce HTML and touch the page.
- `updateStats` writes only four of its five counts to the page (the negative
  count is computed but not shown); writing to the page is not modelled.
- Notifications (`showNotification` and its timers, script.js:329-365): an
  asynchronous visual effect.
- The global `openModal`/`closeModal`/`closeStatusModal` wrappers, the
  start-up listener and the injected stylesheet (script.js:368-430).
- `JSON.stringify`/`JSON.parse`: the stored entry holds the list as a value, so
  saving and reading back is exact. A stored value that parses to a falsy
  value (`null`, `false`, `0`, `""`) is read like a missing entry
  (script.js:4). A stored value that parses to a truthy value that is not a
  list (for example `{}` or `5`) becomes the lead list itself, and start-up
  then throws when the list is rendered (script.js:242, 253); that case is
  not modelled.
- Manager.LeadManager.constructor: a corrupt stored entry makes `JSON.parse`
  throw and no manager is created; the constructor requires a readable entry,
  and `Leads.LoadLeads` returns None for the corrupt case.
- Text.Lower: lower-cases the ASCII letters only; full Unicode case mapping
  (for example of Polish letters) is not modelled.
- Timestamps: `createdAt` is the creation instant in milliseconds; its
  ISO-8601 text and the `pl-PL` date shown on the card are not modelled.
  Ids are integers; JavaScript numbers that are not integers are not modelled.
- Manager.LeadManager.AddSampleData: the three seeded creation dates come from
  one clock reading `now`; the source reads the clock once per lead.
- Leads are values: the source changes a status by assigning a field of the
  found object, which is the same as replacing that list element here because
  no lead object is shared with anything else.
