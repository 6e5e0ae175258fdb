# Phoenix CRM core in Dafny

A model of the logic of a small browser CRM for web-design outreach. The
app keeps an ordered list of leads (company, e-mail, problem category,
optional note, date, pipeline status `NEW` → `CONTACTED` → `WON`, consent
flag) and one user profile. It renders outreach e-mails from three fixed
templates. A five-step compliance checklist gates moving a lead to `WON`.

Modules, by source file:

- `Types` (`types.dfy`): the enums, records and problem-label table of
  `types.ts`. `Wrappers` (`wrappers.dfy`) holds `Option`.
- `Strings` (`strings.dfy`): replace-all of a literal pattern. It comes in
  two forms: one inserting the replacement literally, and one as
  JavaScript's `String.prototype.replace` expands `$` patterns. Also ASCII
  lower-casing.
- `Pattern` (`pattern.dfy`): a template as a sequence of text pieces and
  placeholder slots. It gives the reference rendering (`Spell`) and the
  lemmas tying the chained replaces to it.
- `Constants` (`constants.dfy`): the three e-mail templates and the five
  checklist steps of `constants.ts`. Each template is built from its piece
  sequence.
- `Leads` (`leads.dfy`): the status filter, lookup by id and JavaScript
  truthiness of an optional string.
- `App` (`app.dfy`): the lead store of `App.tsx`. It is a class `Store`
  with one method per handler. The pure parts (prepend, merge by id,
  status map, routing, import guard, lazy load) are functions.
- `Outreach` (`outreach.dfy`): the e-mail renderer, the template lookup,
  the clipboard text, and the class `OutreachGenerator` with the view's
  state and handlers.
- `Checklist` (`checklist.dfy`): the toggle, the all-checked gate and the
  remaining count shared by both checklist views.
- `Compliance` (`compliance.dfy`): the class `ComplianceManager`.
- `ChecklistModal` (`checklist_modal.dfy`): the class `SmartChecklistModal`.
- `Dashboard` (`dashboard.dfy`): the columns, the header figures and the
  warning icon.
- `LeadForm` (`lead_modal.dfy`): the class `LeadModal`, the form state of
  the add/edit dialog, and its display rules.
- `LeadDetails` (`lead_details.dfy`): the labels and display rules of the
  details card.

Each React `useEffect` is a method. It is called once after the state
change it depends on. `crypto.randomUUID()` and `new Date().toISOString()`
are method parameters (`freshId`, `now`). Where an id must be fresh, that
is a precondition. The parsed import file and the stored entry are
abstract values: the model does not read JSON. All functions are
deterministic, so rendering an e-mail twice on the same lead, profile and
template gives the same result, and a function cannot modify its inputs.

## Model

| member | source | states |
|---|---|---|
| Types.StatusesAreThree | types.ts:1 | a status is one of exactly three distinct values |
| Types.StatusLiteralRoundTrip | types.ts:1 | each status reads back from its string literal |
| Types.ParseStatusOnlyLiterals | types.ts:1 | only the literals `NEW`, `CONTACTED`, `WON` are statuses, and each parses to the status it names |
| Types.ProblemLiteralRoundTrip | types.ts:3 | each problem category reads back from its string literal |
| Types.ParseProblemOnlyLiterals | types.ts:3 | only the four literals `no_website`, `old_website`, `error`, `other` are categories |
| Types.ProblemLabelsDistinct | types.ts:39-44 | the label table is total, its labels are non-empty, and different categories get different labels |
| Strings.Lower | components/OutreachGenerator.tsx:30 | `toLowerCase` keeps the length and maps every character on its own |
| Strings.ReplaceAllWithoutOccurrence | components/OutreachGenerator.tsx:33-39 | a replace pass over a text without the placeholder changes nothing |
| Strings.ReplaceAllSkips | components/OutreachGenerator.tsx:33-39 | text before the first possible match passes through a replace unchanged |
| Strings.ReplaceAllAtFront | components/OutreachGenerator.tsx:33-39 | a match at the front is replaced and the scan goes on after it |
| Strings.ReplaceAllBySelf | components/OutreachGenerator.tsx:33-39 | replacing a placeholder by itself changes nothing |
| Strings.ExpandWithoutDollar | components/OutreachGenerator.tsx:34 | a replacement string without `$` is inserted as it is |
| Strings.ScanAsWrittenAgrees | components/OutreachGenerator.tsx:33-39 | without `$` in the replacement, JavaScript's replace scan equals the literal replace |
| Strings.ScanAsWrittenSkips | components/OutreachGenerator.tsx:33-39 | JavaScript's replace copies text without a match unchanged |
| Strings.ReplaceAllAsWrittenAgrees | components/OutreachGenerator.tsx:33-39 | without `$` in the replacement, JavaScript's global replace equals the literal one |
| Strings.DollarAmpersandReinsertsMatch | components/OutreachGenerator.tsx:34 | a `$&` in the replacement puts the matched placeholder back, where the literal replace inserts `$&` |
| Pattern.ReplaceFlatten | components/OutreachGenerator.tsx:34 | replacing one placeholder in a brace-free template fills exactly that placeholder's slots |
| Pattern.ReplaceOtherToken | components/OutreachGenerator.tsx:38-39 | a pass for one placeholder leaves every other placeholder verbatim |
| Pattern.FillThree | components/OutreachGenerator.tsx:33-36 | filling the three placeholders in turn spells the template with each slot's value |
| Pattern.Render | components/OutreachGenerator.tsx:33-36 | the three chained replaces give the template with each placeholder replaced by its value, provided the company name and note contain no `{` |
| Pattern.FillCompanyOnly | components/OutreachGenerator.tsx:38-39 | in a template with only company slots, filling the company is the full rendering |
| Pattern.RenderCompanyOnly | components/OutreachGenerator.tsx:38-39 | the single company pass renders a subject with no other placeholder completely |
| Pattern.FillWithToken | components/OutreachGenerator.tsx:33-36 | filling a placeholder with another placeholder's text turns those slots into that placeholder |
| Pattern.SpellRetarget | components/OutreachGenerator.tsx:33-36 | the retargeted slots take the later placeholder's value |
| Pattern.RenderCompanyIsSenderToken | components/OutreachGenerator.tsx:33-36 | text inserted by the company pass is rewritten by the later sender pass |
| Pattern.RenderHeadCompany | components/OutreachGenerator.tsx:38-39 | a subject of a brace-free head and the company placeholder renders as head plus company |
| Pattern.RenderHeadCompanyTail | components/OutreachGenerator.tsx:38-39 | the same, with a brace-free tail after the placeholder |
| Constants.TemplatesFromPatterns | constants.ts:3-22 | each of the three templates is the flattening of its piece sequence |
| Constants.TemplateIds | constants.ts:3-22 | three templates with distinct ids `fix`, `modern`, `nosite`, `fix` first |
| Constants.TemplatePlaceholders | constants.ts:7-20 | every subject holds `{bedrijfsnaam}` and no other placeholder; every body holds `{bedrijfsnaam}` and `{gebruikersnaam}`; only the `fix` body holds `{notitie}` |
| Constants.ChecklistSteps | constants.ts:24-55 | five steps numbered 1 to 5 in order, critical exactly for steps 3 and 5 |
| Leads.ByStatus | components/Dashboard.tsx:19 | the filter keeps exactly the leads of that status and is no longer than the list |
| Leads.ByStatusAppend | components/Dashboard.tsx:19 | the filter distributes over concatenation, so it keeps store order |
| Leads.ByStatusAll | components/Dashboard.tsx:19 | a list of leads of one status filters to itself |
| Leads.StatusPartition | components/Dashboard.tsx:13-19 | the three status groups together hold every lead once |
| Leads.Find | components/OutreachGenerator.tsx:26 | `find` gives the first lead with the id, and nothing exactly when no lead has it |
| Leads.FindSelected | components/OutreachGenerator.tsx:26 | with no selection nothing is found; a found lead is in the list and carries the selected id |
| Leads.FindUnique | components/OutreachGenerator.tsx:26 | with unique ids, a lead's id finds that lead |
| Checklist.RemoveAll | components/ComplianceManager.tsx:34 | the filter keeps every other number and drops every copy of the removed one |
| Checklist.IsStepRange | constants.ts:24-55 | the step numbers are exactly 1 to 5 |
| Checklist.AllCheckedIff | components/ComplianceManager.tsx:47 | the gate holds iff every number 1 to 5 is in the completed list |
| Checklist.NotAllChecked | components/ComplianceManager.tsx:47 | the gate is closed for the empty list and for any list missing a step |
| Checklist.ToggleMembership | components/ComplianceManager.tsx:31-37 | a toggle flips the toggled step's membership and keeps every other |
| Checklist.ToggleTwice | components/ComplianceManager.tsx:31-37 | toggling the same step twice restores membership of every number |
| Checklist.ToggleTwiceAbsent | components/ComplianceManager.tsx:31-37 | an absent step toggled twice gives back the same list |
| Checklist.ToggleTwicePresent | components/ComplianceManager.tsx:31-37 | a present step toggled twice moves to the end |
| Checklist.RemoveAppendAbsent | components/ComplianceManager.tsx:32-36 | appending an absent step and removing it gives back the list |
| Checklist.RemoveAllNoDup | components/ComplianceManager.tsx:34 | removing from a duplicate-free list keeps it duplicate-free and shortens it by one exactly when the number was there |
| Checklist.ToggleNoDup | components/ComplianceManager.tsx:32-36 | toggling keeps the list free of duplicates |
| Checklist.ToggleValid | components/SmartChecklistModal.tsx:24-30 | toggling a step from 1 to 5 keeps the list a duplicate-free list of step numbers from 1 to 5 |
| Checklist.PigeonHole | components/ComplianceManager.tsx:182 | distinct numbers from 1 to n are at most n, and exactly n only when all are present |
| Checklist.RemainingMatchesGate | components/ComplianceManager.tsx:182 | on a reachable list the remaining count lies in 0..5 and is 0 exactly when the gate opens |
| Checklist.CoverThenLonger | components/ComplianceManager.tsx:47 | a duplicate-free list holding all five steps has at least five entries |
| Checklist.LabelCount | components/SmartChecklistModal.tsx:138 | the button shows a count from 1 to 5 while closed, and celebrates exactly when the count is 0 |
| App.RestoreCases | App.tsx:23-26 | no entry or an empty entry loads `initialData`; a stored state loads as it is; only an unparseable entry fails |
| App.NewLead | App.tsx:54-59 | a created lead has the given id and time, status `NEW`, and exactly the submitted five fields |
| App.EditLeads | App.tsx:41-50 | leads with the edited id take the form's fields and keep id, date and status; all others, and the order and length, stay |
| App.WithStatus | App.tsx:76-81 | matching leads change only their status; all others, and the order and length, stay |
| App.CreateKeepsIdsUnique | App.tsx:52-60 | prepending a lead with a fresh id keeps ids unique and grows the list by one |
| App.EditIdempotent | App.tsx:41-50 | saving the same form twice is saving it once |
| App.EditUnknownId | App.tsx:41-50 | an edit of an id no lead has changes nothing |
| App.EditKeepsIdsUnique | App.tsx:41-50 | edits keep ids unique |
| App.EditWithOwnForm | App.tsx:41-50 | saving the form filled in from a lead gives that lead back, with a missing description as empty |
| App.StatusUnknownId | App.tsx:76-81 | a status update for an unknown id changes nothing |
| App.StatusIdempotent | App.tsx:76-81 | setting a status twice is setting it once |
| App.StatusCounts | App.tsx:76-81 | with unique ids a status update moves exactly one lead between status groups |
| App.StatusCountsFirst | App.tsx:76-81 | updating the first lead changes only that lead's group membership |
| App.StatusCountsLater | App.tsx:76-81 | updating a later lead keeps the first lead and changes the counts as the update of the rest does |
| App.DatePart | App.tsx:138 | the date part is the prefix of the timestamp before its first `T` |
| App.DatePartUpTo | App.tsx:138 | the date part ends right before the first `T` |
| App.DatePartExample | App.tsx:138 | `2024-05-01T10:00Z` gives `2024-05-01` |
| App.Store.constructor | App.tsx:17-34 | the first render: the loaded data, the dashboard, no modal, nothing selected, no confetti |
| App.Store.SaveLead | App.tsx:40-63 | an edit merges the form into the edited lead; otherwise the new lead is prepended; then the form closes and nothing is being edited |
| App.Store.EditLeadClick | App.tsx:65-69 | closes the details and opens the form on the lead |
| App.Store.AddLeadClick | App.tsx:71-74 | opens the form on no lead |
| App.Store.CloseLeadModal | App.tsx:241 | closes the form |
| App.Store.UpdateLeadStatus | App.tsx:76-81 | the leads become the status map of the old leads |
| App.Store.LeadClick | App.tsx:83-85 | selects the lead for the details card |
| App.Store.CloseDetails | App.tsx:249 | clears the details selection |
| App.Store.LeadAction | App.tsx:87-97 | clears the details; `NEW` goes to outreach, `CONTACTED` to compliance, `WON` keeps the view |
| App.Store.WinDeal | App.tsx:99-106 | with a checklist lead it is won and celebrated; in every reachable state nothing changes |
| App.Store.CloseChecklist | App.tsx:257 | clears the checklist selection |
| App.Store.WinDealFromManager | App.tsx:109-115 | sets the status; confetti exactly for `WON` |
| App.Store.HideConfetti | App.tsx:104 | the timer ends the celebration |
| App.Store.Import | App.tsx:117-131 | the state is replaced by the file's value iff it has a truthy `leads`; otherwise it stays; the alert tells success or a parse failure |
| App.Store.UpdateProfile | App.tsx:227 | the profile is replaced and the leads stay |
| App.Store.ClearData | App.tsx:230 | the state becomes `initialData`, the same state a load with no entry gives |
| App.Store.ChangeView | App.tsx:148 | switches the view |
| Outreach.FallbacksNeverEmpty | components/OutreachGenerator.tsx:30-31 | the note is the description when non-empty, else the lower-cased label; the sender is the profile name when non-empty, else `[Uw Naam]`; neither is ever empty |
| Outreach.FallbackNotes | components/OutreachGenerator.tsx:30 | the four lower-cased fallback notes |
| Outreach.AsWrittenAgreesWithoutDollar | components/OutreachGenerator.tsx:33-39 | without `$` in the inserted texts, the code as written renders the intended e-mail |
| Outreach.DollarCompanyNameKeepsPlaceholder | components/OutreachGenerator.tsx:38-39 | a company named `$&` leaves `{bedrijfsnaam}` in the subject as written, where the intended subject shows the name |
| Outreach.DollarAfterHead | components/OutreachGenerator.tsx:38-39 | JavaScript's replace by `$&` after a brace-free head gives the text back unchanged |
| Outreach.SubjectsRendered | components/OutreachGenerator.tsx:38-39 | each template's subject is its fixed text with the company name in the placeholder's place |
| Outreach.SubjectDeterminesCompany | components/OutreachGenerator.tsx:38-39 | equal subjects from one template mean equal company names |
| Outreach.BodyRendered | components/OutreachGenerator.tsx:33-39 | each body and subject is its template with every placeholder replaced by its value, for a company name and note without `{` |
| Outreach.CompanyNameSeenByLaterPass | components/OutreachGenerator.tsx:33-36 | a company name reading `{gebruikersnaam}` is replaced by the sender name in the last pass |
| Outreach.FindTemplate | components/OutreachGenerator.tsx:27 | the lookup gives a template with the id, and nothing exactly when none has it |
| Outreach.SelectedTemplate | components/OutreachGenerator.tsx:27 | the selected template has the selected id if one exists, otherwise it is the first template |
| Outreach.TemplateSelection | components/OutreachGenerator.tsx:16-27 | the initial selection is the first template, and each id selects its own template |
| Outreach.CopyText | components/OutreachGenerator.tsx:47 | the clipboard text is `Onderwerp: `, the subject, a blank line, the body |
| Outreach.MarkSentMovesLead | components/OutreachGenerator.tsx:53-57 | marking a `NEW` lead as sent moves it from the outreach list to the compliance list and leaves the `WON` count |
| Outreach.OutreachGenerator.constructor | components/OutreachGenerator.tsx:15-17 | no lead selected, the first template, not copied |
| Outreach.OutreachGenerator.AutoSelect | components/OutreachGenerator.tsx:20-24 | with no selection and a `NEW` lead, the first `NEW` lead is selected; otherwise the selection stays |
| Outreach.OutreachGenerator.SelectLead | components/OutreachGenerator.tsx:87 | selects the clicked lead |
| Outreach.OutreachGenerator.SelectTemplate | components/OutreachGenerator.tsx:126 | selects the chosen template id |
| Outreach.OutreachGenerator.Copy | components/OutreachGenerator.tsx:44-51 | with a selected lead, gives the clipboard text of its e-mail in the corrected literal rendering and sets the copied flag, and that text equals what the code as written copies whenever the company name, note and sender name hold no `$`; otherwise nothing |
| Outreach.OutreachGenerator.HideCopied | components/OutreachGenerator.tsx:50 | the timer clears the copied flag |
| Outreach.OutreachGenerator.MarkSent | components/OutreachGenerator.tsx:53-57 | the selected lead becomes `CONTACTED` and the selection is cleared; with no selected lead nothing changes |
| Compliance.ComplianceManager.constructor | components/ComplianceManager.tsx:16-17 | no lead selected, no steps checked |
| Compliance.ComplianceManager.SetSelection | components/ComplianceManager.tsx:27-29 | a changed selection empties the checklist; the same selection keeps it |
| Compliance.ComplianceManager.SelectLead | components/ComplianceManager.tsx:80 | selects the clicked lead, resetting the checklist when it is a different one |
| Compliance.ComplianceManager.AutoSelect | components/ComplianceManager.tsx:20-24 | with no selection and a `CONTACTED` lead, the first `CONTACTED` lead is selected; otherwise nothing changes |
| Compliance.ComplianceManager.ToggleStep | components/ComplianceManager.tsx:31-37 | the list becomes the toggle of the old list and stays a list of distinct steps |
| Compliance.ComplianceManager.ConfirmDeal | components/ComplianceManager.tsx:39-44 | with all steps checked and a lead selected, that lead becomes `WON`, the deal is celebrated, and the selection and checklist are cleared; otherwise nothing changes |
| ChecklistModal.ShownOnlyForChecklistLead | components/SmartChecklistModal.tsx:39 | the modal renders exactly when App has a checklist lead, which never happens |
| ChecklistModal.SmartChecklistModal.constructor | components/SmartChecklistModal.tsx:15 | no steps checked |
| ChecklistModal.SmartChecklistModal.SetOpen | components/SmartChecklistModal.tsx:18-22 | closing the modal empties the checklist; any other change keeps it |
| ChecklistModal.SmartChecklistModal.ToggleStep | components/SmartChecklistModal.tsx:24-30 | the list becomes the toggle of the old list and stays a list of distinct steps |
| ChecklistModal.SmartChecklistModal.Confirm | components/SmartChecklistModal.tsx:129-131 | with all steps checked, confirms through App's win-deal handler, which never changes anything reachable |
| Dashboard.ColumnIndex | components/Dashboard.tsx:13-17 | every status has its column |
| Dashboard.ColumnsCoverStatuses | components/Dashboard.tsx:13-17 | three columns, `NEW`, `CONTACTED`, `WON` in order |
| Dashboard.EachLeadInOneColumn | components/Dashboard.tsx:57-59 | every lead shows in exactly one column, the one of its status |
| Dashboard.ColumnsPartitionLeads | components/Dashboard.tsx:19 | the column sizes add up to the number of leads |
| Dashboard.RateRounds | components/Dashboard.tsx:24 | the rate is 100·won/total rounded to the nearest integer, halves up |
| Dashboard.RateBounds | components/Dashboard.tsx:24 | the rate lies in 0..100; it is 100 iff at least 99.5% are won and 0 iff fewer than 0.5% are |
| Dashboard.DivUnique | components/Dashboard.tsx:24 | integer division gives the multiple that encloses the dividend |
| Dashboard.StatsFacts | components/Dashboard.tsx:21-25 | total is the number of leads, converted at most that, the rate in 0..100, 100 when all are won and 0 when none are |
| Dashboard.NoneWon | components/Dashboard.tsx:23 | with no `WON` lead nothing is converted |
| Dashboard.WarningOnBoard | components/Dashboard.tsx:122 | a card warns iff its problem is not `other` and its lead is not won; no `WON` card warns |
| LeadForm.OpenedForm | components/LeadModal.tsx:23-43 | editing copies the lead's five fields, a missing description as empty; a fresh form is empty, `no_website`, no consent |
| LeadForm.RequiredIsVisible | components/LeadModal.tsx:130-139 | a required description box is visible, and a visible optional one holds text |
| LeadForm.OpenedFormDisplay | components/LeadModal.tsx:130-184 | a fresh form hides the description and cannot be saved; an edited lead's form can be saved iff it has consent |
| LeadForm.LeadModal.constructor | components/LeadModal.tsx:14-20 | the form starts with the defaults |
| LeadForm.LeadModal.Sync | components/LeadModal.tsx:23-43 | opening fills the form from the edited lead or with the defaults; a closed modal keeps its form |
| LeadForm.LeadModal.SetCompanyName | components/LeadModal.tsx:86 | changes the company name only |
| LeadForm.LeadModal.SetEmail | components/LeadModal.tsx:98 | changes the e-mail only |
| LeadForm.LeadModal.SetProblemType | components/LeadModal.tsx:121 | changes the category only |
| LeadForm.LeadModal.SetDescription | components/LeadModal.tsx:141 | changes the description only |
| LeadForm.LeadModal.SetConsent | components/LeadModal.tsx:158 | changes the consent flag only |
| LeadForm.LeadModal.Submit | components/LeadModal.tsx:45-50 | without consent nothing is saved or closed; with it the five fields are saved and the form closes |
| LeadForm.SavedLeadHasConsent | components/LeadModal.tsx:45-50 | a form that can be saved creates a `NEW` lead with consent |
| LeadDetails.ShownForSelectedLead | components/LeadDetailsModal.tsx:15 | the card renders exactly when App has a lead selected for details |
| LeadDetails.LabelsTellStatusesApart | components/LeadDetailsModal.tsx:19-26 | different statuses get different button labels and different badges |
| LeadDetails.ActionLabelsDiffer | components/LeadDetailsModal.tsx:19-26 | the three button labels differ |
| LeadDetails.BadgeLabelsDiffer | components/LeadDetailsModal.tsx:68 | the three badges differ |
| LeadDetails.ActionLabelMatchesRoute | components/LeadDetailsModal.tsx:19-26 | `Start Outreach` routes to outreach, `Check Compliance Rules` to compliance, `Bekijk Deal` keeps the view |
| LeadDetails.DescriptionShownAfterSave | components/LeadDetailsModal.tsx:70-100 | a saved lead shows its description iff one was typed, and the consent badge iff consent was given |

## Left out

- Outreach.OutreachGenerator.Copy: copies the corrected rendering (`Outreach.GenerateEmail`), not the `$`-expanding one `handleCopy` produces; the two agree only when the company name, note and sender name hold no `$` (see "## Findings").
- Dashboard.Rate: `Math.round` of a floating-point quotient is modelled as exact rational rounding. The two can differ where the float lands just below a half, for example 29 won of 200.
- Strings.Lower: only ASCII letters are lower-cased. The labels it is applied to are ASCII.
- Storage, `JSON.parse`, `JSON.stringify`, `FileReader` and the download link are I/O. The stored entry and the import file are abstract values (`App.SavedEntry`, `App.ImportFile`). Only the backup file name is modelled. The export-then-import round trip is not stated.
- App.Store.Import: a parsed value whose `leads` is truthy but not an array, or whose `userProfile` is missing, is not represented. `ImportFile.WithLeads` carries a well-formed state.
- App.Restore: a stored entry that fails to parse throws during the first render. The model returns `None` and states nothing further.
- `crypto.randomUUID` and `new Date()` are parameters. Their freshness is a precondition where it matters (`App.CreateKeepsIdsUnique`).
- Timers, the clipboard write, `alert` texts, `window.confirm` in Settings, and the confetti animation are side effects. Their callbacks are the methods `HideConfetti` and `HideCopied`.
- LeadDetails.ActionLabel: the `default: 'Actie'` case needs a status outside the three, which the typed model cannot hold.
- The browser's own validation (`required`, `type="email"`) is not modelled. The submit guard is only the consent check in `handleSubmit`.
- React scheduling: each effect is a method called after the change it depends on. The model does not capture several state updates batched in one render.
- Sidebar, Settings UI, ComplianceGuide, Confetti and all JSX layout are presentation.
- Code over design text: a missing or falsy `leads` member on import shows no alert at all, and a parse error at start-up is not caught. The model follows the code in both.

## Findings

| source | as written | input that shows it | evidently intended | confidence | as-written member | corrected member |
|---|---|---|---|---|---|---|
| components/OutreachGenerator.tsx:33-39 | `replace(/{bedrijfsnaam}/g, lead.companyName)` with a string replacement, so `$&`, `$'`, `` $` `` and `$$` in the company name, note or sender name are expanded | company name `$&` with the `modern` template: the subject keeps `{bedrijfsnaam}` | insert the company name, note and sender name literally | not executed; medium | Outreach.DollarCompanyNameKeepsPlaceholder | Outreach.BodyRendered |
