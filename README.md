# ntic-project conference platform: a Dafny model of its page logic

ntic-project is a Next.js front end for managing scientific events and
conferences. The event pages, the role-based dashboard, the author's
submission tracker, the profile editor, the sign-in flow (sign-up, login,
forgot-password and a six-digit code) and a few super-admin lists are all
React components. Each component holds its logic inline: list filters and
sorts, counters, validators, and small state machines driven by buttons.

This project models that logic, one Dafny module per page:

| module | page |
|---|---|
| `AuthorSubmissions` | the author's submission tracker: filtered and sorted view, counters, distinct events, withdraw, action buttons, load/seed/persist |
| `Dashboard` | the role-aware dashboard: tab access, tab strip, event table filter, overview figures, badges |
| `EnterCode` | the six-digit code entry: typing, keys, paste and submit |
| `ProfileEditing` | the profile editor: initials, validation, shallow comparison, edit/save/cancel, avatar guards |
| `EventPage` | the event page: `cx`, `formatCapacity`, session labels, the registration wizard and the submission modal |
| `CreateEvent` | the event-creation form: `update`, `validate`, the request body |
| `AdminEvents` | the super-admin event list and Suspend |
| `AdminUsers` | the super-admin user list and Enable/Disable |
| `Security` | the super-admin security flags |
| `Signup` | the sign-up form |
| `Login` | the login form |
| `Forgot` | the forgot-password form |
| `PaperSubmission` | the paper-submission form |
| `Navbar` | the navigation bar |

Four shared modules stand in for the JavaScript built-ins the pages use:

- `Text`: `trim`, ASCII `toLowerCase`/`toUpperCase`, `includes`, `join`, splitting on a space, `replace(/\D/g, "")`, number-to-text, and the e-mail pattern.
- `Lists`: `filter`, counts and sums.
- `Sorting`: a stable sort by a comparator (`Sorting.SortByStable`), and code-point order for titles.
- `Optional`: an option type.

Browser effects are not modelled as such:

- the answer to `confirm`, the current time and the outcome of the HTTP call are parameters;
- `localStorage` is a map field of the page's class;
- navigation targets and alerts are returned values or fields.

Each page's own types (roles, event statuses, submission statuses) are kept
as that page declares them. They differ from page to page.

A few behaviours of the code are worth noting; the model keeps each of them:

- On the paper-submission page, revision mode is `Boolean(revisionId)`. An empty `revision` parameter is present yet gives a first submission (`PaperSubmission.EmptyRevisionIsNotRevision`).
- `suspendEvent` asks for confirmation before looking for the id, so it asks even for an absent id. `withdraw`, by contrast, returns silently when no record has the id.
- The forgot-password form checks the e-mail pattern on the text as typed, without trimming. The profile page trims first. So the forgot form accepts fewer addresses (`Forgot.ForgotStricterThanProfile`, `Forgot.LeadingSpaceDiffers`).
- `withdraw`, `suspendEvent` and `toggleUser` rewrite every record whose id matches. Ids are not assumed unique.

## Model

| member | source | states |
|---|---|---|
| AuthorSubmissions.MetaOfDistinguishes | ntic-project/app/dashboard/author/page.tsx:79-96 | every submission status has its own badge caption and its own tone |
| AuthorSubmissions.MetaOf | ntic-project/app/dashboard/author/page.tsx:79-96 | `statusMeta`: the caption and tone of each status; `MetaOfDistinguishes` states that they tell the statuses apart |
| AuthorSubmissions.KeepAll | ntic-project/app/dashboard/author/page.tsx:342-352 | the filter keeps each record passing every criterion exactly as often as `items` holds it, drops the others, and keeps the survivors in their `items` order |
| AuthorSubmissions.Keep | ntic-project/app/dashboard/author/page.tsx:343-351 | the `filter` callback: every drop-down not on ALL matches and, for a non-blank query, the query occurs in the haystack; `FilteredMeetsCriteria` and `SearchDecides` state it |
| AuthorSubmissions.NewestFirstIsPreorder | ntic-project/app/dashboard/author/page.tsx:353 | the `updatedAt` comparator is total and transitive |
| AuthorSubmissions.Filtered | ntic-project/app/dashboard/author/page.tsx:340-354 | `filtered` is a permutation of the kept records, `updatedAt` never increases along it, and records of equal `updatedAt` keep their `items` order (the sort is stable) |
| AuthorSubmissions.FilteredSpec | ntic-project/app/dashboard/author/page.tsx:340-354 | the view holds a record iff `items` holds it and the record passes every criterion; the records of any one `updatedAt` appear in their `items` order |
| AuthorSubmissions.FilteredMeetsCriteria | ntic-project/app/dashboard/author/page.tsx:343-351 | every shown record comes from `items` and equals each criterion that is not ALL; for a non-blank query, the trimmed lower-cased query occurs in its lower-cased text |
| AuthorSubmissions.BlankSearchKeepsAll | ntic-project/app/dashboard/author/page.tsx:341-349 | a blank query with every criterion at ALL shows every record, as often as stored |
| AuthorSubmissions.SearchDecides | ntic-project/app/dashboard/author/page.tsx:349-351 | for a record passing the three criteria and a non-blank query, it is shown iff the query occurs in "title eventTitle track keywords" |
| AuthorSubmissions.CountIn | ntic-project/app/dashboard/author/page.tsx:329-337 | `items.filter(status in statuses).length`: never more than the number of records |
| AuthorSubmissions.CountersOf | ntic-project/app/dashboard/author/page.tsx:329-337 | the five counters; `ActiveExcludesWithdrawn`, `ReviewCountsBoth`, `ActiveSplits` and `SeedSpec` state how they relate |
| AuthorSubmissions.CountInUnion | ntic-project/app/dashboard/author/page.tsx:332 | counting two disjoint status sets together is the sum of counting them apart |
| AuthorSubmissions.CountInAll | ntic-project/app/dashboard/author/page.tsx:329-337 | every record has one of the seven statuses |
| AuthorSubmissions.ActiveExcludesWithdrawn | ntic-project/app/dashboard/author/page.tsx:330 | `total` plus the withdrawn records is the length of the list |
| AuthorSubmissions.ReviewCountsBoth | ntic-project/app/dashboard/author/page.tsx:332 | `review` counts UNDER_REVIEW plus SUBMITTED |
| AuthorSubmissions.ActiveSplits | ntic-project/app/dashboard/author/page.tsx:329-337 | `total` = drafts + review + revision + accepted + rejected |
| AuthorSubmissions.IdsOf | ntic-project/app/dashboard/author/page.tsx:322-326 | the ids of the event entries, position by position |
| AuthorSubmissions.TitleOrderIsPreorder | ntic-project/app/dashboard/author/page.tsx:325 | the title comparator is total and transitive |
| AuthorSubmissions.PermutedChoices | ntic-project/app/dashboard/author/page.tsx:325 | reordering the event entries keeps the same entries and the same ids |
| AuthorSubmissions.PermutedIdsDistinct | ntic-project/app/dashboard/author/page.tsx:323-325 | reordering keeps the event ids distinct |
| AuthorSubmissions.SortKeepsDescription | ntic-project/app/dashboard/author/page.tsx:322-326 | sorting the map's values by title keeps them a description of the events, now in title order |
| AuthorSubmissions.DistinctEvents | ntic-project/app/dashboard/author/page.tsx:322-326 | one entry per event id in `items`, distinct ids, each titled with the last title seen for it (later `Map.set` overwrites), in title order |
| AuthorSubmissions.WithdrawAll | ntic-project/app/dashboard/author/page.tsx:364-376 | same length; records with other ids unchanged; records with the id become WITHDRAWN, with both flags false, `updatedAt` = now, the rest of the record kept |
| AuthorSubmissions.WithdrawAbsent | ntic-project/app/dashboard/author/page.tsx:358-359 | withdrawing an id no record has changes nothing |
| AuthorSubmissions.WithdrawTwice | ntic-project/app/dashboard/author/page.tsx:364-376 | withdrawing again only moves `updatedAt` to the later time |
| AuthorSubmissions.WithdrawnOffersNothing | ntic-project/app/dashboard/author/page.tsx:666-683 | a withdrawn record offers neither Withdraw nor Edit nor Resubmit |
| AuthorSubmissions.WithdrawKeepsFlagsAgreeing | ntic-project/app/dashboard/author/page.tsx:51-52 | if `canEdit` implies DRAFT and `canResubmit` implies REVISION before a withdraw, they still do after it |
| AuthorSubmissions.ShowsWithdraw | ntic-project/app/dashboard/author/page.tsx:679-683 | Withdraw is offered unless the record is withdrawn or accepted; `WithdrawnOffersNothing` states that a withdraw removes it |
| AuthorSubmissions.ShowsEdit | ntic-project/app/dashboard/author/page.tsx:666-671 | Edit is offered for an editable draft; `WithdrawnOffersNothing` states that a withdraw removes it |
| AuthorSubmissions.ShowsResubmit | ntic-project/app/dashboard/author/page.tsx:672-677 | Resubmit is offered for a resubmittable record under revision; `WithdrawnOffersNothing` states that a withdraw removes it |
| AuthorSubmissions.RoutesSpec | ntic-project/app/dashboard/author/page.tsx:379-386 | different ids give different detail routes; the edit route is the detail route followed by the edit mode |
| AuthorSubmissions.ViewRoute | ntic-project/app/dashboard/author/page.tsx:384-386 | the detail page of a submission; `RoutesSpec` states that it is injective in the id |
| AuthorSubmissions.EditRoute | ntic-project/app/dashboard/author/page.tsx:379-382 | the detail page in edit mode; `RoutesSpec` states that it extends the detail route |
| AuthorSubmissions.SeedSpec | ntic-project/app/dashboard/author/page.tsx:247-309 | the four seeded records have flags agreeing with their statuses and counters 4/1/1/1/1 |
| AuthorSubmissions.CountInSeed | ntic-project/app/dashboard/author/page.tsx:247-309 | the seed holds one record each of UNDER_REVIEW, REVISION, ACCEPTED and DRAFT |
| AuthorSubmissions.Seed | ntic-project/app/dashboard/author/page.tsx:248-308 | the four seeded records; `SeedSpec` and `CountInSeed` state their flags and counts |
| AuthorSubmissions.Loaded | ntic-project/app/dashboard/author/page.tsx:235-313 | the stored list when it parses, the seed otherwise; `SubmissionTracker.Load` states the resulting state and store |
| AuthorSubmissions.SubmissionTracker.constructor | ntic-project/app/dashboard/author/page.tsx:225-226 | no items, not ready, the store as given |
| AuthorSubmissions.SubmissionTracker.Persist | ntic-project/app/dashboard/author/page.tsx:316-319 | once ready, `items` is written under `author_submissions_v1`; before that, nothing is written |
| AuthorSubmissions.SubmissionTracker.Load | ntic-project/app/dashboard/author/page.tsx:235-313 | stored records are used as they are and the store is unchanged; missing or unparsable text gives the seed, which is written back; afterwards the page is ready and the store mirrors `items` |
| AuthorSubmissions.SubmissionTracker.Withdraw | ntic-project/app/dashboard/author/page.tsx:357-377 | an absent id or a declined confirmation changes neither `items` nor the store; otherwise `items` becomes `WithdrawAll(items, id, now)`, and once loaded the store changes under its key only, to the new list |
| Dashboard.BadgesDistinguish | ntic-project/app/dashboard/page.tsx:128-167 | event badge captions tell the statuses apart; submission and payment badge tones are all different; event tones are shared by DRAFT/CLOSED and by CFP_OPEN/PUBLISHED |
| Dashboard.EventStatusMeta | ntic-project/app/dashboard/page.tsx:128-143 | the event badge table; `BadgesDistinguish` states which captions and tones differ |
| Dashboard.SubmissionStatusMeta | ntic-project/app/dashboard/page.tsx:145-156 | the submission badge table; `BadgesDistinguish` states that its tones differ |
| Dashboard.PaymentStatusMeta | ntic-project/app/dashboard/page.tsx:158-167 | the payment badge table; `BadgesDistinguish` states that its tones differ |
| Dashboard.TabAccess | ntic-project/app/dashboard/page.tsx:169-209 | SUPER_ADMIN sees the organizer's tabs plus users; users is SUPER_ADMIN's alone; every role sees overview; committee, author and participant see exactly their three tabs; speaker and workshop host see overview and program |
| Dashboard.CanSeeTab | ntic-project/app/dashboard/page.tsx:169-209 | `canSeeTab`: membership in the role's list; `TabAccess` states the lists |
| Dashboard.VisibleTabsSpec | ntic-project/app/dashboard/page.tsx:417-453 | the strip shows a tab iff the role may see it |
| Dashboard.VisibleTabs | ntic-project/app/dashboard/page.tsx:417-453 | the strip filtered by `canSeeTab`; `VisibleTabsSpec`, `VisibleTabsInOrder` and `CurrentUserTabs` state its contents and order |
| Dashboard.VisibleTabsInOrder | ntic-project/app/dashboard/page.tsx:417-453 | the strip keeps the declared order |
| Dashboard.TabInStrip | ntic-project/app/dashboard/page.tsx:417-452 | every tab is declared on the strip |
| Dashboard.CurrentUserTabs | ntic-project/app/dashboard/page.tsx:217-221 | for the page's fixed ORGANIZER, the strip is every tab but users, in order |
| Dashboard.FilteredEventsSpec | ntic-project/app/dashboard/page.tsx:375-388 | "all" with a blank search gives the list unchanged; an event is shown iff its status passes the drop-down and, for a non-blank search, the trimmed lower-cased query occurs in its lower-cased "title theme location" |
| Dashboard.FilteredEventsCounts | ntic-project/app/dashboard/page.tsx:375-388 | a blank search gives the status-filtered list unchanged, whatever the status; each event that passes both tests appears exactly as often as in the list, the others not at all |
| Dashboard.FilteredEvents | ntic-project/app/dashboard/page.tsx:375-388 | `filteredEvents`; `FilteredEventsSpec`, `FilteredEventsCounts` and `FilteredEventsInOrder` state its contents, multiplicities and order |
| Dashboard.FilteredEventsInOrder | ntic-project/app/dashboard/page.tsx:375-388 | the table keeps the order of the event list |
| Dashboard.OverviewBounds | ntic-project/app/dashboard/page.tsx:390-415 | ongoing + CFP-open never exceed the events, accepted + pending never exceed the submissions; with non-negative head-counts the participant total bounds each event's count |
| Dashboard.OverviewOf | ntic-project/app/dashboard/page.tsx:390-415 | the overview figures; `OverviewBounds` and `OverviewOfAppend` state their bounds and how one more event adds to them |
| Dashboard.OverviewOfAppend | ntic-project/app/dashboard/page.tsx:390-400 | one more event adds one to the total, its participants and submissions to the sums, and one to `ongoing` iff it is ONGOING |
| Dashboard.WorkshopBadge | ntic-project/app/dashboard/page.tsx:906 | the badge warns exactly when `registered >= capacity`, and is success otherwise |
| EnterCode.LastDigit | ntic-project/app/entercode/page.tsx:15-17 | a cell value: empty iff the typed text has no digit, otherwise its last digit |
| EnterCode.PasteCells | ntic-project/app/entercode/page.tsx:46-56 | six cells, each a digit or empty: cell i holds digit i of the paste when there is one |
| EnterCode.FillCells | ntic-project/app/entercode/page.tsx:54-56 | the `forEach` loop over a fresh six-cell array gives exactly `PasteCells` |
| EnterCode.PasteCellsFirstSix | ntic-project/app/entercode/page.tsx:52 | taking the first six digits does not change the cells |
| EnterCode.CodeEntry.constructor | ntic-project/app/entercode/page.tsx:6-9 | six empty cells, no message, no error |
| EnterCode.CodeEntry.HandleInput | ntic-project/app/entercode/page.tsx:11-23 | only cell `index` changes, to the last digit typed; focus moves to `index+1` iff a digit was typed and `index < 5` |
| EnterCode.CodeEntry.HandleKeydown | ntic-project/app/entercode/page.tsx:25-41 | Backspace on an empty cell and ArrowLeft move focus left, ArrowRight moves it right, never leaving 0..5; the code is unchanged |
| EnterCode.CodeEntry.HandlePaste | ntic-project/app/entercode/page.tsx:43-61 | a paste without digits changes nothing; otherwise the cells become `PasteCells` of its digits and focus moves to min(n, 5) |
| EnterCode.CodeEntry.HandleSubmit | ntic-project/app/entercode/page.tsx:63-76 | error "Please enter all 6 digits" iff the joined code is not six digits, success message otherwise |
| EnterCode.JoinedCellsAreDigits | ntic-project/app/entercode/page.tsx:66 | joined cells are all digits |
| EnterCode.CellLengths | ntic-project/app/entercode/page.tsx:66-68 | joined cells are at most one character per cell, and exactly one per cell iff no cell is empty |
| EnterCode.AcceptedIffFilled | ntic-project/app/entercode/page.tsx:66-75 | six valid cells are accepted iff none is empty |
| EnterCode.CodeAccepted | ntic-project/app/entercode/page.tsx:66-68 | the joined cells are six digits; `AcceptedIffFilled` and `PasteThenSubmit` state when |
| EnterCode.PasteThenSubmit | ntic-project/app/entercode/page.tsx:43-75 | after a paste with digits, submit succeeds iff it had at least six digits |
| ProfileEditing.Set | ntic-project/app/profilepage/page.tsx:154-157 | the named field takes the value; every other field is unchanged |
| ProfileEditing.RunLength | ntic-project/app/profilepage/page.tsx:34 | the length of the leading run of non-whitespace |
| ProfileEditing.Words | ntic-project/app/profilepage/page.tsx:34 | `trim().split(/\s+/).filter(Boolean)`: non-empty words without whitespace; `WordsAreMaximalRuns` states that they are the maximal runs |
| ProfileEditing.WordsAreMaximalRuns | ntic-project/app/profilepage/page.tsx:34 | each word stands in the name with whitespace or an end of the name on both sides, and the words come in order, apart from each other |
| ProfileEditing.WordsKeepInk | ntic-project/app/profilepage/page.tsx:34 | the words together hold every non-whitespace character of the name, in order |
| ProfileEditing.WordsEmptyIffBlank | ntic-project/app/profilepage/page.tsx:34-35 | there are no words iff the name is blank |
| ProfileEditing.InitialsOfBlank | ntic-project/app/profilepage/page.tsx:33-35 | a blank name gives "??" |
| ProfileEditing.InitialsOfWords | ntic-project/app/profilepage/page.tsx:36-38 | one word gives its upper-cased first letter; more words give the upper-cased first letters of the first and last words |
| ProfileEditing.InitialsOfName | ntic-project/app/profilepage/page.tsx:33-39 | for a non-blank name: the upper-cased first character of the first word, and for several words also that of the last word, read at the word starts in the name |
| ProfileEditing.Initials | ntic-project/app/profilepage/page.tsx:33-39 | `getInitials`; `InitialsOfBlank` and `InitialsOfName` state its value |
| ProfileEditing.BlankError | ntic-project/app/profilepage/page.tsx:82-89 | a required field's message is raised iff its value is blank |
| ProfileEditing.ErrorsSpec | ntic-project/app/profilepage/page.tsx:80-93 | a field has an error iff it is a blank required field, an e-mail not matching the pattern once trimmed, or a biography longer than 500 once trimmed; the e-mail message is "required" when blank, "valid" otherwise |
| ProfileEditing.IsValidEmail | ntic-project/app/profilepage/page.tsx:41-44 | the trimmed text matches `local@domain.tld`; `EmailError` and `NoErrorsMeansComplete` use it |
| ProfileEditing.Errors | ntic-project/app/profilepage/page.tsx:81-94 | the `errors` map; `ErrorsSpec` states when each field has an entry and which message |
| ProfileEditing.CanSave | ntic-project/app/profilepage/page.tsx:96 | editing, dirty and no errors; `SettledNotDirty` and `ProfileEditor.HandleSave` rely on it |
| ProfileEditing.FieldErrorSpec | ntic-project/app/profilepage/page.tsx:81-92 | the per-field error holds iff the field fails, with the e-mail message as above |
| ProfileEditing.EmailError | ntic-project/app/profilepage/page.tsx:83-85 | the e-mail format is looked at only when the e-mail is not blank |
| ProfileEditing.OtherFieldError | ntic-project/app/profilepage/page.tsx:82-92 | a non-e-mail field fails iff it is blank and required, or it is an over-long biography |
| ProfileEditing.NoErrorsMeansComplete | ntic-project/app/profilepage/page.tsx:80-93 | no errors means a valid e-mail and no blank required field |
| ProfileEditing.ShallowEqualSpec | ntic-project/app/profilepage/page.tsx:46-60 | the comparison is reflexive, symmetric and transitive, and equates exactly the profiles equal once a missing avatar is read as "" |
| ProfileEditing.ShallowEqual | ntic-project/app/profilepage/page.tsx:46-60 | `shallowEqualProfile`; `ShallowEqualSpec` states what it equates |
| ProfileEditing.RoleLabel | ntic-project/app/profilepage/page.tsx:181 | the trimmed role, or "user" when it is blank; never empty |
| ProfileEditing.AvatarCheck | ntic-project/app/profilepage/page.tsx:161-177 | the file is read iff there is one, its type starts with "image/" and its size is at most 2 MB; otherwise no file or one of the two alerts |
| ProfileEditing.ProfileEditor.constructor | ntic-project/app/profilepage/page.tsx:63-71 | not editing, saved and draft the initial profile, no status |
| ProfileEditing.ProfileEditor.HandleEdit | ntic-project/app/profilepage/page.tsx:120-124 | the draft becomes the saved profile, editing on, status cleared |
| ProfileEditing.ProfileEditor.HandleSave | ntic-project/app/profilepage/page.tsx:126-141 | nothing unless `canSave`; otherwise saved := draft, editing off, status "saved" |
| ProfileEditing.ProfileEditor.HandleCancel | ntic-project/app/profilepage/page.tsx:143-152 | a dirty draft with a declined confirmation changes nothing; otherwise the draft returns to the saved profile and editing stops |
| ProfileEditing.ProfileEditor.UpdateField | ntic-project/app/profilepage/page.tsx:154-157 | only the named draft field changes; status cleared |
| ProfileEditing.SettledNotDirty | ntic-project/app/profilepage/page.tsx:75-95 | outside editing the draft equals the saved profile, so nothing can be saved |
| ProfileEditing.UpdateSameValueKeepsEquality | ntic-project/app/profilepage/page.tsx:46-60 | writing a field's own value back leaves the draft equal to the original |
| EventPage.Names | ntic-project/app/event/page.tsx:63-65 | the class strings of the arguments, position by position |
| EventPage.Cx | ntic-project/app/event/page.tsx:63-65 | the result is empty iff no argument is truthy |
| EventPage.KeptNames | ntic-project/app/event/page.tsx:64 | joining the truthy class strings is empty iff there are none |
| EventPage.CxRoundTrip | ntic-project/app/event/page.tsx:63-65 | for class strings without spaces, splitting the result on spaces gives exactly the truthy arguments, in order |
| EventPage.KeptHaveNoSpace | ntic-project/app/event/page.tsx:64 | filtering keeps the class strings free of spaces |
| EventPage.RoundedPercentNearest | ntic-project/app/event/page.tsx:68 | `Math.round(100*current/d)` is the integer within one half of the ratio, halves rounded up |
| EventPage.RoundedPercent | ntic-project/app/event/page.tsx:69 | `Math.round(current / d * 100)`; `RoundedPercentNearest` states it is the nearest integer, halves up |
| EventPage.FormatCapacity | ntic-project/app/event/page.tsx:67-70 | `pct` is at most 100 and is the rounded percentage over max(1, max); the label is "current/max" with the original `max` |
| EventPage.CapacityBounds | ntic-project/app/event/page.tsx:67-70 | for a non-negative count the gauge is in 0..100, full once the count reaches the capacity, empty at 0 |
| EventPage.NonPositiveMaxDividesByOne | ntic-project/app/event/page.tsx:68 | a zero or negative capacity divides like 1 |
| EventPage.LabelDetermines | ntic-project/app/event/page.tsx:69 | equal labels come from equal counts and equal capacities |
| EventPage.SessionTypeLabel | ntic-project/app/event/page.tsx:72-83 | each session type has one of the four labels |
| EventPage.SessionTypeLabelInjective | ntic-project/app/event/page.tsx:72-83 | different session types have different labels |
| EventPage.EventDetails.constructor | ntic-project/app/event/page.tsx:314-321 | both modals closed, step "form", no method, a regular ticket |
| EventPage.EventDetails.HandleRegister | ntic-project/app/event/page.tsx:462-466 | the wizard opens at "form" with no method |
| EventPage.EventDetails.CloseRegister | ntic-project/app/event/page.tsx:832-881 | every close path hides the wizard and resets it to "form" with no method |
| EventPage.EventDetails.Continue | ntic-project/app/event/page.tsx:850 | "form" moves to "payment" |
| EventPage.EventDetails.SelectTicket | ntic-project/app/event/page.tsx:904-917 | the chosen ticket is recorded |
| EventPage.EventDetails.SelectMethod | ntic-project/app/event/page.tsx:940-961 | the chosen payment method is recorded |
| EventPage.EventDetails.Back | ntic-project/app/event/page.tsx:859-865 | "payment" moves back to "form" and the method is cleared |
| EventPage.EventDetails.Confirm | ntic-project/app/event/page.tsx:867-868 | without a method nothing happens; with one, "payment" moves to "success" |
| EventPage.EventDetails.OpenSubmit | ntic-project/app/event/page.tsx:600-611 | the submission modal can be opened only while the call for papers is open |
| EventPage.EventDetails.CloseSubmit | ntic-project/app/event/page.tsx:999-1020 | the submission modal is hidden |
| CreateEvent.Get | ntic-project/app/dashboard/organizer/events/create/page.tsx:32-37 | every key reads a value of its field's type |
| CreateEvent.WithSpec | ntic-project/app/dashboard/organizer/events/create/page.tsx:32-37 | `update` stores the value under its key and leaves every other key unchanged |
| CreateEvent.With | ntic-project/app/dashboard/organizer/events/create/page.tsx:32-37 | `{ ...prev, [key]: value }`; `WithSpec` states it |
| CreateEvent.Validate | ntic-project/app/dashboard/organizer/events/create/page.tsx:39-51 | passes iff the four required fields are filled and, with the call for papers enabled, both its dates; the "required fields" alert is raised iff a required field is empty |
| CreateEvent.CfpDatesIgnoredWhenDisabled | ntic-project/app/dashboard/organizer/events/create/page.tsx:45-48 | with the call for papers disabled its dates do not affect validation |
| CreateEvent.BuildPayload | ntic-project/app/dashboard/organizer/events/create/page.tsx:58-80 | `max_participants` and `registration_deadline` are null iff their field is empty; the CFP dates are null iff the call for papers is disabled |
| CreateEvent.FormOf | ntic-project/app/dashboard/organizer/events/create/page.tsx:58-80 | the form read back from a payload has the payload's CFP flag |
| CreateEvent.PayloadRoundTrip | ntic-project/app/dashboard/organizer/events/create/page.tsx:58-80 | the payload keeps every form field, except the dates of a disabled call for papers |
| CreateEvent.SamePayload | ntic-project/app/dashboard/organizer/events/create/page.tsx:58-80 | two forms give the same payload iff they agree on everything but the dates of a disabled call for papers |
| CreateEvent.EventCreation.constructor | ntic-project/app/dashboard/organizer/events/create/page.tsx:14-30 | the empty draft form, not loading |
| CreateEvent.EventCreation.Update | ntic-project/app/dashboard/organizer/events/create/page.tsx:32-37 | the form becomes the form with that key updated |
| CreateEvent.EventCreation.HandleSubmit | ntic-project/app/dashboard/organizer/events/create/page.tsx:53-94 | a failed validation alerts and posts nothing; otherwise the payload is posted, then success goes to "/dashboard/events" and a failure alerts its message or the generic one; not loading afterwards |
| AdminEvents.StatusMeta | ntic-project/app/dashboard/admin/events/page.tsx:47-62 | DRAFT falls to the default "Draft" badge; the danger tone is SUSPENDED's alone |
| AdminEvents.StatusCaptionsDistinct | ntic-project/app/dashboard/admin/events/page.tsx:47-62 | different statuses have different captions |
| AdminEvents.Suspended | ntic-project/app/dashboard/admin/events/page.tsx:119-123 | same length; matching events become SUSPENDED with every other field kept; other events unchanged |
| AdminEvents.SuspendedKeepsIds | ntic-project/app/dashboard/admin/events/page.tsx:119-123 | ids never change; matching events differ from before only in their status, which is SUSPENDED |
| AdminEvents.SuspendAbsent | ntic-project/app/dashboard/admin/events/page.tsx:119-123 | an absent id changes nothing |
| AdminEvents.SuspendIdempotent | ntic-project/app/dashboard/admin/events/page.tsx:119-123 | suspending twice is suspending once |
| AdminEvents.SuspendCommutes | ntic-project/app/dashboard/admin/events/page.tsx:119-123 | suspending two ids gives the same list in either order |
| AdminEvents.SuspendWithdrawsOffer | ntic-project/app/dashboard/admin/events/page.tsx:204-211 | after a suspension the Suspend button is offered exactly for the events with other ids that offered it before |
| AdminEvents.SuspendOffered | ntic-project/app/dashboard/admin/events/page.tsx:204 | the Suspend button's guard; `SuspendWithdrawsOffer` states how a suspension changes it |
| AdminEvents.EventList.constructor | ntic-project/app/dashboard/admin/events/page.tsx:84-113 | the three mock events |
| AdminEvents.EventList.SuspendEvent | ntic-project/app/dashboard/admin/events/page.tsx:116-124 | a declined confirmation changes nothing; an accepted one suspends the matching events |
| AdminUsers.RoleMeta | ntic-project/app/dashboard/admin/users/page.tsx:44-57 | PARTICIPANT falls to the default "Participant" badge |
| AdminUsers.RoleKindsDistinct | ntic-project/app/dashboard/admin/users/page.tsx:44-57 | each role has its own badge tone |
| AdminUsers.Toggled | ntic-project/app/dashboard/admin/users/page.tsx:106-110 | same length; matching users have `active` negated; other users unchanged |
| AdminUsers.ToggledFlipsOnlyActive | ntic-project/app/dashboard/admin/users/page.tsx:106-110 | only `active` changes, and only on matching users |
| AdminUsers.ToggleTwice | ntic-project/app/dashboard/admin/users/page.tsx:108 | toggling the same id twice restores the list |
| AdminUsers.ToggleAbsent | ntic-project/app/dashboard/admin/users/page.tsx:106-110 | an absent id changes nothing |
| AdminUsers.StatusCaption | ntic-project/app/dashboard/admin/users/page.tsx:181 | "Active" iff active, "Disabled" otherwise |
| AdminUsers.ToggleCaption | ntic-project/app/dashboard/admin/users/page.tsx:193 | "Disable" iff active, "Enable" otherwise |
| AdminUsers.ToggleSwapsCaptions | ntic-project/app/dashboard/admin/users/page.tsx:181-193 | after a toggle the matching user's status and button captions swap |
| AdminUsers.UserList.constructor | ntic-project/app/dashboard/admin/users/page.tsx:74-103 | the four mock users |
| AdminUsers.UserList.ToggleUser | ntic-project/app/dashboard/admin/users/page.tsx:105-111 | the list becomes the toggled list |
| Security.Flipped | ntic-project/app/dashboard/admin/security/page.tsx:47-49 | the named setting is negated and the other two are unchanged |
| Security.Get | ntic-project/app/dashboard/admin/security/page.tsx:48 | `prev[key]`; `SettingsExtensional`, `Flipped` and `FlipTwice` are stated through it |
| Security.SettingsExtensional | ntic-project/app/dashboard/admin/security/page.tsx:41-45 | settings agreeing on the three keys are equal |
| Security.FlipTwice | ntic-project/app/dashboard/admin/security/page.tsx:48 | toggling the same key twice restores the settings |
| Security.FlipCommutes | ntic-project/app/dashboard/admin/security/page.tsx:48 | toggling two keys gives the same settings in either order |
| Security.SwitchCaption | ntic-project/app/dashboard/admin/security/page.tsx:185 | "ON" iff the flag holds, "OFF" otherwise |
| Security.SecurityPage.constructor | ntic-project/app/dashboard/admin/security/page.tsx:41-45 | registrations open, maintenance off, no forced reset |
| Security.SecurityPage.Toggle | ntic-project/app/dashboard/admin/security/page.tsx:47-49 | the settings become the flipped settings |
| Signup.SignupForm.constructor | ntic-project/app/signup/page.tsx:7-12 | empty fields, not remembered, no message |
| Signup.SignupForm.Signup | ntic-project/app/signup/page.tsx:14-26 | an empty field is reported first; then a password under six characters; otherwise the message is cleared and the success alert raised; the length message never comes with an empty password |
| Login.LoggedInUser | ntic-project/app/login/page.tsx:20-28 | the stored record is named "Hamza", has the typed e-mail and role ORGANIZER |
| Login.LoginForm.constructor | ntic-project/app/login/page.tsx:6-9 | empty fields, not remembered, no message; the store and location as given |
| Login.LoginForm.Login | ntic-project/app/login/page.tsx:11-36 | an empty field is reported and nothing stored; only user@gmail.com/123456 stores the user under "user", clears the message and goes to "/"; any other pair is reported as invalid and nothing is stored |
| Navbar.DashboardLink | ntic-project/app/components/Navbar.tsx:47-52 | no user or a role other than SUPER_ADMIN/ORGANIZER gives "/"; SUPER_ADMIN gives "/dashboard/admin"; ORGANIZER gives "/dashboard/organizer" |
| Navbar.EntryIffDashboard | ntic-project/app/components/Navbar.tsx:115-116 | the Dashboard entry is shown iff its link leads to a dashboard |
| Navbar.ShowsDashboardEntry | ntic-project/app/components/Navbar.tsx:115-116 | the Dashboard entry's guard; `EntryIffDashboard` states it |
| Navbar.InitialUser | ntic-project/app/components/Navbar.tsx:20-23 | the stored "user" record when there is one, otherwise nobody |
| Navbar.LoginLeadsToOrganizerDashboard | ntic-project/app/login/page.tsx:20-28 | after a successful login the bar shows the Dashboard entry, linked to "/dashboard/organizer" |
| Navbar.NavigationBar.constructor | ntic-project/app/components/Navbar.tsx:20-24 | the user read from the store, menu closed |
| Navbar.NavigationBar.ToggleMenu | ntic-project/app/components/Navbar.tsx:89 | the avatar button flips the menu open or closed |
| Navbar.NavigationBar.CloseMenu | ntic-project/app/components/Navbar.tsx:107-119 | following a menu link leaves the menu closed |
| Navbar.NavigationBar.Logout | ntic-project/app/components/Navbar.tsx:41-45 | the "user" key is removed, nobody is signed in, the menu is closed |
| Forgot.ForgotForm.constructor | ntic-project/app/forgot/page.tsx:8 | an empty field |
| Forgot.ForgotForm.HandleSubmit | ntic-project/app/forgot/page.tsx:11-26 | an empty e-mail alerts and stays; one not matching the pattern as typed alerts and stays; a matching one goes to "/entercode" |
| Forgot.ForgotStricterThanProfile | ntic-project/app/forgot/page.tsx:19 | every address accepted here is accepted by the profile page too |
| Forgot.TrimUntouched | ntic-project/app/profilepage/page.tsx:43 | a string with no whitespace at either end is its own trim |
| Forgot.LeadingSpaceDiffers | ntic-project/app/forgot/page.tsx:19 | " a@b.co" is refused here but accepted on the profile page, which trims first |
| Forgot.TrimLeading | ntic-project/app/profilepage/page.tsx:43 | trimming " a@b.co" drops its leading space |
| PaperSubmission.SubmitPaper.constructor | ntic-project/app/dashboard/author/certificates/page.tsx:22-32 | empty fields, an oral paper, no file; the revision parameter as given |
| PaperSubmission.SubmitPaper.HandleSubmit | ntic-project/app/dashboard/author/certificates/page.tsx:36-63 | a missing title, abstract or file alerts and stays, whatever keywords and type hold; otherwise the alert names the mode and the browser goes to "/dashboard/author/submissions" |
| PaperSubmission.EmptyRevisionIsNotRevision | ntic-project/app/dashboard/author/certificates/page.tsx:34 | an empty `revision` parameter gives a first submission; a non-empty one a revision |
| PaperSubmission.IsRevision | ntic-project/app/dashboard/author/certificates/page.tsx:34 | `Boolean(revisionId)`; `EmptyRevisionIsNotRevision` states it on an empty and a non-empty id |
| Text.Trim | ntic-project/app/profilepage/page.tsx:43 | `trim()`: the middle of the string between a whitespace prefix and a whitespace suffix, neither end of it whitespace |
| Text.TrimEmptyIffBlank | ntic-project/app/profilepage/page.tsx:82 | the trim is empty iff the string is all whitespace |
| Text.ToLower | ntic-project/app/dashboard/author/page.tsx:341 | `toLowerCase()`: same length, each character lowered |
| Text.Join | ntic-project/app/event/page.tsx:64 | `join`: empty for no parts, the part itself for one, and the parts' lengths plus the separators otherwise |
| Text.SplitJoin | ntic-project/app/event/page.tsx:64 | splitting a space-join of space-free parts on spaces gives the parts back |
| Text.DigitsOnly | ntic-project/app/entercode/page.tsx:15 | `replace(/\D/g, "")`: only digits, each taken from the input, never longer, unchanged on digits |
| Text.DigitsOnlyChar | ntic-project/app/entercode/page.tsx:15 | a digit is kept and any other character contributes nothing; with `DigitsOnlyAppend` this fixes the result for every input |
| Text.DigitsOnlyAppend | ntic-project/app/entercode/page.tsx:15 | the digits of a concatenation are the concatenation of the digits |
| Text.DigitsOnlyTrim | ntic-project/app/entercode/page.tsx:45-46 | trimming before keeping the digits changes nothing |
| Text.NatToDecimal | ntic-project/app/event/page.tsx:69 | a decimal numeral: all digits, leading zero only for zero |
| Text.NatToDecimalValue | ntic-project/app/event/page.tsx:69 | the numeral denotes the number it was written from |
| Text.IntToDecimal | ntic-project/app/event/page.tsx:69 | a non-empty numeral without '/', starting with '-' exactly for negative numbers |
| Text.IntToDecimalValue | ntic-project/app/event/page.tsx:69 | the signed numeral denotes the integer it was written from |
| Sorting.SortBy | ntic-project/app/dashboard/author/page.tsx:353 | sorting is a permutation |
| Sorting.SortBySorted | ntic-project/app/dashboard/author/page.tsx:353 | sorting by a total preorder gives a list ordered by it |
| Sorting.SortByStable | ntic-project/app/dashboard/author/page.tsx:353 | the sort is stable: elements the comparator ranks alike keep their input order |
| Sorting.InsertByKeepsTies | ntic-project/app/dashboard/author/page.tsx:353 | an inserted element goes ahead of every element ranked like it |
| Sorting.PermutationKeepsNoDuplicates | ntic-project/app/dashboard/author/page.tsx:325 | reordering a duplicate-free list keeps it duplicate-free |
| Sorting.LexLeTotal | ntic-project/app/dashboard/author/page.tsx:325 | any two titles are ordered one way or the other |
| Sorting.LexLeTransitive | ntic-project/app/dashboard/author/page.tsx:325 | the title order is transitive |
| Lists.FilterMembers | ntic-project/app/dashboard/page.tsx:376-387 | `filter` keeps exactly the members satisfying the predicate |
| Lists.FilterIsSubsequence | ntic-project/app/dashboard/page.tsx:376-387 | `filter` keeps the original order |
| Lists.FilterMultiset | ntic-project/app/dashboard/author/page.tsx:342-352 | `filter` keeps each element satisfying the predicate exactly as often as the list holds it |
| Lists.FilterFilter | ntic-project/app/dashboard/author/page.tsx:340-354 | filtering twice is filtering once by both predicates |
| Lists.FilterAppend | ntic-project/app/dashboard/page.tsx:400 | filtering a concatenation is concatenating the filtered parts |
| Lists.CountDisjoint | ntic-project/app/dashboard/page.tsx:400-404 | counts of two exclusive predicates add up to at most the length |
| Lists.SumBoundsTerms | ntic-project/app/dashboard/page.tsx:392-395 | a sum of non-negative terms is at least each term |

## Left out

- Rendering, styling, icons, and the class and colour tokens (`badgeClass`, `typePill`, `sessionTypePill`). Only captions and tones are modelled.
- Case mapping is ASCII-only. `toLowerCase`/`toUpperCase` outside A–Z are not modelled.
- Strings are sequences of characters. JavaScript lengths count UTF-16 code units, so lengths differ for characters outside the Basic Multilingual Plane (the biography limit, the e-mail pattern, the six-cell code).
- `localeCompare` is replaced by code-point lexicographic order. Only its totality and transitivity are used.
- ISO date strings and `new Date(..).getTime()` are replaced by integer timestamps. An unparsable date (NaN in the comparator) is not modelled. `isoNow()` is a `now` parameter, and date formatting is left out.
- Local storage holds parsed values. `JSON.parse`/`JSON.stringify` are not modelled; unparsable stored text is an `Unparsable` entry. The Navbar's initial read assumes a stored "user" record parses; a garbled one would throw in the page.
- AuthorSubmissions.WithdrawAll: the page calls `isoNow()` once per matching record, so records sharing an id may get timestamps a few milliseconds apart. The model gives them all the one `now`.
- AuthorSubmissions.SubmissionTracker.Load: the seed is written twice, by the load effect and then by the persist effect. The model writes it once, since both writes store the same value.
- `confirm`, `alert`, `router.push` and `window.location` are parameters or returned values. Focus through refs is an index field. The initial focus effect and the click-outside handler of the Navbar menu are left out.
- FileReader: the avatar's data URL is not computed; only the guards in front of it are (`ProfileEditing.AvatarCheck`).
- Timers and listeners: the keyboard shortcut listener and the `setTimeout` clearing of the saved status are left out.
- `apiFetch`: the HTTP call is an outcome parameter. The `loading` flag's value during the call is not observable in the model.
- `Number(maxParticipants)`: the conversion is kept as the text it converts (`CreateEvent.Numeric`).
- The `console.log` of the paper-submission form.
- The certificates page reads the event id from the URL only for its log; that is left out.
- `resubmitToEvent` and `goToNewSubmission`: the other two navigation targets of the author page, whose URL encoding is not modelled.
- The event page's active tab, its mock data, and the program/speaker lists are left out.
- The dashboard's mock lists are left out, apart from their types, as are the tab, search and filter inputs that the page sets straight from input.
- Modal buttons: `EventPage.EventDetails` Continue, SelectTicket, SelectMethod, Back and Confirm require the step on which the page renders their button, since the page only calls them there.
- `canSeeTab`'s role lists are modelled as sets; only membership in them is ever asked.
- `Dashboard.OverviewOfAppend` states the effect of one more event on the totals and on `ongoing` only. The other counts follow the same `Count` definition.
- The stats page, with floating point over hard-coded constants, and `lib/api.ts`, which is network I/O, are not part of this model.
- The static components (hero, features, footer, drop-downs, event card, home page, admin home) are not part of this model.
- `formatCapacity` rounds exactly, half up. Floating-point artefacts of `Math.round(current / max * 100)` are not modelled.
