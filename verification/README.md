# Yodda core, modelled in Dafny

Yodda is a small personal app with two halves:

- **Links.** The user saves web links into named folders. A reserved folder with id `"default"` ("General") exists from the start.
- **Subscriptions.** The user records recurring subscriptions. The app shows the monthly and yearly spend, a breakdown by category, and the renewals due in the coming week.

State lives in three client-side stores:

- the link store (folders and links);
- the subscription store;
- the profile store.

Screens read the stores and call their actions. This project models the following as pure Dafny functions over immutable values:

- the three stores' actions;
- the computations the screens perform on store data:
  - search and folder filtering;
  - the folder-name lookup;
  - link counts;
  - the rename and create-folder handlers;
  - the two add forms;
  - the spending totals;
  - the category breakdown and its bars;
  - upcoming renewals.

It then proves what the app relies on.

Things the running app gets from its environment are parameters:

- fresh ids (`uuidv4()` from the `uuid` package);
- timestamps and the current instant;
- date parsing (`new Date(s).getTime()`) and `parseFloat`;
- translated labels.

Amounts are `real`, so floating-point rounding is not modelled.

## Layout

| file | module | models |
|---|---|---|
| `seqs.dfy` | `Seqs` | `Option`, `filter`, the rewriting `map`, sums (defined from the back), subsequences |
| `sorting.dfy` | `Sorting` | the stable `Array.prototype.sort` with a key-difference comparator |
| `text.dfy` | `Text` | `trim`, ASCII `toLowerCase`, `includes` |
| `link_store.dfy` | `LinkStore` | the folder and link store |
| `sub_store.dfy` | `SubStore` | the subscription store |
| `user_store.dfy` | `UserStore` | the profile store |
| `spending.dfy` | `Spending` | the spending dashboard's totals, category breakdown, bars and renewals |
| `subs_home.dfy` | `SubsHome` | the subscriptions home screen's totals and ordering |
| `links_home.dfy` | `LinksHome` | link search and folder filter, and folder names on cards |
| `folders_home.dfy` | `FoldersHome` | link counts, the rename handler, and delete buttons |
| `folder_selector.dfy` | `FolderSelector` | creating a folder from the picker |
| `add_link_modal.dfy` | `AddLinkModal` | the add-link dialog: form reset, submit, and its interplay with the picker |
| `add_sub_form.dfy` | `AddSubForm` | the add-subscription form: options, reset, submit |

## Model

| member | source | states |
|---|---|---|
| LinkStore.Init | src/features/links/useLinkStore.ts:37-40 | A fresh store holds exactly one folder, the reserved `"default"`/"General" at position 0, and no links |
| LinkStore.AddFolder | src/features/links/useLinkStore.ts:42-51 | Adding a folder appends one folder and returns its id. The new folder's position is the folder count before the call. Existing folders and all links are untouched |
| LinkStore.AddFolderKeepsPositions | src/features/links/useLinkStore.ts:42-51 | As long as folders are only added, starting from a fresh store, each folder's position equals its index, so positions strictly increase in creation order |
| LinkStore.PositionReusedAfterDelete | src/features/links/useLinkStore.ts:42-69 | Positions are counts, not sequence numbers: after add a, add b, delete a, add c, the folders b and c share position 2 |
| LinkStore.UpdateFolder | src/features/links/useLinkStore.ts:53-57 | Renaming changes only the name, and only of folders with that id. Order, ids, positions, creation times and links are unchanged |
| LinkStore.UpdateFolderMissing | src/features/links/useLinkStore.ts:53-57 | Renaming an id that no folder has leaves the store identical |
| LinkStore.UpdateFolderLastWins | src/features/links/useLinkStore.ts:53-57 | Two renames of one folder are equivalent to the second alone |
| LinkStore.DeleteFolder | src/features/links/useLinkStore.ts:59-69 | After deleting a folder: no folder has that id, and no link is filed under it (the cascade). Every other folder and link keeps its multiplicity and relative order. The reserved id is not special-cased |
| LinkStore.AddFolderThenDelete | src/features/links/useLinkStore.ts:42-69 | Deleting a just-added folder, which has a fresh id and no links, restores the store exactly |
| LinkStore.ReorderFolders | src/features/links/useLinkStore.ts:71-73 | The caller's list becomes the folder list verbatim, positions included. Links are untouched |
| LinkStore.ReorderKeepsFolders | src/features/links/useLinkStore.ts:71-73 | Reordering with a permutation of the current list keeps exactly the same folder ids present and leaves the links alone |
| LinkStore.AddLink | src/features/links/useLinkStore.ts:75-82 | A new link is put in front of the others with the caller's fields verbatim, the fresh id and the timestamp. The older links follow unchanged; folders are untouched |
| LinkStore.MergeLink | src/features/links/useLinkStore.ts:86 | Object spread: each field the patch carries overrides; every other field is kept |
| LinkStore.UpdateLink | src/features/links/useLinkStore.ts:84-88 | Links with that id are replaced in place by their merge with the patch. All other links and all folders are unchanged |
| LinkStore.UpdateLinkMissing | src/features/links/useLinkStore.ts:84-88 | Updating an absent id leaves the store identical |
| LinkStore.UpdateLinkIdempotent | src/features/links/useLinkStore.ts:84-88 | Applying the same patch twice equals applying it once |
| LinkStore.DeleteLink | src/features/links/useLinkStore.ts:90-94 | After the delete no link has that id. Other links keep their multiplicity and order; folders are untouched |
| LinkStore.DeleteLinkMissing | src/features/links/useLinkStore.ts:90-94 | Deleting an absent id leaves the store identical |
| LinkStore.AddLinkThenDelete | src/features/links/useLinkStore.ts:75-94 | Deleting a just-added link by its fresh id restores the store exactly |
| SubStore.EnumerationsAreClosed | src/features/subs/useSubStore.ts:5-6 | There are exactly six categories and four billing cycles |
| SubStore.InitHoldsNone | src/features/subs/useSubStore.ts:33 | A fresh store holds no subscription; the first one added is the only one, under its fresh id |
| SubStore.AddSubscription | src/features/subs/useSubStore.ts:35-42 | A new record is put first with the caller's fields verbatim, the fresh id and the timestamp. The older records follow unchanged |
| SubStore.MergeSubscription | src/features/subs/useSubStore.ts:47 | Object spread over all twelve fields: each field present in the patch wins; each absent one is kept |
| SubStore.UpdateSubscription | src/features/subs/useSubStore.ts:44-50 | Records with that id become their merge with the patch; all other records are unchanged, in place |
| SubStore.UpdateSubscriptionMissing | src/features/subs/useSubStore.ts:44-50 | Updating an absent id leaves the list identical |
| SubStore.UpdateSubscriptionIdempotent | src/features/subs/useSubStore.ts:44-50 | Applying the same patch twice equals applying it once |
| SubStore.DeleteSubscription | src/features/subs/useSubStore.ts:52-56 | No record with that id remains. Other records keep their multiplicity and order |
| SubStore.DeleteSubscriptionMissing | src/features/subs/useSubStore.ts:52-56 | Deleting an absent id leaves the list identical |
| SubStore.AddThenDeleteSubscription | src/features/subs/useSubStore.ts:35-56 | Deleting a just-added record by its fresh id restores the list exactly |
| UserStore.InitHoldsNone | src/lib/useUserStore.ts:22-26 | A fresh store holds no profile (`null`), so the first update is stored as the whole profile |
| UserStore.SetProfile | src/lib/useUserStore.ts:23 | The given profile replaces whatever was stored, including nothing |
| UserStore.Merge | src/lib/useUserStore.ts:26 | Object spread, key by key: a key present in the update wins; an absent key keeps the stored value |
| UserStore.UpdateProfile | src/lib/useUserStore.ts:24-27 | The result always holds a profile. With none stored it is the update itself; otherwise it is the stored profile merged with the update |
| UserStore.SetThenUpdate | src/lib/useUserStore.ts:23-27 | After a set, an update merges into the profile just set, whatever was stored before; an empty update keeps it |
| UserStore.UpdateProfileIdempotent | src/lib/useUserStore.ts:24-27 | The same update applied twice equals applying it once |
| UserStore.UpdateProfileEmpty | src/lib/useUserStore.ts:24-27 | An update with no keys leaves a stored profile unchanged |
| UserStore.UpdateProfileCompose | src/lib/useUserStore.ts:24-27 | Two updates in a row equal one update with their merge, so the later update wins key by key |
| Spending.MonthlyAmount | src/features/subs/SpendingDashboard.tsx:19-24 | The monthly equivalent is: weekly ×4, yearly ÷12, and monthly or custom as is. It is non-negative for a non-negative amount |
| Spending.MonthlySumNonNegative | src/features/subs/SpendingDashboard.tsx:15-29 | With non-negative amounts, the sum of monthly equivalents is non-negative |
| Spending.ComputeTotals | src/features/subs/SpendingDashboard.tsx:15-29 | The loop's monthly total is the sum of every subscription's monthly equivalent. The yearly total is twelve times it, and both are non-negative for non-negative amounts |
| Spending.AddTo | src/features/subs/SpendingDashboard.tsx:43 | Adding a share to the category map adds at most one entry, and the entries' sum grows by exactly the share |
| Spending.AddToExisting | src/features/subs/SpendingDashboard.tsx:43 | For a category already in the map, only its entry grows, by exactly the added share |
| Spending.AddToMissing | src/features/subs/SpendingDashboard.tsx:43 | A category not yet in the map gets a new entry at the end, holding the share, a missing entry counting as 0 |
| Spending.TalliesStep | src/features/subs/SpendingDashboard.tsx:35-44 | One loop step keeps the breakdown exact: one entry per present category, each holding its category's total. The entries' sum grows by the subscription's share |
| Spending.Tally | src/features/subs/SpendingDashboard.tsx:32-44 | The map built by the loop is exact for the whole list. Its amounts add up to the monthly total |
| Spending.SortKeepsTallies | src/features/subs/SpendingDashboard.tsx:46-48 | Sorting the entries keeps the breakdown exact |
| Spending.CategorySpending | src/features/subs/SpendingDashboard.tsx:32-49 | Each category appears once, exactly when some subscription has it. Each entry holds the sum of its category's monthly equivalents, the amounts add up to the monthly total, and entries run largest first |
| Spending.MaxCategoryAmount | src/features/subs/SpendingDashboard.tsx:93 | The result is the first entry's amount, or 1 when there is none or it is 0. It is never 0, so the division by it is defined |
| Spending.CategoryTotalNonNegative | src/features/subs/SpendingDashboard.tsx:43 | With non-negative amounts no category total is negative |
| Spending.BarWidth | src/features/subs/SpendingDashboard.tsx:148 | The bar's fraction times the largest amount gives back the category's amount; the largest category fills the bar |
| Spending.BarWidthBounded | src/features/subs/SpendingDashboard.tsx:148 | On a non-negative breakdown sorted largest first, each bar's width fraction lies in [0, 1] |
| Spending.BarWidthsAtMostOne | src/features/subs/SpendingDashboard.tsx:148 | For any list with non-negative amounts, every category bar fits within the full bar (0 to 100%) |
| Spending.TakeRenewals | src/features/subs/SpendingDashboard.tsx:65 | `slice(0, 5)` returns the prefix of length min(length, 5): everything when five or fewer |
| Spending.SortedWindow | src/features/subs/SpendingDashboard.tsx:57-64 | Exactly the subscriptions billed inside the window, soonest first |
| Spending.RenewalsCount | src/features/subs/SpendingDashboard.tsx:57-65 | The list holds min(n, 5) renewals when n subscriptions fall in the window |
| Spending.RenewalsAllWhenFew | src/features/subs/SpendingDashboard.tsx:57-65 | When five or fewer fall in the window, the list holds exactly them |
| Spending.RenewalsWithin | src/features/subs/SpendingDashboard.tsx:57-65 | Every listed renewal is a subscription of the list, billed inside the window |
| Spending.RenewalsSorted | src/features/subs/SpendingDashboard.tsx:62-65 | Listed renewals run soonest first |
| Spending.RenewalsNearest | src/features/subs/SpendingDashboard.tsx:57-65 | No windowed subscription that was cut off is billed before a listed one |
| Spending.ListedWhenFew | src/features/subs/SpendingDashboard.tsx:57-65 | A subscription billed inside the window is listed whenever five or fewer fall in it |
| Spending.RenewalsBetween | src/features/subs/SpendingDashboard.tsx:57-65 | Exactly min(n, 5) renewals, where n subscriptions fall in the window. All are billed in the window, soonest first, drawn from the list. They are the nearest ones, and all n of them when n is five or fewer |
| Spending.UpcomingRenewals | src/features/subs/SpendingDashboard.tsx:52-66 | As written, the window runs from the current instant to seven days later |
| Spending.ListedAsWritten | src/features/subs/SpendingDashboard.tsx:52-66 | Every renewal listed as written is a subscription of the list billed between the current instant and seven days later |
| Spending.DueTodayDroppedAsWritten | src/features/subs/SpendingDashboard.tsx:53-60 | As written, a subscription billed today, whose date parses to the instant the day began, is not listed at any later instant of that day |
| Spending.UpcomingRenewalsByDay | src/features/subs/SpendingDashboard.tsx:52-66 | Corrected: the window opens at the start of today instead of the current instant, and still closes seven days after the current instant. Nothing billed before the current day is listed |
| Spending.DueTodayListed | src/features/subs/SpendingDashboard.tsx:52-66 | Corrected: a subscription billed today is listed whenever the window holds five or fewer |
| Spending.ByDayKeepsAsWritten | src/features/subs/SpendingDashboard.tsx:52-66 | Corrected: when the window holds five or fewer, every renewal the code as written lists is still listed |
| SubsHome.MonthlyShare | src/features/subs/SubsHome.tsx:13-15 | The home screen's per-subscription figure agrees with the dashboard's conversion on every subscription |
| SubsHome.Reduce | src/features/subs/SubsHome.tsx:12-17 | The `reduce` fold, from any start value, equals that start plus the dashboard's sum of monthly equivalents |
| SubsHome.TotalMonthly | src/features/subs/SubsHome.tsx:12-17 | The home monthly total equals the dashboard's monthly total. It is 0 for no subscriptions and non-negative for non-negative amounts |
| SubsHome.TotalYearly | src/features/subs/SubsHome.tsx:19 | The yearly total is twelve times the sum of monthly equivalents, and 0 for no subscriptions |
| SubsHome.SortedSubs | src/features/subs/SubsHome.tsx:21-23 | The list shown is a permutation of the store's list, ordered by next billing date |
| SubsHome.ScreensAgree | src/features/subs/SubsHome.tsx:12-19 | The home screen and the dashboard show the same monthly and yearly totals |
| SubsHome.ExampleTotals | src/features/subs/SubsHome.tsx:12-19 | Worked example: 15 monthly, 120 yearly and 10 weekly come to 65 a month and 780 a year |
| Text.Trim | src/features/links/FoldersHome.tsx:19-20 | `trim` yields a slice of the input, and what lies before and after it is whitespace only. It is empty exactly when the input is blank; otherwise it starts and ends with a visible character |
| Text.TrimIdempotent | src/features/links/FoldersHome.tsx:19-20 | Trimming twice equals trimming once |
| Text.ToLower | src/features/links/LinksHome.tsx:21-22 | Lower-casing keeps the length, leaves no ASCII capital, turns each capital into its small letter, and keeps every other character in place |
| Text.ToLowerIdempotent | src/features/links/LinksHome.tsx:21-22 | Lower-casing twice equals lower-casing once |
| Text.Includes | src/features/links/LinksHome.tsx:21-22 | `includes` holds exactly when the needle occurs at some offset of the haystack |
| LinksHome.FilteredLinks | src/features/links/LinksHome.tsx:19-25 | A link is shown iff its lower-cased title or url contains the lower-cased query, and no folder or the empty id is selected or it is filed in the selected folder. Shown links keep their multiplicity and order |
| LinksHome.ShowAllWhenIdle | src/features/links/LinksHome.tsx:19-25 | With an empty query and no folder selected, every link is shown in store order |
| LinksHome.SearchIgnoresQueryCase | src/features/links/LinksHome.tsx:20-22 | The search result does not depend on how the query is capitalised |
| LinksHome.FindFolder | src/features/links/LinksHome.tsx:29 | `find` yields nothing iff no folder has the id; otherwise it yields the first folder that has it |
| LinksHome.FolderName | src/features/links/LinksHome.tsx:27-30 | A card shows the general label for the reserved id, the unknown label for a missing folder, and otherwise the first match's name, or the unknown label when that name is empty |
| LinksHome.FolderNameAfterRename | src/features/links/LinksHome.tsx:27-30 | After a non-reserved folder is renamed to a non-empty name, its cards show that name |
| FoldersHome.LinkCount | src/features/links/FoldersHome.tsx:13-15 | The count is the number of positions in the link list holding a link filed in the folder. It is at most the number of links, and zero exactly when no link is filed there |
| FoldersHome.LinkCountAfterDelete | src/features/links/FoldersHome.tsx:13-15 | A deleted folder's count is zero |
| FoldersHome.LinkCountAfterAddLink | src/features/links/FoldersHome.tsx:13-15 | Adding a link raises its own folder's count by one and leaves every other count unchanged |
| FoldersHome.HandleUpdate | src/features/links/FoldersHome.tsx:17-23 | With no dialog open or a blank name, nothing changes. Otherwise the folder is renamed to the trimmed name, every other name is unchanged, and the dialog closes |
| FoldersHome.HandleUpdateKeepsNames | src/features/links/FoldersHome.tsx:17-23 | If no folder name is blank, renaming through the dialog keeps it so |
| FoldersHome.Step | src/features/links/FoldersHome.tsx:48-55 | A delete press on an offered button deletes that folder; a press on a missing or withheld button changes nothing. A rename submit is the rename handler. No step adds a folder |
| FoldersHome.StepKeepsDefault | src/features/links/FoldersHome.tsx:48-55 | No single press or rename on this screen removes the reserved folder |
| FoldersHome.RunKeepsDefault | src/features/links/FoldersHome.tsx:48-55 | No sequence of presses and renames on this screen removes the reserved folder |
| FolderSelector.HandleCreate | src/features/links/FolderSelector.tsx:21-28 | A blank name changes nothing. Otherwise the trimmed name is appended as a new folder, its id is passed to `onSelect`, and the input is cleared and closed; links are untouched |
| FolderSelector.CreatedFolderIsNamed | src/features/links/FolderSelector.tsx:21-28 | After a create, the selected id names a folder, and cards filed in it show the trimmed, non-blank name |
| AddLinkModal.FirstFolderId | src/features/links/AddLinkModal.tsx:31 | The result is the first folder's id, or `"default"` when there is no folder or its id is empty. It is never empty |
| AddLinkModal.ResetForm | src/features/links/AddLinkModal.tsx:25-33 | A reset clears url, title, note and favourite, and files the form under the first folder |
| AddLinkModal.HandleSubmit | src/features/links/AddLinkModal.tsx:35-47 | Without url or title nothing happens and the dialog stays open. Otherwise exactly one link with the form's fields as typed goes first, the folders are unchanged, and the dialog closes |
| AddLinkModal.SubmitThenDelete | src/features/links/AddLinkModal.tsx:35-47 | Deleting the submitted link by its fresh id restores the store |
| AddLinkModal.ResetEffectAsWritten | src/features/links/AddLinkModal.tsx:25-33 | As written, the form is reset while open whenever `isOpen` or the folder list changed; otherwise it is kept |
| AddLinkModal.ResetEffect | src/features/links/AddLinkModal.tsx:25-33 | Corrected: the form is reset only when the dialog opens |
| AddLinkModal.Open | src/features/links/AddLinkModal.tsx:24-33 | Opening a closed dialog shows an empty form filed under the first folder, and a fresh folder picker: not creating, with no name. A closed `Modal` renders nothing, which unmounts the picker. Re-opening an open one changes nothing |
| AddLinkModal.OpenThenCreateNothing | src/features/links/FolderSelector.tsx:15-28 | Right after the dialog opens, the picker holds no name, so a folder create changes nothing, as written and corrected alike |
| AddLinkModal.CreateFolderAsWritten | src/features/links/AddLinkModal.tsx:25-33 | As written, in the open dialog (the only place the picker is shown): a blank name changes nothing. Otherwise the picker's create runs on the store, the picker closes, and the form is reset to the first folder, losing the new selection |
| AddLinkModal.CreateFolder | src/features/links/AddLinkModal.tsx:25-33 | Corrected, in the open dialog: a blank name changes nothing. Otherwise the picker's create runs on the store, the picker closes, and the form keeps everything typed with the new folder selected |
| AddLinkModal.CreateFolderWipesFormAsWritten | src/features/links/AddLinkModal.tsx:25-33 | As written, creating a folder in the open dialog wipes the typed url, title and note. It also drops the new folder's selection |
| AddLinkModal.CreateFolderCounterexample | src/features/links/AddLinkModal.tsx:25-33 | Concretely: a form holding `https://example.com`, after creating "Work", shows an empty url and folder `"default"` |
| AddLinkModal.CreateFolderKeepsForm | src/features/links/AddLinkModal.tsx:25-33 | Corrected: creating a folder keeps everything typed and selects the new folder. The next submit files the link there |
| AddSubForm.CategoriesOffered | src/features/subs/AddSubForm.tsx:14-21 | The category buttons offer every category, each once |
| AddSubForm.OnOpen | src/features/subs/AddSubForm.tsx:39-47 | Opening clears the name and amount, sets category Other, the monthly cycle and today's date, and keeps the last currency |
| AddSubForm.Apply | src/features/subs/AddSubForm.tsx:72-147 | One input event keeps the form within the offered options. Re-opening resets the form. Only picking a currency changes the currency, and only picking a cycle or re-opening changes the cycle. A category button selects its category |
| AddSubForm.RunStaysOffered | src/features/subs/AddSubForm.tsx:23-27 | Whatever the user types or picks, the form's cycle and currency stay among the offered options, and the cycle is never custom |
| AddSubForm.HandleSubmit | src/features/subs/AddSubForm.tsx:49-65 | With an empty name, amount or date nothing happens. Otherwise one subscription goes first with the typed fields and the parsed amount, cycle value 1, one reminder day, no notes and no free trial, and the form closes |
| AddSubForm.SubmitNeverCustom | src/features/subs/AddSubForm.tsx:49-65 | Starting from the first render, a subscription added through the form never has a custom cycle |

## Left out

- Persistence: the stores' `persist` middleware, its storage keys and rehydration are not modelled. Each store starts from its in-memory initial state.
- Fresh ids, timestamps and the current instant are parameters. Their uniqueness is a precondition where a property needs it (`!HasFolder(..., newId)`).
- Floating point: amounts are exact reals, so rounding in `* 4`, `/ 12` and the sums is not modelled. `parseFloat` is the parameter `parseAmount`, and `NaN` is not represented.
- Dates: `new Date(s).getTime()` is the parameter `parseDate : string -> int`. Invalid dates (`NaN`, which fails every comparison) are not represented. `nextWeek.setDate(+7)` is taken as exactly seven 24-hour days, so daylight-saving shifts are not modelled. The instant the current day began (`today` in `Spending.UpcomingRenewalsByDay`) is a parameter, since it depends on the clock and the time zone. A billing date is taken to parse to that same instant when it names today.
- Text.ToLower: lower-cases ASCII letters only; JavaScript's full Unicode case mapping is not modelled.
- Sorting.Sort: is stable by construction (insertion sort, ties keep input order), but stability is not stated as a contract.
- UserStore.Merge: a key explicitly set to `undefined` in an update counts as absent. In JavaScript, spread would copy the `undefined`.
- AddLinkModal.ResetEffectAsWritten: React re-runs the effect when `folders` is a new array. This is modelled by the flag `foldersReplaced`, which a folder create sets.
- AddLinkModal: `handlePaste` is not modelled. It reads the clipboard, which is I/O.
- Rendering, styling, icons, dialogs, tabs, `App.tsx` and `main.tsx` are not modelled. No logic of the stores or computations lives there. The one exception is `Modal` (`src/components/ui/Modal.tsx:13`): it renders nothing while closed, which unmounts the folder picker. `AddLinkModal.Open` models this by starting the picker afresh, and the create handlers require an open dialog.
- `src/lib/linkPreview.ts` is not part of this model. It fetches remote metadata over the network.
- The settings page, translations and the language store are not part of this model. They only choose labels, which are parameters here.
- Number and date formatting for display (`toFixed`, `toLocaleDateString`) are not modelled.
- Behaviour kept as the code has it:
  - The url is stored as typed; no `https://` scheme is added.
  - The store's `deleteFolder` deletes the reserved folder if asked; only the folders screen withholds its button (`FoldersHome.RunKeepsDefault`).
  - `reorderFolders` does not renumber positions.
  - A folder's position is the folder count at creation, so positions repeat after a deletion (`LinkStore.PositionReusedAfterDelete`).

## Findings

| source | as written | input that shows it | evidently intended | confidence | as-written member | corrected member |
|---|---|---|---|---|---|---|
| src/features/subs/SpendingDashboard.tsx:52-61 | The renewal window opens at `new Date()`, the current instant. A `YYYY-MM-DD` billing date parses to midnight | A subscription billed today, viewed at any time after midnight, is not listed under upcoming renewals | The window opens at the start of today, so renewals due today are listed | medium, not executed | Spending.DueTodayDroppedAsWritten | Spending.DueTodayListed |
| src/features/links/AddLinkModal.tsx:25-33 | The reset effect depends on `[isOpen, folders]`. Creating a folder in the picker (FolderSelector.tsx:21-28) replaces `folders` while the dialog is open, so the effect clears the form. It also overwrites the folder just selected with the first folder | Open the dialog and type url `https://example.com` and title "Example". Create folder "Work" in the picker. The url is now empty and the folder is `"default"` (`AddLinkModal.CreateFolderCounterexample`) | The form resets only when the dialog opens, keeping what was typed and selecting the new folder | high, not executed | AddLinkModal.CreateFolderWipesFormAsWritten | AddLinkModal.CreateFolderKeepsForm |
