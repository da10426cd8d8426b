# Scout: a Dafny model of the search, filter, toast, account and navigation logic

Scout is a Next.js front end that lets a user search across files held in
Google Drive, Dropbox and OneDrive accounts. There is no back end: the files
and accounts are a fixed mock fixture. This project models, in Dafny, the parts
of the front end that hold real logic:

- **Mock search** (`MockData`). This covers the fixture of accounts and recent
  files, and `searchFiles`. `searchFiles` is a case-insensitive substring
  filter over the file names and snippets.
- **Search filter popover** (`SearchFiltersPanel`). This covers the check and
  uncheck handlers for file types and providers, the date-bound handler,
  apply, reset, and the active-filter badge count.
- **Toast container** (`ToastFilter`). This covers the rule that shows the
  "login-success" toast only on the dashboard and only once. The `shownToasts`
  set is a class whose event methods only ever add the login toast's id.
- **Account card and account row** (`AccountCard`, `AccountRow`). This covers
  the status text of an account and the guard on the Sync button. It also
  covers the order of the tiles and the account id that each button reports.
- **Navigation** (`Navigation`, `AppHeader`, `BottomNav`). This covers the
  rule for the active route, which is an exact match or a match below a `/`
  boundary, and the links of the desktop header and of the mobile bottom bar.

Shared pieces:

- `Types` holds the records of `types/index.ts`.
- `Seqs` holds one order-preserving `Filter` with its subsequence lemmas. The
  search, the uncheck handlers and the toast filter all use it.
- `Text` holds `toLowerCase`, `includes` and `startsWith`.

Blank queries: `searchFiles` returns early only on the empty string (`!query`,
lib/mock-data.ts:86). The dashboard never passes it a blank query, because it
searches only when `searchQuery.trim()` is non-empty
(app/(authenticated)/dashboard/page.tsx:93). Called directly, a query of
blanks is searched like any other query: `MockData.SearchBlankReturnsAll`
shows that `" "` returns every fixture file.

Callbacks to a parent component (`onSync`, `onDisconnect`, `onAddAccount`,
`onFiltersChange`) are modelled as values returned next to the new state:
`AccountAction` and `PanelStep.notified`.

## Model

| member | source | states |
|---|---|---|
| MockData.SearchFiles | lib/mock-data.ts:85-92 | The empty query gives `[]`. Otherwise the result is an order-preserving subsequence of the fixture. Every returned file matches the lower-cased query in its lower-cased name or snippet. Every fixture file that matches is returned. |
| MockData.FileMatches | lib/mock-data.ts:90 | The filter callback: the lower-cased name, or the lower-cased snippet when present, includes the lower-cased query. A file without a snippet can match only on its name. |
| MockData.SearchIgnoresCase | lib/mock-data.ts:88 | `SearchFiles(q) == SearchFiles(lower(q))`. |
| MockData.SnippetlessMatchesOnName | lib/mock-data.ts:90 | A fixture file without a snippet is found exactly when the query is non-empty and its name contains the query, ignoring case. |
| MockData.SearchBlankReturnsAll | lib/mock-data.ts:86-91 | A blank query is not special-cased: `" "` returns the whole fixture, in order. |
| MockData.SearchBudget | lib/mock-data.ts:29-92 | `searchFiles("budget")` is exactly `[file2]`, the "Budget Spreadsheet.xlsx" record. The proposal snippet's only 'b' is followed by 'j', so it does not match. |
| SearchFiltersPanel.ToggleId | components/search-filters.tsx:36-41 | An absent list counts as empty. Checking appends the id at the end and keeps every earlier entry. Unchecking removes every copy of the id and keeps all other ids, in their order, with all their copies: the multiset loses exactly the id's copies and the length drops by their number. |
| SearchFiltersPanel.HandleFileTypeChange | components/search-filters.tsx:34-43 | `fileType` becomes the toggled list. `provider` and `dateRange` are unchanged. |
| SearchFiltersPanel.HandleProviderChange | components/search-filters.tsx:45-54 | `provider` becomes the toggled list. `fileType` and `dateRange` are unchanged. |
| SearchFiltersPanel.HandleDateChange | components/search-filters.tsx:56-64 | The chosen bound is set to the date, or cleared. The other bound and both lists are kept. The range becomes present. |
| SearchFiltersPanel.InitialPanel | components/search-filters.tsx:18-19 | The popover starts closed, editing the filters it was given. |
| SearchFiltersPanel.Apply | components/search-filters.tsx:66-69 | The parent receives the edited filters and the popover closes. The edited filters are unchanged. |
| SearchFiltersPanel.Reset | components/search-filters.tsx:71-75 | The edited filters and the value sent to the parent are both `{}`, whose count is 0. The open/closed state is kept. |
| SearchFiltersPanel.GetActiveFiltersCount | components/search-filters.tsx:77-83 | The step-by-step accumulation equals the file-type count plus the provider count, plus 1 when either date bound is set. |
| SearchFiltersPanel.ActiveFilterCount | components/search-filters.tsx:77-83 | The closed form of the count lies between the two list lengths summed and that sum plus one. It is positive whenever a date bound is set. |
| SearchFiltersPanel.CountZeroIffEmpty | components/search-filters.tsx:91 | The badge shows nothing exactly when both lists are empty and no date bound is set. |
| SearchFiltersPanel.CheckFileTypeCounts | components/search-filters.tsx:38 | Checking never de-duplicates: the count rises by one, and so does the number of copies of the id. |
| SearchFiltersPanel.UncheckFileTypeCounts | components/search-filters.tsx:40 | Unchecking lowers the count by the number of copies of the id that were in the list. |
| SearchFiltersPanel.ToggleRoundTrip | components/search-filters.tsx:38-40 | Checking an unlisted id and then unchecking it gives back the original list. An absent list comes back as empty. |
| SearchFiltersPanel.CheckThenUncheckFileType | components/search-filters.tsx:34-43 | The round trip through both file-type handlers restores the record. The only change is that an absent list becomes `[]`. |
| SearchFiltersPanel.CheckThenUncheckProvider | components/search-filters.tsx:45-54 | The same round trip holds for the provider handlers. |
| SearchFiltersPanel.ClickKeepsDistinct | components/search-filters.tsx:108-109 | A checkbox click passes the opposite of the box's shown state. So clicks keep a list free of repeats. |
| SearchFiltersPanel.ResetIdempotent | components/search-filters.tsx:71-75 | Resetting a reset panel gives the same panel and sends the same `{}` again. |
| SearchFiltersPanel.ClickKeepsFromCheckboxes | components/search-filters.tsx:104-109 | A click on one of the offered boxes keeps a list that has no repeats and holds only offered ids. |
| SearchFiltersPanel.BadgeAtMostEight | components/search-filters.tsx:21-32 | With lists made by clicks on the four file-type and three provider boxes, the badge count is at most 4 + 3 + 1 = 8. |
| ToastFilter.FilteredToasts | components/toast-provider.tsx:42-60 | The result is an order-preserving subsequence of the queue that keeps every copy of each passing toast and no copy of a failing one. Any id other than "login-success" passes. The login toast passes only on "/dashboard" while its id is not in the shown set. |
| ToastFilter.Displayed | components/toast-provider.tsx:43-59 | The per-toast test: only the login toast can be dropped. The login toast passes exactly on "/dashboard" while its id is not in the shown set. |
| ToastFilter.OtherToastsPassUnchanged | components/toast-provider.tsx:43-59 | A queue without the login toast is displayed unchanged, for every pathname and every shown set. |
| ToastFilter.LoginToastDisplayedIff | components/toast-provider.tsx:44-48 | The login toast is displayed if and only if it is queued, the pathname is "/dashboard", and it has not been marked shown. |
| ToastFilter.MoreShownHidesMore | components/toast-provider.tsx:46 | Growing the shown set can only remove toasts from the display, never add or reorder them. |
| ToastFilter.ShownToasts.constructor | components/toast-provider.tsx:14 | The shown set starts empty. |
| ToastFilter.ShownToasts.OnAutoDismiss | components/toast-provider.tsx:22-28 | When a dismiss timer fires, the set gains the id only if it is "login-success". The set only grows and holds nothing but that id. |
| ToastFilter.ShownToasts.OnDeferredMark | components/toast-provider.tsx:52-56 | The delayed mark adds "login-success". The set only grows and holds nothing but that id. |
| ToastFilter.ShownToasts.OnClose | components/toast-provider.tsx:93-97 | Closing a toast adds its id only if it is "login-success". The set only grows and holds nothing but that id. |
| ToastFilter.ShownToasts.Visible | components/toast-provider.tsx:42-64 | Once the login toast is marked, it is never displayed. Every other queued toast is displayed, as many times as it is queued. |
| AccountCard.StatusText | components/account-card.tsx:29-40 | Synced gives "Synced " plus the relative time, or plus nothing when `lastSynced` is falsy. Syncing gives "Syncing...". Error gives the error message, or "Sync error" when that is falsy. Otherwise the text is "Not synced". |
| AccountCard.StatusTextNonEmpty | components/account-card.tsx:29-40 | The status text is never empty. |
| AccountCard.StatusTextDependsOnlyOnStatus | components/account-card.tsx:29-40 | The text reads only the status, plus `lastSynced` when synced or `errorMessage` on error. |
| AccountCard.SyncDisabled | components/account-card.tsx:114 | The card's Sync button is disabled exactly while the account is syncing. |
| AccountCard.Press | components/account-card.tsx:109-124 | Sync reports this account's id unless the status is syncing, when the button is disabled. Disconnect always reports this account's id. |
| AccountRow.StatusLine | components/account-row.tsx:127-146 | Synced gives "Last synced: " plus the date, or "Never". Syncing gives "Syncing...". Error gives the error message or "Sync error". Not-synced shows no line. |
| AccountRow.HeaderIconShown | components/account-row.tsx:119-123 | The three guarded header icons amount to: an icon shows for every status except not-synced. |
| AccountRow.SyncDisabled | components/account-row.tsx:164 | The tile's Sync button is disabled exactly when the card's would be. |
| AccountRow.QuietExactlyWhenNotSynced | components/account-row.tsx:119-146 | Not-synced is exactly the status that shows neither a header icon nor a status line. |
| AccountRow.AgreesWithCard | components/account-row.tsx:127-164 | The tile and the card disable Sync under the same condition and show the same text while syncing and on error. On not-synced the tile shows nothing where the card says "Not synced". |
| AccountRow.Tiles | components/account-row.tsx:86-171 | The Add Account tile comes first, then one tile per account in list order. Each tile carries its account, its header-icon visibility and status line as `HeaderIconShown` and `StatusLine` give them, and a Sync button disabled exactly when that account is syncing. |
| AccountRow.Press | components/account-row.tsx:88-168 | Add Account reaches `onAddAccount`. A tile's Disconnect and Sync report that tile's account id. Sync reports nothing while the account is syncing. |
| AccountRow.FixtureTiles | lib/mock-data.ts:3-27 | The fixture accounts give four tiles: "Last synced: " plus the date for the synced account, "Syncing..." with Sync disabled for the syncing one, and its own error message for the failing one. All three show a header icon. |
| Navigation.IsActive | components/bottom-nav.tsx:13-15 | The `isActive` rule shared by both bars (it is written out again at components/app-header.tsx:21-23). An active path is always a prefix of the pathname. |
| Navigation.IsActiveCharacterised | components/app-header.tsx:21-23 | A path is active iff it is a prefix of the pathname that ends the pathname or is followed by `/`. |
| Navigation.ActiveBelow | components/app-header.tsx:22 | Every pathname `path + "/" + rest` activates `path`. |
| Navigation.ShorterNeverActive | components/app-header.tsx:22 | A pathname shorter than the path, such as `/`, never activates it. |
| Navigation.DashboardsIsNotDashboard | components/app-header.tsx:22 | `/dashboards` does not activate `/dashboard`. |
| Navigation.BothActiveNested | components/app-header.tsx:22 | When two paths are active at once, one of them is the other or an ancestor of the other at a `/` boundary. |
| Navigation.SiblingsExclusive | components/bottom-nav.tsx:13-15 | Two paths that differ in their second character are never both active. |
| AppHeader.Links | components/app-header.tsx:32-49 | The header has Home `/dashboard` then Accounts `/accounts`. Each link is highlighted exactly when its path is active. |
| AppHeader.NeverBothHighlighted | components/app-header.tsx:35-44 | Home and Accounts are never highlighted together. |
| BottomNav.Entries | components/bottom-nav.tsx:23-62 | The bar has Home `/dashboard`, Accounts `/accounts`, then Profile `/profile`. Each entry is highlighted exactly when its path is active, by the same rule as the header. |
| BottomNav.AtMostOneHighlighted | components/bottom-nav.tsx:39-62 | At most one of the three entries is highlighted. |
| BottomNav.ProfileSubpageHighlightsProfile | components/bottom-nav.tsx:52-62 | Every pathname under `/profile/` highlights Profile and nothing else. |

## Left out

- Timers are left out. This covers the 3-second auto-dismiss `setTimeout`, the timer `Map` filled in a `forEach` loop with its cleanup, and the 100 ms delay. Their effect on `shownToasts` is modelled as events that fire in any order: `OnAutoDismiss` and `OnDeferredMark`.
- `dismiss` and the `useToast` queue live in hooks/use-toast, which is not part of this model. The toast queue is an input.
- The pathname is an input. It stands for `window.location.pathname` and Next.js `usePathname`. `handleLogout` in the bottom bar, which only calls the router, is not modelled.
- `formatDistanceToNow` and `toLocaleDateString` are date-fns and browser functions. They are parameters that map the stored timestamp to a string. For `toLocaleDateString` this is exact: an unparsable timestamp gives "Invalid Date".
- AccountCard.StatusText: the model assumes that a truthy `lastSynced` parses as a date. `formatDistanceToNow` throws a RangeError on an Invalid Date, and `getStatusText` (components/account-card.tsx:32) does not catch it, so for an unparsable timestamp the card fails to render where the model returns "Synced " followed by the parameter's text. Every timestamp the app stores is an ISO string.
- JSX, SVG provider icons, status icons and Tailwind class strings are left out. The only icon fact kept is whether the account row shows a header status icon. Toast variants are carried but not styled.
- SearchFiltersPanel.HandleDateChange: a date is an opaque value. The calendar widget and `Date` arithmetic are not modelled.
- Text.ToLower: this folds only ASCII letters. JavaScript's `toLowerCase` is full Unicode, so the search and case-insensitivity results hold for ASCII text.
- `withConsistentRadius`, `hasConsistentRadius` and `cn` in lib/utils.ts are not part of this model. They are DOM or styling helpers.
- The dashboard's tab filter (`getFilteredFiles`) and its 5-item cap (`slice(0, 5)`) are not modelled. Neither are the account state changes after Sync or Disconnect. These live in the dashboard and accounts page components, which sit outside the modelled components; the modelled components only report the account id to the page.
- The popover's open/close toggling by the trigger is not modelled. It is a UI library callback (`onOpenChange`) with no logic of its own.
