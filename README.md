# QR code hub: a Dafny model of its logical core

The QR code hub is a browser dashboard for creating, styling and tracking QR codes. This project models the logic under its user interface:

- **Entry store** (`store.ts`, module `Store`). This is an ordered list of QR code entries, newest first. Every change writes the whole list to local storage. The class `QRStore` holds the list (`items`) and its durable mirror (`storage`). Its methods `AddItem`, `UpdateItem`, `DeleteItem` and `LogScan` assign lists built by the pure functions `Stamp`, `Updated`, `Deleted` and `Scanned`. The lemmas about those functions state the store's promises.
- **Application shell** (`App.tsx`, module `Router`). The class `App` holds the current view and the selected entry id. Its methods are the handlers that change them and call the store. `DuplicateDraft`, `ActiveItem` and `Render` are the pure parts: the copied record, the lookup of the selected entry, and what each state draws.
- **Creation wizard** (`components/QRGenerator.tsx`, module `Generator`). The class `Wizard` holds the step and the draft fields. `NextStep` is the step machine. `InitialFields` gives the first draft. `Payload` is `handleSave`'s validation and record building. `ContentForm` is the dispatch of the content form by type.
- **Dashboard** (`components/Dashboard.tsx`, module `Board`). It holds the search filter, the empty-state test, the status toggle, and the data string each card's QR image encodes.
- **Records** (`types.ts`, module `Types`). The datatypes for entries, styles, page data and scan records. The enumerations come with the strings the application stores them as.

Supporting modules: `Text` models the JavaScript string operations used (`includes`, `toLowerCase`, a case-insensitive regular-expression test, and `replace` with a string pattern, whose search for the first occurrence is `IndexOf`). `Seqs` models `Array.prototype.filter`.

The nondeterministic inputs are parameters:

- a fresh identifier (`crypto.randomUUID()`), required not to be in use already;
- the clock (`Date.now()`);
- the browser's user-agent string (`navigator.userAgent`).

The source field `type` is a Dafny keyword, so it is called `kind`. A link's `label` is called `caption` for the same reason.

Behaviour of the code that the model reproduces on purpose:

- Nothing in `App.tsx` ever sets the view to `public`. The class invariant `App.Valid` records this, and `NoPublicPageFromShell` proves that the public page is never drawn from a reachable state.
- Saving an edit sends `status: 'active'` along with the other fields. Editing an inactive entry therefore reactivates it.
- Saving an edit of a non-BIO, non-EVENT entry sends `intermediateData: undefined`. An object spread copies that value, so it clears the field. `Patch.intermediateData` is an `Option<Option<PageData>>` to tell this apart from an absent field.
- `handleUpdate` tests `if (activeItemId)`, and an empty string is falsy. The model's guard is therefore "an id is selected and it is not empty".
- The sidebar's "Dashboard" entry does not clear the selection. Its "Analytics Global" entry opens the creation wizard.
- The wizard seeds both its bio and its event field from the edited entry's intermediate record, whatever its shape.
- The list view's thumbnail encodes `content` for every type. The grid card encodes `#/view/<id>` for every type except URL.

Further behaviour of the code:

- No handler switches to the public page.
- Updating an unknown id leaves the list as it was and still rewrites storage.
- Scan timestamps come from the clock unchecked. `ScanKeepsChronological` therefore assumes the clock has not gone back.
- `App.tsx:12` takes `logScan` from the store but never calls it, so nothing in the application records a scan.

## Model

| member | source | states |
|---|---|---|
| Types.TypesEnumerated | types.ts:2-11 | `QRType` has exactly eight members. Their string values are pairwise distinct, and each value parses back to its member. |
| Types.ParseType | types.ts:2-11 | A string is read as a type only if it is that type's own value. |
| Types.ParseLevel | types.ts:16 | The error-correction level is one of L, M, Q, H. Any other string is rejected, and each accepted string is that level's value. |
| Types.LevelRoundTrip | types.ts:16 | Each level parses back from its string. |
| Types.ParseStatus | types.ts:67 | Entry status is exactly 'active' or 'inactive'. Every other string is rejected. |
| Types.StatusRoundTrip | types.ts:67 | Each status parses back from its string. |
| Types.ParseView | types.ts:71 | A string is read as a view only if it is one of the five view values. |
| Types.ViewRoundTrip | types.ts:71 | Each of the five views parses back from its string. |
| Text.Contains | components/Dashboard.tsx:29-30 | `includes`: a match never needs more characters than the text has; `ContainsIff` gives the full characterisation. |
| Text.ContainsIff | components/Dashboard.tsx:29-30 | `includes` holds exactly when the term occurs at some index of the text. |
| Text.EmptyOccursEverywhere | components/Dashboard.tsx:29-30 | The empty term is contained in every string. |
| Text.LowerCase | components/Dashboard.tsx:29-30 | `toLowerCase` keeps the length and leaves no upper-case letter in the ASCII and Latin-1 ranges. |
| Text.LowerCaseIdempotent | components/Dashboard.tsx:29-30 | Lower-casing an already lower-cased string changes nothing. |
| Text.IndexOf | components/Dashboard.tsx:91 | The search step inside `replace`: the first index of the character, or -1 exactly when it does not occur. |
| Text.RemoveFirst | components/Dashboard.tsx:91 | `replace('#', '')` removes exactly the first occurrence: the result is the text before it followed by the text after it, in order. A string without '#' is unchanged. |
| Store.DefaultStyle | store.ts:7-14 | The default style: black on white, level M, no logo, logo size 20, no rounding. `DefaultColorParams` states its colours as passed to the image. |
| Store.Stamp | store.ts:35-41 | The new entry keeps every draft field and gets the supplied id, the supplied time and an empty scan log. |
| Store.StampMetaFree | store.ts:36-41 | Splitting an entry with an empty log into its draft part and re-stamping it with its own id and time gives the same entry back. |
| Store.ApplyPatch | store.ts:47 | `{ ...item, ...updates }`: each field the patch gives replaces the entry's, each it omits is kept. `PatchAlgebra` and `EditReplacesAllButMeta` state its laws. |
| Store.PatchAlgebra | store.ts:47 | The empty patch is the identity. Applying a patch twice is applying it once. |
| Store.MapWhereId | store.ts:47 | The mapped list has the same length. Entries with the id are transformed, and all others are left in place unchanged. |
| Store.Updated | store.ts:47 | The list `updateItem` stores; `UpdatedEntries` and `UpdateAbsent` state what it holds. |
| Store.UpdatedEntries | store.ts:46-47 | `updateItem` keeps length and order and leaves entries with other ids alone. A matching entry takes each field the patch gives and keeps each field it omits. |
| Store.UpdateAbsent | store.ts:47 | Updating an id that is not present leaves the list equal to before. |
| Store.UpdateKeepsUniqueIds | store.ts:46-48 | A patch without an id keeps identifiers unique. |
| Store.Deleted | store.ts:52 | The list `deleteItem` stores; `DeletedEntries` and `DeleteAbsent` state what it holds. |
| Store.DeletedEntries | store.ts:51-53 | After `deleteItem` no entry has the id. Every other entry remains, as many times as it occurred, in its original order. Deleting twice equals deleting once. |
| Store.DeleteAbsent | store.ts:52 | Deleting an id that is not present changes nothing. |
| Store.FilterKeepsUniqueIds | store.ts:52 | Filtering the list, as `deleteItem` does, keeps identifiers unique. |
| Store.ClassifyDevice | store.ts:64 | The device is "Mobile" exactly when "mobi" or "android" occurs in the user agent, ignoring ASCII case. Otherwise it is "Desktop". |
| Store.Scanned | store.ts:56-70 | The list `logScan` stores; `ScannedEntries` states what it holds. |
| Store.ScannedEntries | store.ts:55-71 | `logScan` appends exactly one record at the end of each matching entry's log. Every other field, and every other entry, is unchanged. |
| Store.ScanKeepsChronological | store.ts:58-66 | If the clock has not gone back, a chronological scan log stays chronological after the append. |
| Store.FindById | App.tsx:25 | `find` returns nothing exactly when no entry has the id. Otherwise it returns the first entry holding it. |
| Store.FindUnique | App.tsx:41 | With unique ids, looking up an entry's id returns that entry. |
| Store.Restored | store.ts:20-27 | The list after the load effect: the stored list when it parses, otherwise the list as it was. `QRStore.Load` is stated through it. |
| Store.QRStore.constructor | store.ts:17 | The store starts with an empty list over whatever storage holds. |
| Store.QRStore.Load | store.ts:19-28 | After the load effect the list is the parsed stored list. Missing or malformed data leaves it empty on startup. Storage is not written. |
| Store.QRStore.SaveToStorage | store.ts:30-33 | The list is set, and storage then holds exactly the same list. |
| Store.QRStore.AddItem | store.ts:35-44 | The returned entry is the stamped draft. It is placed at the head, before the unchanged previous list. Storage mirrors the new list, and unique ids stay unique. |
| Store.QRStore.UpdateItem | store.ts:46-49 | The list becomes the updated list, and storage mirrors it. |
| Store.QRStore.DeleteItem | store.ts:51-53 | The list becomes the filtered list, and storage mirrors it. |
| Store.QRStore.LogScan | store.ts:55-72 | The list becomes the list with one record appended to each matching entry, and storage mirrors it. |
| Generator.NextStep | components/QRGenerator.tsx:185-273 | Forward moves one step on and back moves one step back. Exactly two button/step pairs have no move: back at the type step and forward (save) at the style step. |
| Generator.OnlyAdjacentMoves | components/QRGenerator.tsx:185-273 | The only step moves are type→content, content→type, content→style and style→content. |
| Generator.ConnectorLit | components/QRGenerator.tsx:148 | A connector is highlighted when the current step lies beyond it; `LitConnectorsCountSteps` counts them. |
| Generator.LitConnectorsCountSteps | components/QRGenerator.tsx:148 | The number of highlighted step connectors equals the index of the current step. |
| Generator.PreviewValue | components/QRGenerator.tsx:266 | The preview value is never empty, and equals the content whenever the content is non-empty. |
| Generator.ContentForm | components/QRGenerator.tsx:79-132 | URL, WHATSAPP, BIO and EVENT each get their own form. EMAIL, PHONE, MAPS and PIX get the placeholder. |
| Generator.InitialFields | components/QRGenerator.tsx:25-55 | The draft takes the edited entry's fields. With no entry it takes type URL, empty name, description and content, and the default style. A present intermediate record seeds both page-data fields; without one they hold the default bio and event records, with the purple theme and the "Inscreva-se" call to action. |
| Generator.Payload | components/QRGenerator.tsx:68-75 | An empty name gives the validation message and no record. Otherwise the record has status active and carries the drafted name, description, type and style. |
| Generator.PayloadByType | components/QRGenerator.tsx:70-73 | BIO saves `#/view/bio-placeholder` with the bio record. EVENT saves `#/view/event-placeholder` with the event record. Every other type saves the typed content and no page data. |
| Generator.EditWithoutChanges | components/QRGenerator.tsx:25-75 | An entry the wizard saved, opened for editing and saved unchanged, gives back its own fields with status active. |
| Generator.Wizard.constructor | components/QRGenerator.tsx:25-55 | The wizard opens at the type step over the initial draft. |
| Generator.Wizard.Press | components/QRGenerator.tsx:185-273 | A footer button moves the step as `NextStep` says, without validation, and leaves every draft field unchanged. |
| Generator.Wizard.SetType | components/QRGenerator.tsx:167 | Choosing a type changes only the type. |
| Generator.Wizard.SetName | components/QRGenerator.tsx:202 | Typing the name changes only the name. |
| Generator.Wizard.SetDescription | components/QRGenerator.tsx:206 | Typing the category changes only the description. |
| Generator.Wizard.SetContent | components/QRGenerator.tsx:84 | Typing in the URL or WhatsApp form changes only the content. |
| Generator.Wizard.SetStyle | components/QRGenerator.tsx:237-260 | A style control changes only the style. |
| Generator.Wizard.SetBioData | components/QRGenerator.tsx:100-109 | The bio form changes only the bio record. |
| Generator.Wizard.SetEventData | components/QRGenerator.tsx:118-127 | The event form changes only the event record. |
| Generator.Wizard.HandleSave | components/QRGenerator.tsx:68-75 | The save action returns the payload of the current draft. It fails exactly when the name is empty. |
| Board.FilteredItems | components/Dashboard.tsx:28-31 | `filteredItems`; `FilteredItemsSpec` states what it keeps. |
| Board.FilteredItemsSpec | components/Dashboard.tsx:28-31 | The search keeps exactly the entries whose lower-cased name or description contains the lower-cased term, each as many times as it occurs. It keeps them in their original order, as a subsequence of the input. |
| Board.EmptyTermKeepsAll | components/Dashboard.tsx:28-31 | An empty search term returns every entry. |
| Board.FilterAgrees | components/Dashboard.tsx:28-31 | Two filter tests that agree on every entry select the same entries. |
| Board.SearchIgnoresTermCase | components/Dashboard.tsx:28-31 | A term and its lower-case form select the same entries. |
| Board.ShowsEmptyState | components/Dashboard.tsx:73 | The empty-state panel shows exactly when no entry matches the search. |
| Board.RequestedStatus | components/Dashboard.tsx:126 | The status button always asks for the opposite of the current status. |
| Board.StatusToggleOnlyStatus | App.tsx:143 | The status action changes only the `status` of the entry with that id. |
| Board.GridQrData | components/Dashboard.tsx:91 | A grid image encodes the content for URL entries, and `#/view/` followed by the id otherwise. |
| Board.GridQrDataDistinct | components/Dashboard.tsx:91 | Two non-URL entries with different ids get different image data. |
| Board.ListQrData | components/Dashboard.tsx:158 | The list thumbnail encodes the stored content for every type; `ListAndGridAgree` compares it with the grid image. |
| Board.ListAndGridAgree | components/Dashboard.tsx:158 | The list thumbnail and the grid image agree exactly for URL entries and for entries whose content is their own route. |
| Board.ColorParam | components/Dashboard.tsx:91 | A colour has its first '#' removed, wherever it stands, and keeps the rest in order. A colour starting with '#' is passed without it, and a colour without '#' is passed unchanged. |
| Board.DefaultColorParams | store.ts:7-14 | The default style's colours are passed as 000000 and ffffff. |
| Board.ScanCount | components/Dashboard.tsx:107 | The count a card shows is the length of its scan log; `ScanCountAfterLog` relates it to `logScan`. |
| Board.ScanCountAfterLog | components/Dashboard.tsx:107 | A logged scan raises the shown count of its entry by one and leaves every other entry's count as it was. |
| Router.DuplicateDraft | App.tsx:43-44 | The record `handleDuplicate` passes to `addItem`; `DuplicateCopiesFields` states what the copy keeps. |
| Router.DuplicateCopiesFields | App.tsx:40-46 | The copy keeps type, content, style, description, status and intermediate data. It gets the fresh id, the time, an empty log and the name original + " (Cópia)", which differs from the original's. |
| Router.DraftPatch | App.tsx:34 | The patch `handleUpdate` sends: every field of the wizard's record from components/QRGenerator.tsx:74; `EditReplacesAllButMeta` states its effect. |
| Router.EditReplacesAllButMeta | App.tsx:32-34 | Saving an edit replaces every field of the entry except `id`, `createdAt` and `analytics`. |
| Router.ActiveItem | App.tsx:25 | The active item exists exactly when an id is selected and some entry has it. It is then an entry of the list with that id. |
| Router.Render | App.tsx:48-162 | The public page renders exactly when the view is `public` and the selected id resolves to an entry. The analytics panel renders exactly in the analytics view with an existing active item. The wizard renders in create and edit views, and the list in the dashboard view. The wizard receives the active item, and saves through `handleCreate` exactly in the create view. |
| Router.RenderShowsActiveItem | App.tsx:48-162 | The public page (lines 48-50) shows the active item's type and page data, and the analytics panel (lines 157-162) shows the active item itself: the first entry holding the selected id. |
| Router.App.constructor | App.tsx:13-14 | The shell starts on the dashboard with no entry selected. |
| Router.App.OnAdd | App.tsx:139 | The add action moves to `create`. |
| Router.App.OnEdit | App.tsx:140 | The edit action selects the id and moves to `edit`. |
| Router.App.OnAnalytics | App.tsx:141 | The analytics action selects the id and moves to `analytics`. |
| Router.App.OnCancel | App.tsx:152 | Cancelling the wizard returns to `dashboard` and clears the selection. |
| Router.App.OnBack | App.tsx:160 | Back from analytics returns to `dashboard` and clears the selection. |
| Router.App.NavDashboard | App.tsx:68 | The sidebar's dashboard entry moves to `dashboard` and keeps the selection. |
| Router.App.NavAnalyticsGlobal | App.tsx:74 | The sidebar's "Analytics Global" entry moves to `create`. |
| Router.App.HandleCreate | App.tsx:27-30 | Saving in create mode adds the stamped record at the head of the list and returns to `dashboard`. |
| Router.App.HandleUpdate | App.tsx:32-38 | With a non-empty id selected, saving updates that entry, returns to `dashboard` and clears the selection. With none selected, nothing changes. |
| Router.App.HandleDuplicate | App.tsx:40-46 | Duplicating an existing id adds its copy at the front. An unknown id changes nothing, not even storage. |
| Router.App.OnDelete | App.tsx:142 | The delete action removes the entries with that id through the store. |
| Router.App.OnUpdateStatus | App.tsx:143 | The status action sends a patch holding only `status`. |
| Router.NoPublicPageFromShell | App.tsx:48 | No state the shell's handlers reach draws the public page. |

## Left out

- components/Analytics.tsx is not part of this model. Its chart data comes from `Math.random()` and the local date, and a chart library draws it.
- components/QRCanvas.tsx is not part of this model. It wraps an external QR image component and scales the logo in floating point.
- components/PublicView.tsx is not part of this model. It is presentation markup with text fallbacks.
- Serialisation with `JSON.stringify` and `JSON.parse` is not modelled. Storage holds the list itself, and the load result is "nothing", "a list" or "malformed". Stored JSON that parses to something other than a list is not distinguished.
- A failing `localStorage.setItem` (for example, quota exceeded) is not modelled. The source lets that exception escape after the in-memory list has already been set.
- `crypto.randomUUID()`, `Date.now()` and `navigator.userAgent` are parameters. Id freshness is a precondition, because the source relies only on UUID randomness for it.
- React's render and update machinery is not modelled. This covers hooks, effects, stale closures over `items`, and batched updates. Each handler is modelled as running to completion on the current state.
- Dark mode, CSS classes, icons, type-card labels, header titles, the grid/list view toggle, date formatting and the remote qrserver.com image request are presentation. Only the data string the image encodes is modelled.
- The dashboard's `searchTerm` is user input, so it is a parameter.
- Text.LowerCase, Text.LowerChar: they lower-case only ASCII and Latin-1 upper-case letters and leave every other character unchanged, and keep the length. The source's `toLowerCase` is full Unicode case mapping; for example "İ" becomes two characters.
- Numbers: `logoSize` and `borderRadius` are JavaScript numbers, and the model keeps them as integers. Timestamps are integer milliseconds.
- Generator.Wizard.SetBioData, Generator.Wizard.SetEventData: the bio and event forms edit single fields by spreading into the current record. When the edited entry's record has the other shape, the source merges the fields into it. The model replaces the whole record with one of the form's own shape.
- The logo URL input of the style step is shown only when the logo is enabled. That is presentation; the style update itself is `SetStyle`.
- Store.QRStore.LogScan: the source reads `Date.now()` inside the map callback, once per matching entry; the model takes one clock reading for all of them. The two agree when identifiers are unique.
