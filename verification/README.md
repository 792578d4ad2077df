# GoBishoftu site core, modelled in Dafny

The GoBishoftu site is a marketing website for day trips around Bishoftu.
Under the pages sit a few pieces of logic, and this project models them as
pure functions over immutable records:

- **The package service** (`Store`, over the `Package` record of `Model`).
  In demo mode it is an in-memory list, seeded with two packages. It
  supports list-all, list-active, create (prepends), update (spreads a
  partial record over every matching id) and delete (filters the id out).
  In live mode the backend's replies are inputs, and a delete that reports
  zero removed rows becomes an error that names Row Level Security.
- **The admin panel** (`Admin`). This covers the exact-match access-code
  gate, logout, and the required-field check before saving. A save is
  routed to update or create. Delete takes two clicks and removes the row
  at once; if the service fails, the exact pre-delete list comes back.
  Other rows cannot be deleted while a delete is in flight. The feature
  list can be appended to, edited at an index and spliced. An uploaded
  file must have a MIME type starting with `image/`.
- **The public packages page** (`Listing`). This covers the
  English/Amharic field fallback, which follows JavaScript truthiness, and
  the keyword tag on each card. It also covers the modal's quote, price and
  duration fallbacks, and the loading → success / empty / error decision.
- **The contact form** (`Contact`). It is an idle / submitting / success /
  error machine that ignores blank messages and clears the form only on
  success.
- **The language toggle** (`Language`). English and Amharic swap with each
  toggle. The choice is saved in local storage, and on load it is restored
  only when the stored value is exactly `en` or `am`.

Modules `Base` (optional values, results, truthiness), `Text` (ASCII
lower-casing, trimming, substring search, string order) and `Seqs` (filter
and what it keeps) are shared building blocks. `Scenarios` states
properties that span the panel and the service.

Asynchronous handlers are split in two. The first function returns the
service call it starts, inside a `Step`. The matching `...Settled` function
takes the call's outcome as a `Result` (resolved, or rejected with a
message). The backend choice `IS_DEMO_MODE` is a boolean parameter
(`demo`). The admin access code is the parameter `secret`. Ids, timestamps,
file contents read as data URLs, and local storage (a `map`) are inputs too.

Four behaviours of the site's code are worth stating plainly, since a
reader might expect otherwise:

- Logout keeps the package list; only the flag and the typed code are reset.
- A demo update of an unknown id is a silent no-op, not a not-found error.
- The demo store never sorts. A create prepends, and the seed is stored
  oldest first.
- The save form's title and short-description inputs are `required`, so the
  browser stops a submit while either is empty. The "required" alert of
  `handleSave` is therefore reached only when the image is missing.

## Model

| member | source | states |
|---|---|---|
| Model.Apply | services/supabase.ts:103 | `{...p, ...updates}`: every key present in the update holds the update's value in the result |
| Model.ApplyView | services/supabase.ts:103 | seen as partial records, the merged record is the update overlaid on the old one: keys absent from the update keep their old value |
| Model.ApplyOverlay | services/supabase.ts:103 | two updates in a row equal one update with the overlaid keys |
| Model.ApplyAgreeingIsIdentity | services/supabase.ts:103 | spreading values a record already has leaves it unchanged |
| Model.FromDraft | services/supabase.ts:87 | a created record has the assigned id and timestamp and agrees with the draft on every other key |
| Model.FromDraftRoundTrip | services/supabase.ts:87 | seen as a partial record, a created record is exactly the draft plus id and timestamp: nothing lost, nothing invented |
| Model.Seed | services/supabase.ts:12-53 | the demo store starts with two packages, ids "1" and "2", and only "1" is active |
| Store.Active | services/supabase.ts:72-73 | demo list-active returns exactly the active records |
| Store.ActiveKeepsOrder | services/supabase.ts:73 | the active records are listed as a subsequence of the store, in stored order |
| Store.ActiveKeepsCopies | services/supabase.ts:73 | each active record is listed exactly as often as it is stored, and no inactive one at all |
| Store.UnconfiguredSiteServesSeed | constants.ts:41 | without a backend URL or key the site runs on the demo store, and its public list is the seeded lake package whatever a backend would reply |
| Store.SeedListing | services/supabase.ts:12-53 | on the seeded store, the public list is exactly the lake package |
| Store.LiveList | services/supabase.ts:66-67 | a live list rethrows the reply's error; otherwise it is the rows, or an empty list when the reply has no data |
| Store.GetAll | services/supabase.ts:56-68 | demo: the stored list unchanged and in stored order; live: fails exactly when the backend reports an error |
| Store.GetActive | services/supabase.ts:70-83 | demo: never fails and holds exactly the active stored records; live: fails exactly when the backend reports an error |
| Store.DemoCreate | services/supabase.ts:86-89 | the new record heads the list, the list grows by one and the old records follow unchanged |
| Store.Create | services/supabase.ts:85-99 | demo never fails, returns the record with the new id and timestamp and prepends it; live fails exactly when the insert reports an error, returns the inserted row otherwise, and leaves the demo list alone |
| Store.ActiveAfterCreate | services/supabase.ts:86-89 | after a demo create, the public list is the new record (if active) followed by the old public list |
| Store.CreateKeepsNewestFirst | services/supabase.ts:88 | prepending a record stamped no earlier than every stored one keeps the list newest first |
| Store.FilterKeepsNewestFirst | services/supabase.ts:73 | filtering (list-active, delete) keeps a newest-first list newest first |
| Store.DemoUpdate | services/supabase.ts:103 | every record with the id becomes `{...p, ...updates}`; every other record and the length are unchanged |
| Store.DemoUpdateUnknownId | services/supabase.ts:103 | updating an id no record has changes nothing and raises no error |
| Store.Update | services/supabase.ts:101-112 | demo never fails, spreads the changes over exactly the records with the id and keeps every other record in place; live fails exactly when the backend reports an error |
| Store.DemoDelete | services/supabase.ts:116 | no record with the id remains and every other record stays |
| Store.DemoDeleteKeepsOrder | services/supabase.ts:116 | the remaining records keep their stored order |
| Store.DemoDeleteKeepsCopies | services/supabase.ts:116 | every other record stays exactly as often as it was stored; the id's records all go |
| Store.DemoDeleteUnknownId | services/supabase.ts:116 | deleting an id no record has leaves the list as it was |
| Store.LiveDelete | services/supabase.ts:122-132 | live delete succeeds exactly when there is no error and the count is not 0; an error is rethrown; a count of 0 raises a message containing "Row Level Security" |
| Store.Delete | services/supabase.ts:114-133 | demo never fails and removes exactly the id's records; live succeeds exactly when there is no error and the count is not 0, and leaves the demo list alone |
| Store.SendFeedback | services/supabase.ts:137-148 | demo sending always succeeds; live fails exactly when the insert reports an error |
| Seqs.Filter | services/supabase.ts:116 | `filter` keeps exactly the elements that pass the test |
| Seqs.FilterIsSubsequence | services/supabase.ts:116 | `filter` never reorders: its result is a subsequence of its input |
| Seqs.FilterMultiset | services/supabase.ts:116 | `filter` keeps each passing element as often as it occurs and drops the others |
| Seqs.FilterKeepsAll | services/supabase.ts:116 | when every element passes, `filter` returns its input |
| Admin.TypeCode | pages/Admin.tsx:206 | typing sets the access-code field and nothing else |
| Admin.Login | pages/Admin.tsx:46-54 | the panel opens iff the typed code equals the access code exactly, and then loads the list; otherwise only the "Wrong code" alert happens; nothing but the flag and the loading mark changes |
| Admin.Logout | pages/Admin.tsx:56-59 | logout clears the flag and the typed code, and changes nothing else: list, draft, form, loading and delete marks are kept |
| Admin.MountedPanelIsLocked | pages/Admin.tsx:11-36 | the panel mounts locked, empty and on the fresh draft; with a code configured, submitting the empty code field is refused and loads nothing |
| Admin.LogoutRequiresCodeAgain | pages/Admin.tsx:56-59 | right after logout, login is refused until the code is typed again |
| Admin.TypingTheCodeOpens | pages/Admin.tsx:46-50 | typing the configured code and logging in opens the panel and loads the list |
| Admin.FetchSettled | pages/Admin.tsx:61-72 | a loaded list replaces the panel's list; a failed load keeps it and alerts; loading ends either way; nothing else changes |
| Admin.StartCreate | pages/Admin.tsx:257 | "new package" opens the form on `initialPackageState`, changing nothing else |
| Admin.StartEdit | pages/Admin.tsx:295-300 | a row's edit button opens the form on that package as a partial record, changing nothing else |
| Admin.CloseForm | pages/Admin.tsx:357 | close and cancel shut the form and keep the draft and everything else |
| Admin.EditDraft | pages/Admin.tsx:376 | after a form input, saving the draft over any package equals saving the old draft and then the input's keys; only the draft changes |
| Admin.Save | pages/Admin.tsx:74-88 | a draft missing title, description or image makes no store call and alerts; a complete draft calls update if it has an id, create otherwise, with no alert |
| Admin.SubmitForm | pages/Admin.tsx:363-389 | the browser blocks the submit, with no alert and no call, while the `required` title or short description is empty; otherwise `handleSave` runs |
| Admin.MissingFieldsAlertMeansNoImage | pages/Admin.tsx:76-77 | the "required" alert is seen iff title and description are filled and the image is missing; the service is called iff all three are present |
| Admin.FreshFormIsRefused | pages/Admin.tsx:24-34 | the blank form opened by "new package" cannot be sent: the browser blocks it, and `handleSave` on it would only alert |
| Admin.FreshDraftCreates | pages/Admin.tsx:24-34 | `initialPackageState` has no id, so a fresh draft with title, description and image filled in is saved through create |
| Admin.SaveSettled | pages/Admin.tsx:89-95 | success closes the form, resets the draft and reloads the list with no alert; failure keeps draft, form and list and alerts; auth and delete marks never change |
| Admin.BeginDelete | pages/Admin.tsx:112-116 | the optimistic list is the old list without the id, and the id is marked in flight; nothing else changes |
| Admin.DeleteClick | pages/Admin.tsx:98-110 | a click on the armed id starts the delete and disarms; a click on any other id arms it and calls nothing |
| Admin.PressDelete | pages/Admin.tsx:307-310 | a disabled delete button does nothing |
| Admin.ClickOutside | pages/Admin.tsx:38-43 | a click reaching the window disarms and changes nothing else |
| Admin.DeleteAlert | pages/Admin.tsx:125-128 | a message mentioning "Row Level Security" or "Policy" gets the "Deletion Blocked" alert; any other message is shown, or "Unknown error" when empty |
| Admin.DeleteSettled | pages/Admin.tsx:118-133 | failure restores the pre-delete snapshot and alerts; success keeps the optimistic list; the in-flight mark is cleared either way; nothing else changes |
| Admin.SecondClickConfirms | pages/Admin.tsx:102-109 | the first click on a row only arms it; the second starts the delete |
| Admin.DisarmNeedsTwoClicksAgain | pages/Admin.tsx:40 | after arming and clicking elsewhere, the next click on that row only arms it again |
| Admin.ClickOtherRowRearms | pages/Admin.tsx:106-109 | clicking another row while one is armed moves the arming and deletes nothing |
| Admin.DeleteRollsBackExactly | pages/Admin.tsx:112-133 | a failed delete leaves the list identical to before, in order; a successful one removes just the id, keeping the order; nothing is left in flight |
| Admin.InFlightExcludesOtherDeletes | pages/Admin.tsx:310 | while a delete is in flight, every other row's button is disabled and pressing it changes nothing |
| Admin.AddFeature | pages/Admin.tsx:141-144 | an empty entry is appended after the unchanged entries; the `features` key is present afterwards and the rest of the draft is kept |
| Admin.UpdateFeature | pages/Admin.tsx:146-150 | only the entry at the index changes; the length, the presence of the `features` key and the rest of the draft are kept |
| Admin.RemoveFeature | pages/Admin.tsx:152-156 | `splice(i, 1)` removes the entry at the index and shifts the later ones down in order; past the end it removes nothing; the `features` key is present afterwards, even when the list ends empty |
| Admin.RemovingOnlyFeatureClearsIt | pages/Admin.tsx:152-156 | removing a package's only feature and saving the edit leaves it with an empty list, not the old one |
| Admin.RemoveUndoesAdd | pages/Admin.tsx:141-156 | removing the entry just appended gives back the previous list |
| Admin.UpdateWithSameValue | pages/Admin.tsx:146-150 | writing an entry's own value back leaves the list unchanged |
| Admin.ProcessFile | pages/Admin.tsx:181-193 | no file: no change; a type not starting with `image/`: alert and no change; an image: the draft's image becomes its data URL |
| Admin.ImageCompletesDraft | pages/Admin.tsx:181-193 | uploading an image to a draft with title and description makes the next submit call the service |
| Admin.BlockedDeleteShowsPolicyAdvice | pages/Admin.tsx:125-128 | the zero-count delete error gets the "Deletion Blocked" alert |
| Listing.Localize | pages/Packages.tsx:74-82 | an `_am` string is used iff the language is Amharic and it is non-empty; `features_am` iff Amharic and present; the long description falls back to the base long text, then to the short one; no shown text is blank when its base text is not |
| Listing.EnglishShowsBase | pages/Packages.tsx:74-82 | in English every shown field is the base field, except the long description's fallback |
| Listing.EnglishIgnoresAmharic | pages/Packages.tsx:74-82 | in English the Amharic fields have no effect on what is shown |
| Listing.AmharicTitleFallsBack | pages/Packages.tsx:76 | in Amharic, a missing or empty Amharic title shows the base title |
| Listing.EmptyAmharicFeaturesDoNotFallBack | pages/Packages.tsx:79 | an empty Amharic feature list is shown as empty, not replaced by the base list |
| Listing.FunnyTag | pages/Packages.tsx:96-103 | the tag is one of the five fixed tags, and is water therapy iff the lower-cased title contains "lake" |
| Listing.FunnyTagPriority | pages/Packages.tsx:96-103 | the tag is chosen by the first keyword of lake, hike, coffee, then food or lunch, in the lower-cased title; the default tag appears iff none of lake, hike, coffee, food or lunch does |
| Listing.FunnyTagIgnoresCase | pages/Packages.tsx:97 | the tag does not depend on letter case |
| Listing.LakeTitleTag | pages/Packages.tsx:98 | a title starting with "Lake" is tagged as water therapy |
| Listing.SeedLakeTag | pages/Packages.tsx:98 | the seeded lake package is tagged as water therapy |
| Listing.ModalQuote | pages/Packages.tsx:349 | the lake quote iff the title contains "Lake" as written, the grass quote otherwise |
| Listing.LakeQuoteMeansLakeTag | pages/Packages.tsx:97-98 | a title that gets the lake quote is always tagged as water therapy |
| Listing.QuoteIsCaseSensitive | pages/Packages.tsx:349 | the modal quote checks for "Lake" case-sensitively: the title "lake" is tagged as water therapy but gets the grass quote |
| Listing.PriceLabel | pages/Packages.tsx:368 | a missing or empty price shows as "Free"; any other price is shown as is |
| Listing.DurationLabel | pages/Packages.tsx:372 | the Amharic duration when Amharic is chosen and it is non-empty, else the base duration when non-empty, else the translated placeholder; so never blank when the placeholder is not |
| Listing.ModalBody | pages/Packages.tsx:379 | the modal's long text is the non-empty Amharic long text when Amharic is chosen, else the non-empty base long text, else the base (English) short description, and only when that is empty the shown (possibly Amharic) short description; never blank when the base short description is not |
| Listing.ModalShowsEnglishShortText | pages/Packages.tsx:74-82 | with no long text, the Amharic modal shows the English short description while the card shows the Amharic one |
| Listing.FetchStart | pages/Packages.tsx:52 | a fetch shows the spinner and keeps the packages |
| Listing.FetchSettled | pages/Packages.tsx:50-60 | success iff a non-empty result, empty iff an empty result, error iff the fetch threw; a thrown fetch keeps the old packages |
| Listing.DemoListing | pages/Packages.tsx:53-55 | in demo mode the page never shows the error state, and on the seeded store it shows exactly the lake package |
| Contact.Change | pages/Contact.tsx:15-17 | an input changes its own field only |
| Contact.Submit | pages/Contact.tsx:19-23 | a message that `trim()` empties (empty, or whitespace only) sends nothing and changes nothing; a message with any non-whitespace character sets the status to submitting and is sent as typed |
| Contact.SubmitSettled | pages/Contact.tsx:24-31 | success sets the status to success and clears both fields; failure sets it to error and keeps the form |
| Contact.PressSubmit | pages/Contact.tsx:154 | the submit button does nothing while a submission is in flight, and submits at any other time |
| Contact.SendAnother | pages/Contact.tsx:120 | "send another" returns to idle |
| Contact.HandleSubmit | pages/Contact.tsx:19-31 | a blank message changes nothing; otherwise the form is cleared with status success iff the service accepts it (always in demo mode), and kept with status error otherwise |
| Contact.DemoSubmissionSucceeds | pages/Contact.tsx:25-27 | in demo mode a non-blank submission succeeds, and "send another" then gives the opening form |
| Contact.FailedSubmissionKeepsForm | pages/Contact.tsx:28-31 | a failed send keeps what was typed and shows the error status |
| Contact.NoDoubleSubmit | pages/Contact.tsx:154 | a second press while submitting sends nothing |
| Language.Toggle | contexts/LanguageContext.tsx:28 | toggling always changes the language |
| Language.ToggleInvolution | contexts/LanguageContext.tsx:28 | toggling twice gives back the original language |
| Language.ToggleLanguage | contexts/LanguageContext.tsx:26-32 | the new language's code is stored under "gobishoftu-lang"; no other storage key changes |
| Language.Parse | contexts/LanguageContext.tsx:21 | only the exact strings "en" and "am" name a language |
| Language.Restore | contexts/LanguageContext.tsx:19-24 | a stored "am" or "en" is applied; any other stored value, or none, keeps the current language |
| Language.Mount | contexts/LanguageContext.tsx:16-24 | a page load only reads the storage, and comes up in Amharic iff "am" is stored |
| Language.ToggleSurvivesReload | contexts/LanguageContext.tsx:20-29 | after a toggle, the next page load starts in the toggled language |
| Language.MountDefaultsToEnglish | contexts/LanguageContext.tsx:16-23 | with no usable stored preference the site starts in English |
| Text.TrimStart | pages/Contact.tsx:21 | the result is the suffix starting at the first non-whitespace character |
| Text.TrimEnd | pages/Contact.tsx:21 | the result is the prefix ending at the last non-whitespace character |
| Text.BlankIffAllSpace | pages/Contact.tsx:21 | a string trims to empty iff all of its characters are whitespace |
| Text.ContainsIff | pages/Packages.tsx:98 | `includes` holds iff the keyword occurs at some index |
| Text.ToLower | pages/Packages.tsx:97 | lower-casing keeps the length and folds each character alone |
| Scenarios.DemoCreateThenReload | pages/Admin.tsx:74-95 | in demo mode, saving a complete new draft calls create; after the reload the list starts with the new package, with the draft's title and the new id, followed by the old list |
| Scenarios.DemoEditSavesOnlyEdits | pages/Admin.tsx:82-84 | editing a stored package, with the id untouched and title, description and image non-empty, and saving it in demo mode calls update; the record changes in exactly the edited keys |
| Scenarios.BlockedDeleteRestoresList | services/supabase.ts:127-132 | when a live delete counts zero rows, the panel's list comes back exactly, nothing is left in flight, and the "Deletion Blocked" alert shows |
| Scenarios.DemoDeleteKeepsListInStep | pages/Admin.tsx:112-119 | in demo mode, a panel list equal to the store before a delete is equal to it after |

## Left out

- The network, the backend client and its query builder. Live replies are
  inputs. The server-side `order('created_at', { ascending: false })` of a
  live list is not modelled, so nothing here proves that live lists are
  newest first.
- `setTimeout` delays, `Math.random()` ids and `new Date().toISOString()`
  timestamps. These are parameters. Nothing makes ids unique, and the site's
  code does not either.
- `FileReader` and the data-URL encoding. The encoded string is a parameter.
  Drag-over highlighting, `alert` display (kept only as the message text),
  `window.open`, `encodeURIComponent` and body-scroll locking are also left
  out.
- React rendering and the interleaving of asynchronous handlers. Only the
  explicit disabled rules (delete button, submit button) are modelled. The
  stale `currentPkg` captured by the file reader's callback is not.
- A key present with the value `undefined` or `null` in a partial record.
  Absent keys and keys with values are modelled; a live row's `null` columns
  are read as absent.
- Admin.UpdateFeature: requires an index inside the list. The page only
  passes such indexes, and JavaScript's sparse-array write past the end
  cannot be represented.
- Text.ToLower: folds ASCII letters only. Text.IsSpace lists the ASCII
  whitespace, no-break space, byte-order mark and line/paragraph separators,
  but not the other Unicode space separators.
- Store.CreateKeepsNewestFirst: orders timestamps as strings, with an absent
  timestamp as the empty string. ISO-8601 strings of one format order
  correctly this way.
- When the packages page fetches: its effect refetches, and shows the
  spinner again, every time the modal opens or closes. The model states
  what one fetch does, not when fetches happen.
- The aliasing of the demo list: demo `getAll` hands back the store's own
  array and demo `create` prepends to it in place, so the panel's list
  already holds a new record before the reload settles. The model keeps the
  panel's list and the store apart; the reload makes them equal again.
- `console.log` and `console.error` calls. They only write to the browser
  console and change no state.
- The browser's form validation beyond `required` on empty inputs (no
  other constraint attribute is used by the save form).
- The page layout, animation, translation tables, routing, slideshow,
  tagline rotation and button styles.
