# Link Clean content store, in Dafny

This project models the client-side content store of the Link Clean website,
a marketing site for a cleaning business in Jeju. The site has no backend. The
store keeps four collections in browser-local key/value storage:

- the site settings,
- the service catalogue,
- the portfolio of before/after case studies,
- the inquiries.

The model covers four things:

- how `useStore` loads each collection, using the stored value or else a
  compiled-in default;
- how its effect rewrites all four storage keys after every change;
- the handlers that change the portfolio or a form's draft: the guest
  submission form, the admin dashboard's add and delete, and the image picker
  of both forms;
- the outcome of the contact form's submission.

The seed content of `constants.ts` is modelled too, with the data invariants
the store relies on.

Modules:

- `Wrappers` (`wrappers.dfy`): `Option` and `Result`.
- `Entities` (`entities.dfy`): the records. `Draft` is a `Partial<PortfolioItem>`
  in which every field may be missing. `Falsy` is JavaScript falsiness of an
  optional string.
- `Seeds` (`seeds.dfy`): `LUCKY_DAYS_DATA`, `INITIAL_SETTINGS`,
  `INITIAL_SERVICES`, `INITIAL_PORTFOLIO`.
- `Text` (`text.dfy`): `split` with a non-empty separator. The footer uses it
  to show one address line per branch.
- `Portfolio` (`portfolio.dfy`): the pure collection values the handlers
  compute: the prepend `[item, ...portfolio]`, the filter
  `portfolio.filter(p => p.id !== id)`, and the draft spreads.
- `Store` (`store.dfy`): storage entries, loading, the write-through effect,
  and the class `ContentStore` with the four collections and the storage map
  as fields.
- `Pages` (`pages.dfy`): the classes `PortfolioPage`, `AdminPage` and
  `ContactPage`. Each holds its draft or form data. Only `PortfolioPage` and
  `AdminPage` change the store, through its setters; `ContactPage` never does.

Storage holds the collections themselves: `Json(doc)` stands for the JSON text
of `doc`. `Blank` is the empty string. `Malformed` is text that `JSON.parse`
rejects. Text that parses but is none of the four collections (`null`, `{}`, a
number) has no `Entry`; see "## Left out". Clock readings (`Date.now().toString()`, `toLocaleDateString()`), the
result of reading a file, and the relay's answer are all parameters.

Three behaviours of the code that the model keeps as they are:

- A successful contact submission does not record the inquiry locally. The
  contact form is handed `setInquiries` but never calls it, so
  `ContactPage.Submit` leaves the store unchanged.
- Stored text that cannot be decoded has no fallback. Any truthy stored text
  goes to `JSON.parse`, and a parse error aborts mounting. So `Load` returns a
  `Failure`, and the `ContentStore` constructor requires that loading succeeds.
- After a successful add, both forms reset the draft without `category` and
  `majorCategory`. `PortfolioItem.category` and `PortfolioItem.majorCategory`
  are therefore optional. `Portfolio.AdminAfterResetLosesCategory` shows that
  after a reset, no sequence of the admin tab's actions (typing a title or
  description, picking images) brings them back. So every later commit from
  the same mounted dashboard stores both as missing. The draft is the
  dashboard's own state: leaving `/admin` or reloading the page unmounts it,
  and the next visit starts over from `Portfolio.InitialDraft`, whose first
  commit stores `입주청소` and `PROFESSIONAL` again.

## Model

| member | source | states |
|---|---|---|
| Seeds.LuckyDays | constants.ts:4-11 | exactly the six months `26년 2월` (the calendar's initial month, App.tsx:328) to `26년 7월` as keys, each with six lucky days, strictly ascending and all within 1..31 |
| Seeds.StepwiseValid | constants.ts:4-11 | a day list whose neighbours increase, from a first day >= 1 to a last day <= 31, is strictly ascending and in range |
| Seeds.InitialSettings | constants.ts:13-25 | the default settings; the address splits on `" / "` into exactly the Jeju and Seogwipo branch lines |
| Seeds.InitialServices | constants.ts:27-56 | four services with pairwise distinct ids (`m2`, `m3`, `m5`, `m4`), distinct major categories and non-empty sub-category lists |
| Seeds.InitialPortfolio | constants.ts:58-79 | two items with distinct ids, each with a title and both images, each filed under a sub-category that a seed service of the same major category lists |
| Text.Find | App.tsx:556 | the first occurrence of the separator at or after a position, with no earlier occurrence; none when there is no occurrence at all |
| Text.Split | App.tsx:556 | `split`: at least one part; the parts joined with the separator give the input back; no part contains the separator |
| Text.SplitCutsLeftmost | App.tsx:556 | `split` cuts at the leftmost occurrences: a single part exactly when the separator does not occur; otherwise the first part ends at the first occurrence and the other parts are the split of what follows it |
| Text.NoSlashIsFree | App.tsx:556 | a string without `/` holds no occurrence of `" / "` |
| Text.SplitTwoBranches | App.tsx:556 | two slash-free branch lines joined by `" / "` split into exactly those two lines |
| Entities.OrEmpty | App.tsx:836 | `description \|\| ''`: empty when the field is missing or empty, otherwise the field |
| Portfolio.InitialDraft | App.tsx:805-809 | the draft both forms start with (also App.tsx:947-954): sub-category `입주청소`, major category `PROFESSIONAL`, and refused by the add validation |
| Portfolio.ResetDraft | App.tsx:845 | the draft after a successful add (also App.tsx:988): refused by the add validation, with no category and no major category |
| Portfolio.Committable | App.tsx:829 | definition of the guard of both forms (also App.tsx:973): the title, the before-image and the after-image are each truthy; what it decides is stated by `Portfolio.Add` |
| Portfolio.AdminItem | App.tsx:977-986 | the admin item keeps the draft's title, category, major category and both images verbatim; the item has the given id and date and passes the add validation |
| Portfolio.GuestItem | App.tsx:833-842 | the guest item's title is `"[고객후기] "` followed by the draft title; major category is `PROFESSIONAL` whatever the draft says; a missing description becomes `""`; the images are the draft's |
| Portfolio.Build | App.tsx:833-842 | the item the committing form builds (admin: App.tsx:977-986): the given id and date, presentable, the draft's category and description; `PROFESSIONAL` for a guest, the draft's major category for the admin |
| Portfolio.Add | App.tsx:829-843 | a draft with an empty or missing title, before-image or after-image leaves the portfolio unchanged; otherwise the new item is at index 0 with the given id and date, the draft's images, description and category, and the author's title and major category; the length grows by one and the old items follow in order |
| Portfolio.Remove | App.tsx:991 | the filter: an item is in the result exactly when it is in the input and has another id; the result is a subsequence of the input in the input's order and no longer than it |
| Portfolio.RemoveCounts | App.tsx:991 | deleting keeps every copy of every item with another id and no copy of an item with the id |
| Portfolio.RemoveAbsent | App.tsx:991 | deleting an id no item has returns the portfolio unchanged |
| Portfolio.SubsequenceOfTail | App.tsx:991 | a subsequence of the tail is a subsequence of the whole list (keeps the order claim of `Remove`) |
| Portfolio.SubsequenceDropHead | App.tsx:991 | dropping the first element of a subsequence leaves a subsequence |
| Portfolio.RemoveConcat | App.tsx:991 | deleting distributes over concatenation, so each part keeps its own relative order |
| Portfolio.RemoveIdempotent | App.tsx:991 | deleting an id twice is the same as deleting it once |
| Portfolio.RemoveUniqueDropsOne | App.tsx:991 | with unique ids, deleting a present id removes exactly one item |
| Portfolio.RemoveUndoesAdd | App.tsx:987-991 | deleting the id of an item just added under a fresh id restores the portfolio |
| Portfolio.AddFreshKeepsUnique | App.tsx:987 | adding under an id no item has keeps ids unique |
| Portfolio.UniqueSplit | App.tsx:991 | a list with unique ids has a tail with unique ids and no item in the tail with the head's id |
| Portfolio.RemoveKeepsUnique | App.tsx:991 | deleting keeps ids unique |
| Portfolio.WithImage | App.tsx:812-825 | an image pick changes only `beforeImg` or only `afterImg`, chosen by the side, and only when the file was read; no file or a failed read leaves the draft unchanged |
| Portfolio.WithText | App.tsx:874-915 | typing into the title, sub-category or description input changes that field alone |
| Portfolio.Replay | App.tsx:1011-1021 | the draft after a sequence of typing and image-picking actions applied in order: the major category never changes, typing alone leaves both photos as they were, and picking files alone leaves title, description and sub-category as they were |
| Portfolio.AdminAfterResetLosesCategory | App.tsx:981-988 | after a reset, any sequence of the admin tab's actions leaves the draft without category and major category, so an admin commit stores neither |
| Portfolio.CategoryStaysMissing | App.tsx:1011-1021 | actions other than typing a sub-category never set a missing category or major category |
| Portfolio.ConsUnique | App.tsx:991 | an item whose id no item of a unique list has can be put in front of it and ids stay unique |
| Store.Usable | App.tsx:85 | definition of `saved ?` (also lines 90, 95 and 100): the key is present and its text is not the empty string; what it decides is stated by `Store.Decode` and `Store.Persist` |
| Store.Decode | App.tsx:83-101 | `saved ? JSON.parse(saved) : fallback`: the fallback when the key is absent or empty; the stored collection when the key holds one; a failure on unparsable text |
| Store.LoadSettings | App.tsx:83-86 | the default settings when `lc_settings` is absent or empty; the stored settings when it holds them; a failure otherwise |
| Store.LoadServices | App.tsx:88-91 | the seed services when `lc_services` is absent or empty; the stored services when it holds them; a failure otherwise |
| Store.LoadPortfolio | App.tsx:93-96 | the seed portfolio when `lc_portfolio` is absent or empty; the stored portfolio when it holds one; a failure otherwise |
| Store.LoadInquiries | App.tsx:98-101 | `[]` when `lc_inquiries` is absent or empty; the stored inquiries when it holds them; a failure otherwise |
| Store.Load | App.tsx:82-101 | mounting succeeds exactly when all four initialisers do, and each collection is its own initialiser's value |
| Store.Persist | App.tsx:103-108 | the effect: afterwards storage mirrors the snapshot under all four keys, each of them usable, so a reload never falls back to the seeds; every other key is unchanged |
| Store.ReloadRoundTrip | App.tsx:83-108 | storage that mirrors a snapshot loads back to exactly that snapshot |
| Store.PersistThenLoad | App.tsx:83-108 | a reload after any write-through returns the snapshot that was written |
| Store.PersistIdempotent | App.tsx:103-108 | rewriting storage that already mirrors the state changes nothing, so untouched collections are rewritten with the same value |
| Store.FirstRunLoadsDefaults | App.tsx:83-101 | with none of the four keys usable, loading yields the seed settings, services and portfolio and no inquiries |
| Store.ContentStore.constructor | App.tsx:82-108 | the collections are what `Load` gives for the saved storage; then the first effect run makes storage mirror them |
| Store.ContentStore.WriteThrough | App.tsx:103-108 | storage becomes the write-through of the current collections; the collections stay as they were |
| Store.ContentStore.SetSettings | App.tsx:83-108 | only the settings change; storage is rewritten and mirrors all four collections |
| Store.ContentStore.SetServices | App.tsx:88-108 | only the services change; storage is rewritten and mirrors all four collections |
| Store.ContentStore.SetPortfolio | App.tsx:93-108 | only the portfolio changes; storage is rewritten and mirrors all four collections |
| Store.ContentStore.SetInquiries | App.tsx:98-108 | only the inquiries change; storage is rewritten and mirrors all four collections |
| Pages.PortfolioPage.constructor | App.tsx:804-809 | the form is closed, the draft is the initial one, and the page starts over a store whose storage mirrors it |
| Pages.PortfolioPage.ToggleForm | App.tsx:857 | the form's visibility flips; the draft is kept |
| Pages.PortfolioPage.Edit | App.tsx:874-915 | the draft becomes `WithText` of the old draft |
| Pages.PortfolioPage.SelectImage | App.tsx:812-825 | the draft becomes `WithImage` of the old draft; a failed read yields the page's alert |
| Pages.PortfolioPage.Submit | App.tsx:827-847 | the portfolio becomes `Add(old portfolio, Guest, draft)` and nothing else in the store changes; storage becomes the write-through of the new collections, which on rejection is storage as it was; on success the form closes, the draft resets and the success alert is shown; on rejection only the validation alert is shown |
| Pages.AdminPage.constructor | App.tsx:947-954 | the draft is the initial one, over a store whose storage mirrors it |
| Pages.AdminPage.Edit | App.tsx:1011-1012 | only title and description can be typed; the draft becomes `WithText` of the old draft |
| Pages.AdminPage.SelectImage | App.tsx:957-970 | the draft becomes `WithImage` of the old draft; a failed read yields the dashboard's alert |
| Pages.AdminPage.AddPortfolio | App.tsx:972-989 | the portfolio becomes `Add(old portfolio, Admin, draft)` and nothing else in the store changes; storage becomes the write-through of the new collections (unchanged on rejection); the draft resets on success and is kept on rejection, which alerts |
| Pages.AdminPage.DeletePortfolio | App.tsx:991 | the portfolio becomes `Remove(old portfolio, id)` and nothing else in the store changes; storage becomes the write-through of the new collections, other keys untouched |
| Pages.BlankInquiry | App.tsx:743 | the contact form's initial and reset value (also App.tsx:758): empty name, phone and message, and a service type that the seed professional service lists |
| Pages.ContactPage.constructor | App.tsx:743-744 | the form starts blank with service type `입주청소`, not yet submitted |
| Pages.ContactPage.Edit | App.tsx:785-791 | typing changes one form field |
| Pages.ContactPage.Submit | App.tsx:747-767 | the form resets to its initial values and is marked submitted only when the relay accepts; otherwise the form data is kept and the matching alert is shown; the store, inquiries included, is unchanged in every case |
| Pages.ContactPage.StartOver | App.tsx:780 | the "write another" button clears the submitted flag |

## Left out

- `fileToBase64` (`FileReader.readAsDataURL`, App.tsx:72-79) is an asynchronous browser API. Its outcome is the `ImagePick` parameter.
- The `fetch` to the form relay (App.tsx:751-755) is network I/O. Its outcome is the `RelayOutcome` parameter, and the request body is not modelled.
- `JSON.stringify` and `JSON.parse` are a foreign library. Storage holds the values themselves, so the encoding is assumed to round-trip.
- `Date.now()` and `toLocaleDateString()` are clock reads and are passed in. No id-uniqueness claim is made: two adds in the same millisecond get the same id. `Portfolio.AddFreshKeepsUnique` assumes a fresh id.
- The `isUploading` and `isSubmitting` flags only disable buttons while an await is pending. The intermediate state inside an await is not modelled, and each handler is one atomic step. Because of this, the functional update `setNewPf(prev => ...)` and a plain replacement coincide.
- React's rule that an effect is skipped when no dependency changed is not modelled; the model always rewrites storage. `Store.PersistIdempotent` shows the rewrite leaves a mirroring storage unchanged, so the two agree.
- Rendering, routing, the sparkle and vacuum animations, audio and timers are presentation only. The admin dashboard's general and inquiries tabs render nothing (only the portfolio tab has content, App.tsx:1005).
- `Store.ContentStore.SetSettings`, `Store.ContentStore.SetServices` and `Store.ContentStore.SetInquiries` model the setters `useStore` returns. No handler of the application calls them. `setSettings` is handed to the dashboard and `setInquiries` to the contact form, but neither calls it.
- Store.Persist and Store.ContentStore.WriteThrough: they do not model a failing `localStorage.setItem`, and storage is unbounded. A real browser has a quota of a few megabytes, and the portfolio stores photos as base64 data URLs. When `setItem` throws (for example a quota error), the effect stops part-way: the keys after the failing one are not rewritten, and the error is not caught. The model always writes all four keys.
- Seeds.LuckyDays: a Dafny `map` has no key order, so the order in which `Object.keys` draws the month buttons (App.tsx:329, 345) is not modelled; only which months exist and their days are.
- The browser's own form validation is not modelled: the `required` attributes of the guest form (App.tsx:874, 898, 909, 915) block a submit before `handleGuestSubmit` runs, so the page never submits a guest draft with an empty description. `Pages.PortfolioPage.Submit` models the handler alone, which accepts every draft the page can send.
- `types.ts` is not part of this model. `MajorCategory` is a datatype with one constructor per enum member. `Inquiry` has the four fields the contact form collects.
- Store.LoadInquiries and Store.ContentStore.constructor: the application never reads `inquiries` (its only uses are App.tsx:98-114, 742, 945 and 1059-1060), so any text `JSON.parse` accepts under `lc_inquiries` (`null`, `{}`, a settings object) mounts normally and the first effect writes it back. The model's `LoadInquiries` returns a `WrongShape` failure for a collection of another kind there, and the constructor's requirement that loading succeed excludes that storage, which the application accepts. Parseable text that is none of the four collections has no `Entry` at all, under any key.
- A stored collection of the wrong kind under `lc_settings`, `lc_services` or `lc_portfolio` (for example a portfolio under `lc_settings`) gives the application a value of the wrong type, whose later use is not defined by the code. The model's loaders report it as a `WrongShape` failure.
