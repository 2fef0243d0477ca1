# Mansaj: a Dafny model of the site's logic

Mansaj is a bilingual (Arabic-first) furniture showroom site. A public page
renders one content document. An admin page, behind a password, edits a
working copy of that document and saves it to the browser's local store. The
public page reloads from there when it is notified.

This project models the parts of the site that carry logic, as pure
functions over immutable values:

- **Content document** (`Types`, `Content`). The six-section `SiteContent`
  record, its item types, and the built-in default document.
- **Admin edits** (`Admin`):
  - setting a scalar field;
  - setting a field of a list item;
  - appending a furniture item or a client;
  - removing items by id;
  - runs of such edits, which keep ids unique within each list.
- **Load, save and reload** (`Store`):
  - the admin page's initial load, which falls back to the default document;
  - the public page's reload on notification, which keeps the shown document when nothing usable is stored;
  - the admin's save.
- **Login gate** (`Login`). The password check, logout, and the session flag
  that mirrors the in-memory "authenticated" state.
- **Furniture carousel** (`Carousel`):
  - the rule that enables the "previous" and "next" buttons from the scroll geometry, with its 5-pixel tolerance, its "content fits" case, its left-to-right case and its two right-to-left conventions;
  - the signed step that one button press scrolls.
- **Public page rules** (`PublicPage`):
  - the highlighted navigation entry;
  - the header's scrolled style;
  - the `tel:` and `wa.me` phone links;
  - the enlarged image URL in the furniture viewer.
- **Inline editors** (`Editable`). The `EditableText` edit, draft and commit state machine, and the `EditableImage` click rule.
- **Supporting modules.** `Text` holds JavaScript's white-space class, `trim`, decimal rendering of a non-negative integer and first-occurrence `replace`. `Seqs` holds order-preserving filtering and id-keyed lists. `Wrappers` holds `Option`.

The browser becomes parameters. The local store is a `map<string, string>`. JSON parsing and serialisation are function parameters, and parsing is partial: it returns `None` where `JSON.parse` throws. A new item's id and the clock stamp in its URL are two parameters: the id is an `int`, the stamp a `nat`. Scroll and layout geometry are plain values: `scrollLeft` and `scrollY` are `real`; widths and offsets are `int`.

Under right-to-left layout, browser engines use two conventions for `scrollLeft`. In one it runs from 0 at the start down to `-maxScroll` at the end. In the other it runs from `maxScroll` at the start down to 0 at the end, so an offset of 0 would be the end. The code tells them apart by the sign of `scrollLeft` and tests `scrollLeft <= 0` first (App.tsx:223), so an offset of 0 is always read as the start. The model does the same, and `Carousel.RtlZeroReadsAsStart` states it.

The verification uses no axioms and no assumptions. Every definition has a body.

## Model

| member | source | states |
|---|---|---|
| Types.DocumentExtensionality | types.ts:24-53 | A document is determined by its 13 scalar fields and its three item lists: six sections, none optional, and only furniture, store and clients hold lists |
| Content.InitialContent | content.ts:4-94 | The default document has 4 furniture items, 12 store products and 6 clients, numbered 1, 2, 3, … in list order |
| Content.InitialIdsIncreasing | content.ts:17-22 | In each default list the ids strictly increase in list order, and so are pairwise distinct |
| Content.InitialFullyPopulated | content.ts:4-94 | Every scalar field of the default document, and every field of every default item (client description and website included), is a non-empty string |
| Admin.InitialWellKeyed | content.ts:4-94 | The default document has no repeated id in any list |
| Store.GetItem | components/Admin.tsx:47 | Reading a key yields its stored string exactly when the key is present |
| Store.SetItem | components/Admin.tsx:56 | Writing a key makes it hold the new string and leaves every other key as it was |
| Store.LoadOr | App.tsx:264-265 | An absent or empty stored string, or one that fails to parse, yields the fallback; otherwise the result is the parsed document |
| Store.AdminLoad | components/Admin.tsx:46-53 | The dashboard starts from the document a non-empty stored string parses to; when nothing is stored, the stored string is empty, or it does not parse, it starts from the default document |
| Store.PublicReload | App.tsx:262-277 | On mount and on a storage notification, the public page switches to the document a non-empty stored string parses to; when nothing is stored, the stored string is empty, or it does not parse, it keeps its current document |
| Store.Save | components/Admin.tsx:55-58 | Saving puts the serialised working copy under `mansaj-content` and touches no other key |
| Store.MountAgreesWithAdminLoad | App.tsx:174 | The public page's first reload over the default document gives the same document as the dashboard's initial load |
| Store.SaveThenLoad | components/Admin.tsx:55-58 | When parsing undoes serialisation, a saved document is what the dashboard loads next and what every public page switches to |
| Store.LastSaveWins | components/Admin.tsx:55-58 | After two saves, a reader sees the second document |
| Store.UnusableStoredValueFallsBack | components/Admin.tsx:48-52 | An empty or unparsable stored string makes the dashboard start from the default and leaves the public page's document unchanged |
| Admin.ChangeField | components/Admin.tsx:62-68 | A field edit sets exactly that field; every other field, every item list and every other section is unchanged |
| Admin.ChangeFieldIsUnique | components/Admin.tsx:62-68 | A field edit produces the only document that has the new value in that field and agrees with the old one everywhere else |
| Admin.SetFurnitureValue | components/Admin.tsx:73 | Assigning one furniture field sets it, keeps the id and keeps the other field |
| Admin.SetProductValue | components/Admin.tsx:73 | Assigning one product field sets it, keeps the id and keeps the other fields |
| Admin.SetClientValue | components/Admin.tsx:73 | Assigning one client field makes it present with the new value, keeps the id and keeps the other fields |
| Admin.ChangeFurnitureItem | components/Admin.tsx:70-76 | Editing furniture item i changes only position i, and there only the chosen field; length, order and ids are kept |
| Admin.ChangeProduct | components/Admin.tsx:70-76 | Editing product i changes only position i, and there only the chosen field; length, order and ids are kept |
| Admin.ChangeClient | components/Admin.tsx:70-76 | Editing client i changes only position i, and there only the chosen field; length, order and ids are kept |
| Admin.ChangeListItem | components/Admin.tsx:70-76 | An item edit leaves every scalar field, every list length, every id and every other section unchanged, and changes the chosen list as the per-list edit does |
| Admin.AddItem | components/Admin.tsx:78-89 | Adding to furniture or clients appends exactly one item with the given id, the default name and the prefixed clock-stamped URL, with the earlier items kept in order; any other section leaves the document unchanged |
| Admin.RemoveItem | components/Admin.tsx:91-97 | Removal keeps exactly the items whose id differs, drops the id from the list, and leaves everything outside that list unchanged |
| Admin.RemoveAbsentIdIsNoOp | components/Admin.tsx:91-97 | Removing an id that is not in the list changes nothing |
| Admin.RemoveItemIdempotent | components/Admin.tsx:91-97 | Removing the same id twice is the same as removing it once |
| Admin.RemoveItemKeepsOrder | components/Admin.tsx:91-97 | In each of the three lists, removal keeps the survivors' order: removing from a list split in two is removing from each part and joining the results |
| Admin.SetItemKeepsWellKeyed | components/Admin.tsx:70-76 | Editing an item field never creates a duplicate id |
| Admin.AddKeepsWellKeyed | components/Admin.tsx:78-89 | Appending an item whose id is new to its list keeps the ids of every list pairwise distinct |
| Admin.RemoveKeepsWellKeyed | components/Admin.tsx:91-97 | Removing by id keeps the ids of every list pairwise distinct |
| Admin.ApplyKeepsWellKeyed | components/Admin.tsx:83-94 | No single edit creates a duplicate id within a list, provided an added id is not already in the list it joins |
| Admin.ApplyAllKeepsWellKeyed | components/Admin.tsx:62-97 | After any run of dashboard edits whose added ids are fresh, every list still has pairwise distinct ids |
| Seqs.Filter | components/Admin.tsx:94 | Filtering keeps exactly the elements that pass, and no others |
| Seqs.FilterAppend | components/Admin.tsx:94 | Filtering a concatenation is concatenating the filtered parts, so order is preserved |
| Seqs.RemoveKeyKeepsUnique | components/Admin.tsx:94 | Removing by id keeps ids unique |
| Seqs.AppendFreshKeepsUnique | components/Admin.tsx:83-85 | Appending an item whose id is not yet used keeps ids unique |
| Login.Initial | components/Admin.tsx:196 | On page load the tab is authenticated exactly when a non-empty session flag is present |
| Login.LoginAttempt | components/Admin.tsx:198-205 | The admin password sets both the authenticated flag and the session flag to `"true"`; any other password changes nothing |
| Login.Logout | components/Admin.tsx:207-210 | Logout clears both the authenticated flag and the session flag |
| Login.TransitionsKeepConsistent | components/Admin.tsx:196-210 | Login and logout keep the in-memory flag and the session flag in agreement |
| Login.RunAuthenticatedIff | components/Admin.tsx:196-210 | After any sequence of logins and logouts, the tab is authenticated exactly when a correct login (or an authenticated start) has no later logout |
| Carousel.CheckScroll | App.tsx:205-242 | Both buttons are off when the row fits within 5 px; otherwise each of the three layouts enables "previous" and "next" on exactly its own threshold test |
| Carousel.LtrIsByDistance | App.tsx:230-233 | Left to right, the rule is "previous once 5 px in, next until within 5 px of the end", measured on `scrollLeft` |
| Carousel.NegativeRtlIsByDistance | App.tsx:223-225 | Right to left with non-positive offsets, the same rule is measured on `-scrollLeft` |
| Carousel.PositiveRtlIsByDistance | App.tsx:226-229 | Right to left with positive offsets, the same rule is measured on `maxScroll - scrollLeft`, except exactly on the two tolerance lines; at `scrollLeft = maxScroll - 5` the code disables "previous" where the distance rule would enable it |
| Carousel.RtlZeroReadsAsStart | App.tsx:221-225 | Right to left, an offset of 0 always reads as the start when the row can scroll more than 5 px: "previous" off, "next" on |
| Carousel.InitialStateIsStartState | App.tsx:181 | The button state before the first check ("previous" off, "next" on) is what the check gives for a row at offset 0 that can scroll more than 5 px, in either layout direction |
| Carousel.SomeButtonEnabled | App.tsx:216-241 | When the row can scroll at least 10 px, some button is enabled in every position and layout |
| Carousel.Recheck | App.tsx:205-207 | Without a container the button state is kept; with one, it is replaced by the check's result |
| Carousel.RecheckConverges | App.tsx:244-259 | The state after a check depends only on the geometry, so repeated triggers change nothing further |
| Carousel.ScrollStep | App.tsx:188-203 | With a container and at least two items, a press scrolls by the offset between the first two items, positive for "right" and negated for "left"; otherwise it does nothing |
| Carousel.StepsCancel | App.tsx:196-200 | One press of each button scrolls by opposite amounts |
| Carousel.ThreeCardExample | App.tsx:188-242 | Three 300-px cards with 24-px gaps: a 324-px step, and the expected button states at the start, middle and end |
| PublicPage.ActiveSection | App.tsx:286-296 | The highlighted entry is the id of the last section, in document order, whose top minus 80 px is at or above the scroll position, or "hero" when there is none |
| PublicPage.LastReachedUnique | App.tsx:289-295 | At most one section is the last one reached, so the answer is well defined |
| PublicPage.Scrolled | App.tsx:285 | The header uses its scrolled style exactly when the page is scrolled more than 50 px |
| PublicPage.ScrolledIsMonotone | App.tsx:285 | Scrolling further down never turns the scrolled style off |
| PublicPage.TelNumber | App.tsx:517 | The dialled number holds every non-white-space character of the phone and nothing else |
| PublicPage.WhatsAppNumber | App.tsx:524 | The WhatsApp number holds every character of the phone that is neither white space nor `+`, and nothing else |
| PublicPage.TelHref | App.tsx:517 | The call link is `tel:` followed by the dialled number |
| PublicPage.WhatsAppHref | App.tsx:524 | The WhatsApp link is `https://wa.me/` followed by the WhatsApp number |
| PublicPage.PhoneCleaningIdempotent | App.tsx:517-524 | Cleaning a number a second time changes nothing |
| PublicPage.WhatsAppIsTelWithoutPlus | App.tsx:517-524 | The WhatsApp number is the dialled number with its `+` signs removed |
| PublicPage.TelNumberKeepsOrder | App.tsx:517 | Cleaning keeps the remaining characters in their original order |
| PublicPage.ModalImageUrl | App.tsx:164 | The enlarged image URL rewrites only the first `w=800` into `w=1200`, and a URL without `w=800` is unchanged |
| PublicPage.ModalImageExample | App.tsx:164 | `x?w=800` becomes `x?w=1200`, and `x?w=1200` is left alone |
| Text.ReplaceFirst | App.tsx:164 | A string-pattern replace rewrites the first occurrence only and leaves a string without the pattern unchanged |
| Text.IndexOf | App.tsx:164 | The index found is an occurrence with no earlier occurrence; when none is found, there is no occurrence at all |
| Text.TrimEmptyIffBlank | components/Editable.tsx:88 | A string trims to the empty string exactly when all its characters are white space |
| Text.NatToString | components/Admin.tsx:83-85 | The clock stamp appended to a new URL is a non-empty run of decimal digits with no leading zero |
| Text.DecimalRoundTrip | components/Admin.tsx:83-85 | Reading the decimal rendering back gives the number |
| Editable.Mount | components/Editable.tsx:15-16 | A freshly mounted text is not editing, and its draft is the displayed value |
| Editable.TextStep | components/Editable.tsx:14-72 | A value is committed exactly on blur, or on Enter in a single-line editor, while an admin is editing, and it is the draft; committing only leaves editing, and any other blur or key changes nothing; a click puts an admin into editing; typing changes only the draft; a changed value prop resets the draft |
| Editable.VisitorNeverEdits | components/Editable.tsx:71-72 | For a visitor, no sequence of events ever enters editing or commits a value |
| Editable.TextareaKeysNeverCommit | components/Editable.tsx:27-47 | In a textarea, typing and key presses (Enter included) never commit and never close the editor |
| Editable.EditSessionCommitsOnce | components/Editable.tsx:22-64 | Click, type, then blur (or Enter in a single-line editor) commits exactly once, with the last text typed, and leaves editing |
| Editable.ImageClick | components/Editable.tsx:85-91 | A visitor's click does nothing; an admin's answer is committed exactly when it is present and has a non-white-space character, and it is committed untrimmed |

## Left out

- Markup, styling, icons, animations, the reveal-on-scroll observer and the client and phone-option pop-ups. They are presentation only.
- Listener registration and removal, the 100 ms delayed first check, `dispatchEvent`, `alert` and `prompt`, smooth scrolling and scroll locking. These are browser event plumbing. A carousel trigger is modelled as one `Carousel.Recheck`. A prompt's answer is a parameter.
- The local and session stores themselves. Each is a string map, or an optional flag.
- JSON parsing and serialisation. They are parameters. Two JSON cases are not modelled:
  - text that parses to a value of the wrong shape, such as `"null"`;
  - the round trip of serialisation and parsing, which is taken as a hypothesis.
- The error logging in the storage `catch` blocks. It has no effect on state.
- The scroll-progress percentage (App.tsx:298-305). It is floating-point division.
- Path-based routing between the public and admin pages (App.tsx:570-578). It is plain dispatch.
- `deepCopy` (content.ts:96) has no member. Documents are immutable values, so the copy is the value itself. Every edit builds a new document and never changes the previous one.
- Admin.ChangeListItem: the item index must name an item. The code dereferences it without a check, and an out-of-range index throws. The dashboard only passes indices of the list it renders. Writing the numeric `id` field is not modelled, because the dashboard never edits it.
- Admin.AddItem: the two clock readings are independent parameters. The fresh id is assumed, not guaranteed, to be absent from the list. `Admin.FreshRun` states that assumption.
- Text.NatToString: JavaScript switches to exponent notation for values of 10^21 or more. That range is not modelled, and clock readings are far below it.
- Store.Save: storage access is assumed to succeed. In the code `localStorage.setItem` (components/Admin.tsx:56) has no `try`, so a full or disabled store throws and nothing is written, notified or announced. The dashboard's `getItem` (components/Admin.tsx:47) is likewise outside its `try`, while the public page's reads are inside one (App.tsx:263-275). The model has no failing store.
- Login.LoginAttempt: the session store's `setItem` (components/Admin.tsx:200) is assumed to succeed. If it threw, the tab would stay logged out because the throw comes before `setIsAuthenticated(true)`.
- Carousel.StepsCancel: the browser clamps the scroll position to its range. That clamp is not modelled, so the two presses cancel only away from the ends.
- Security of the hard-coded password is not addressed.
