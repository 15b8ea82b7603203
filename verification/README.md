# Cookie consent controller — a Dafny model

This project models the core of a client-side cookie-consent banner script, `cookies-fs-updated.js`.
When the page loads, the script reads the visitor's stored consent record.
It shows or hides the consent banner.
It binds click handlers to elements marked with an action: `allow`, `deny`, `close`, `open-preferences` or `submit`.
It also swaps placeholder scripts (`type="fs-cc"`) for live `text/javascript` scripts when one of their categories is granted.

The DOM and the browser store are abstracted to values:

- a page is the banner's and the preferences panel's display state, plus the script nodes in document order, the preference checkboxes in document order, and a key-value store;
- every behaviour is a total pure function over those values.

Modules, one per concern of the script:

- `Options`: `Option` and `Result` wrappers.
- `CategoryList`: JavaScript `split(",")` as used on the category attribute (verbatim pieces, no trimming), with its inverse `Join`.
- `Consent`: the consent record (`map<string, bool>`, a missing key means "not granted") and the records built by `allow`, `deny` and `submit`.
- `Storage`: the consent slot under the key `fs-cc-consent`, with `GetConsent`/`SetConsent`.
- `Scripts`: the gating rule of `applyConsent`.
- `Controller`: `init`, `handleConsentAction`, the click dispatch, start-up and runs of clicks.

Points where the script's behaviour is easy to misread:

- A stored value that is not valid JSON makes `JSON.parse` throw (line 14 has no try/catch); it does not silently read as "no record". The model returns `Failure(MalformedConsent)`:
  - `Init` fails, so `Boot` never binds the click handlers (`Halted`);
  - `allow`/`deny` also read the slot first (line 40), so they would throw before writing anything.
- `submit` does not force `essential` back to granted. A checkbox named `essential` overrides it (`Consent.SubmitCanRevokeEssential`).
- The `webflow` flag guards only the banner writes. `open-preferences` and `submit` toggle the preferences panel whatever the flag says.
- Lines 34 and 57 lack the backticks of a template literal, so the file as written does not parse. The model follows the evident intent and leaves logging out.

## Model

| member | source | states |
|---|---|---|
| `CategoryList.Split` | cookies-fs-updated.js:24 | the attribute splits into one more piece than it has commas, and no piece contains a comma |
| `CategoryList.JoinSplit` | cookies-fs-updated.js:24 | joining the pieces with commas gives back the attribute: splitting loses no character |
| `CategoryList.SplitJoin` | cookies-fs-updated.js:24 | splitting a comma-join of comma-free pieces gives back the pieces, empty pieces included |
| `Consent.AnyGranted` | cookies-fs-updated.js:25 | `categories.some(cat => consent[cat])` holds iff some piece is a key mapped to true |
| `Consent.AllowRecord` | cookies-fs-updated.js:41-42 | the `allow` record has exactly the four known categories as keys and grants exactly them |
| `Consent.DenyRecord` | cookies-fs-updated.js:43-44 | the `deny` record has the four known categories as keys and grants only `essential` |
| `Consent.Collect` | cookies-fs-updated.js:68-70 | writing the checkboxes adds exactly their category names to the record's keys |
| `Consent.SubmitRecord` | cookies-fs-updated.js:67-70 | the `submit` record's keys are `essential` plus every category a checkbox names, and nothing else |
| `Consent.CollectSnoc` | cookies-fs-updated.js:68-70 | one more checkbox at the end of document order is one more map update |
| `Consent.CollectLookup` | cookies-fs-updated.js:68-70 | after the checkbox loop, a category named by a checkbox holds the last such checkbox's state; any other key keeps its starting value |
| `Consent.SubmitLookup` | cookies-fs-updated.js:67-70 | the stored value of each category is the last checkbox's state; otherwise `essential` is true and any other category is absent |
| `Consent.LastChoiceFindsLast` | cookies-fs-updated.js:68-70 | the reference reading finds a checkbox with that name and state that no later checkbox of the same name follows, and finds none iff no checkbox has the name |
| `Consent.SubmitKeepsEssential` | cookies-fs-updated.js:67-70 | without a checkbox named `essential`, `submit` keeps `essential` granted |
| `Consent.SubmitCanRevokeEssential` | cookies-fs-updated.js:67-70 | an unticked last checkbox named `essential` leaves `essential` not granted; nothing forces it back |
| `Storage.GetConsent` | cookies-fs-updated.js:12-15 | reading fails iff the slot holds unparseable text; it gives no record iff the slot is missing or blank; otherwise it gives exactly the saved record |
| `Storage.SetConsent` | cookies-fs-updated.js:17-18 | writing adds the consent key, leaves every other key as it was, and leaves a readable slot |
| `Storage.SetThenGet` | cookies-fs-updated.js:12-18 | a record written and read back is the same record |
| `Storage.GetOnEmpty` | cookies-fs-updated.js:12-15 | an empty store holds no record |
| `Storage.SetReplaces` | cookies-fs-updated.js:17-18 | a second write replaces the first as a whole; records are never merged |
| `Scripts.AsciiLower` | cookies-fs-updated.js:23 | every ASCII upper-case letter becomes its lower-case letter, every other character is kept, and the length is kept |
| `Scripts.UpperCaseTypeIsPending` | cookies-fs-updated.js:23 | a script typed `FS-CC` is a placeholder, since the selector matches the type ASCII case-insensitively |
| `Scripts.LiveTypeIsNotPending` | cookies-fs-updated.js:23-27 | the `text/javascript` type of a live script is no spelling of the placeholder type |
| `Scripts.Gate` | cookies-fs-updated.js:24-33 | a node changes iff the record activates it; then it becomes a non-placeholder `text/javascript` script carrying the `src` if non-empty, else the inline text; the result is never a placeholder the rule would still change |
| `Scripts.ApplyConsent` | cookies-fs-updated.js:22-37 | the page keeps its length, and each node at index i becomes the rule applied to node i |
| `Scripts.ActivatesIff` | cookies-fs-updated.js:24-25 | a placeholder is activated iff some piece of its attribute, split on commas with no trimming, is granted; with no attribute it never is |
| `Scripts.SingleCategory` | cookies-fs-updated.js:24-25 | a placeholder gated on one comma-free category is activated iff that category is granted |
| `Scripts.NoTrimming` | cookies-fs-updated.js:24-25 | an attribute `"a, b"` is activated iff `a` or `" b"` (with its leading space) is granted, so granting `b` alone does not activate it |
| `Scripts.ApplyInPlace` | cookies-fs-updated.js:23-33 | at every index, the node changes iff it is activated; non-placeholders stay; activated ones become the live script at the same index |
| `Scripts.ApplyLeavesNothingToActivate` | cookies-fs-updated.js:23-33 | after applying a record, no node is left that the record would activate |
| `Scripts.ApplyIdempotent` | cookies-fs-updated.js:23-33 | applying the same record twice equals applying it once |
| `Scripts.WiderActivatesMore` | cookies-fs-updated.js:25 | a record granting a superset activates every node the narrower record activates |
| `Scripts.ApplyWider` | cookies-fs-updated.js:23-33 | a record granting a superset never undoes an activation; applying it after the narrower one equals applying it alone |
| `Scripts.ApplyCommutes` | cookies-fs-updated.js:23-33 | applying two records in either order gives the same page |
| `Scripts.ApplyNothingGranted` | cookies-fs-updated.js:25 | a record that grants nothing leaves the page unchanged |
| `Scripts.AllowActivates` | cookies-fs-updated.js:25 | under the `allow` record, a placeholder is activated iff one of its pieces is a known category |
| `Scripts.DenyActivates` | cookies-fs-updated.js:25 | under the `deny` record, a placeholder is activated iff one of its pieces is `essential` |
| `Controller.HideBanner` | cookies-fs-updated.js:48-50 | the banner becomes hidden unless the webflow flag is on, and nothing else changes |
| `Controller.Commit` | cookies-fs-updated.js:46-47 | the record reads back from the store and is applied to the scripts; every other store key is kept, and nothing else on the page changes |
| `Controller.HandleConsentAction` | cookies-fs-updated.js:39-51 | fails iff the stored slot is malformed (read at line 40); otherwise stores and applies the record and hides the banner |
| `Controller.Click` | cookies-fs-updated.js:56-75 | in the model only `allow`/`deny` on a malformed slot fail; checkboxes are never changed and non-placeholder scripts keep their index and value; only `allow`/`deny`/`submit` touch the store or scripts; under webflow the banner is kept; only `open-preferences`/`submit` touch the panel |
| `Controller.Init` | cookies-fs-updated.js:79-90 | fails iff the slot is malformed; never changes the store, the checkboxes or the panel; under webflow it keeps the banner |
| `Controller.Boot` | cookies-fs-updated.js:79-94 | handlers are bound iff the slot reads without throwing, and the listening page is the page `init` produced; otherwise the page is left as it was |
| `Controller.Dispatch` | cookies-fs-updated.js:54-77 | a page with no bound handlers never reacts; a listening page stays listening; a throwing handler changes nothing; a handler that succeeds gives its resulting page |
| `Controller.InitWithRecord` | cookies-fs-updated.js:80-85 | with a stored record, start-up applies it and hides the banner unless webflow |
| `Controller.InitWithoutRecord` | cookies-fs-updated.js:86-90 | without a record, start-up activates no script and shows the banner unless webflow |
| `Controller.AllowClick` | cookies-fs-updated.js:41-50 | `allow` writes the all-granted record to the consent slot only, applies it, hides the banner unless webflow, and leaves the panel |
| `Controller.DenyClick` | cookies-fs-updated.js:43-50 | `deny` writes the essential-only record to the consent slot only, applies it, hides the banner unless webflow, and leaves the panel |
| `Controller.CloseClick` | cookies-fs-updated.js:60-63 | `close` changes only the banner, and only without webflow |
| `Controller.OpenPreferencesClick` | cookies-fs-updated.js:64-65 | `open-preferences` shows the panel regardless of webflow and changes nothing else |
| `Controller.SubmitClick` | cookies-fs-updated.js:66-73 | `submit` writes the checkbox record to the consent slot only, applies it, and hides the panel regardless of webflow; the banner is untouched |
| `Controller.OtherClick` | cookies-fs-updated.js:58-74 | any other action value, such as the `banner`/`preferences` markers, changes nothing |
| `Controller.ClickIdempotent` | cookies-fs-updated.js:56-75 | clicking the same element twice equals clicking it once |
| `Controller.ListeningStaysReadable` | cookies-fs-updated.js:79-94 | once handlers are bound, no run of clicks makes the slot unreadable, so no handler of the model throws |
| `Controller.ReadableRun` | cookies-fs-updated.js:54-77 | clicks on a listening page with a readable slot keep it listening and readable |
| `Controller.WebflowKeepsBanner` | cookies-fs-updated.js:48-63 | with the webflow flag on, no run of clicks changes the banner |
| `Controller.LiveStaysLive` | cookies-fs-updated.js:23-33 | a node that is not a placeholder is never changed by any run of clicks |
| `Controller.ReturningVisitor` | cookies-fs-updated.js:79-91 | with a stored record, the session starts listening on a page where the record is applied and the banner hidden unless webflow |
| `Controller.FirstVisitAllow` | cookies-fs-updated.js:79-91 | first visit then `allow`: banner hidden, and a placeholder is live iff one of its pieces is a known category |

## Left out

- DOM querying, `addEventListener` binding, `style.display` writes and `replaceChild`. They are abstracted as the `Page` value. `querySelectorAll` is a static snapshot in document order, so one pass over the node sequence models it.
- `localStorage` I/O and JSON (de)serialisation. The slot holds an abstract `Entry`. Stored JSON that parses to something other than an object of booleans (a number, a string, non-boolean flags) is not modelled.
- Property lookup through the JavaScript prototype chain: in the source, a category named like an inherited property (`toString`, `constructor`) reads as truthy. The model treats every key not in the record as not granted.
- A checkbox category such as `__proto__`, which JavaScript assignment would not store as an own key.
- `script.src` resolution to an absolute URL. `src` is kept as the attribute text, with the empty string meaning absent. This loses one case: a placeholder with a present but empty `src=""` has `script.src` equal to the page's own URL, which is truthy (line 28). The source would then build a live script pointing at the page itself; `Scripts.Live` takes the inline-text branch instead.
- Storage calls that throw. `localStorage.getItem`/`setItem` throw when storage is blocked or the quota is full (lines 13, 18). In the source, a throwing `getItem` makes `init` fail. A throwing `setItem` aborts `allow`/`deny`/`submit` before `applyConsent` runs (lines 46-47, 71-72). The model assumes storage calls never throw: `GetConsent` fails only on a malformed entry, and `SetConsent` never fails.
- Other code on the page. Activated scripts run as soon as they are inserted (line 33). They, or any other code, may rewrite `fs-cc-consent` or insert new placeholders between clicks, and `applyConsent` would pick those up because it re-queries the DOM on every call (line 23). The model assumes no other code writes the slot or adds nodes. `Controller.ListeningStaysReadable` and `Controller.Click`'s failure condition hold only under this assumption.
- Checkbox changes between clicks. A run of clicks holds only clicks on `[fs-cc]` elements, so `Page.checkboxes` stays fixed for the session. A run such as "`submit`, tick a box, `submit`" is not modelled.
- Consent.SubmitRecord: assumes every `[fs-cc-checkbox]` element is a checkbox input, so its key is always kept. On any other element `checked` is `undefined`: the gating rule reads that category as not granted, and `JSON.stringify` drops the key from the stored record.
- Debug logging through `console.log` (lines 6-10, 19, 34, 57). It has no effect on state.
- The null dereference when the banner or preferences element is missing (lines 49, 62, 65, 73, 84, 88). Both elements are assumed present.
- The fallback record at line 40. It is always overwritten, because only `allow` and `deny` reach `handleConsentAction`; only the read at line 40, and its possible throw, is modelled.
- Event bubbling between nested marked elements. Each click is modelled as the handler of one element, so a click on an `allow` button inside the banner is `allow` followed by the banner's own no-op `banner` action.
