# RSS reader feed bookkeeping, modelled in Dafny

The reader lets a user submit the address of an RSS feed. It validates the
address, fetches and parses the feed, and keeps two lists: the tracked feeds,
in the order they were added, and the posts, newest first. Every five seconds
it re-fetches each tracked feed. It prepends only the items whose title no
post already has, and gives each one a fresh id from lodash's global counter.
src/parser.js is the parser that src/index.js imports (src/index.js:8) and
calls at src/index.js:92 and :110. Its signature does not match those calls:
it takes the state and the feed's XML text, returns nothing, and itself prepends the
posts whose link is new and records each feed title once. src/validation.js
is a separate validator, not referenced from src/index.js. It also requires
a `.rss` suffix and turns the schema's messages into text for the user.

The model has six modules:

- `Wrappers` holds `Option`.
- `Schema` holds the two default messages of the schema library that both
  validators report.
- `Strings` holds JavaScript's `String.prototype.trim`. It strips exactly the
  WhiteSpace and LineTerminator code points that the ECMAScript definition of
  `trim` lists. It also holds the suffix test.
- `App` models src/index.js.
  - The `state` record becomes the class `App.Store`.
  - The `_.uniqueId` counter becomes the class `App.IdCounter`.
  - Each promise callback becomes one method call.
  - The pure merge is specified by `Unseen`, `Stamp`, `Merge` and `Refresh`,
    and the lemmas about them.
- `Parser` models the state update of src/parser.js.
- `Validation` models src/validation.js.

Inputs the model takes as parameters:

- A fetch together with its parse arrives as an `App.Response`: a parsed
  channel, an HTTP-client error, or another thrown error with its message.
  For src/parser.js it arrives as a `Parser.Document`.
- Whether a string is URL-shaped belongs to the schema library. It is the
  function parameter `urlShaped`.
- The text typed into the form is the `input` parameter of `HandleSubmit`.
- The order in which a refresh cycle's fetches settle is the order of the
  `responses` sequence given to `Reload`.

Where the code and the design differ, the model follows the code:

- Posts are deduplicated by exact title with `===`. Titles are not lowercased
  or trimmed. Two items with the same new title in one batch are both kept.
- `loadFeed` prepends every parsed item without deduplication. It appends the
  feed record without checking that the feed is already tracked. The only
  guard is `validate`'s `notOneOf`.
- The validator compares urls exactly, with no case or scheme normalisation.
  Its errors are the schema's messages, not a three-valued error kind.
- A refresh merges each feed's items when that feed's fetch settles. Each
  merge is a separate state update, in completion order, not source order.
  A failed fetch changes nothing and does not stop the other merges
  (`App.RefreshSkipsFailures`).
- Items carry no read flag. Read state is the UI's `clickedLinks` set of ids,
  and no merge touches it.
- In src/parser.js posts are deduplicated by `link` and feeds by `title`.
  `isIn` means "no element has this value", whatever its name suggests.

## Model

| member | source | states |
|---|---|---|
| `Strings.Trim` | src/index.js:142 | the trimmed url has no JavaScript white space at either end |
| `Strings.TrimDropsOnlyPadding` | src/index.js:142 | the trimmed url sits inside the input, with only white space before and after it |
| `Strings.TrimOfPadded` | src/index.js:142 | a core without white space at its ends, padded with white space, trims back to exactly that core |
| `Strings.TrimIdempotent` | src/index.js:142 | trimming an already trimmed url changes nothing |
| `Strings.TrimAllSpaces` | src/index.js:142 | an input made only of white space trims to the empty string |
| `App.WithId` | src/index.js:96 | a definition with no contract of its own: the post `{ ...item, id }`; `App.Stamp` states what it keeps |
| `App.Stamp` | src/index.js:96 | mapping with `_.uniqueId` keeps every item's fields and order and gives the k-th item the id counter+1+k |
| `App.StampKeepsIdsFresh` | src/index.js:96-97 | prepending freshly stamped items to posts with distinct ids at most the counter keeps the ids distinct and at most the advanced counter |
| `App.Unseen` | src/index.js:111-115 | an item survives `differenceWith` exactly when its title equals no existing post's title; each surviving item occurs exactly as often as in the batch, every other item not at all |
| `App.Merge` | src/index.js:111-116 | a definition with no contract of its own: the stamped survivors prepended to the posts; `App.MergeProperties` states its properties |
| `App.MergeLast` | src/index.js:111-115 | a definition with no contract of its own: the counter advanced by one `uniqueId` call per survivor; `App.MergeProperties` bounds the new ids by it |
| `App.MergeProperties` | src/index.js:111-116 | after a reload merge the earlier posts are the unchanged suffix; every prepended post has a title absent from the earlier posts and an id above the old counter; all ids stay distinct |
| `App.MergeEmpty` | src/index.js:111-116 | merging an empty batch leaves the posts and the counter unchanged |
| `App.MergeCoversBatch` | src/index.js:111-116 | after a merge every title of the batch is among the posts |
| `App.UnseenCovered` | src/index.js:111-115 | a batch whose titles are all present leaves no survivor |
| `App.MergeTwiceAddsNothing` | src/index.js:111-116 | merging the same batch a second time changes neither the posts nor the counter |
| `App.Step` | src/index.js:110-116 | a definition with no contract of its own: a parsed response is merged, a failed one changes nothing |
| `App.Refresh` | src/index.js:108-117 | a definition with no contract of its own: the settled responses applied one `Step` at a time; the lemmas below state its properties |
| `App.RefreshSkipsFailures` | src/index.js:109-117 | a refresh cycle gives the same posts and counter as if only its successful responses had arrived, so a failed feed neither blocks the others nor uses ids |
| `App.RefreshOnlyPrepends` | src/index.js:109-117 | after a refresh cycle the posts it started with end the list, in order and unchanged |
| `App.RefreshKeepsIdsFresh` | src/index.js:109-117 | a refresh cycle only advances the counter and keeps all post ids distinct and at most the counter |
| `App.RefreshCovers` | src/index.js:109-117 | after a refresh cycle every title of every parsed feed is among the posts |
| `App.RefreshCovered` | src/index.js:109-117 | a cycle whose titles are all present already changes nothing |
| `App.RefreshAgainAddsNothing` | src/index.js:109-117 | repeating a refresh cycle with the same documents adds nothing |
| `App.FeedUrls` | src/index.js:144 | a definition with no contract of its own: `state.feeds.map((o) => o.url)` |
| `App.Validate` | src/index.js:126-136 | `validate` returns `false` exactly when the url is non-empty, URL-shaped and no tracked url; otherwise it returns the message of a check the url fails |
| `App.ValidateRefusesTracked` | src/index.js:128-136 | the url of any tracked feed is refused |
| `App.BlankInputIsRequired` | src/index.js:142-145 | a white-space-only submission is refused with the required-field message |
| `App.IdCounter.UniqueId` | src/index.js:96 | `_.uniqueId` advances the counter by one and returns the new value |
| `App.AssignIds` | src/index.js:96 | the loop of `uniqueId` calls yields exactly `Stamp(items, counter)` and advances the counter by the number of items |
| `App.Store.constructor` | src/index.js:182-190 | the initial state: no feeds, no posts, empty error and url, unset phases |
| `App.Store.ApplyBatch` | src/index.js:110-116 | one feed's reload callback sets the posts to `Merge(old posts, items, counter)`, keeps ids distinct and changes nothing else |
| `App.Store.Reload` | src/index.js:108-117 | one refresh cycle sets posts and counter to `Refresh(old posts, old counter, responses)` and touches no other field |
| `App.Store.LoadFeed` | src/index.js:88-106 | on success: one feed record with the submitted url is appended, the url is cleared, the app is ready and all items are prepended with fresh ids. On failure: feeds, posts and url are unchanged, the app is in error, and error is `'Network Error'` or the thrown message |
| `App.Store.HandleSubmit` | src/index.js:140-154 | stores the trimmed input. If validation fails, it sets the message and `invalid` and leaves appState. Otherwise it sets `valid` and `loading` and starts the load |
| `App.ResubmitIsRefused` | src/index.js:140-154 | a scenario: from the initial state, a submission is accepted exactly when its trimmed text is non-empty and URL-shaped; once that feed has loaded, submitting the same text again is refused |
| `Parser.FindIndex` | src/parser.js:1 | `findIndex` gives the first matching index, or -1 exactly when nothing matches |
| `Parser.IsIn` | src/parser.js:1 | `isIn` is true exactly when no element has `key` equal to `value` |
| `Parser.KeepNew` | src/parser.js:15-23 | a parsed post is kept exactly when its link differs from every existing post's link; each kept post occurs exactly as often as in the document, every other post not at all |
| `Parser.KeepNewCovered` | src/parser.js:23 | a document whose links are all present keeps nothing |
| `Parser.ReparseAddsNothing` | src/parser.js:23-30 | applying the same document a second time keeps no post and finds its title already among the feeds |
| `Parser.ChannelState.ParseData` | src/parser.js:3-31 | a rejected document throws and changes nothing. Otherwise posts become the kept posts followed by the old ones. The channel is appended and the phase set to `rendering` exactly when its title is new. Feed titles stay distinct |
| `Validation.HandleErrorMsg` | src/validation.js:5-17 | each of the three schema messages maps to its own user text, every other message to the catch-all, so there are exactly four outputs |
| `Validation.RssPatternIsSuffix` | src/validation.js:3 | the pattern `/.*\.rss$/` matches exactly the strings that end in `.rss` |
| `Validation.SchemaError` | src/validation.js:3 | the schema accepts exactly the non-empty, URL-shaped links that end in `.rss`; a rejection carries the message of a failing check |
| `Validation.RejectionIsExplained` | src/validation.js:3-16 | a rejected link never gets the catch-all message |
| `Validation.LinkState.Validate` | src/validation.js:19-31 | on acceptance the link is appended to feeds, errors are unchanged and the phase is `loading`. On rejection exactly one user message is appended to errors, feeds are unchanged and the phase is `error` |

## Left out

- Rendering, the change watcher and its dispatch on property paths, marking posts as read, the modal, and the form's event wiring (src/index.js:11-84, 191-222). These are user-interface side effects. The `clickedLinks` field of the state belongs to them and is not modelled.
- The HTTP request and the proxy address built with `encodeURIComponent` (src/index.js:86-90). This is network plumbing. Its outcome is the `Response` parameter.
- The five-second timer and the `Promise.all(...).finally` rescheduling (src/index.js:118-123). These are timer and concurrency behaviour. `Promise.all` settles at the first rejection, so the next cycle can start while fetches of the current one are still pending. The model covers one cycle as a sequence of merges in settlement order, not overlapping cycles.
- XML parsing with `DOMParser` and `querySelector` (src/parser.js:4-22). The parsed document is an input. A missing element makes the source throw before any state changes, and the model treats that like a rejected document.
- The schema library's URL regular expression. It is the parameter `urlShaped`.
- App.Validate: when several checks fail, the contract says only that the reported message belongs to one of them. Which one the library reports is its own business. The body's order (required, URL, already tracked) is a modelling choice, and HandleSubmit stores whatever Validate returns.
- Validation.SchemaError: the same applies to its three checks.
- App.Unseen: the contract states which items survive and how often. It does not state that survivors keep their relative order from the batch; the recursive definition does.
- Parser.KeepNew: the same holds for the posts it keeps.
- The messages `this is a required field` and `this must be a valid URL` are the library's defaults. `notOneOf error` is set at src/index.js:158-163.
- Translation with i18next, src/locales.js and webpack.config.cjs. These are data tables and build tooling.
- The mismatch between the `parseData` that src/index.js calls and the one src/parser.js defines. src/index.js calls it with one argument and uses its result; src/parser.js takes the state and returns nothing. Each file is modelled as written: src/index.js receives its parse outcome as an `App.Response`, and src/parser.js is modelled on its own terms by `Parser.ChannelState.ParseData`.
- `_.uniqueId` returns the decimal string of the counter. The model uses the number itself, which is distinct for distinct values in the same way.
- The `console.log` in `handleErrorMsg` is output only.
