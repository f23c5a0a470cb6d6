# YouTube playlist page, modelled in Dafny

This project models the logic of a client-side page script. The script
fetches a YouTube playlist page by page from the playlist-items API. It shows
the items as a grid or a list, and it plays a chosen item in an embedded
player. The model covers four parts:

- **Pagination** (`Pagination`). The remote API is an oracle: the sequence of
  responses it gives, in request order. `FetchAllPlaylistItems` is the
  script's `while (true)` loop. It is proved against a reference definition,
  `FetchOutcome`. The proof covers the requests sent, their page tokens, the
  concatenation of page items in response order, the all-or-nothing failure
  and the final filter of malformed items.
- **Mode and outcome resolution** (`Loader`). `Settle` is a pure function.
  From the configuration and the fetch outcome it gives the status message,
  the player `src`, the container visibility and the items rendered. The
  lemmas state the script's promises for each case.
- **Per-item rendering** (`Render`). The thumbnail choice, the watch and
  embed URLs, the entry's class and attributes, and which clicks and keys
  activate an entry.
- **The page** (`PageScript.Page`). A class whose fields are the state the
  script writes: the status, the player `src`, the container's visibility,
  its `grid`/`list` classes and its entries. Its methods are the script's
  handlers. Each one states the whole new state in terms of the functions
  above.

`Urls` builds the URLs the script produces. It also reads a player `src`
back into what the player shows (`View`): nothing, the whole playlist, one
video, or one video within the playlist. The URL builders are proved to be
inverted by this reading.

Modelling choices:
- JavaScript truthiness: an optional string counts as present only when it
  is present and not empty (`Wrappers.Truthy`). This applies to the video
  id, a thumbnail `url`, and `nextPageToken`. The configuration strings are
  `''` when absent.
- A `null` element of a page's `items` array is modelled as an item without
  a snippet. The filter treats the two alike.
- A request past the end of the response sequence is a transport failure
  (`fetch` rejects). So the loop always ends, and no precondition on the
  server is needed.
- The status line is stored as a `Status` value. Its text is
  `StatusText(status)`, with the script's exact strings.
- On these points the code does less than one might expect, and the model
  follows the code:
  - An API key without a playlist id is treated as unconfigured: the player
    is blanked.
  - A `medium` thumbnail object without a `url` does not fall back to
    `default`.
  - An empty result leaves the player as it was.
  - Changing the layout only toggles the container's classes. Entries are
    not rebuilt.

## Model

| member | source | states |
|---|---|---|
| `Items.FilterPlayable` | script.js:93 | the result keeps only items with `snippet.resourceId.videoId`, and is no longer than the input |
| `Items.FilterMembers` | script.js:93 | an item is in the result iff it is in the input and well formed |
| `Items.FilterConcat` | script.js:93 | filtering distributes over concatenation, so surviving items keep their order |
| `Items.FilterKeepsPlayable` | script.js:93 | a list of well-formed items passes unchanged |
| `Items.FilterEmptyIff` | script.js:93 | the result is empty iff no input item is well formed |
| `Items.FilterFullIff` | script.js:93 | nothing is dropped iff every input item is well formed |
| `Items.FilterIdempotent` | script.js:93 | filtering twice equals filtering once |
| `Pagination.StopIndex` | script.js:68-90 | the loop's last request is answered by the first response that is not a page with a truthy `nextPageToken` |
| `Pagination.StopIndexIs` | script.js:85-89 | that index is unique: all earlier responses continued the loop |
| `Pagination.FetchOutcome` | script.js:76-93 | a successful fetch returns only well-formed items |
| `Pagination.FetchAllPlaylistItems` | script.js:62-94 | the loop's outcome equals `FetchOutcome`; it sends `StopIndex + 1` requests; the first carries no `pageToken`; request k+1 carries response k's `nextPageToken`; each carries `part`, `playlistId`, `maxResults=50` and `key` |
| `Pagination.ConcatItemsAppend` | script.js:82-84 | accumulation over two runs of pages is the concatenation of the two accumulations |
| `Pagination.ConcatItemsSkipsEmptyPage` | script.js:82-84 | a page whose `items` is missing or empty contributes nothing |
| `Pagination.ConcatItemsAt` | script.js:82-84 | item i of page j sits in the accumulator right after everything from earlier pages and the first i items of page j |
| `Pagination.FetchSucceedsIff` | script.js:68-93 | success iff some parsed page without `nextPageToken` is reached before any failure; the result is then the filtered concatenation of the pages up to it |
| `Pagination.FetchFailsOnFailedPage` | script.js:77-80 | a non-ok response reached by the loop fails the whole fetch with its status and body text, and no items are returned |
| `Pagination.FetchIgnoresLaterPages` | script.js:85-89 | responses after the one without a token are never read |
| `Pagination.FetchOfCompletePagination` | script.js:68-93 | N pages with tokens on all but the last give N requests and the filtered concatenation of all pages |
| `Pagination.FetchOfMalformedOnly` | script.js:82-93 | pages holding only malformed items give an empty success, not a failure |
| `Urls.ViewOfPlaylistEmbed` | script.js:26 | the playlist-embed URL shows the whole playlist named by its `list` value |
| `Urls.ViewOfVideoEmbed` | script.js:46 | the single-video embed URL shows exactly that video |
| `Urls.ViewOfVideoInPlaylist` | script.js:153 | the in-playlist embed URL shows that video within that playlist |
| `Urls.WatchTargetOfWatchUrl` | script.js:111 | the watch link names the video and playlist it was built from |
| `Urls.BuiltUrlsAreNotBlank` | script.js:26-50 | every URL the script builds shows something, unlike the empty `src` |
| `Render.ThumbnailUrl` | script.js:105-116 | the image source is never empty; it is the chosen variant's `url` when that is truthy, and otherwise the `hqdefault.jpg` URL built from the video id |
| `Render.ThumbnailPrefersMedium` | script.js:105-116 | `medium.url` is the image when present; without a `medium` object, `default.url` is |
| `Render.MediumShadowsDefault` | script.js:105 | when `medium` exists, `default` has no effect, even if `medium` has no `url` |
| `Render.ThumbnailFallback` | script.js:116 | with no usable `url` on the chosen variant, the image depends only on the video id |
| `Render.EntryClass` | script.js:108 | the class is `item` in grid layout and `item list` otherwise |
| `Render.EntryFor` | script.js:102-150 | the entry carries the layout's class, the item's video id and title, the thumbnail choice as its non-empty image source, the watch URL as a link opened in a new context with `noopener noreferrer`, tab index 0 and role `button` |
| `Render.WatchLinkTargetsItem` | script.js:126-130 | an entry's watch link points at that item's video in the playlist |
| `Render.PlayShowsEntry` | script.js:152-153 | activating an entry makes the player show that entry's video within the playlist |
| `Loader.Decimal` | script.js:43 | the item count is written as decimal digits without leading zeros that read back to the count |
| `Loader.Settle` | script.js:18-52 | the container is shown iff both key and playlist id are set; anything rendered is exactly the fetch result, all well formed |
| `Loader.ModeContract` | script.js:22-35 | no playlist id gives a blank player; id without key gives the whole-playlist embed; both cases hide the container and render nothing; full configuration shows the container |
| `Loader.FailureFallsBackToPlaylist` | script.js:47-51 | a failed page reached by the loop leaves nothing rendered, the failure message and the whole-playlist embed |
| `Loader.SuccessPrimesFirstItem` | script.js:39-46 | a non-empty result is rendered in full, counted in the status, and primes the player with the first item's video |
| `Loader.SuccessSetsFirstVideoEmbed` | script.js:43-46 | for any non-empty result the player's `src` is the single-video embed of the first item's id |
| `Loader.AnyFailureFallsBackToPlaylist` | script.js:47-51 | every failure (HTTP, unparsable body, transport) shows the failure message, renders nothing and sets the whole-playlist embed |
| `Loader.MalformedOnlyMeansNoItems` | script.js:39-42 | pages with only malformed items report "No items found" and leave the player unchanged |
| `Loader.PlayerTargetIsAccountedFor` | script.js:26-50 | after a load the player is blank, the playlist embed, the first fetched video, or (only after an empty result) what it was before |
| `PageScript.Page.constructor` | script.js:2-4 | the configuration is read once; an empty page with exclusive layout classes |
| `PageScript.Page.ChangeLayout` | script.js:13-16 | the `grid` class is set iff the grid radio was checked, the `list` class iff the list radio was; never both |
| `PageScript.Page.RenderItems` | script.js:96-173 | the container is cleared, then holds exactly one entry per item in item order; the layout classes follow the grid radio; the result does not depend on the old entries, so rendering twice equals rendering once |
| `PageScript.Page.HandleEntryEvent` | script.js:159-169 | Enter, Space or a click on anything but a link sets the player to the entry's in-playlist embed; other keys and clicks on links change nothing; only a handled key prevents the default |
| `PageScript.Page.LoadPlaylist` | script.js:18-52 | the page ends up as `Settle` says for the fetch outcome; no request is sent unless fully configured; otherwise the requests are those of `FetchAllPlaylistItems` |
| `PageScript.Page.OnWindowLoad` | script.js:178-188 | id without key shows the embedded playlist, hides the container and does not fetch; full configuration loads; otherwise nothing changes; the layout classes change only when a load renders items |

## Left out

- Network and DOM: the real `fetch`, `res.json()`, `res.text()`, element
  creation, `innerHTML`, `classList`, `console.error` and `scrollIntoView`.
  The network is the response sequence. The DOM is the fields of `Page`.
- Timers: the 100 ms pause between pages and the 200 ms auto-load delay.
  They do not change any result.
- Query-string encoding by `URL`/`searchParams`. A request is modelled as
  its endpoint and a map of parameters.
- The error's message text (`YouTube API error: <status> <text>`). The
  error keeps the status and body text; the page only logs the message.
- Overlapping loads. The `load` listener at script.js:57-60 and the one at
  script.js:178-188 both schedule a load when fully configured, and two
  loads in flight can race to write the page. This is interleaving, not
  sequential logic. `OnWindowLoad` models the second listener as one
  sequential load.
- The button's click listener (script.js:54) is a direct call of
  `LoadPlaylist`.
- The thumbnail link element `a` (script.js:110-113, 132) is built but
  never attached to the page. The two arms of the grid/list branch
  (script.js:138-145) are the same. One construction path is modelled.
- The transient "Loading playlist items..." status is overwritten before
  `loadPlaylist` returns. Only the final status is stated.
- The `aria-label` and `alt` text are carried in the entry, but no property
  of them is stated beyond what `EntryFor` builds.
- Urls.ViewOfVideoEmbed: assumes a video id without `?`. Real YouTube ids
  never hold one; the model's items may hold any string.
- Urls.ViewOfVideoInPlaylist: assumes a video id without `?`, for the same
  reason.
- Urls.WatchTargetOfWatchUrl: assumes a video id without `&`, for the same
  reason.
- Render.WatchLinkTargetsItem: assumes a video id without `&`, for the same
  reason.
- Render.PlayShowsEntry: assumes a video id without `?`, for the same reason.
- Loader.SuccessPrimesFirstItem: assumes the first video id has no `?`, for
  the same reason; `Loader.SuccessSetsFirstVideoEmbed` states the player's
  `src` with no such assumption.
