# Not the Singer: a verified model of the site script

This project models, in Dafny, the logic of `script.js`, the single script behind the
"Not the Singer" musician website. It covers:

- how a reply from the SoundCloud proxy becomes catalog albums. Private tracks and titles that
  repeat a Spotify release (ignoring case) are dropped. Each kept track becomes a one-track
  record: a mix when longer than fifteen minutes, a remix otherwise. Its artwork is upgraded
  to 500x500 and its date is the creation day;
- the newest-first sort of the catalog and the grid filter ("all", "album", "mix", "remix",
  ...), with the label shown for each album type;
- the streaming links of a release. These are the search-URL fallback set, the Songlink
  `linksByPlatform` payload mapped onto the site's eight platform keys and spread over that
  fallback, and the list of links the detail panel shows;
- the page's view state. This is the module-level flags (menu open, music page, album detail,
  transition lock, current filter, filters attached) and the handlers that change them: the
  menu, home and music navigation, a card click, closing the detail, a filter click, the
  Escape key and the completion of the catalog fetch. The two `setTimeout` callbacks
  (300 ms detail close, 600 ms lock release) are events of their own.

Layout:

- `wrappers.dfy`: `Option`.
- `strings.dfy`: the JavaScript string operations used, on `seq<char>`:
  - truthiness and `||`;
  - `toLowerCase`;
  - `replace` with a string pattern, which replaces only the first occurrence;
  - `split('T')[0]`;
  - string comparison.
- `seqs.dfy`: `Array.prototype.filter` and its properties.
- `catalog.dfy`: the album record, a `streaming_links` object, the type label, the grid
  filter and the stable newest-first sort.
- `soundcloud.dfy`: the normalisation done by `fetchSoundCloudTracks`.
- `streaming_links.dfy`: the fallback links, `fetchStreamingLinks` and `setupStreamingLinks`.
- `view.dfy`: the view state as a value, one step function per handler, the invariant every
  enabled event preserves, and the handlers' promises.
- `page.dfy`: the same state as the fields of a class `Site`, whose methods update them in
  place. Each method is proved to produce exactly the state the matching step function
  describes. `SortByReleaseDate` is the sort as a loop.

A `streaming_links` object is a record with one property per platform. Each property is
absent (`Unset`) or present with a value (`Set`). A present value may be `undefined`, so a
Songlink entry without a `url` still overrides the fallback in the spread.
`EntryWithoutUrlHidesPlatform` shows the effect: the detail panel then lists no link for that
platform.

The fetched catalog holds only SoundCloud mixes and remixes.
`View.FetchedCatalogOnlyMixesAndRemixes` shows that, as a result, every filter other than
"all", "mix" and "remix" always renders the "No items found" message. The "album" filter is
one of them.

Three facts about the code shape the model:

- The catalog is fetched only from SoundCloud, and the list of Spotify names used by the
  duplicate check is empty (`script.js:423-426`). The model keeps the name list as a parameter
  and proves what the empty list does.
- `streamingLinksCache` is declared but never read or written, and `fetchStreamingLinks` is
  never called.
- The lock of `preventMultipleTransitions` guards only opening and closing the detail panel.
  Home and music navigation are refused only while the detail panel is open.

## Model

| member | source | states |
|---|---|---|
| Strings.Or | script.js:147 | `a \|\| b` is always one of its operands, and is truthy exactly when either operand is |
| Strings.ToLower | script.js:73-75 | lower-casing keeps the length and lower-cases each character on its own |
| Strings.ToLowerIdempotent | script.js:73-75 | lower-casing an already lower-cased title changes nothing |
| Strings.ReplaceFirst | script.js:20 | `replace` with a string pattern rewrites only the leftmost occurrence and returns a string without the pattern unchanged |
| Strings.ReplaceFirstLength | script.js:20 | replacing `-large.jpg` by the longer `-t500x500.jpg` never shortens the URL |
| Strings.ExistsFirstOccurrence | script.js:20 | a pattern that occurs anywhere has a leftmost occurrence, which is where `replace` acts |
| Strings.BeforeFirst | script.js:84 | `split('T')[0]` is a prefix of the timestamp containing no `T`, and is followed by a `T` when shorter |
| Strings.BeforeFirstSplit | script.js:84 | the part of an ISO timestamp before its first `T` is exactly the date |
| Strings.LexLeqReflexive | script.js:432 | the date order compares every date as equal to itself |
| Strings.LexLeqTotal | script.js:432 | any two dates are comparable, so the comparator is consistent |
| Strings.LexLeqAntisymmetric | script.js:432 | two dates that are each no later than the other are the same date |
| Strings.LexLeqTransitive | script.js:432 | the date order is transitive |
| Seqs.FilterMembers | script.js:68-78 | `filter` keeps exactly the elements its callback accepts |
| Seqs.FilterIsSubsequence | script.js:68-78 | `filter` keeps the accepted elements in their original order, each as often as it occurs |
| Seqs.FilterAllPass | script.js:236-241 | a callback that accepts everything returns the array unchanged |
| Seqs.FilterNonePass | script.js:236-241 | a callback that accepts nothing returns an empty array |
| Seqs.FilterAppend | script.js:236-241 | filtering a concatenation is concatenating the filtered parts |
| Seqs.FilterPairwise | script.js:236-241 | filtering keeps every ordering that held between all pairs of elements |
| Catalog.Overlay | script.js:158 | in `{ ...fallbackLinks, ...links }` every property present in `links` wins whatever its value, and every other property comes from the fallback |
| Catalog.GetAlbumTypeDisplay | script.js:189-193 | the label is "EP" iff a single has more than one track, "Single" iff it has at most one, "Remix" and "Mix" iff the type says so, and "Album" iff the type is none of those |
| Catalog.GetFilteredAlbums | script.js:231-242 | "all" returns the catalog itself; any other filter returns exactly the albums matching it, where "album" also accepts every Spotify-sourced album |
| Catalog.FilteredIsSubsequence | script.js:231-242 | the grid for any filter is an order-preserving sub-list of the catalog; for a filter other than "all" its length is the number of matching catalog entries, so every duplicate record is kept |
| Catalog.FilteredNewestFirst | script.js:231-242 | filtering a newest-first catalog gives a newest-first grid |
| Catalog.MixFilterScenario | script.js:236-241 | with one mix and one album, "mix" returns the mix alone, and "album" returns the album, plus the mix only when it comes from Spotify |
| Catalog.NewestFirstCons | script.js:432 | a list headed by `x` is newest first iff its tail is and `x` is no older than every later album |
| Catalog.Insert | script.js:432 | inserting one album adds exactly that album and keeps a newest-first list newest first |
| Catalog.SortNewestFirst | script.js:432 | the sorted catalog is newest first and a permutation of the input |
| Catalog.InsertStable | script.js:432 | inserting an album keeps it ahead of the albums that share its date |
| Catalog.SortStable | script.js:432 | the sort is stable: for every date, the albums of that date keep their input order |
| SoundCloud.DetermineTrackType | script.js:12-15 | the type is "mix" iff the duration exceeds fifteen minutes (900000 ms) and "remix" otherwise, whatever the title |
| SoundCloud.Upgrade | script.js:20 | the 500x500 variant of an image URL is never shorter than the URL |
| SoundCloud.GetHighQualityArtwork | script.js:18-28 | the upgraded artwork when truthy, else the upgraded avatar of a user that has one, else the fixed placeholder; never empty |
| SoundCloud.UpgradeWithoutLargeSuffix | script.js:20 | a URL without `-large.jpg` is used unchanged |
| SoundCloud.UpgradeLargeSuffix | script.js:20 | the first `-large.jpg` becomes `-t500x500.jpg` and the rest of the URL is kept |
| SoundCloud.DedupFilter | script.js:68-78 | the kept tracks are exactly the input tracks that are not private and whose title equals no Spotify name ignoring case, in input order |
| SoundCloud.EmptyNameListDropsOnlyPrivate | script.js:423-426 | with the empty name list that fetchAllMusic passes, exactly the private tracks are dropped |
| SoundCloud.ToAlbum | script.js:80-92 | the record of a track: `sc_` id, title as name, type by duration, creation day as date, one track, one image, the chosen high-quality artwork (never empty), the permalink as its only external URL and only streaming link, source "soundcloud" |
| SoundCloud.FetchSoundCloudTracks | script.js:31-115 | a failed request or a body that is not an array yields no album; otherwise one record per kept track, in order |
| SoundCloud.FetchedRecordShape | script.js:68-92 | every fetched album comes from a kept track and is a one-track SoundCloud mix or remix with an `sc_` id and a single link |
| SoundCloud.DuplicateDroppedMixKept | script.js:68-92 | for any names, next to a duplicate, a public track over fifteen minutes with a new title is the only record fetched: a mix named by its title, with id `sc_` plus its id, dated by the day before its `T` |
| SoundCloud.DuplicateDropped | script.js:68-78 | a track whose title matches a Spotify name ignoring case is dropped wherever it sits: the kept list is the one without it |
| SoundCloud.CreationDay | script.js:84 | a track created at `day` + "T" + `time`, with no `T` in `day`, is dated `day` |
| SoundCloud.SameLowerCase | script.js:73-75 | two titles of equal length whose characters differ at most in letter case are equal ignoring case |
| StreamingLinks.GetSearchFallbackLinks | script.js:168-181 | all eight platforms get a link that shows; Tidal's is the fixed artist page; every other one ends with the encoded "Not the Singer <name>" query |
| StreamingLinks.SonglinkLinks | script.js:139-152 | for every key, the links hold exactly what Songlink supplies (Apple from `appleMusic`, YouTube from `youtubeMusic` or `youtube`) and nothing for a key it does not supply |
| StreamingLinks.ExtractLinks | script.js:136-152 | the field-by-field extraction yields no links without `linksByPlatform` and the links Songlink supplies otherwise |
| StreamingLinks.YoutubePrefersMusic | script.js:146-148 | a truthy YouTube Music URL is taken over the YouTube one |
| StreamingLinks.FetchStreamingLinks | script.js:117-166 | every platform gets a property; no Spotify URL, a failed request or no `linksByPlatform` gives the fallback set; otherwise each key holds Songlink's value where it supplies one and the fallback link elsewhere |
| StreamingLinks.SonglinkOverFallback | script.js:154-158 | after the spread, every key Songlink supplied carries its value, even an undefined one, and every other key keeps the fallback |
| StreamingLinks.EntryWithoutUrlHidesPlatform | script.js:142 | a Songlink entry without a url overrides the fallback with `undefined`, so that platform shows no link while all seven others keep their fallback link |
| StreamingLinks.VisibleLinksOf | script.js:397-399 | the panel never lists more links than there are platforms |
| StreamingLinks.VisibleLinksMembership | script.js:397-399 | a link is listed iff its platform is in the list and its URL is truthy and not `#`, with that URL |
| StreamingLinks.VisibleLinksAppend | script.js:397-399 | the list for two runs of platforms is the list for the first, then for the second |
| StreamingLinks.NoneShown | script.js:397-399 | platforms whose links do not show contribute nothing |
| StreamingLinks.AllShownPrefix | script.js:397-399 | when every link shows, the panel lists the platforms one for one, in order |
| StreamingLinks.SetupStreamingLinks | script.js:382-415 | the loop over the eight platforms builds exactly the visible-link list |
| StreamingLinks.FallbackShowsEveryPlatform | script.js:386-399 | a fallback set shows all eight platforms, in display order, each with its fallback URL |
| StreamingLinks.SinglePermalinkShown | script.js:88-90 | a SoundCloud record's panel lists exactly its permalink, under SoundCloud |
| View.Init | script.js:2-9 | the page starts with the menu closed, on the home page, no detail, no lock, filter "all", no filters attached and an empty catalog (`currentFilter` and `filtersSetup` are initialised at script.js:208-209) |
| View.ToggleMenuStep | script.js:244-254 | refused while the detail is open; otherwise the menu flag flips and nothing else changes |
| View.CloseMenuStep | script.js:256-258 | refused while the detail is open; otherwise the menu ends closed and nothing else changes |
| View.GridFor | script.js:295-300 | the grid is "No items found" exactly when the filter finds nothing; whenever it finds something, the grid is the cards of exactly the filtered albums |
| View.LoadAlbumsStep | script.js:289-300 | refused while the detail is open; otherwise only the grid changes, to the grid for the current filter |
| View.GoHomeStep | script.js:260-274 | refused while the detail is open; otherwise leaves the music page and closes the menu, nothing else |
| View.ShowMusicStep | script.js:276-287 | refused while the detail is open; otherwise opens the music page, attaches the filters, renders the grid for the current filter and closes the menu, nothing else |
| View.PreventMultipleTransitions | script.js:196-205 | a transition requested while the lock is held changes nothing; otherwise the callback runs on the state with the lock taken, and when the callback leaves the lock alone it is still held afterwards |
| View.ShowAlbumDetailStep | script.js:332-360 | dropped while the lock is held; otherwise takes the lock and opens the album with its visible links, nothing else |
| View.CloseAlbumDetailStep | script.js:363-379 | dropped while the lock is held; otherwise takes the lock and starts the 300 ms close, nothing else |
| View.DetailClosedStep | script.js:372-377 | the detail is left and no close is pending; the page under it and everything else are kept |
| View.ReleaseLockStep | script.js:202-204 | the lock is released and nothing else changes |
| View.FilterClickedStep | script.js:217-225 | refused while the detail is open; otherwise selects the filter and re-renders the grid for it, nothing else |
| View.EscapeStep | script.js:460-466 | Escape closes the detail when open; else leaves the music page and closes the menu; else closes the menu |
| View.MusicFetchedStep | script.js:426-437 | the fetch is marked complete and the catalog becomes a newest-first permutation of the fetched albums, with albums of one date in fetch order; the grid is rebuilt for it only on the music page with the detail closed and is otherwise kept; nothing else changes |
| View.FetchAllMusic | script.js:426-432 | the catalog is the SoundCloud albums, newest first, as a permutation, and albums sharing a release date keep their fetch order (the sort is stable) |
| View.InitInv | script.js:2-9 | the starting state satisfies the invariant |
| View.StepPreservesInv | script.js:196-379 | every enabled event keeps the invariant: a pending close holds the lock, the detail shows a catalog album with its visible links over the music page, the music page shows the grid for the current filter, and the catalog is newest first |
| View.RunPreservesInv | script.js:196-379 | the invariant holds after any sequence of enabled events |
| View.DetailBlocksNavigation | script.js:217-300 | while the detail is open, the menu, home, music, grid and filter handlers change nothing |
| View.MenuSteps | script.js:244-258 | away from the detail, toggling flips only the menu flag, toggling twice restores the state, and closing leaves the menu closed with nothing else changed |
| View.SecondTransitionDropped | script.js:196-205 | a second open or close before the lock is released is dropped, in all four orders (open-open, close-close, open-close, close-open) |
| View.OnlyTimerReleasesLock | script.js:196-205 | no event but the 600 ms timer releases the lock |
| View.DetailKeepsPage | script.js:332-379 | opening and closing the detail never change the page under it, the catalog or the grid |
| View.DetailCloseReturnsToGrid | script.js:372-377 | after the close timer the detail is gone and the music page shows the grid for the current filter |
| View.GridIsNewestFirst | script.js:289-300 | the rendered cards are a newest-first sub-list of the catalog |
| View.FetchedCatalogOnlyMixesAndRemixes | script.js:231-242 | on the fetched catalog, every filter other than "all", "mix" and "remix" finds nothing and renders "No items found" |
| View.FetchedIsSoundCloud | script.js:80-92 | every fetched album is a SoundCloud mix or remix |
| Page.Site.constructor | script.js:2-9 | the fields start in the initial state |
| Page.Site.ToggleMenu | script.js:244-254 | the fields after toggleMenu are the toggle step of the old state |
| Page.Site.CloseMenu | script.js:256-258 | the fields after closeMenu are the close step of the old state |
| Page.Site.LoadAlbums | script.js:289-300 | the grid becomes the cards for the current filter, or "No items", unless the detail is open |
| Page.Site.GoHome | script.js:260-274 | the fields after goHome are the home step of the old state |
| Page.Site.SetupFilters | script.js:211-229 | attaching the filters only sets the attached flag |
| Page.Site.ShowMusic | script.js:276-287 | the fields after showMusic are the music step of the old state |
| Page.Site.TryBeginTransition | script.js:196-199 | the guard starts a transition iff the lock was free, and the lock is held afterwards |
| Page.Site.ShowAlbumDetail | script.js:332-360 | the fields after a card click are the open-detail step of the old state |
| Page.Site.CloseAlbumDetail | script.js:363-379 | the fields after closeAlbumDetail are the start-close step of the old state |
| Page.Site.DetailCloseTimerFired | script.js:372-377 | the 300 ms callback leaves the detail |
| Page.Site.TransitionTimerFired | script.js:202-204 | the 600 ms callback releases the lock |
| Page.Site.FilterClicked | script.js:217-225 | the fields after a filter click are the filter step of the old state |
| Page.Site.EscapePressed | script.js:460-466 | the fields after Escape are the Escape step of the old state |
| Page.Site.SortAlbums | script.js:432 | the catalog field is replaced by its newest-first stable sort; nothing else changes |
| Page.Site.SetCatalog | script.js:429-432 | the catalog becomes the sorted fetched albums and the fetch is marked complete |
| Page.Site.FetchAllMusicDone | script.js:417-441 | the fields after the fetch completes are the fetched step of the old state |
| Page.Site.Dispatch | script.js:443-466 | every event is handled exactly as the state machine's step describes |
| Page.SortByReleaseDate | script.js:432 | the loop returns exactly the stable newest-first sort of its input |

## Left out

- Network access is not modelled: the token refresh and single retry of the SoundCloud proxy,
  the Songlink request and JSON parsing. Their outcomes are inputs (`SoundCloudReply`,
  `SonglinkReply`), with every failure path collapsed to one constructor.
- The DOM is not modelled: class toggles, card and panel HTML, icons, the 'active' filter
  button class, `requestAnimationFrame`, scrolling and the card's artwork placeholder. Only the
  state those handlers keep is modelled.
- The error message and Retry button that a failed SoundCloud fetch writes into the grid
  are DOM output, so they are not modelled. The button's inline handler calls
  `retryFetchSoundCloud` (`script.js:103`), which the script never defines.
- `formatDate` and console logging are presentation only.
- The listener wiring at `script.js:443-457` is left out: navigation items, the stop of menu
  click propagation and the DOMContentLoaded start. The events those listeners deliver are
  modelled.
- `streamingLinksCache` is declared but never used, so it is not modelled.
- `API_BASE_URL` appears only in request URLs, so it is not modelled.
- Strings.ToLower: lower-cases ASCII letters only, not the full Unicode case mapping of
  `toLowerCase`.
- Catalog.NotNewer: compares release dates as strings rather than as parsed `Date` values.
  The two agree only on dates in the ISO `YYYY-MM-DD` form. The model assumes that the
  proxy's `created_at` values start with such a date; the script only cuts them at the first
  `T` (`script.js:84`).
- StreamingLinks.GetSearchFallbackLinks: `encodeURIComponent` is a parameter `encode` with no
  properties assumed, so the proofs hold for any encoding.
- Songlink payload: an entry stands for a truthy object, and `linksByPlatform` is a map keyed
  by platform name. Non-object JSON values are not modelled.
- SoundCloud tracks: `id`, `title`, `duration`, `created_at`, `permalink_url` and `sharing`
  are assumed present with their documented types; a malformed track object is not modelled.
- View.Enabled: events are limited to those the page can deliver, and the proofs rely on these
  limits. `showAlbumDetail` and `closeAlbumDetail` (`script.js:332-379`) check neither
  `isOnMusicPage` nor `isOnAlbumDetail`; the limits come from which elements the page makes
  visible and clickable, which is outside the script.
  - A card click happens only on a card of the grid currently rendered, while the music page is
    shown and the detail is closed.
  - The detail's close button works only while the detail is open.
  - A filter click happens only after `setupFilters` has attached the listeners.
  - The catalog fetch completes at most once, as it does on a page load.
  - The two timers fire in their real order: the 300 ms close timer before the 600 ms lock
    timer started with it.
  - A card click on a state outside these limits, such as the home page with the lock free,
    would break the invariant: it opens a detail over no music page.
- Page.Site.SortAlbums: assigns a newly sorted sequence to the `albums` field instead of
  sorting an array in place. Aliasing of the old array is not captured.
