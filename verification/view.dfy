/**
 * The page's view state: the module-level flags of the site script, the catalog, what the
 * album grid and the detail panel hold, and how every handler changes them. Each handler is a
 * function from the state before to the state after; the two timers of the transition code are
 * events of their own.
 */
module View {
  import opened Wrappers
  import opened Seqs
  import opened Catalog
  import opened SoundCloud
  import opened StreamingLinks

  /** The contents of the album grid: never filled yet, the "No items found" message, or cards. */
  datatype Grid = Blank | NoItems | Cards(albums: seq<Album>)

  /**
   * The flags `isMenuOpen`, `isOnMusicPage`, `isOnAlbumDetail`, `transitionInProgress`,
   * `currentFilter` and `filtersSetup`; whether the 300 ms detail-close timer is pending;
   * whether the one catalog fetch of the page has completed; the `albums` array; the grid;
   * the album shown in the detail panel and the links listed there.
   */
  datatype ViewState = ViewState(
    menuOpen: bool,
    onMusicPage: bool,
    onAlbumDetail: bool,
    transitionInProgress: bool,
    detailClosePending: bool,
    currentFilter: string,
    filtersSetup: bool,
    catalogLoaded: bool,
    albums: seq<Album>,
    grid: Grid,
    selected: Option<Album>,
    shownLinks: seq<ShownLink>)

  /** The state when the script starts. */
  function Init(): (s: ViewState)
    ensures !s.menuOpen && !s.onMusicPage && !s.onAlbumDetail && !s.transitionInProgress
    ensures s.currentFilter == "all" && !s.filtersSetup && s.albums == [] && s.grid == Blank
  {
    ViewState(false, false, false, false, false, "all", false, false, [], Blank, None, [])
  }

  /**
   * What can happen to the page: a click on the menu trigger, on the overlay or a non-music
   * navigation item, on the logo, on the music navigation item, on a card, on the detail
   * panel's close button, on a filter button; the Escape key; the completion of the catalog
   * fetch; and the two timers (300 ms detail close, 600 ms lock release).
   */
  datatype Event =
    | ToggleMenu
    | CloseMenu
    | GoHome
    | ShowMusic
    | CardClicked(album: Album)
    | CloseAlbumDetail
    | FilterClicked(filter: string)
    | EscapePressed
    | MusicFetched(reply: SoundCloudReply)
    | DetailCloseTimer
    | TransitionTimer

  // ---------------------------------------------------------------------------
  // The handlers
  // ---------------------------------------------------------------------------

  /** toggleMenu: refused while the detail is open; otherwise only the menu flag flips. */
  function ToggleMenuStep(s: ViewState): (t: ViewState)
    ensures s.onAlbumDetail ==> t == s
    ensures !s.onAlbumDetail ==> t.menuOpen != s.menuOpen && t.(menuOpen := s.menuOpen) == s
  {
    if s.onAlbumDetail then s else s.(menuOpen := !s.menuOpen)
  }

  /** closeMenu: refused while the detail is open; otherwise the menu ends closed and nothing else moves. */
  function CloseMenuStep(s: ViewState): (t: ViewState)
    ensures s.onAlbumDetail ==> t == s
    ensures !s.onAlbumDetail ==> !t.menuOpen && t.(menuOpen := s.menuOpen) == s
  {
    if s.menuOpen then ToggleMenuStep(s) else s
  }

  /** What `loadAlbums` puts in the grid for a catalog and a filter. */
  function GridFor(albums: seq<Album>, filter: string): (g: Grid)
    ensures g == NoItems <==> GetFilteredAlbums(albums, filter) == []
    ensures g.Cards? ==> g.albums == GetFilteredAlbums(albums, filter) && g.albums != []
    ensures GetFilteredAlbums(albums, filter) != [] ==> g == Cards(GetFilteredAlbums(albums, filter))
  {
    var filtered := GetFilteredAlbums(albums, filter);
    if |filtered| == 0 then NoItems else Cards(filtered)
  }

  /** loadAlbums: refused while the detail is open; otherwise only the grid is rebuilt, for the current filter. */
  function LoadAlbumsStep(s: ViewState): (t: ViewState)
    ensures s.onAlbumDetail ==> t == s
    ensures !s.onAlbumDetail ==> t.grid == GridFor(s.albums, s.currentFilter) && t.(grid := s.grid) == s
  {
    if s.onAlbumDetail then s else s.(grid := GridFor(s.albums, s.currentFilter))
  }

  /** goHome: refused while the detail is open; otherwise it leaves the music page and closes the menu, nothing else. */
  function GoHomeStep(s: ViewState): (t: ViewState)
    ensures s.onAlbumDetail ==> t == s
    ensures !s.onAlbumDetail ==> t == s.(onMusicPage := false, menuOpen := false)
  {
    if s.onAlbumDetail then s
    else
      var left := if s.onMusicPage then s.(onMusicPage := false) else s;
      CloseMenuStep(left)
  }

  /**
   * showMusic: refused while the detail is open; otherwise it opens the music page, attaches the
   * filters, renders the grid for the current filter and closes the menu, nothing else.
   */
  function ShowMusicStep(s: ViewState): (t: ViewState)
    ensures s.onAlbumDetail ==> t == s
    ensures !s.onAlbumDetail ==>
      t == s.(onMusicPage := true, filtersSetup := true, menuOpen := false,
              grid := GridFor(s.albums, s.currentFilter))
  {
    if s.onAlbumDetail then s
    else CloseMenuStep(LoadAlbumsStep(s.(onMusicPage := true, filtersSetup := true)))
  }

  /**
   * The lock: a transition that starts while another runs is dropped; otherwise it takes the lock,
   * which a callback that leaves the lock alone still holds when it returns.
   */
  function PreventMultipleTransitions(s: ViewState, callback: ViewState -> ViewState): (t: ViewState)
    ensures s.transitionInProgress ==> t == s
    ensures !s.transitionInProgress && (forall u :: callback(u).transitionInProgress == u.transitionInProgress) ==>
      t.transitionInProgress
    ensures !s.transitionInProgress ==> t == callback(s.(transitionInProgress := true))
  {
    if s.transitionInProgress then s else callback(s.(transitionInProgress := true))
  }

  function OpenDetail(album: Album): ViewState -> ViewState {
    (s: ViewState) => s.(onAlbumDetail := true, selected := Some(album),
                         shownLinks := VisibleLinks(album.streamingLinks))
  }

  /**
   * showAlbumDetail: dropped while the lock is held; otherwise it takes the lock and opens the
   * album with its visible links, nothing else.
   */
  function ShowAlbumDetailStep(s: ViewState, album: Album): (t: ViewState)
    ensures s.transitionInProgress ==> t == s
    ensures !s.transitionInProgress ==>
      t == s.(transitionInProgress := true, onAlbumDetail := true, selected := Some(album),
              shownLinks := VisibleLinks(album.streamingLinks))
  {
    PreventMultipleTransitions(s, OpenDetail(album))
  }

  function StartClose(): ViewState -> ViewState {
    (s: ViewState) => s.(detailClosePending := true)
  }

  /** closeAlbumDetail: dropped while the lock is held; otherwise it takes the lock and starts the 300 ms close. */
  function CloseAlbumDetailStep(s: ViewState): (t: ViewState)
    ensures s.transitionInProgress ==> t == s
    ensures !s.transitionInProgress ==> t == s.(transitionInProgress := true, detailClosePending := true)
  {
    PreventMultipleTransitions(s, StartClose())
  }

  /** The 300 ms timer of closeAlbumDetail: the detail is left (the music page shows again if it was open). */
  function DetailClosedStep(s: ViewState): (t: ViewState)
    ensures !t.onAlbumDetail && !t.detailClosePending && t.onMusicPage == s.onMusicPage
    ensures t.(onAlbumDetail := s.onAlbumDetail, detailClosePending := s.detailClosePending) == s
  {
    s.(detailClosePending := false, onAlbumDetail := false)
  }

  /** The 600 ms timer of preventMultipleTransitions: the lock is released. */
  function ReleaseLockStep(s: ViewState): (t: ViewState)
    ensures !t.transitionInProgress && t.(transitionInProgress := s.transitionInProgress) == s
  {
    s.(transitionInProgress := false)
  }

  /** A filter button click: refused while the detail is open; otherwise it selects the filter and re-renders the grid for it. */
  function FilterClickedStep(s: ViewState, filter: string): (t: ViewState)
    ensures s.onAlbumDetail ==> t == s
    ensures !s.onAlbumDetail ==> t == s.(currentFilter := filter, grid := GridFor(s.albums, filter))
  {
    if s.onAlbumDetail then s else LoadAlbumsStep(s.(currentFilter := filter))
  }

  /**
   * The Escape key: closes the detail when it is open; otherwise leaves the music page (closing
   * the menu) when on it; otherwise closes the menu, which does nothing when it is closed.
   */
  function EscapeStep(s: ViewState): (t: ViewState)
    ensures s.onAlbumDetail ==> t == CloseAlbumDetailStep(s)
    ensures !s.onAlbumDetail && s.onMusicPage ==> t == s.(onMusicPage := false, menuOpen := false)
    ensures !s.onAlbumDetail && !s.onMusicPage ==> t == s.(menuOpen := false)
  {
    if s.onAlbumDetail then CloseAlbumDetailStep(s)
    else if s.onMusicPage then GoHomeStep(s)
    else if s.menuOpen then CloseMenuStep(s)
    else s
  }

  /** The catalog fetchAllMusic builds: the SoundCloud albums (no names to skip), newest first. */
  function FetchAllMusic(reply: SoundCloudReply): (albums: seq<Album>)
    ensures NewestFirst(albums)
    ensures multiset(albums) == multiset(FetchSoundCloudTracks(reply, []))
    ensures forall d :: Filter(albums, SameDate(d)) == Filter(FetchSoundCloudTracks(reply, []), SameDate(d))
  {
    var fetched := FetchSoundCloudTracks(reply, []);
    assert forall d :: Filter(SortNewestFirst(fetched), SameDate(d)) == Filter(fetched, SameDate(d)) by {
      forall d ensures Filter(SortNewestFirst(fetched), SameDate(d)) == Filter(fetched, SameDate(d)) {
        SortStable(fetched, d);
      }
    }
    SortNewestFirst(fetched)
  }

  /**
   * fetchAllMusic once the reply is in: the catalog becomes the fetched albums, newest first, and
   * the grid is rebuilt for them only when the music page shows and the detail is closed.
   */
  function MusicFetchedStep(s: ViewState, reply: SoundCloudReply): (t: ViewState)
    ensures t.catalogLoaded && NewestFirst(t.albums)
    ensures multiset(t.albums) == multiset(FetchSoundCloudTracks(reply, []))
    ensures forall d :: Filter(t.albums, SameDate(d)) == Filter(FetchSoundCloudTracks(reply, []), SameDate(d))
    ensures s.onMusicPage && !s.onAlbumDetail ==> t.grid == GridFor(t.albums, t.currentFilter)
    ensures !(s.onMusicPage && !s.onAlbumDetail) ==> t.grid == s.grid
    ensures t.(catalogLoaded := s.catalogLoaded, albums := s.albums, grid := s.grid) == s
  {
    var t := s.(catalogLoaded := true, albums := FetchAllMusic(reply));
    if s.onMusicPage then LoadAlbumsStep(t) else t
  }

  function Step(s: ViewState, e: Event): ViewState {
    match e
    case ToggleMenu => ToggleMenuStep(s)
    case CloseMenu => CloseMenuStep(s)
    case GoHome => GoHomeStep(s)
    case ShowMusic => ShowMusicStep(s)
    case CardClicked(album) => ShowAlbumDetailStep(s, album)
    case CloseAlbumDetail => CloseAlbumDetailStep(s)
    case FilterClicked(filter) => FilterClickedStep(s, filter)
    case EscapePressed => EscapeStep(s)
    case MusicFetched(reply) => MusicFetchedStep(s, reply)
    case DetailCloseTimer => DetailClosedStep(s)
    case TransitionTimer => ReleaseLockStep(s)
  }

  /**
   * When an event can occur: a card can be clicked while the music page is visible and the
   * card is in the grid; the close button while the detail is open; a filter button once
   * setupFilters has attached the listeners; the catalog fetch completes once; the detail
   * timer fires while it is pending; and the lock timer, started at the same moment as any
   * detail timer but twice as long, fires after it.
   */
  predicate Enabled(s: ViewState, e: Event) {
    match e
    case CardClicked(album) =>
      s.onMusicPage && !s.onAlbumDetail && s.grid.Cards? && album in s.grid.albums
    case CloseAlbumDetail => s.onAlbumDetail
    case FilterClicked(_) => s.filtersSetup
    case MusicFetched(_) => !s.catalogLoaded
    case DetailCloseTimer => s.detailClosePending
    case TransitionTimer => s.transitionInProgress && !s.detailClosePending
    case _ => true
  }

  // ---------------------------------------------------------------------------
  // The invariant
  // ---------------------------------------------------------------------------

  /** The detail panel shows one album of the catalog, with that album's visible links. */
  predicate DetailConsistent(s: ViewState) {
    s.onAlbumDetail ==>
      s.onMusicPage && s.selected.Some? && s.selected.value in s.albums &&
      s.shownLinks == VisibleLinks(s.selected.value.streamingLinks)
  }

  /** Cards are never empty and only ever show catalog albums. */
  predicate GridFromCatalog(s: ViewState) {
    s.grid.Cards? ==> s.grid.albums != [] && forall a :: a in s.grid.albums ==> a in s.albums
  }

  predicate Inv(s: ViewState) {
    (s.detailClosePending ==> s.onAlbumDetail && s.transitionInProgress) &&
    DetailConsistent(s) &&
    (s.onMusicPage ==> s.filtersSetup && s.grid == GridFor(s.albums, s.currentFilter)) &&
    GridFromCatalog(s) &&
    NewestFirst(s.albums) &&
    (!s.catalogLoaded ==> s.albums == [])
  }

  lemma InitInv()
    ensures Inv(Init())
  {
  }

  /** Every enabled event keeps the invariant. */
  lemma StepPreservesInv(s: ViewState, e: Event)
    requires Inv(s) && Enabled(s, e)
    ensures Inv(Step(s, e))
  {
    match e
    case ToggleMenu =>
    case CloseMenu =>
    case GoHome =>
    case ShowMusic =>
    case CardClicked(album) =>
    case CloseAlbumDetail =>
    case FilterClicked(filter) =>
    case EscapePressed =>
    case MusicFetched(reply) =>
    case DetailCloseTimer =>
    case TransitionTimer =>
  }

  /** Every event of `events` is enabled in the state it meets. */
  predicate EnabledRun(s: ViewState, events: seq<Event>)
    decreases |events|
  {
    events == [] || (Enabled(s, events[0]) && EnabledRun(Step(s, events[0]), events[1..]))
  }

  function Run(s: ViewState, events: seq<Event>): ViewState
    decreases |events|
  {
    if events == [] then s else Run(Step(s, events[0]), events[1..])
  }

  /** The invariant holds after any sequence of enabled events. */
  lemma {:induction false} RunPreservesInv(s: ViewState, events: seq<Event>)
    requires Inv(s) && EnabledRun(s, events)
    ensures Inv(Run(s, events))
    decreases |events|
  {
    if events != [] {
      StepPreservesInv(s, events[0]);
      RunPreservesInv(Step(s, events[0]), events[1..]);
    }
  }

  // ---------------------------------------------------------------------------
  // What the handlers promise
  // ---------------------------------------------------------------------------

  /** While the detail is open, the menu, home, music, grid-loading and filter handlers change nothing. */
  lemma DetailBlocksNavigation(s: ViewState, filter: string)
    requires s.onAlbumDetail
    ensures ToggleMenuStep(s) == s && CloseMenuStep(s) == s
    ensures GoHomeStep(s) == s && ShowMusicStep(s) == s
    ensures LoadAlbumsStep(s) == s && FilterClickedStep(s, filter) == s
  {
  }

  /** Away from the detail, toggling flips the menu and closing leaves it closed; nothing else moves. */
  lemma MenuSteps(s: ViewState)
    requires !s.onAlbumDetail
    ensures ToggleMenuStep(s) == s.(menuOpen := !s.menuOpen)
    ensures ToggleMenuStep(ToggleMenuStep(s)) == s
    ensures CloseMenuStep(s) == s.(menuOpen := false)
  {
  }

  /** A second click before the lock is released is dropped. */
  lemma SecondTransitionDropped(s: ViewState, a: Album, b: Album)
    ensures ShowAlbumDetailStep(ShowAlbumDetailStep(s, a), b) == ShowAlbumDetailStep(s, a)
    ensures CloseAlbumDetailStep(CloseAlbumDetailStep(s)) == CloseAlbumDetailStep(s)
    ensures CloseAlbumDetailStep(ShowAlbumDetailStep(s, a)) == ShowAlbumDetailStep(s, a)
    ensures ShowAlbumDetailStep(CloseAlbumDetailStep(s), a) == CloseAlbumDetailStep(s)
  {
  }

  /** No event but the lock timer releases the lock. */
  lemma OnlyTimerReleasesLock(s: ViewState, e: Event)
    requires s.transitionInProgress && !e.TransitionTimer?
    ensures Step(s, e).transitionInProgress
  {
    match e
    case EscapePressed =>
      assert s.onAlbumDetail ==> EscapeStep(s) == s;
    case MusicFetched(reply) =>
      assert MusicFetchedStep(s, reply).transitionInProgress == s.transitionInProgress;
    case _ =>
  }

  /** Opening and closing the detail never change which page lies under it. */
  lemma DetailKeepsPage(s: ViewState, e: Event)
    requires e.CardClicked? || e.CloseAlbumDetail? || e.DetailCloseTimer? || e.TransitionTimer?
    ensures Step(s, e).onMusicPage == s.onMusicPage
    ensures Step(s, e).albums == s.albums && Step(s, e).grid == s.grid
  {
  }

  /** When the detail has closed, the music page is back, with the grid for the current filter. */
  lemma DetailCloseReturnsToGrid(s: ViewState)
    requires Inv(s) && Enabled(s, DetailCloseTimer)
    ensures var t := Step(s, DetailCloseTimer);
      !t.onAlbumDetail && t.onMusicPage && t.grid == GridFor(t.albums, t.currentFilter)
  {
  }

  /** On a reachable page, the cards of the grid are a newest-first sub-list of the catalog. */
  lemma GridIsNewestFirst(s: ViewState)
    requires Inv(s) && s.onMusicPage && s.grid.Cards?
    ensures NewestFirst(s.grid.albums) && IsSubsequence(s.grid.albums, s.albums)
  {
    FilteredNewestFirst(s.albums, s.currentFilter);
    FilteredIsSubsequence(s.albums, s.currentFilter);
  }

  /**
   * The fetched catalog holds only SoundCloud mixes and remixes, so every filter other than
   * "all", "mix" and "remix" (the Album, EP and Single buttons among them) finds nothing.
   */
  lemma FetchedCatalogOnlyMixesAndRemixes(reply: SoundCloudReply, filter: string)
    requires filter != "all" && filter != "mix" && filter != "remix"
    ensures GetFilteredAlbums(FetchAllMusic(reply), filter) == []
    ensures GridFor(FetchAllMusic(reply), filter) == NoItems
  {
    var albums := FetchAllMusic(reply);
    forall a | a in albums ensures !FilterPredicate(filter)(a) {
      FetchedIsSoundCloud(reply, a);
    }
    FilterNonePass(albums, FilterPredicate(filter));
  }

  /** Every album of the fetched catalog is a SoundCloud mix or remix. */
  lemma FetchedIsSoundCloud(reply: SoundCloudReply, a: Album)
    requires a in FetchAllMusic(reply)
    ensures a.source == "soundcloud" && (a.albumType == "mix" || a.albumType == "remix")
  {
    assert a in multiset(FetchAllMusic(reply));
    FetchedRecordShape(reply, [], a);
  }
}
