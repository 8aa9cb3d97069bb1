/**
 * The script's module-level variables as the fields of one object, and its handlers as
 * methods that update them in place. Every method is proved to leave exactly the state that
 * the matching step function of `View` describes, so the properties proved there hold of it.
 */
module Page {
  import opened Wrappers
  import opened Catalog
  import opened SoundCloud
  import opened StreamingLinks
  import opened View

  class Site {
    var menuOpen: bool
    var onMusicPage: bool
    var onAlbumDetail: bool
    var transitionInProgress: bool
    var detailClosePending: bool
    var currentFilter: string
    var filtersSetup: bool
    var catalogLoaded: bool
    var albums: seq<Album>
    var grid: Grid
    var selected: Option<Album>
    var shownLinks: seq<ShownLink>

    /** The fields as a `View.ViewState` value. */
    function State(): ViewState
      reads this
    {
      ViewState(menuOpen, onMusicPage, onAlbumDetail, transitionInProgress, detailClosePending,
                currentFilter, filtersSetup, catalogLoaded, albums, grid, selected, shownLinks)
    }

    constructor ()
      ensures State() == Init()
    {
      menuOpen := false;
      onMusicPage := false;
      onAlbumDetail := false;
      transitionInProgress := false;
      detailClosePending := false;
      currentFilter := "all";
      filtersSetup := false;
      catalogLoaded := false;
      albums := [];
      grid := Blank;
      selected := None;
      shownLinks := [];
    }

    method ToggleMenu()
      modifies this
      ensures State() == ToggleMenuStep(old(State()))
    {
      if onAlbumDetail {
        return;
      }
      menuOpen := !menuOpen;
    }

    method CloseMenu()
      modifies this
      ensures State() == CloseMenuStep(old(State()))
    {
      if menuOpen {
        ToggleMenu();
      }
    }

    method LoadAlbums()
      modifies this
      ensures State() == LoadAlbumsStep(old(State()))
    {
      if onAlbumDetail {
        return;
      }
      var filteredAlbums := GetFilteredAlbums(albums, currentFilter);
      if |filteredAlbums| == 0 {
        grid := NoItems;
        return;
      }
      grid := Cards(filteredAlbums);
    }

    method GoHome()
      modifies this
      ensures State() == GoHomeStep(old(State()))
    {
      if onAlbumDetail {
        return;
      }
      if onMusicPage {
        onMusicPage := false;
      }
      CloseMenu();
    }

    /** setupFilters: the filter listeners are attached once. */
    method SetupFilters()
      modifies this
      ensures State() == old(State()).(filtersSetup := true)
    {
      if filtersSetup {
        return;
      }
      filtersSetup := true;
    }

    method ShowMusic()
      modifies this
      ensures State() == ShowMusicStep(old(State()))
    {
      if onAlbumDetail {
        return;
      }
      onMusicPage := true;
      SetupFilters();
      LoadAlbums();
      CloseMenu();
    }

    /** The guard of preventMultipleTransitions: takes the lock when it is free and says whether it did. */
    method TryBeginTransition() returns (started: bool)
      modifies this
      ensures started <==> !old(transitionInProgress)
      ensures State() == old(State()).(transitionInProgress := true)
    {
      if transitionInProgress {
        return false;
      }
      transitionInProgress := true;
      return true;
    }

    method ShowAlbumDetail(album: Album)
      modifies this
      ensures State() == ShowAlbumDetailStep(old(State()), album)
    {
      var started := TryBeginTransition();
      if !started {
        return;
      }
      onAlbumDetail := true;
      selected := Some(album);
      shownLinks := SetupStreamingLinks(album.streamingLinks);
    }

    method CloseAlbumDetail()
      modifies this
      ensures State() == CloseAlbumDetailStep(old(State()))
    {
      var started := TryBeginTransition();
      if !started {
        return;
      }
      detailClosePending := true;
    }

    /** The 300 ms timeout set by closeAlbumDetail. */
    method DetailCloseTimerFired()
      modifies this
      ensures State() == DetailClosedStep(old(State()))
    {
      detailClosePending := false;
      onAlbumDetail := false;
    }

    /** The 600 ms timeout set by preventMultipleTransitions. */
    method TransitionTimerFired()
      modifies this
      ensures State() == ReleaseLockStep(old(State()))
    {
      transitionInProgress := false;
    }

    /** The click listener of a filter button. */
    method FilterClicked(filter: string)
      modifies this
      ensures State() == FilterClickedStep(old(State()), filter)
    {
      if onAlbumDetail {
        return;
      }
      currentFilter := filter;
      LoadAlbums();
    }

    /** The Escape branch of the keydown listener. */
    method EscapePressed()
      modifies this
      ensures State() == EscapeStep(old(State()))
    {
      if onAlbumDetail {
        CloseAlbumDetail();
      } else if onMusicPage {
        GoHome();
      } else if menuOpen {
        CloseMenu();
      }
    }

    /** `albums.sort(...)` newest first. */
    method SortAlbums()
      modifies this
      ensures State() == old(State()).(albums := SortNewestFirst(old(albums)))
    {
      var sorted := SortByReleaseDate(albums);
      albums := sorted;
    }

    /** `albums = [...soundcloudTracks]` followed by the newest-first sort, marking the fetch complete. */
    method SetCatalog(catalog: seq<Album>)
      modifies this
      ensures State() == old(State()).(catalogLoaded := true, albums := SortNewestFirst(catalog))
    {
      albums := catalog;
      SortAlbums();
      catalogLoaded := true;
    }

    /** fetchAllMusic once the SoundCloud reply is in. */
    method FetchAllMusicDone(reply: SoundCloudReply)
      modifies this
      ensures State() == MusicFetchedStep(old(State()), reply)
    {
      var soundcloudTracks := FetchSoundCloudTracks(reply, []);
      SetCatalog(soundcloudTracks);
      if onMusicPage {
        LoadAlbums();
      }
    }

    /** Delivers one event to its handler. */
    method Dispatch(e: Event)
      modifies this
      ensures State() == Step(old(State()), e)
    {
      match e
      case ToggleMenu => ToggleMenu();
      case CloseMenu => CloseMenu();
      case GoHome => GoHome();
      case ShowMusic => ShowMusic();
      case CardClicked(album) => ShowAlbumDetail(album);
      case CloseAlbumDetail => CloseAlbumDetail();
      case FilterClicked(filter) => FilterClicked(filter);
      case EscapePressed => EscapePressed();
      case MusicFetched(reply) => FetchAllMusicDone(reply);
      case DetailCloseTimer => DetailCloseTimerFired();
      case TransitionTimer => TransitionTimerFired();
    }
  }

  /** The comparator sort, as a stable insertion of each album from the back of the list. */
  method SortByReleaseDate(unsorted: seq<Album>) returns (sorted: seq<Album>)
    ensures sorted == SortNewestFirst(unsorted)
  {
    sorted := [];
    var i := |unsorted|;
    while i > 0
      invariant 0 <= i <= |unsorted|
      invariant sorted == SortNewestFirst(unsorted[i..])
    {
      i := i - 1;
      var suffix := unsorted[i..];
      assert suffix[0] == unsorted[i] && suffix[1..] == unsorted[i + 1..];
      sorted := Insert(unsorted[i], sorted);
    }
  }
}
