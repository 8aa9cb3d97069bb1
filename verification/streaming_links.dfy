/**
 * The listening links of a release: the fixed platform list, the search-URL fallback set,
 * the Songlink payload mapped onto the internal keys and laid over the fallback, and the
 * selection of the links the detail panel shows.
 */
module StreamingLinks {
  import opened Wrappers
  import opened Strings
  import opened Catalog

  const ARTIST_NAME := "Not the Singer"
  const TIDAL_ARTIST_URL := "https://tidal.com/artist/23342714"

  datatype Platform = Platform(key: PlatformKey, name: string)

  /** The platforms of the detail panel, in display order (icons are presentation only). */
  const STREAMING_PLATFORMS: seq<Platform> := [
    Platform(Spotify, "Spotify"),
    Platform(Apple, "Apple Music"),
    Platform(Beatport, "Beatport"),
    Platform(Bandcamp, "Bandcamp"),
    Platform(Soundcloud, "SoundCloud"),
    Platform(Youtube, "YouTube"),
    Platform(Deezer, "Deezer"),
    Platform(Tidal, "Tidal")
  ]

  predicate EndsWith(s: string, suffix: string) {
    |suffix| <= |s| && s[|s| - |suffix|..] == suffix
  }

  /**
   * getSearchFallbackLinks: a search URL per platform for `"Not the Singer <album name>"`,
   * passed through `encode` (encodeURIComponent), except Tidal, which gets the fixed artist page.
   */
  function GetSearchFallbackLinks(albumName: string, encode: string -> string): (links: Links)
    ensures forall k :: Get(links, k).Set? && Shows(links, k)
    ensures Value(links, Tidal) == Some(TIDAL_ARTIST_URL)
    ensures forall k :: k != Tidal ==>
      Value(links, k).Some? && EndsWith(Value(links, k).value, encode(ARTIST_NAME + " " + albumName))
  {
    var searchQuery := encode(ARTIST_NAME + " " + albumName);
    var links := Links(
      spotify := Set(Some("https://open.spotify.com/search/" + searchQuery)),
      apple := Set(Some("https://music.apple.com/search?term=" + searchQuery)),
      beatport := Set(Some("https://www.beatport.com/search?q=" + searchQuery)),
      bandcamp := Set(Some("https://bandcamp.com/search?q=" + searchQuery)),
      soundcloud := Set(Some("https://soundcloud.com/search?q=" + searchQuery)),
      youtube := Set(Some("https://www.youtube.com/results?search_query=" + searchQuery)),
      deezer := Set(Some("https://www.deezer.com/en/search/" + searchQuery)),
      tidal := Set(Some(TIDAL_ARTIST_URL)));
    links
  }

  // ---------------------------------------------------------------------------
  // The Songlink payload
  // ---------------------------------------------------------------------------

  /** One entry of `linksByPlatform`; its `url` may be missing. */
  datatype PlatformEntry = PlatformEntry(url: Option<string>)

  /** The parsed Songlink body; `linksByPlatform` may be missing. */
  datatype SonglinkData = SonglinkData(linksByPlatform: Option<map<string, PlatformEntry>>)

  /** The Songlink request either fails (network, non-OK status, unreadable body) or yields data. */
  datatype SonglinkReply = SonglinkFailed | SonglinkOk(data: SonglinkData)

  /** The Songlink platform name read for an internal key (YouTube also reads `youtubeMusic`). */
  function SonglinkName(key: PlatformKey): string {
    if key == Apple then "appleMusic" else KeyName(key)
  }

  /** Songlink supplies a value for internal key `key`. */
  predicate Supplies(platforms: map<string, PlatformEntry>, key: PlatformKey) {
    if key == Youtube then "youtube" in platforms || "youtubeMusic" in platforms
    else SonglinkName(key) in platforms
  }

  /** The value Songlink supplies for `key`: for YouTube, a truthy YouTube Music URL wins. */
  function SuppliedUrl(platforms: map<string, PlatformEntry>, key: PlatformKey): Option<string>
    requires Supplies(platforms, key)
  {
    if key == Youtube then
      if "youtubeMusic" in platforms && IsTruthy(platforms["youtubeMusic"].url) then platforms["youtubeMusic"].url
      else if "youtube" in platforms then platforms["youtube"].url
      else None
    else platforms[SonglinkName(key)].url
  }

  /** `links` holds for `key` exactly what Songlink supplies for it, and nothing when it supplies nothing. */
  predicate Extracted(platforms: map<string, PlatformEntry>, links: Links, key: PlatformKey) {
    if Supplies(platforms, key) then Get(links, key) == Set(SuppliedUrl(platforms, key))
    else Get(links, key) == Unset
  }

  /** `platforms.<name>?.url`: `undefined` when Songlink has no entry of that name. */
  function UrlOf(platforms: map<string, PlatformEntry>, name: string): Option<string>
  {
    if name in platforms then platforms[name].url else None
  }

  /** The property copied from a Songlink entry: present exactly when the entry is. */
  function Take(platforms: map<string, PlatformEntry>, name: string): Prop
  {
    if name in platforms then Set(platforms[name].url) else Unset
  }

  /** The link object Songlink's `linksByPlatform` yields, key by key. */
  function SonglinkLinks(platforms: map<string, PlatformEntry>): (links: Links)
    ensures forall key :: Extracted(platforms, links, key)
  {
    Links(
      spotify := Take(platforms, "spotify"),
      apple := Take(platforms, "appleMusic"),
      beatport := Take(platforms, "beatport"),
      bandcamp := Take(platforms, "bandcamp"),
      soundcloud := Take(platforms, "soundcloud"),
      youtube :=
        if "youtube" in platforms || "youtubeMusic" in platforms
        then Set(Or(UrlOf(platforms, "youtubeMusic"), UrlOf(platforms, "youtube")))
        else Unset,
      deezer := Take(platforms, "deezer"),
      tidal := Take(platforms, "tidal"))
  }

  /** The `links` object filled field by field from `data.linksByPlatform`. */
  method ExtractLinks(data: SonglinkData) returns (links: Links)
    ensures data.linksByPlatform.None? ==> links == NO_LINKS
    ensures data.linksByPlatform.Some? ==> links == SonglinkLinks(data.linksByPlatform.value)
  {
    links := NO_LINKS;
    if data.linksByPlatform.Some? {
      var platforms := data.linksByPlatform.value;
      if "spotify" in platforms { links := links.(spotify := Set(platforms["spotify"].url)); }
      if "appleMusic" in platforms { links := links.(apple := Set(platforms["appleMusic"].url)); }
      if "bandcamp" in platforms { links := links.(bandcamp := Set(platforms["bandcamp"].url)); }
      if "soundcloud" in platforms { links := links.(soundcloud := Set(platforms["soundcloud"].url)); }
      if "youtube" in platforms || "youtubeMusic" in platforms {
        links := links.(youtube := Set(Or(UrlOf(platforms, "youtubeMusic"), UrlOf(platforms, "youtube"))));
      }
      if "deezer" in platforms { links := links.(deezer := Set(platforms["deezer"].url)); }
      if "tidal" in platforms { links := links.(tidal := Set(platforms["tidal"].url)); }
      if "beatport" in platforms { links := links.(beatport := Set(platforms["beatport"].url)); }
    }
  }

  /** The album has a truthy Spotify URL to ask Songlink about. */
  predicate HasSpotifyUrl(album: Album) {
    "spotify" in album.externalUrls && album.externalUrls["spotify"] != ""
  }

  /**
   * fetchStreamingLinks with the Songlink reply as an input: the fallback set, overlaid by
   * whatever Songlink supplied; any failure, or no Spotify URL, gives the fallback set itself.
   */
  method FetchStreamingLinks(album: Album, reply: SonglinkReply, encode: string -> string)
    returns (finalLinks: Links)
    ensures forall k :: Get(finalLinks, k).Set?
    ensures !HasSpotifyUrl(album) || reply.SonglinkFailed? || reply.data.linksByPlatform.None? ==>
      finalLinks == GetSearchFallbackLinks(album.name, encode)
    ensures HasSpotifyUrl(album) && reply.SonglinkOk? && reply.data.linksByPlatform.Some? ==>
      var platforms := reply.data.linksByPlatform.value;
      forall k ::
        Get(finalLinks, k) == if Supplies(platforms, k) then Set(SuppliedUrl(platforms, k))
                              else Get(GetSearchFallbackLinks(album.name, encode), k)
  {
    if !HasSpotifyUrl(album) {
      return GetSearchFallbackLinks(album.name, encode);
    }
    match reply
    case SonglinkFailed =>
      finalLinks := GetSearchFallbackLinks(album.name, encode);
    case SonglinkOk(data) =>
      var links := ExtractLinks(data);
      var fallbackLinks := GetSearchFallbackLinks(album.name, encode);
      finalLinks := Overlay(fallbackLinks, links);
      if data.linksByPlatform.Some? {
        SonglinkOverFallback(data.linksByPlatform.value, fallbackLinks);
      } else {
        assert forall k :: Get(finalLinks, k) == Get(fallbackLinks, k);
      }
  }

  /** Songlink's value wins for every key it supplies, even a missing URL; the rest keep the fallback. */
  lemma SonglinkOverFallback(platforms: map<string, PlatformEntry>, fallback: Links)
    ensures forall k :: Get(Overlay(fallback, SonglinkLinks(platforms)), k) ==
                        if Supplies(platforms, k) then Set(SuppliedUrl(platforms, k)) else Get(fallback, k)
  {
    var links := SonglinkLinks(platforms);
    forall k ensures Get(Overlay(fallback, links), k) ==
      if Supplies(platforms, k) then Set(SuppliedUrl(platforms, k)) else Get(fallback, k)
    {
      assert Extracted(platforms, links, k);
    }
  }

  /** A truthy YouTube Music URL is preferred to the YouTube one, whatever the latter is. */
  lemma YoutubePrefersMusic(platforms: map<string, PlatformEntry>)
    requires "youtubeMusic" in platforms && IsTruthy(platforms["youtubeMusic"].url)
    ensures Supplies(platforms, Youtube)
    ensures SuppliedUrl(platforms, Youtube) == platforms["youtubeMusic"].url
  {
  }

  // ---------------------------------------------------------------------------
  // setupStreamingLinks: which links the detail panel shows
  // ---------------------------------------------------------------------------

  /** A link is shown only when its URL is truthy and not the placeholder `#`. */
  predicate Shows(links: Links, key: PlatformKey) {
    IsTruthy(Value(links, key)) && Value(links, key).value != "#"
  }

  datatype ShownLink = ShownLink(key: PlatformKey, name: string, url: string)

  /** The links shown for `platforms`, in platform order. */
  function VisibleLinksOf(platforms: seq<Platform>, links: Links): (shown: seq<ShownLink>)
    ensures |shown| <= |platforms|
  {
    if platforms == [] then []
    else
      var init := platforms[..|platforms| - 1];
      var p := platforms[|platforms| - 1];
      assert platforms == init + [p];
      VisibleLinksOf(init, links) + if Shows(links, p.key) then [ShownLink(p.key, p.name, Value(links, p.key).value)] else []
  }

  /** A link is listed exactly when its platform is in the list and its URL shows. */
  lemma {:induction false} VisibleLinksMembership(platforms: seq<Platform>, links: Links)
    ensures forall l :: l in VisibleLinksOf(platforms, links) <==>
      Platform(l.key, l.name) in platforms && Shows(links, l.key) && Value(links, l.key) == Some(l.url)
  {
    if platforms != [] {
      var init := platforms[..|platforms| - 1];
      assert platforms == init + [platforms[|platforms| - 1]];
      VisibleLinksMembership(init, links);
    }
  }

  function VisibleLinks(links: Links): seq<ShownLink> {
    VisibleLinksOf(STREAMING_PLATFORMS, links)
  }

  /** Builds the detail panel's link list by walking the fixed platform list. */
  method SetupStreamingLinks(links: Links) returns (shown: seq<ShownLink>)
    ensures shown == VisibleLinks(links)
  {
    shown := [];
    for i := 0 to |STREAMING_PLATFORMS|
      invariant shown == VisibleLinksOf(STREAMING_PLATFORMS[..i], links)
    {
      var platform := STREAMING_PLATFORMS[i];
      assert STREAMING_PLATFORMS[..i + 1][..i] == STREAMING_PLATFORMS[..i];
      var url := Value(links, platform.key);
      if IsTruthy(url) && url.value != "#" {
        shown := shown + [ShownLink(platform.key, platform.name, url.value)];
      }
    }
    assert STREAMING_PLATFORMS[..|STREAMING_PLATFORMS|] == STREAMING_PLATFORMS;
  }

  /** Every fallback link is shown: the panel lists all eight platforms, in order. */
  lemma FallbackShowsEveryPlatform(albumName: string, encode: string -> string)
    ensures var links := GetSearchFallbackLinks(albumName, encode);
      var shown := VisibleLinks(links);
      |shown| == |STREAMING_PLATFORMS| && forall i :: 0 <= i < |shown| ==>
        shown[i].key == STREAMING_PLATFORMS[i].key && shown[i].name == STREAMING_PLATFORMS[i].name &&
        Value(links, shown[i].key) == Some(shown[i].url)
  {
    var links := GetSearchFallbackLinks(albumName, encode);
    AllShownPrefix(links, |STREAMING_PLATFORMS|);
    assert STREAMING_PLATFORMS[..|STREAMING_PLATFORMS|] == STREAMING_PLATFORMS;
  }

  /** When every platform's link shows, the panel lists the platforms one for one. */
  lemma {:induction false} AllShownPrefix(links: Links, i: nat)
    requires i <= |STREAMING_PLATFORMS|
    requires forall k :: Shows(links, k)
    ensures var shown := VisibleLinksOf(STREAMING_PLATFORMS[..i], links);
      |shown| == i && forall j :: 0 <= j < i ==>
        shown[j].key == STREAMING_PLATFORMS[j].key && shown[j].name == STREAMING_PLATFORMS[j].name &&
        Value(links, shown[j].key) == Some(shown[j].url)
  {
    if i > 0 {
      AllShownPrefix(links, i - 1);
      var ps := STREAMING_PLATFORMS[..i];
      assert ps[..|ps| - 1] == STREAMING_PLATFORMS[..i - 1];
    }
  }

  /** The panel's list for two runs of platforms is the list for the first, then for the second. */
  lemma {:induction false} VisibleLinksAppend(a: seq<Platform>, b: seq<Platform>, links: Links)
    ensures VisibleLinksOf(a + b, links) == VisibleLinksOf(a, links) + VisibleLinksOf(b, links)
    decreases |b|
  {
    if b == [] {
      assert a + b == a;
    } else {
      var init := b[..|b| - 1];
      var last := b[|b| - 1];
      assert b == init + [last];
      assert a + b == (a + init) + [last];
      VisibleLinksAppend(a, init, links);
    }
  }

  /** Platforms none of whose links show contribute nothing to the panel. */
  lemma {:induction false} NoneShown(platforms: seq<Platform>, links: Links)
    requires forall p :: p in platforms ==> !Shows(links, p.key)
    ensures VisibleLinksOf(platforms, links) == []
    decreases |platforms|
  {
    if platforms != [] {
      var init := platforms[..|platforms| - 1];
      assert platforms == init + [platforms[|platforms| - 1]];
      NoneShown(init, links);
    }
  }

  /** A SoundCloud record shows exactly its own permalink, when that is a real URL. */
  lemma SinglePermalinkShown(permalink: string)
    requires permalink != "" && permalink != "#"
    ensures VisibleLinks(NO_LINKS.(soundcloud := Set(Some(permalink)))) == [ShownLink(Soundcloud, "SoundCloud", permalink)]
  {
    var links := NO_LINKS.(soundcloud := Set(Some(permalink)));
    var ps := STREAMING_PLATFORMS;
    var before, at, after := ps[..4], ps[4], ps[5..];
    assert ps == before + [at] + after;
    NoneShown(before, links);
    NoneShown(after, links);
    assert VisibleLinksOf([at], links) == [ShownLink(Soundcloud, "SoundCloud", permalink)] by {
      assert [at][..0] == [];
    }
    VisibleLinksAppend(before, [at], links);
    VisibleLinksAppend(before + [at], after, links);
  }

  /**
   * A Songlink entry without a URL still sets its property, to `undefined`, and the spread
   * keeps that over the fallback search link: the panel then lists no link for the platform.
   */
  lemma EntryWithoutUrlHidesPlatform(albumName: string, encode: string -> string)
    ensures var links := Overlay(GetSearchFallbackLinks(albumName, encode),
                                 SonglinkLinks(map["spotify" := PlatformEntry(None)]));
      !Shows(links, Spotify) && forall k :: k != Spotify ==> Shows(links, k)
  {
    var platforms := map["spotify" := PlatformEntry(None)];
    var fallback := GetSearchFallbackLinks(albumName, encode);
    SonglinkOverFallback(platforms, fallback);
    assert Supplies(platforms, Spotify);
    forall k | k != Spotify
      ensures Get(Overlay(fallback, SonglinkLinks(platforms)), k) == Get(fallback, k)
    {
      assert !Supplies(platforms, k);
    }
  }
}
