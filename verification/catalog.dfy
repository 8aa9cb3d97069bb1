/**
 * The normalised album record shared by every source, the label shown for its type,
 * the grid filter and the newest-first order of the catalog.
 */
module Catalog {
  import opened Wrappers
  import opened Strings
  import opened Seqs

  /** The property names of a `streaming_links` object: the fixed platform enumeration. */
  datatype PlatformKey = Spotify | Apple | Beatport | Bandcamp | Soundcloud | Youtube | Deezer | Tidal

  /** The property name as it is spelled in the objects and the detail panel. */
  function KeyName(key: PlatformKey): string {
    match key
    case Spotify => "spotify"
    case Apple => "apple"
    case Beatport => "beatport"
    case Bandcamp => "bandcamp"
    case Soundcloud => "soundcloud"
    case Youtube => "youtube"
    case Deezer => "deezer"
    case Tidal => "tidal"
  }

  /**
   * One property of a link object: absent, or present with a JavaScript value
   * (`undefined`/`null` as `None`, or a string). A property assigned `undefined` is still
   * present, and an object spread copies it over the one below.
   */
  datatype Prop = Unset | Set(value: Option<string>)

  /** A `streaming_links` object, one property per platform key. */
  datatype Links = Links(
    spotify: Prop,
    apple: Prop,
    beatport: Prop,
    bandcamp: Prop,
    soundcloud: Prop,
    youtube: Prop,
    deezer: Prop,
    tidal: Prop)

  /** The object with no property. */
  const NO_LINKS := Links(Unset, Unset, Unset, Unset, Unset, Unset, Unset, Unset)

  /** The property stored under `key`. */
  function Get(links: Links, key: PlatformKey): Prop {
    match key
    case Spotify => links.spotify
    case Apple => links.apple
    case Beatport => links.beatport
    case Bandcamp => links.bandcamp
    case Soundcloud => links.soundcloud
    case Youtube => links.youtube
    case Deezer => links.deezer
    case Tidal => links.tidal
  }

  /** `links[key]` as JavaScript reads it: an absent property reads as `undefined`. */
  function Value(links: Links, key: PlatformKey): Option<string>
  {
    match Get(links, key)
    case Unset => None
    case Set(v) => v
  }

  /** The property a spread leaves: the upper one when it is present, the lower one otherwise. */
  function Pick(lower: Prop, upper: Prop): Prop {
    if upper.Set? then upper else lower
  }

  /**
   * `{ ...base, ...top }`: every property present in `top` wins, whatever its value;
   * the others come from `base`.
   */
  function Overlay(base: Links, top: Links): (r: Links)
    ensures forall k :: Get(top, k).Set? ==> Get(r, k) == Get(top, k)
    ensures forall k :: Get(top, k).Unset? ==> Get(r, k) == Get(base, k)
  {
    Links(
      spotify := Pick(base.spotify, top.spotify),
      apple := Pick(base.apple, top.apple),
      beatport := Pick(base.beatport, top.beatport),
      bandcamp := Pick(base.bandcamp, top.bandcamp),
      soundcloud := Pick(base.soundcloud, top.soundcloud),
      youtube := Pick(base.youtube, top.youtube),
      deezer := Pick(base.deezer, top.deezer),
      tidal := Pick(base.tidal, top.tidal))
  }

  datatype Image = Image(url: string)

  /**
   * One catalog entry: `id`, `name`, `album_type`, `release_date` (ISO `YYYY-MM-DD`),
   * `total_tracks`, `images`, `external_urls`, `streaming_links` and `source`.
   */
  datatype Album = Album(
    id: string,
    name: string,
    albumType: string,
    releaseDate: string,
    totalTracks: int,
    images: seq<Image>,
    externalUrls: map<string, string>,
    streamingLinks: Links,
    source: string)

  // ---------------------------------------------------------------------------
  // getAlbumTypeDisplay
  // ---------------------------------------------------------------------------

  /** The label shown on a card and in the detail panel for an album's type and track count. */
  function GetAlbumTypeDisplay(albumType: string, tracks: int): (shown: string)
    ensures shown == "EP" <==> albumType == "single" && tracks > 1
    ensures shown == "Single" <==> albumType == "single" && tracks <= 1
    ensures shown == "Remix" <==> albumType == "remix"
    ensures shown == "Mix" <==> albumType == "mix"
    ensures shown == "Album" <==> albumType !in {"single", "remix", "mix"}
  {
    if albumType == "single" then (if tracks > 1 then "EP" else "Single")
    else if albumType == "remix" then "Remix"
    else if albumType == "mix" then "Mix"
    else "Album"
  }

  // ---------------------------------------------------------------------------
  // getFilteredAlbums
  // ---------------------------------------------------------------------------

  /** Whether `album` passes a filter other than `"all"`. */
  predicate MatchesFilter(album: Album, filter: string) {
    if filter == "album" then album.source == "spotify" || album.albumType == "album"
    else album.albumType == filter
  }

  function FilterPredicate(filter: string): Album -> bool {
    (album: Album) => MatchesFilter(album, filter)
  }

  /** The albums the grid shows for `filter`: the whole catalog for `"all"`, otherwise the matching ones. */
  function GetFilteredAlbums(albums: seq<Album>, filter: string): (r: seq<Album>)
    ensures filter == "all" ==> r == albums
    ensures filter != "all" ==> forall a :: a in r <==> a in albums && MatchesFilter(a, filter)
  {
    if filter == "all" then albums
    else
      FilterMembers(albums, FilterPredicate(filter));
      Filter(albums, FilterPredicate(filter))
  }

  /**
   * Every filter result is an order-preserving sub-list of the catalog; for a filter other than
   * `"all"` it holds every matching album as often as the catalog does.
   */
  lemma FilteredIsSubsequence(albums: seq<Album>, filter: string)
    ensures IsSubsequence(GetFilteredAlbums(albums, filter), albums)
    ensures filter != "all" ==> |GetFilteredAlbums(albums, filter)| == Count(albums, FilterPredicate(filter))
  {
    if filter == "all" {
      FilterAllPass(albums, (a: Album) => true);
      FilterIsSubsequence(albums, (a: Album) => true);
    } else {
      FilterIsSubsequence(albums, FilterPredicate(filter));
    }
  }

  // ---------------------------------------------------------------------------
  // The newest-first order of fetchAllMusic
  // ---------------------------------------------------------------------------

  /** `a` was released no later than `b` (ISO dates compare as strings). */
  predicate NotNewer(a: Album, b: Album) {
    LexLeq(a.releaseDate, b.releaseDate)
  }

  /** Every album is at least as new as every album after it. */
  predicate NewestFirst(s: seq<Album>) {
    forall i, j :: 0 <= i < j < |s| ==> NotNewer(s[j], s[i])
  }

  lemma NewestFirstCons(x: Album, s: seq<Album>)
    ensures NewestFirst([x] + s) <==> NewestFirst(s) && forall y :: y in s ==> NotNewer(y, x)
  {
    var r := [x] + s;
    if NewestFirst(s) && forall y :: y in s ==> NotNewer(y, x) {
      forall i, j | 0 <= i < j < |r| ensures NotNewer(r[j], r[i]) {
        if i == 0 { assert r[j] in s; } else { assert r[i] == s[i - 1] && r[j] == s[j - 1]; }
      }
    }
    if NewestFirst(r) {
      forall i, j | 0 <= i < j < |s| ensures NotNewer(s[j], s[i]) {
        assert s[i] == r[i + 1] && s[j] == r[j + 1];
      }
      forall y | y in s ensures NotNewer(y, x) {
        var k :| 0 <= k < |s| && s[k] == y;
        assert r[k + 1] == y && r[0] == x;
        assert NotNewer(r[k + 1], r[0]);
      }
    }
  }

  /**
   * Inserts `x` in front of the first album that is not newer than it, so that `x`
   * stays ahead of the albums with its own date: the step of a stable sort.
   */
  function Insert(x: Album, s: seq<Album>): (r: seq<Album>)
    ensures multiset(r) == multiset{x} + multiset(s)
    ensures NewestFirst(s) ==> NewestFirst(r)
  {
    if s == [] || NotNewer(s[0], x) then
      var r := [x] + s;
      assert NewestFirst(s) ==> NewestFirst(r) by {
        if NewestFirst(s) && s != [] {
          forall y | y in s ensures NotNewer(y, x) {
            var k :| 0 <= k < |s| && s[k] == y;
            if k > 0 {
              assert NotNewer(s[k], s[0]);
              LexLeqTransitive(y.releaseDate, s[0].releaseDate, x.releaseDate);
            }
          }
        }
        NewestFirstCons(x, s);
      }
      r
    else
      var rest := Insert(x, s[1..]);
      var r := [s[0]] + rest;
      assert s == [s[0]] + s[1..];
      assert NewestFirst(s) ==> NewestFirst(r) by {
        if NewestFirst(s) {
          NewestFirstCons(s[0], s[1..]);
          LexLeqTotal(x.releaseDate, s[0].releaseDate);
          forall y | y in rest ensures NotNewer(y, s[0]) {
            assert y in multiset(rest);
          }
          NewestFirstCons(s[0], rest);
        }
      }
      r
  }

  /**
   * `albums.sort((a, b) => new Date(b.release_date) - new Date(a.release_date))`:
   * a stable sort that puts newer releases first.
   */
  function SortNewestFirst(s: seq<Album>): (r: seq<Album>)
    ensures NewestFirst(r)
    ensures multiset(r) == multiset(s)
  {
    if s == [] then []
    else
      assert s == [s[0]] + s[1..];
      Insert(s[0], SortNewestFirst(s[1..]))
  }

  function SameDate(d: string): Album -> bool {
    (a: Album) => a.releaseDate == d
  }

  lemma {:induction false} InsertStable(x: Album, s: seq<Album>, d: string)
    ensures Filter(Insert(x, s), SameDate(d)) == Filter([x] + s, SameDate(d))
  {
    if s == [] || NotNewer(s[0], x) {
    } else {
      InsertStable(x, s[1..], d);
      FilterAppend([s[0]], Insert(x, s[1..]), SameDate(d));
      FilterAppend([x], s[1..], SameDate(d));
      FilterAppend([s[0]], [x] + s[1..], SameDate(d));
      FilterAppend([x], s, SameDate(d));
      FilterAppend([s[0]], s[1..], SameDate(d));
      assert s == [s[0]] + s[1..];
      assert [s[0]] + Insert(x, s[1..]) == Insert(x, s);
      if x.releaseDate == d && s[0].releaseDate == d {
        LexLeqReflexive(d);
      }
    }
  }

  /** The sort is stable: for every date, the albums of that date keep their relative order. */
  lemma {:induction false} SortStable(s: seq<Album>, d: string)
    ensures Filter(SortNewestFirst(s), SameDate(d)) == Filter(s, SameDate(d))
  {
    if s != [] {
      var p := SameDate(d);
      var rest := SortNewestFirst(s[1..]);
      assert SortNewestFirst(s) == Insert(s[0], rest);
      SortStable(s[1..], d);
      InsertStable(s[0], rest, d);
      FilterAppend([s[0]], rest, p);
      FilterAppend([s[0]], s[1..], p);
      assert s == [s[0]] + s[1..];
    }
  }

  /** Filtering a newest-first catalog gives a newest-first grid. */
  lemma FilteredNewestFirst(albums: seq<Album>, filter: string)
    requires NewestFirst(albums)
    ensures NewestFirst(GetFilteredAlbums(albums, filter))
  {
    if filter != "all" {
      var R := (a: Album, b: Album) => NotNewer(b, a);
      assert Pairwise(albums, R);
      FilterPairwise(albums, FilterPredicate(filter), R);
      var r := Filter(albums, FilterPredicate(filter));
      assert Pairwise(r, R);
      forall i, j | 0 <= i < j < |r| ensures NotNewer(r[j], r[i]) {
        assert R(r[i], r[j]);
      }
    }
  }

  /** With one mix and one album in the catalog, the "mix" filter returns exactly the mix. */
  lemma MixFilterScenario(mix: Album, album: Album)
    requires mix.albumType == "mix" && album.albumType == "album"
    ensures GetFilteredAlbums([mix, album], "mix") == [mix]
    ensures GetFilteredAlbums([album, mix], "album") == [album] + (if mix.source == "spotify" then [mix] else [])
  {
    var isMix := FilterPredicate("mix");
    assert Filter([album], isMix) == [] by { assert [album][1..] == []; }
    assert [mix, album][1..] == [album];
    var isAlbum := FilterPredicate("album");
    assert Filter([mix], isAlbum) == (if mix.source == "spotify" then [mix] else []) by {
      assert [mix][1..] == [];
    }
    assert [album, mix][1..] == [mix];
  }
}
