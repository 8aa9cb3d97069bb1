/**
 * fetchSoundCloudTracks without its network part: the reply of the SoundCloud proxy is an
 * input, and the module states how public, non-duplicate tracks become catalog albums.
 */
module SoundCloud {
  import opened Wrappers
  import opened Strings
  import opened Seqs
  import opened Catalog

  datatype User = User(avatarUrl: Option<string>)

  /** A track as the SoundCloud API delivers it (`id` already in its decimal text form). */
  datatype Track = Track(
    id: string,
    title: string,
    duration: int,
    createdAt: string,
    permalinkUrl: string,
    sharing: string,
    artworkUrl: Option<string>,
    user: Option<User>)

  /**
   * What the proxy request ends in: a failure (network error, a status that is not OK even
   * after the one token refresh and retry, or a refresh that failed), a body that is not an
   * array, or the list of tracks.
   */
  datatype SoundCloudReply = RequestFailed | NotATrackList | TrackList(tracks: seq<Track>)

  const MIX_THRESHOLD_MS := 900000
  const LARGE_SUFFIX := "-large.jpg"
  const HIGH_QUALITY_SUFFIX := "-t500x500.jpg"
  const PLACEHOLDER_ARTWORK := "https://images.unsplash.com/photo-1493225457124-a3eb161ffa5f?w=500&h=500&fit=crop"

  /** A track longer than fifteen minutes is a mix, anything else a remix; the title is not consulted. */
  function DetermineTrackType(title: string, duration: int): (kind: string)
    ensures kind == "mix" <==> duration > MIX_THRESHOLD_MS
    ensures kind == "remix" <==> duration <= MIX_THRESHOLD_MS
  {
    var durationMinutes := duration as real / 1000.0 / 60.0;
    if durationMinutes > 15.0 then "mix" else "remix"
  }

  /** The 500x500 variant of a SoundCloud image URL: the first `-large.jpg` becomes `-t500x500.jpg`. */
  function Upgrade(url: string): (r: string)
    ensures |r| >= |url|
  {
    ReplaceFirstLength(url, LARGE_SUFFIX, HIGH_QUALITY_SUFFIX);
    ReplaceFirst(url, LARGE_SUFFIX, HIGH_QUALITY_SUFFIX)
  }

  /** The track's artwork, else its uploader's avatar, else a fixed placeholder; never empty. */
  function GetHighQualityArtwork(track: Track): (url: string)
    ensures url != ""
    ensures IsTruthy(track.artworkUrl) ==> url == Upgrade(track.artworkUrl.value)
    ensures !IsTruthy(track.artworkUrl) && track.user.Some? && IsTruthy(track.user.value.avatarUrl) ==>
      url == Upgrade(track.user.value.avatarUrl.value)
    ensures !IsTruthy(track.artworkUrl) && !(track.user.Some? && IsTruthy(track.user.value.avatarUrl)) ==>
      url == PLACEHOLDER_ARTWORK
  {
    if IsTruthy(track.artworkUrl) then Upgrade(track.artworkUrl.value)
    else if track.user.Some? && IsTruthy(track.user.value.avatarUrl) then Upgrade(track.user.value.avatarUrl.value)
    else PLACEHOLDER_ARTWORK
  }

  /** An artwork URL without `-large.jpg` is used as it is. */
  lemma UpgradeWithoutLargeSuffix(url: string)
    requires forall j :: !OccursAt(url, LARGE_SUFFIX, j)
    ensures Upgrade(url) == url
  {
  }

  /** A URL `prefix + "-large.jpg" + rest` whose prefix holds no `-large.jpg` is upgraded at that spot. */
  lemma UpgradeLargeSuffix(prefix: string, rest: string)
    requires forall j :: !OccursAt(prefix + LARGE_SUFFIX, LARGE_SUFFIX, j) || j == |prefix|
    ensures Upgrade(prefix + LARGE_SUFFIX + rest) == prefix + HIGH_QUALITY_SUFFIX + rest
  {
    var s := prefix + LARGE_SUFFIX + rest;
    var k := |prefix|;
    assert s[k..k + |LARGE_SUFFIX|] == LARGE_SUFFIX;
    forall j | 0 <= j < k ensures !OccursAt(s, LARGE_SUFFIX, j) {
      assert !OccursAt(prefix + LARGE_SUFFIX, LARGE_SUFFIX, j);
    }
    assert FirstOccurrence(s, LARGE_SUFFIX, k);
    assert s[..k] == prefix && s[k + |LARGE_SUFFIX|..] == rest;
  }

  /** `spotifyTrackNames.some(name => name.toLowerCase() === title.toLowerCase())`. */
  predicate IsDuplicate(title: string, spotifyTrackNames: seq<string>) {
    exists name :: name in spotifyTrackNames && EqualsIgnoringCase(name, title)
  }

  predicate IsPublic(track: Track) {
    track.sharing != "private"
  }

  /** The filter callback: public and not a duplicate of a Spotify release. */
  predicate KeepTrack(track: Track, spotifyTrackNames: seq<string>) {
    IsPublic(track) && !IsDuplicate(track.title, spotifyTrackNames)
  }

  function KeepPredicate(spotifyTrackNames: seq<string>): Track -> bool {
    (track: Track) => KeepTrack(track, spotifyTrackNames)
  }

  function KeptTracks(tracks: seq<Track>, spotifyTrackNames: seq<string>): seq<Track> {
    Filter(tracks, KeepPredicate(spotifyTrackNames))
  }

  /**
   * The kept tracks are the input tracks, in input order and with their multiplicity,
   * that are not private and whose title matches no Spotify name ignoring case.
   */
  lemma DedupFilter(tracks: seq<Track>, spotifyTrackNames: seq<string>)
    ensures IsSubsequence(KeptTracks(tracks, spotifyTrackNames), tracks)
    ensures |KeptTracks(tracks, spotifyTrackNames)| == Count(tracks, KeepPredicate(spotifyTrackNames))
    ensures forall t :: t in KeptTracks(tracks, spotifyTrackNames) <==>
      t in tracks && t.sharing != "private" &&
      forall name :: name in spotifyTrackNames ==> ToLower(name) != ToLower(t.title)
  {
    FilterIsSubsequence(tracks, KeepPredicate(spotifyTrackNames));
    FilterMembers(tracks, KeepPredicate(spotifyTrackNames));
  }

  /** With the empty name list that fetchAllMusic passes, only private tracks are dropped. */
  lemma {:induction false} EmptyNameListDropsOnlyPrivate(tracks: seq<Track>)
    ensures KeptTracks(tracks, []) == Filter(tracks, IsPublic)
  {
    if tracks != [] {
      EmptyNameListDropsOnlyPrivate(tracks[1..]);
    }
  }

  /** The album record built for one kept track. */
  function ToAlbum(track: Track): (album: Album)
    ensures album.id == "sc_" + track.id && album.name == track.title
    ensures album.albumType == "mix" <==> track.duration > MIX_THRESHOLD_MS
    ensures album.albumType == "remix" <==> track.duration <= MIX_THRESHOLD_MS
    ensures album.releaseDate <= track.createdAt && 'T' !in album.releaseDate
    ensures |album.releaseDate| < |track.createdAt| ==> track.createdAt[|album.releaseDate|] == 'T'
    ensures album.totalTracks == 1 && album.source == "soundcloud"
    ensures album.images == [Image(GetHighQualityArtwork(track))] && album.images[0].url != ""
    ensures album.externalUrls == map["soundcloud" := track.permalinkUrl]
    ensures forall k :: Get(album.streamingLinks, k) == if k == Soundcloud then Set(Some(track.permalinkUrl)) else Unset
  {
    Album(
      id := "sc_" + track.id,
      name := track.title,
      albumType := DetermineTrackType(track.title, track.duration),
      releaseDate := BeforeFirst(track.createdAt, 'T'),
      totalTracks := 1,
      images := [Image(GetHighQualityArtwork(track))],
      externalUrls := map["soundcloud" := track.permalinkUrl],
      streamingLinks := NO_LINKS.(soundcloud := Set(Some(track.permalinkUrl))),
      source := "soundcloud")
  }

  /** The catalog contribution of one proxy reply; every failure path degrades to the empty list. */
  function FetchSoundCloudTracks(reply: SoundCloudReply, spotifyTrackNames: seq<string>): (albums: seq<Album>)
    ensures !reply.TrackList? ==> albums == []
    ensures reply.TrackList? ==>
      var kept := KeptTracks(reply.tracks, spotifyTrackNames);
      |albums| == |kept| && forall i :: 0 <= i < |kept| ==> albums[i] == ToAlbum(kept[i])
  {
    match reply
    case TrackList(tracks) =>
      var kept := KeptTracks(tracks, spotifyTrackNames);
      seq(|kept|, i requires 0 <= i < |kept| => ToAlbum(kept[i]))
    case _ => []
  }

  /**
   * Every album the SoundCloud reply contributes is a one-track `soundcloud` record with an
   * `sc_` id, a mix or remix type and a single link, built from a public, non-duplicate track.
   */
  lemma FetchedRecordShape(reply: SoundCloudReply, spotifyTrackNames: seq<string>, album: Album)
    requires album in FetchSoundCloudTracks(reply, spotifyTrackNames)
    ensures reply.TrackList?
    ensures exists t :: t in reply.tracks && KeepTrack(t, spotifyTrackNames) && album == ToAlbum(t)
    ensures album.id[..3] == "sc_" && album.totalTracks == 1 && album.source == "soundcloud"
    ensures album.albumType == "mix" || album.albumType == "remix"
    ensures forall k :: Get(album.streamingLinks, k).Set? <==> k == Soundcloud
  {
    var albums := FetchSoundCloudTracks(reply, spotifyTrackNames);
    var i :| 0 <= i < |albums| && albums[i] == album;
    var kept := KeptTracks(reply.tracks, spotifyTrackNames);
    FilterMembers(reply.tracks, KeepPredicate(spotifyTrackNames));
    assert kept[i] in kept;
    assert album == ToAlbum(kept[i]);
  }

  /** Two titles that differ only in the case of some letters are duplicates of each other. */
  lemma SameLowerCase(a: string, b: string)
    requires |a| == |b|
    requires forall i :: 0 <= i < |a| ==> a[i] == b[i] || LowerChar(a[i]) == b[i] || a[i] == LowerChar(b[i])
    ensures EqualsIgnoringCase(a, b)
  {
    forall i | 0 <= i < |a| ensures ToLower(a)[i] == ToLower(b)[i] {
      assert !IsUpper(LowerChar(a[i])) && !IsUpper(LowerChar(b[i]));
    }
  }

  /** A track created at `day + "T" + time`, with no `T` in `day`, is dated `day`. */
  lemma CreationDay(track: Track, day: string, time: string)
    requires 'T' !in day && track.createdAt == day + "T" + time
    ensures ToAlbum(track).releaseDate == day
  {
    assert track.createdAt == day + ['T'] + time;
    BeforeFirstSplit(day, 'T', time);
  }

  /** A track whose title matches a Spotify name ignoring case is dropped wherever it sits. */
  lemma DuplicateDropped(before: seq<Track>, dup: Track, after: seq<Track>, spotifyTrackNames: seq<string>)
    requires IsDuplicate(dup.title, spotifyTrackNames)
    ensures KeptTracks(before + [dup] + after, spotifyTrackNames) == KeptTracks(before + after, spotifyTrackNames)
  {
    var keep := KeepPredicate(spotifyTrackNames);
    assert Filter([dup], keep) == [] by { assert [dup][1..] == []; }
    FilterAppend(before + [dup], after, keep);
    FilterAppend(before, [dup], keep);
    FilterAppend(before, after, keep);
  }

  /**
   * Next to a duplicate, a public track longer than fifteen minutes with a new title is the
   * only record fetched: a mix, named by its title, with its `sc_` id, dated by its creation day.
   */
  lemma DuplicateDroppedMixKept(dup: Track, mix: Track, spotifyTrackNames: seq<string>, day: string, time: string)
    requires IsDuplicate(dup.title, spotifyTrackNames) && KeepTrack(mix, spotifyTrackNames)
    requires mix.duration > MIX_THRESHOLD_MS
    requires 'T' !in day && mix.createdAt == day + "T" + time
    ensures var albums := FetchSoundCloudTracks(TrackList([dup, mix]), spotifyTrackNames);
      |albums| == 1 && albums[0].name == mix.title && albums[0].albumType == "mix" &&
      albums[0].releaseDate == day && albums[0].id == "sc_" + mix.id
  {
    DuplicateDropped([], dup, [mix], spotifyTrackNames);
    assert [] + [dup] + [mix] == [dup, mix] && [] + [mix] == [mix];
    assert KeptTracks([mix], spotifyTrackNames) == [mix] by { assert [mix][1..] == []; }
    CreationDay(mix, day, time);
  }
}
