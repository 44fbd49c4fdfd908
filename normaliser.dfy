/**
 * `getNowPlayingItem`: turns the playback record (or null) into the
 * five-field item, substituting a fixed default for anything missing.
 */
module Normaliser {
  import opened Wrappers
  import opened Shapes
  import opened Strings
  import opened Upstream

  /** The item returned when nothing usable came back from the service. */
  const DefaultItem: NowPlayingItem := NowPlayingItem(
    albumImageUrl := "",
    artist := "No Artist",
    isPlaying := false,
    songUrl := "",
    title := "No Title")

  /** The separator placed between artist names. */
  const ArtistSeparator: string := ", "

  /**
   * `images[0]?.url || ""`: the first image's url; "" when there is no image,
   * or its url is missing, null or empty (all falsy).
   */
  function FirstImageUrl(images: seq<Image>): (url: string)
    ensures |images| > 0 && images[0].url.Some? ==> url == images[0].url.value
    ensures |images| == 0 || images[0].url.None? ==> url == ""
  {
    if |images| == 0 || images[0].url.None? || images[0].url.value == "" then "" else images[0].url.value
  }

  /** `artists.map((a) => a.name)`: the names, one per artist, in the same order. */
  function ArtistNames(artists: seq<Artist>): (names: seq<string>)
    ensures |names| == |artists|
    ensures forall i :: 0 <= i < |artists| ==> names[i] == artists[i].name
  {
    if |artists| == 0 then [] else [artists[0].name] + ArtistNames(artists[1..])
  }

  /**
   * The record has everything the normaliser reads: an item with an album,
   * the album's images, the item's artists and its external urls.
   */
  predicate Complete(song: Option<Playback>)
  {
    && song.Some?
    && song.value.item.Some?
    && song.value.item.value.album.Some?
    && song.value.item.value.album.value.images.Some?
    && song.value.item.value.artists.Some?
    && song.value.item.value.externalUrls.Some?
  }

  /**
   * The body of the try block once the record is known: the early return of
   * the default when the record, its item or its album is missing; otherwise
   * the derived fields, or None where reading `images[0]`, `artists.map` or
   * `external_urls.spotify` through a missing value throws.
   */
  function Derive(song: Option<Playback>): (r: Option<NowPlayingItem>)
    ensures r.None? <==> song.Some? && song.value.item.Some? && song.value.item.value.album.Some? && !Complete(song)
  {
    if song.None? || song.value.item.None? || song.value.item.value.album.None? then
      Some(DefaultItem)
    else
      var item := song.value.item.value;
      match (item.album.value.images, item.artists, item.externalUrls)
      case (Some(images), Some(artists), Some(urls)) =>
        Some(NowPlayingItem(
          albumImageUrl := FirstImageUrl(images),
          artist := Join(ArtistNames(artists), ArtistSeparator),
          isPlaying := song.value.isPlaying,
          songUrl := urls.spotify,
          title := item.name))
      case _ => None
  }

  /**
   * The normaliser with its catch: any fault while deriving gives the default
   * item, so the result is defined for every record. An incomplete record
   * gives the default; a complete one copies `is_playing`, the item's name
   * and its `external_urls.spotify` unchanged.
   */
  function Normalise(song: Option<Playback>): (r: NowPlayingItem)
    ensures !Complete(song) ==> r == DefaultItem
    ensures Complete(song) ==>
              && r.isPlaying == song.value.isPlaying
              && r.songUrl == song.value.item.value.externalUrls.value.spotify
              && r.title == song.value.item.value.name
  {
    Derive(song).GetOr(DefaultItem)
  }

  /** `getNowPlayingItem`: fetch the record, then normalise it. */
  function GetNowPlayingItem(token: TokenReply, player: string -> PlayerReply): (r: NowPlayingItem)
    ensures !Complete(GetNowPlaying(token, player)) ==> r == DefaultItem
  {
    Normalise(GetNowPlaying(token, player))
  }

  /** No record, no item or no album: the explicit early return of the default. */
  lemma DefaultWhenNoTrack(song: Option<Playback>)
    requires song.None? || song.value.item.None? || song.value.item.value.album.None?
    ensures Derive(song) == Some(DefaultItem)
    ensures Normalise(song) == DefaultItem
  {
  }

  /**
   * Item and album present but images, artists or external urls missing:
   * the access throws, and the catch returns the very same default.
   */
  lemma DefaultOnFault(song: Option<Playback>)
    requires song.Some? && song.value.item.Some? && song.value.item.value.album.Some?
    requires || song.value.item.value.album.value.images.None?
             || song.value.item.value.artists.None?
             || song.value.item.value.externalUrls.None?
    ensures Derive(song).None?
    ensures Normalise(song) == Normalise(None) == DefaultItem
  {
  }

  /**
   * The album image: the first image's url when there is an image with a url;
   * "" exactly when there is no image, or its url is missing or empty.
   */
  lemma AlbumImageUrlIsFirstImage(song: Option<Playback>)
    requires Complete(song)
    ensures var images := song.value.item.value.album.value.images.value;
            var r := Normalise(song).albumImageUrl;
            && (|images| > 0 && images[0].url.Some? ==> r == images[0].url.value)
            && (|images| == 0 || images[0].url.None? || images[0].url.value == "" <==> r == "")
  {
  }

  /**
   * The artist field lists the artists' names in their order, separated by
   * ", ": name `i` sits at `Offset(names, ", ", i)`, a separator follows
   * every name but the last, and the last name ends the field. No artists
   * give "", a single artist gives that name unchanged.
   */
  lemma ArtistListsNamesInOrder(song: Option<Playback>, i: nat)
    requires Complete(song)
    requires i < |song.value.item.value.artists.value|
    ensures var artists := song.value.item.value.artists.value;
            var names := ArtistNames(artists);
            var r := Normalise(song).artist;
            var o := Offset(names, ArtistSeparator, i);
            && o + |artists[i].name| <= |r|
            && r[o..o + |artists[i].name|] == artists[i].name
            && (i + 1 < |artists| ==>
                  && o + |artists[i].name| + |ArtistSeparator| <= |r|
                  && r[o + |artists[i].name|..o + |artists[i].name| + |ArtistSeparator|] == ", "
                  && Offset(names, ArtistSeparator, i + 1) == o + |artists[i].name| + |ArtistSeparator|)
            && (i + 1 == |artists| ==> o + |artists[i].name| == |r|)
            && (|artists| == 1 ==> r == artists[0].name)
  {
    var artists := song.value.item.value.artists.value;
    var names := ArtistNames(artists);
    JoinAt(names, ArtistSeparator, i);
    JoinShort(names, ArtistSeparator);
  }

  /** No artists give an empty artist field, not the "No Artist" default. */
  lemma NoArtistsGiveEmpty(song: Option<Playback>)
    requires Complete(song)
    requires song.value.item.value.artists.value == []
    ensures Normalise(song).artist == ""
  {
  }

  /** The item reports playing exactly when the record is complete and says it is playing. */
  lemma PlayingOnlyWhenReported(song: Option<Playback>)
    ensures Normalise(song).isPlaying <==> Complete(song) && song.value.isPlaying
  {
  }

  /**
   * Every upstream failure (token exchange, unreachable endpoint, non-ok
   * status, empty or unparseable body) gives the same item as "nothing
   * playing": the default.
   */
  lemma UpstreamFailureLooksLikeNothingPlaying(token: TokenReply, player: string -> PlayerReply)
    requires FetchPlayback(token, player).Failure?
    ensures GetNowPlayingItem(token, player) == Normalise(None) == DefaultItem
  {
  }

  /**
   * The default is not reserved for failures: a complete record of a paused
   * track titled "No Title" by an artist named "No Artist", with no images
   * and an empty song url, normalises to exactly the default item.
   */
  lemma DefaultAlsoFromRealTrack()
    ensures exists song :: Complete(song) && Normalise(song) == DefaultItem
  {
    var item := Item(Some(Album(Some([]))), Some([Artist("No Artist")]), Some(ExternalUrls("")), "No Title");
    var song := Some(Playback(false, Some(item)));
    assert ArtistNames([Artist("No Artist")]) == ["No Artist"];
    assert Complete(song) && Normalise(song) == DefaultItem;
  }

  /** One artist, one image: every field is taken from the record. */
  lemma SingleArtistExample()
    ensures var item := Item(Some(Album(Some([Image(Some("http://img"))]))), Some([Artist("A")]),
                             Some(ExternalUrls("http://song")), "T");
            Normalise(Some(Playback(true, Some(item))))
              == NowPlayingItem("http://img", "A", true, "http://song", "T")
  {
  }

  /** Two artists are joined as "A, B". */
  lemma TwoArtistsExample()
    ensures var item := Item(Some(Album(Some([]))), Some([Artist("A"), Artist("B")]),
                             Some(ExternalUrls("")), "T");
            Normalise(Some(Playback(false, Some(item)))).artist == "A, B"
  {
  }
}
