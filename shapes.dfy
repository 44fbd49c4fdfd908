/**
 * The records exchanged by the now-playing endpoint: the playback state the
 * streaming service sends, and the fixed five-field item the endpoint returns.
 *
 * The five containers that the normaliser reaches through (`item`, `album`,
 * `images`, `artists`, `external_urls`) are optional, because the service's
 * JSON may omit them or give null. So is an image's `url`, which the code
 * guards with `|| ""`; the other leaves keep their declared types.
 */
module Shapes {
  import opened Wrappers

  /** An album image; `url` is None when the field is missing or null. */
  datatype Image = Image(url: Option<string>)

  datatype Artist = Artist(name: string)

  datatype ExternalUrls = ExternalUrls(spotify: string)

  datatype Album = Album(images: Option<seq<Image>>)

  datatype Item = Item(
    album: Option<Album>,
    artists: Option<seq<Artist>>,
    externalUrls: Option<ExternalUrls>,
    name: string)

  /** A parsed "currently playing" body. */
  datatype Playback = Playback(isPlaying: bool, item: Option<Item>)

  /** What the endpoint returns: always exactly these five fields. */
  datatype NowPlayingItem = NowPlayingItem(
    albumImageUrl: string,
    artist: string,
    isPlaying: bool,
    songUrl: string,
    title: string)
}
