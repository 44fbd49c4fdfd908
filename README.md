# Now-playing endpoint model

A Dafny model of the `GET /api/nowPlaying` route of a personal site. The route
exchanges a refresh token for a streaming-service access token, asks the
service what is currently playing, and answers with a fixed five-field JSON
item (`albumImageUrl`, `artist`, `isPlaying`, `songUrl`, `title`).

The model follows the one source file, `src/pages/api/nowPlaying.ts`, part by part:

- `shapes.dfy` (module `Shapes`): the service's playback record and the
  returned item. The containers the code reaches through (`item`, `album`,
  `images`, `artists`, `external_urls`) are `Option`s, and so is an image's `url`.
- `upstream.dfy` (module `Upstream`): `getAccessToken` and `getNowPlaying`. The two
  network replies are inputs. The now-playing endpoint is a function from the
  bearer token to its reply. The code's try blocks are functions returning a
  `Result`, where the error is what they throw. The catch that turns every
  error into null is a separate function.
- `normaliser.dfy` (module `Normaliser`): `getNowPlayingItem`. `Derive` is the
  try block, and it returns None where a property access through a missing
  value throws. `Normalise` adds the catch that returns the default item.
- `strings.dfy` (module `Strings`): `Array.prototype.join`, with lemmas that
  fix the layout of the joined string.
- `route.dfy` (module `Route`): the `GET` handler's status and body.
- `wrappers.dfy` (module `Wrappers`): `Option` and `Result`.

Everything is a function of its inputs. Two runs with the same upstream
replies therefore give the same response.

Two behaviours of the code worth noting:

- A failed token exchange does not reach the handler's 500 path. It is thrown
  inside `getNowPlaying`'s try block (line 83), caught at line 107, and gives
  the 200 default.
- The album image is "" when there is no image, and also when the first
  image's url is missing or null (`|| ""`, line 127). The model represents a
  missing or null url as `None`.

## Model

| member | source | states |
|---|---|---|
| `Upstream.GetAccessToken` | src/pages/api/nowPlaying.ts:58-78 | Succeeds exactly when the token endpoint answered with a 2xx status and a body whose `access_token` could be read, and returns that token. The read fails when the body is not JSON, the stream fails, or the body is JSON `null` (whose field access throws). A non-ok status fails with that status without parsing the body as JSON. The text read at line 69 only feeds the error message, which is left out. |
| `Upstream.FetchPlayback` | src/pages/api/nowPlaying.ts:82-106 | Throws exactly when: the token exchange failed; the now-playing fetch rejected; or a non-204 reply had a non-ok status, an empty body or a body that is not JSON. |
| `Upstream.GetNowPlaying` | src/pages/api/nowPlaying.ts:81-111 | Every error of the try block becomes null. The result is null exactly for: token failure, a rejected fetch or body read, 204, other non-ok status, empty body, unparseable body, or JSON `null`. A record is returned only from a 2xx, non-204, non-empty reply whose body parses to that record. |
| `Upstream.NoContentIsAbsent` | src/pages/api/nowPlaying.ts:91-93 | 204 counts as an ok status, yet a 204 reply gives null rather than an error, without reading the body. |
| `Upstream.TokenFailureIsAbsent` | src/pages/api/nowPlaying.ts:68-110 | A failed token exchange (unreachable, non-ok, or non-JSON body) is rethrown and caught one level up. It gives null whatever the now-playing endpoint would answer. |
| `Normaliser.FirstImageUrl` | src/pages/api/nowPlaying.ts:127 | The first image's url when there is an image with a url. "" when there is no image or its url is missing. `AlbumImageUrlIsFirstImage` adds that "" results exactly then or for an empty url. |
| `Normaliser.ArtistNames` | src/pages/api/nowPlaying.ts:128 | The mapped names: one per artist, in the artists' order. |
| `Normaliser.Derive` | src/pages/api/nowPlaying.ts:116-139 | The try block throws exactly when item and album are present but images, artists or external urls are missing. |
| `Normaliser.Normalise` | src/pages/api/nowPlaying.ts:116-149 | Total. An incomplete record gives the default item. A complete one copies `is_playing`, the item's name and `external_urls.spotify` unchanged. |
| `Normaliser.GetNowPlayingItem` | src/pages/api/nowPlaying.ts:113-150 | Whenever the upstream record is null or incomplete, the item is the default. |
| `Normaliser.DefaultWhenNoTrack` | src/pages/api/nowPlaying.ts:117-124 | No record, no item or no album: the early return of exactly {"", "No Artist", false, "", "No Title"}. |
| `Normaliser.DefaultOnFault` | src/pages/api/nowPlaying.ts:140-149 | Missing images, artists or external urls throw. The catch returns the same default as the absent case, never an error. |
| `Normaliser.AlbumImageUrlIsFirstImage` | src/pages/api/nowPlaying.ts:127 | The album image is the first image's url when there is an image with a url. It is "" exactly when there are no images, or that url is missing or empty. |
| `Normaliser.ArtistListsNamesInOrder` | src/pages/api/nowPlaying.ts:128 | Each artist's name sits at its offset, in order, with ", " after every name but the last. The last name ends the field. A single artist gives the name unchanged. |
| `Normaliser.NoArtistsGiveEmpty` | src/pages/api/nowPlaying.ts:128 | An empty artist list gives "", not "No Artist". |
| `Normaliser.PlayingOnlyWhenReported` | src/pages/api/nowPlaying.ts:117-149 | The item says playing if and only if the record is complete and its `is_playing` is true. |
| `Normaliser.UpstreamFailureLooksLikeNothingPlaying` | src/pages/api/nowPlaying.ts:107-124 | Every upstream failure yields the same item as a null record: the default. |
| `Normaliser.DefaultAlsoFromRealTrack` | src/pages/api/nowPlaying.ts:117-139 | Some complete record also normalises to exactly the default item, so the default does not prove that nothing is playing. |
| `Normaliser.SingleArtistExample` | src/pages/api/nowPlaying.ts:127-138 | Artist "A", image "http://img", url "http://song", title "T", playing: the item is exactly those values. |
| `Normaliser.TwoArtistsExample` | src/pages/api/nowPlaying.ts:128 | Artists "A" and "B" give "A, B". |
| `Strings.Join` | src/pages/api/nowPlaying.ts:128 | No parts give "". Otherwise the length is every part plus one separator between each pair of neighbours. `JoinShort`, `JoinAt` and `JoinAppend` fix the content. |
| `Strings.JoinShort` | src/pages/api/nowPlaying.ts:128 | Joining no strings gives "". Joining one string gives it unchanged. |
| `Strings.JoinAt` | src/pages/api/nowPlaying.ts:128 | Part i of a join sits at its offset, the separator follows every part but the last, and the last part ends the string. |
| `Strings.JoinAppend` | src/pages/api/nowPlaying.ts:128 | Appending a part extends the join by the separator and that part. This is the left-to-right accumulation that defines `join`. |
| `Route.Get` | src/pages/api/nowPlaying.ts:152-169 | The status is 200 or 500. It is 500 exactly when serialising the item faults, and then the body is {"error":"Internal Server Error"}. Otherwise the body is the serialised item. |
| `Route.UpstreamFailureAnswersDefault` | src/pages/api/nowPlaying.ts:152-160 | With a serialiser that does not fault, a null upstream result answers 200 with the serialised default item. That covers every upstream failure, a 204 and a JSON `null`. |
| `Route.NoContentAnswersDefault` | src/pages/api/nowPlaying.ts:91-93 | A 204 from the now-playing endpoint answers 200 with the serialised default item. |

## Left out

- The HTTP calls (lines 59 and 85) are left out, and their replies are inputs. Response headers and `Response` construction are also left out. Only the status and the body are modelled.
- The Basic-auth header (base64 per section 4 of RFC 4648, Basic scheme per section 2 of RFC 7617) is left out. So is the form body of the refresh grant (section 6 of RFC 6749). Both are built by library calls whose code is not part of this model.
- `JSON.parse` and `response.json()` are given as outcomes inside the replies. `JSON.stringify` is a parameter that may fault. Its output format is not modelled, so the model cannot show that the 200 body decodes to exactly five fields.
- A rejected body read is folded into the reply. For the token it is the same case as a body that is not JSON. For the now-playing endpoint it is the same case as a rejected fetch. Both give null.
- The access token is the `access_token` field as a string. A body without that field (which in JavaScript gives the text "undefined" in the bearer header) is not told apart.
- Error texts, the diagnostic `console.error` logging, `async` scheduling, the `prerender` flag and reading the three secrets from the environment are left out. None of them affects the response.
- Three leaves of the record keep their declared types: `is_playing`, the item's `name` and `spotify`. In JavaScript a missing one of these would give an undefined field, which the serialiser omits. The model cannot express that, so its five-field shape rests on those declarations.
- An artist without a `name` is modelled as `Artist("")`. `join` renders an undefined element as "", so the result is the same.
- Records and items of other JSON types than declared are not modelled. Examples are a body that parses to a number or an array, an `item` that is a string, or null entries inside `images` or `artists`. A non-object body has no `item` and so gets the default.
