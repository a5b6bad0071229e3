# soundcloud-lib, asynchronous client: a Dafny model

This project models the asynchronous SoundCloud client of soundcloud-lib
(`sclib/asyncio.py`) and the string helpers it relies on (`sclib/util.py`).

- **Scraping a public client id.** `fetch_soundcloud_client_id` fetches the
  scrape page. It keeps the page's script URLs that do not mention
  `cookielaw.org`, fetches those scripts and searches their joined text for
  `client_id=` followed by letters and digits.
- **Credentials.** `get_credentials` stores what the scrape finds. `resolve`
  and `get_tracks` call it first whenever `client_id` is falsy.
- **Resolving a URL.** `get_track_id` reads the page's googleplay meta tag and
  keeps the last colon-separated segment. `resolve` looks the id up and
  dispatches on the object's `kind`: it returns a track, a playlist that has
  been through `clean_attributes`, or `None`.
- **Batch lookups.** `get_tracks` flattens the batch responses and sorts them
  stably by the position at which each id was requested.
- **Completing a playlist.** `Playlist.clean_attributes` keeps the leading run
  of complete track objects and looks the remaining id-only stubs up in
  batches of 100. It writes everything back without duplicates.
- **Writing a track.** `Track.write_mp3_to` resolves the stream URL through
  `get_stream_url` and splits the HLS playlist into lines. It writes every
  segment to the file in order, rewinds, and fetches the 500x500 artwork.

The network is an oracle. `Net.Fetch` maps a URL to its body, or to `None`
when `get_resource` would raise. HTML parsing and JSON decoding are oracles
over the fetched text, bundled in `Api.Web`. Every exception the code can
raise is an `Errors.Error` in a `Result`.

In-place state is modelled as classes:

- `Playlists.Playlist` has `tracks`, `ready` and a ghost log of the batches
  sent.
- `Stream.File` has `content` and `pos`.
- `Api.SoundcloudApi` has `client_id`.

The `for` loops of `find_script_urls`, `write_mp3_to` and `clean_attributes`
are methods with loop invariants. Each method is proved against a function:
`Seqs.Filter`, `Stream.Mp3Write`, `Playlists.Complete` and `Playlists.Run`, and
`Seqs.Dedup`. The list comprehensions (the batch URLs of `get_tracks`, the
script fetches of the scrape) and the sort of `get_tracks` are functions over
sequences, such as `Api.BatchResponses` and `Tracks.SortByRequest`. The
properties the source promises are lemmas about those functions.

Files:

- `wrappers.dfy`: `Option` and `Result`.
- `errors.dfy`: the exceptions.
- `seqs.dfy`: flatten, filter, `list.index`, batching and duplicate removal.
- `net.dfy`: bytes, the fetch oracle and sequential downloads.
- `util.dfy`: `sclib/util.py`.
- `tracks.dfy`: the reassembly step of `get_tracks`.
- `playlist.dfy`: `Playlist.clean_attributes`.
- `stream.dfy`: `write_mp3_to` and `get_stream_url`.
- `api.dfy`: the client itself.

## Model

| member | source | states |
|---|---|---|
| Util.FindScriptUrls | sclib/util.py:17-26 | The loop keeps exactly the script sources that do not contain `cookielaw.org`, in document order. |
| Util.ScriptUrlsFiltered | sclib/util.py:21-26 | The kept list is a subsequence of the sources. No kept source mentions `cookielaw.org`, and every source that does not mention it is kept. |
| Util.FindClientId | sclib/util.py:29-35 | Gives `None` (the source's `False`) exactly when `client_id=` followed by an ASCII letter or digit occurs nowhere. Otherwise gives the capture at the leftmost match, a non-empty run of letters and digits. |
| Util.ClientIdIsMaximal | sclib/util.py:31 | The greedy capture stops only at the end of the text or at a character that is not a letter or digit. |
| Util.ReplaceLarge | sclib/util.py:39 | `str.replace('large', 't500x500')`, scanning left to right. The result is never shorter than the input; `ReplaceAtFirstLarge` and `ReplaceWithoutLarge` pin it down. |
| Util.ReplaceAtFirstLarge | sclib/util.py:39 | Where `large` first occurs at `i`, the result is the text before `i`, then `t500x500`, then the replacement of the text after that `large`. |
| Util.GetLargeArtworkUrl | sclib/util.py:37-39 | Gives `None` exactly for a missing or empty URL. Otherwise it gives `ReplaceLarge` of the URL, in which no `large` is left, and a URL without `large` comes back unchanged. |
| Util.ReplaceLeavesNoLarge | sclib/util.py:39 | After the left-to-right, non-overlapping replacement, `large` occurs nowhere. |
| Util.ReplaceWithoutLarge | sclib/util.py:39 | The replacement leaves a string without `large` unchanged. |
| Util.ArtworkRewriteIdempotent | sclib/util.py:37-39 | Rewriting an artwork URL twice gives the same URL as rewriting it once. |
| Net.Download | sclib/asyncio.py:27-28 | Fetching a list of URLs in order completes exactly when every URL can be fetched. |
| Net.DownloadComplete | sclib/asyncio.py:120-127 | When every URL can be fetched, the transfer is the concatenation of all bodies in list order. |
| Net.DownloadStopsAtFailure | sclib/asyncio.py:120-127 | When URL `m` is the first that cannot be fetched, the transfer is incomplete and holds exactly the bodies of the URLs before it. |
| Net.FirstUnfetchableAt | sclib/asyncio.py:120-121 | The URL reported as failing is the first one that cannot be fetched. |
| Net.DecodeAppend | sclib/asyncio.py:28 | Decoding two byte strings and joining them is decoding their concatenation. |
| Api.JoinDecoded | sclib/asyncio.py:28 | Decoding each script body and joining the strings is decoding the joined bodies. |
| Api.FetchSoundcloudClientId | sclib/asyncio.py:22-29 | An unfetchable scrape page raises a request failure for that page, and every failure is a request failure. The call succeeds exactly when the page and every kept script can be fetched. The result is then `find_client_id` of their decoded, joined text, a valid id when present. |
| Api.ScrapeStopsAtUnfetchableScript | sclib/asyncio.py:26-27 | When script `k` is the first that cannot be fetched, the scrape raises for that script. |
| Api.GetObjFrom | sclib/asyncio.py:41-47 | The result is a decoded list exactly when the fetch and the JSON decoding both succeed. Otherwise it is the source's `False`. |
| Api.CredentialsAsWritten | sclib/asyncio.py:53-61 | (As written.) It raises exactly when the scrape raises, and then leaves `client_id` as it was. Otherwise `client_id` becomes what the scrape found, `False` included. |
| Api.Credentials | sclib/asyncio.py:53-61 | (Corrected check.) A failed scrape raises its error and leaves `client_id` as it was. Otherwise `client_id` becomes what the scrape found (`False` when nothing). It raises the missing-id error exactly when the scrape finds nothing, and raises something exactly when the scrape fails or finds nothing, so a scrape that finds an id raises nothing. When nothing is raised `client_id` is truthy. |
| Api.AsWrittenNeverRaisesNoClientId | sclib/asyncio.py:55-56 | The check as written (`is None`) never raises, because the scrape never yields `None`. |
| Api.AsWrittenAcceptsMissingId | sclib/asyncio.py:53-61 | On a page without scripts, the check as written leaves `client_id == False` and raises nothing, while the corrected check raises. |
| Api.EnsureCredentials | sclib/asyncio.py:65-66 | A truthy `client_id` is kept and nothing is fetched. Otherwise `get_credentials` runs. When nothing is raised, `client_id` is truthy. |
| Api.SoundcloudApi.GetCredentials | sclib/asyncio.py:53-61 | The method's new `client_id` and what it raises are `Credentials` of the old `client_id`. |
| Api.SplitJoin | sclib/asyncio.py:86 | Joining the pieces of `str.split` with the separator gives back the string. |
| Api.SplitPiecesOmitSep | sclib/asyncio.py:86 | No piece of `str.split` holds the separator. |
| Api.LastSegment | sclib/asyncio.py:86 | `s.split(":")[-1]` holds no colon. |
| Api.LastSegmentIsColonFreeSuffix | sclib/asyncio.py:86 | `split(":")[-1]` is the longest colon-free suffix: it holds no colon, and it is the whole string or follows a colon. |
| Api.GetTrackId | sclib/asyncio.py:81-87 | An unfetchable page raises a request failure for that URL. A fetched page that fails has no meta tag, and the missing meta tag of that URL is raised. It succeeds exactly when the page can be fetched and has the meta tag, and the id is then `LastSegment` of the tag's content, which holds no colon. |
| Tracks.Chain | sclib/asyncio.py:101 | Flattening succeeds exactly when no batch response is `False`, and then gives the concatenation of the responses' lists in order. Otherwise it raises the not-iterable error. |
| Tracks.Unrequested | sclib/asyncio.py:102 | Finds a record id missing from the requested ids exactly when one exists. The id found is that of a record whose predecessors were all requested: the first record at which `index` raises. |
| Tracks.Reassemble | sclib/asyncio.py:100-103 | Succeeds exactly when no response is `False` and every returned id was requested. A `False` response raises the not-iterable error; otherwise the first returned id that was not requested is the one reported. |
| Tracks.SortByRequest | sclib/asyncio.py:102 | `sorted(..., key=lambda x: track_ids.index(x['id']))`: the result is ordered by requested position. |
| Tracks.ReassembleIsStableSort | sclib/asyncio.py:101-102 | The output is sorted by requested position and is a permutation of the flattened responses. Records with the same position keep their response order (stability). |
| Tracks.ReassembleInRequestOrder | sclib/asyncio.py:100-103 | With distinct ids and exactly one record per requested id, the output ids are the requested ids in request order, whatever order the responses used. |
| Tracks.BucketsSorted | sclib/asyncio.py:102 | Concatenating the buckets in key order gives a list sorted by key. |
| Tracks.BucketsArePermutation | sclib/asyncio.py:102 | When every key is in range, the bucket sort is a permutation of its input. |
| Tracks.BucketsStable | sclib/asyncio.py:102 | Each key's records keep their relative order. |
| Api.BatchResponses | sclib/asyncio.py:94-100 | There is one response per batch URL. Response `i` belongs to URL `i`: it is the URL's track records when `get_obj_from` gives a list, and `False` exactly when `get_obj_from` does. |
| Api.TracksFor | sclib/asyncio.py:89-103 | A credentials failure is raised before any batch request. Otherwise the result is `Reassemble` of the batch responses fetched with the client id that `EnsureCredentials` leaves. |
| Api.TracksForIsStableSort | sclib/asyncio.py:89-103 | A successful `get_tracks` ran with a truthy `client_id`. Its result is sorted by requested position and is a permutation of the flattened batch responses. Records with the same position keep their response order (stability). |
| Api.TracksForInRequestOrder | sclib/asyncio.py:89-103 | With credentials, distinct ids, and batch responses holding exactly one record per requested id, `get_tracks` succeeds and returns the records in request order. |
| Api.SoundcloudApi.GetTracks | sclib/asyncio.py:89-103 | The new `client_id` is the one `EnsureCredentials` gives, and the result is `TracksFor` of the old one. |
| Api.Dispatch | sclib/asyncio.py:71-78 | A `track` object gives its track, in both directions. A `playlist` or `system-playlist` object gives the playlist after `clean_attributes`, or the exception that call raised. Any other kind gives `None`, in both directions. |
| Api.ResolveUrl | sclib/asyncio.py:63-78 | `client_id` ends as `EnsureCredentials` leaves it, and a truthy one is never replaced. A credentials failure is raised. After the credentials, a `get_track_id` failure is raised as it is. Success implies a truthy `client_id`. |
| Api.TracksUrl | sclib/asyncio.py:67 | The lookup URL is exactly the tracks endpoint, the track id, `&client_id=` and the rendered `client_id` (`False` included), in that order and nothing else. |
| Api.ResolveAfterTrackId | sclib/asyncio.py:67-71 | After credentials and a track id, a failed or empty API response raises `ValueError`. Otherwise the first object is dispatched. |
| Api.ResolvedPlaylistIsClean | sclib/asyncio.py:75-78 | A playlist returned by `resolve` holds only track objects, none of them twice. |
| Api.SoundcloudApi.Resolve | sclib/asyncio.py:63-78 | The new `client_id` and the outcome match `ResolveUrl`. A playlist is a fresh `Playlist` that is ready and holds the completed entries. |
| Playlists.Playlist.constructor | sclib/asyncio.py:76 | A playlist built from the API object holds the raw entries, is not ready and has sent no lookups. |
| Playlists.Playlist.CleanAttributes | sclib/asyncio.py:173-195 | A ready playlist is unchanged. Otherwise it becomes ready, and its entries, the batches it looked up and what it raised are those of `Complete` on the old entries. |
| Playlists.Playlist.TakeTitledRun | sclib/asyncio.py:181-182 | Pops exactly the leading run of entries with a title, as track objects, and leaves the rest. |
| Playlists.Playlist.LookUpStubs | sclib/asyncio.py:184-195 | The batching loop and the closing loop end with the entries, lookups and exception that `Run` gives. |
| Playlists.Playlist.AppendMissing | sclib/asyncio.py:193-195 | Appending each track object not yet present leaves the objects without later duplicates, in first-occurrence order. |
| Playlists.Complete | sclib/asyncio.py:173-195 | What one call does to a playlist that is not ready. The batches looked up are a prefix of the stubs' batches, all of them when a client is present and nothing was raised. Without a client nothing is looked up or raised. |
| Playlists.Run | sclib/asyncio.py:184-195 | The batching loop step by step. Without a client nothing is looked up or raised. Every batch looked up is non-empty, and an exception comes only from a lookup. |
| Playlists.TitledRun | sclib/asyncio.py:181 | The count is the length of the leading run of entries with a title: all entries before it have one, and the entry at it does not. |
| Playlists.Gather | sclib/asyncio.py:186-191 | Counts the lookups made. A lookup that raises ends the run, and a successful run made every lookup. |
| Playlists.RunIsComplete | sclib/asyncio.py:184-195 | The batching loop, run on the stubs after the titled run, ends as `Complete` says. |
| Playlists.RunFrom | sclib/asyncio.py:184-191 | Wherever the batching loop resumes (any number of stubs taken, any number of batches looked up), it ends as `Complete` says. |
| Playlists.CompleteAllTitled | sclib/asyncio.py:181-195 | With only titled entries, the entries become those entries as track objects without duplicates, and nothing is looked up. |
| Playlists.CompleteWithoutClient | sclib/asyncio.py:186-188 | Without a client, the call returns at the first batch boundary. The titled run and up to 100 stubs are gone, and nothing is looked up or raised. |
| Playlists.CompleteWhenLookupsSucceed | sclib/asyncio.py:184-195 | When every lookup succeeds, the titled run followed by the looked-up records is written back without duplicates, and every batch was requested. |
| Playlists.CompleteWhenLookupRaises | sclib/asyncio.py:189 | When batch `c` is the first whose lookup raises, batches `0..c` were requested, its exception is raised, and the entries not yet taken remain. |
| Playlists.GatherStopsAtFirstFailure | sclib/asyncio.py:186-191 | The lookups succeed exactly when each batch's lookup succeeds. A failure is the first raising batch's exception, and every earlier batch succeeded. |
| Playlists.GatherFailureSticks | sclib/asyncio.py:189 | After a lookup raises, later batches change nothing. |
| Playlists.BatchesPartitionStubs | sclib/asyncio.py:184-186 | The batches joined are the stubs' ids in order. Each batch holds 1 to 100 ids and only the last may be short. There are ceil(n/100) batches. |
| Playlists.FinishedPlaylist | sclib/asyncio.py:193-195 | After a call that raised nothing, the entries are track objects without duplicates. They start with the deduplicated titled run, and hold exactly the titled entries and the looked-up records. |
| Playlists.CompleteWithAnsweringClient | sclib/asyncio.py:184-195 | With a client that answers every batch with its tracks, nothing is raised, and the completed playlist has a track for exactly the ids of its entries. |
| Seqs.IndexOf | sclib/asyncio.py:102 | `list.index`: the position of the first occurrence, below the length exactly when the element occurs. |
| Seqs.ChunksPartition | sclib/asyncio.py:184-186 | Cutting into batches of `n` loses and reorders nothing. No batch is empty or longer than `n`, and only the last is shorter. |
| Seqs.DedupMembers | sclib/asyncio.py:193-195 | Duplicate removal leaves no duplicates and exactly the same elements. |
| Seqs.DedupKeepsFirstOccurrenceOrder | sclib/asyncio.py:193-195 | The elements keep the order of their first occurrences. |
| Seqs.DedupOfDistinct | sclib/asyncio.py:193-195 | A list without duplicates is unchanged. |
| Stream.GetStreamUrl | sclib/asyncio.py:144-154 | There is a stream URL exactly when the response is truthy and has a `url` member, and it is that member. |
| Stream.File.Seek | sclib/asyncio.py:112 | Moves the position and leaves the contents. |
| Stream.File.Write | sclib/asyncio.py:127 | Overwrites from the position, extending the file, and moves past the bytes written. |
| Stream.OverwriteConsecutive | sclib/asyncio.py:120-127 | Two writes, the second where the first ended, are one write of both. |
| Stream.SplitLines | sclib/asyncio.py:115 | `bytes.splitlines()`: no line holds a line break, and non-empty text without a break is a single line. |
| Stream.SplitLineOff | sclib/asyncio.py:115 | A break-free line followed by `\n`, `\r\n`, or a `\r` not followed by `\n`, splits off as the first line, and the rest is split on its own. |
| Stream.SplitJoinedLines | sclib/asyncio.py:115 | `splitlines()` gives back the lines of any text built from break-free lines ended by `\n`, `\r` or `\r\n` in any mix, the last one possibly unterminated. |
| Stream.SegmentUrls | sclib/asyncio.py:115-119 | The segment URLs are no more than the lines, none of them starts with `#`, and every line not starting with `#` appears decoded among them. |
| Stream.SegmentChunks | sclib/asyncio.py:115-119 | The first loop gives the decoded lines that do not start with `#`, in order. |
| Stream.SegmentUrlsOfPlaylist | sclib/asyncio.py:115-119 | For a playlist written with any mix of line endings, the last line possibly unterminated, the segment URLs are its non-comment lines in order: a subsequence that drops exactly the `#` lines. |
| Stream.WriteSegments | sclib/asyncio.py:120-127 | The second loop writes the fetched bodies from the start, in order, until a segment cannot be fetched, and names that first failing segment. |
| Stream.Artwork | sclib/asyncio.py:130-136 | No artwork exactly when the artwork URL is missing or empty. Otherwise the URL `u` with `large` replaced by `t500x500` is requested: a failed request raises the request error for `u`, and a success gives the body of `u`. |
| Stream.Mp3Write | sclib/asyncio.py:109-142 | The file never shrinks and the position stays within it. A success leaves the file rewound. With no stream URL the file is only rewound and the missing-URL error is raised. When the playlist request fails, nothing is written, the file is rewound and that request's error is raised. |
| Stream.WriteMp3To | sclib/asyncio.py:109-142 | The file's contents and position and the result are `Mp3Write` of the old contents. |
| Stream.Mp3WriteAllSegments | sclib/asyncio.py:111-136 | When the stream and every segment can be fetched, the segments' bodies are written over the file from the start in playlist order, so a longer file keeps its old tail. The file is rewound and the artwork is fetched. |
| Stream.Mp3WriteComplete | sclib/asyncio.py:111-136 | When the stream and every segment can be fetched, a file no longer than the segments ends up holding exactly their bodies in playlist order, rewound to the start, and the artwork is fetched. |
| Stream.Mp3WriteStopsAtSegment | sclib/asyncio.py:120-127 | When segment `m` is the first that cannot be fetched, the bodies before it are written from the start, the position is left after them, and that request failure is raised. |

## Left out

- `get_resource` (asyncio.py:13-18) and the aiohttp request of
  `get_track_id` are the fetch oracle `Net.Fetch`. Sessions, status codes and
  transport errors are reduced to "the body" or "raised".
- BeautifulSoup parsing is an oracle:
  - `Api.Web.scriptSrcs` gives the script `src` attributes in document order.
  - `Api.Web.googleplayContent` gives the meta tag's content.
- `json.loads` is an oracle, and only the shapes the code uses are modelled:
  - a list of API objects for track lookups;
  - a string map for the stream response.
  A response of any other shape, and the `KeyError` or `IndexError` it would
  cause, is not modelled.
- `Net.Decode` maps each byte to the character with the same code.
  Multi-byte UTF-8 and decoding errors are not modelled.
- `random.choice` over `SCRAPE_URLS` is the constant `Util.SCRAPE_URL`, because
  the list has one element.
- `asyncio.gather` and task scheduling: concurrent requests are modelled as
  sequential, in list order.
- `Api.FetchSoundcloudClientId`: a failing script raises the request failure
  of the first failing script in list order. `gather` propagates whichever
  failure happens first in time, which the model does not decide.
- sclib/sync.py is not part of this model. From it, the following are oracles
  or left out:
  - the `Track` and `Playlist` constructors beyond storing the object;
  - `get_prog_url`, so `get_stream_url` takes the decoded response as a
    parameter;
  - `_format_get_tracks_urls`, which is the oracle `Api.Web.tracksUrls`;
  - `write_track_id3` and mutagen, so `Stream.WriteMp3To` returns the artwork
    it would pass on;
  - `Track.__eq__`: `track not in self.tracks` compares track objects as
    values.
- `write_mp3_to`'s handling of a file opened in the wrong mode
  (`TypeError`/`ValueError` reported and re-raised) is not modelled, because
  `Stream.File` is always readable and writable.
- Not modelled: `to_dict`, `__aiter__`, `eprint`, the diagnostic printing in
  `get_obj_from` and `get_stream_url`, and `SC_TRACK_RESOLVE_REGEX`.
- `Playlists.Playlist.CleanAttributes` takes the client's `get_tracks` as a
  function value, `Playlists.Lookup`.
  - In `Api.SoundcloudApi.Resolve` that function is `Api.ApiLookup` at the
    `client_id` already obtained. The `if not self.client_id` guard of
    `get_tracks` is then false with the corrected credentials check, so no
    second scrape happens.
  - A later change to the client's `client_id` is not seen by the lookup.
- Api.EnsureCredentials, Api.TracksFor, Api.ResolveUrl and the methods
  Api.SoundcloudApi.GetCredentials, Api.SoundcloudApi.GetTracks and
  Api.SoundcloudApi.Resolve use the corrected credentials check (see
  "## Findings"). On a scrape page without a client id they raise the
  missing-id error. The code as written goes on with `client_id == False`
  instead: `resolve` requests `...&client_id=False` (asyncio.py:67), and
  `get_tracks` scrapes again on every call (asyncio.py:91-92). Only
  `Api.CredentialsAsWritten` models that behaviour.
- `Playlists.Playlist.requests` is a ghost log of the batches looked up. It
  exists only to state which batches were requested.

Behaviour of the code worth noting, which the model follows:

- The script fetches of the scrape fail as a whole when one raises. They are
  not best-effort.
- `clean_attributes` without a client returns silently, after the titled run
  and the first batch of stubs have already been removed from the playlist.
  It does not raise.
- `resolve` returns `None` for an unknown `kind` instead of raising.
- An id returned by the API that was not requested makes `get_tracks` raise.
  That is `track_ids.index` raising `ValueError`.

## Findings

| source | as written | input that shows it | evidently intended | confidence | as-written member | corrected member |
|---|---|---|---|---|---|---|
| sclib/asyncio.py:56 | `get_credentials` raises only when `client_id is None`, but `find_client_id` reports a missing id with `False`, so the check never fires and `client_id` stays `False` | a scrape page with no scripts (`Api.Scriptless`): the joined script text is empty, `find_client_id` gives `False` | raise the "could not find a public client id" error whenever `client_id` is falsy | not executed | Api.AsWrittenAcceptsMissingId | Api.Credentials |
