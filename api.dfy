/**
  The asynchronous API client of sclib/asyncio.py: scraping a public client id,
  `get_credentials`, `get_track_id`, `get_tracks` and the `kind` dispatch of
  `resolve`. HTML parsing and JSON decoding are oracles over the fetched text.
*/
module Api {
  import opened Wrappers
  import opened Seqs
  import opened Errors
  import opened Net
  import opened Tracks
  import opened Playlists
  import Util

  /** The value of `client_id`: Python's `None`, the `False` of `find_client_id`, or a string. */
  datatype ClientId = NoneId | FalseId | Id(s: string)

  /** Python truthiness of `client_id`. */
  predicate Truthy(c: ClientId)
  {
    c.Id? && c.s != ""
  }

  /** How an f-string renders `client_id`. */
  function ClientIdText(c: ClientId): string
  {
    match c
    case NoneId => "None"
    case FalseId => "False"
    case Id(s) => s
  }

  /** One decoded API object: its `kind`, the track fields, and the `tracks` list of a playlist. */
  datatype ApiObject = ApiObject(kind: string, record: TrackRecord, tracks: seq<TrackRecord>)

  /** The outside world the client talks to. */
  datatype Web = Web(
    fetch: Fetch,                                       // get_resource / the aiohttp GET
    scriptSrcs: string -> seq<string>,                  // src of every script tag with one, in document order
    googleplayContent: string -> Option<string>,        // content of the googleplay meta tag, if the page has one
    json: Bytes -> Option<seq<ApiObject>>,              // json.loads of a list; None when it raises
    tracksUrls: (string, seq<TrackId>) -> seq<string>)  // _format_get_tracks_urls for a client id

  /** `get_obj_from`: the decoded list, or `None` (the source's `False`) when fetching or decoding raises. */
  function GetObjFrom(web: Web, url: string): (r: Option<seq<ApiObject>>)
    ensures r.Some? <==> web.fetch(url).Some? && web.json(web.fetch(url).value).Some?
    ensures r.Some? ==> r == web.json(web.fetch(url).value)
  {
    match web.fetch(url)
    case None => None
    case Some(body) => web.json(body)
  }

  // ---------------------------------------------------------------------------
  // fetch_soundcloud_client_id and get_credentials

  /** The script URLs of the scrape page that `find_script_urls` keeps. */
  function ScriptUrls(web: Web, page: Bytes): seq<string>
  {
    Filter(web.scriptSrcs(Decode(page)), Util.KeepScript)
  }

  /**
    `"".join([r.decode() for r in results])`: decoding the bodies one by one and
    joining them is decoding their concatenation.
  */
  function JoinDecoded(bodies: seq<Bytes>): (text: string)
    ensures text == Decode(Flatten(bodies))
  {
    if bodies == [] then []
    else
      DecodeAppend(bodies[0], Flatten(bodies[1..]));
      Decode(bodies[0]) + JoinDecoded(bodies[1..])
  }

  /**
    `fetch_soundcloud_client_id`: fetch the scrape page, fetch every script it
    keeps, and search their joined text for a client id. The first fetch that
    raises ends the call.
  */
  function FetchSoundcloudClientId(web: Web): (r: Result<Option<string>, Error>)
    ensures web.fetch(Util.SCRAPE_URL).None? ==> r == Failure(RequestFailed(Util.SCRAPE_URL))
    ensures r.Failure? ==> r.error.RequestFailed?
    ensures r.Success? ==>
              && web.fetch(Util.SCRAPE_URL).Some?
              && var urls := ScriptUrls(web, web.fetch(Util.SCRAPE_URL).value);
                 && Download(web.fetch, urls).complete
                 && r.value == Util.FindClientId(Decode(Download(web.fetch, urls).bytes))
    ensures web.fetch(Util.SCRAPE_URL).Some?
            && Download(web.fetch, ScriptUrls(web, web.fetch(Util.SCRAPE_URL).value)).complete
            ==> r.Success?
    ensures r.Success? && r.value.Some? ==> Util.IsClientId(r.value.value)
  {
    match web.fetch(Util.SCRAPE_URL)
    case None => Failure(RequestFailed(Util.SCRAPE_URL))
    case Some(page) =>
      var urls := ScriptUrls(web, page);
      if !Download(web.fetch, urls).complete then
        Failure(RequestFailed(urls[FirstUnfetchable(web.fetch, urls, 0)]))
      else
        var bodies := Bodies(web.fetch, urls);
        DownloadComplete(web.fetch, urls);
        Success(Util.FindClientId(JoinDecoded(bodies)))
  }

  /** A script that cannot be fetched makes the scrape raise, naming the first such script. */
  lemma ScrapeStopsAtUnfetchableScript(web: Web, k: nat)
    requires web.fetch(Util.SCRAPE_URL).Some?
    requires var urls := ScriptUrls(web, web.fetch(Util.SCRAPE_URL).value);
             && k < |urls| && web.fetch(urls[k]).None?
             && forall j | 0 <= j < k :: web.fetch(urls[j]).Some?
    ensures FetchSoundcloudClientId(web)
         == Failure(RequestFailed(ScriptUrls(web, web.fetch(Util.SCRAPE_URL).value)[k]))
  {
    FirstUnfetchableAt(web.fetch, ScriptUrls(web, web.fetch(Util.SCRAPE_URL).value), k);
  }

  /** `client_id` after `get_credentials`, and what it raised. */
  datatype Credentialed = Credentialed(clientId: ClientId, raised: Option<Error>)

  /** The id the scrape assigns to `client_id`: the string found, or `False`. */
  function Assigned(found: Option<string>): ClientId
  {
    if found.Some? then Id(found.value) else FalseId
  }

  /**
    `get_credentials` as written: a failed scrape leaves `client_id` alone and
    propagates; otherwise the id is assigned, and only `None` is rejected.
  */
  function CredentialsAsWritten(web: Web, old_: ClientId): (c: Credentialed)
    ensures c.raised.Some? <==> FetchSoundcloudClientId(web).Failure?
    ensures FetchSoundcloudClientId(web).Failure? ==> c == Credentialed(old_, Some(FetchSoundcloudClientId(web).error))
    ensures FetchSoundcloudClientId(web).Success? ==> c.clientId == Assigned(FetchSoundcloudClientId(web).value)
  {
    match FetchSoundcloudClientId(web)
    case Failure(e) => Credentialed(old_, Some(e))
    case Success(found) =>
      var cid := Assigned(found);
      Credentialed(cid, if cid.NoneId? then Some(NoClientId) else None)
  }

  /** The scrape never yields `None`, so the check as written never raises. */
  lemma AsWrittenNeverRaisesNoClientId(web: Web, old_: ClientId)
    ensures CredentialsAsWritten(web, old_).raised != Some(NoClientId)
  {
  }

  /** A site whose scrape page has no scripts. */
  function Scriptless(): Web
  {
    Web(_ => Some([]), _ => [], _ => None, _ => None, (_, _) => [])
  }

  /**
    On a page without a client id, the check as written accepts the falsy
    `client_id`, where the corrected check raises.
  */
  lemma AsWrittenAcceptsMissingId()
    ensures CredentialsAsWritten(Scriptless(), NoneId) == Credentialed(FalseId, None)
    ensures !Truthy(CredentialsAsWritten(Scriptless(), NoneId).clientId)
    ensures Credentials(Scriptless(), NoneId) == Credentialed(FalseId, Some(NoClientId))
  {
    var web := Scriptless();
    var page: Bytes := [];
    assert web.fetch(Util.SCRAPE_URL) == Some(page);
    assert ScriptUrls(web, page) == [];
    assert Download(web.fetch, []) == Transfer([], true);
    assert Bodies(web.fetch, []) == [];
    assert JoinDecoded([]) == "";
    assert Util.FindClientId("") == None;
  }

  /**
    `get_credentials` with the check meant here: whatever the scrape assigns,
    a falsy `client_id` raises.
  */
  function Credentials(web: Web, old_: ClientId): (c: Credentialed)
    ensures c.raised.None? ==> Truthy(c.clientId)
    ensures c.raised == Some(NoClientId) <==> FetchSoundcloudClientId(web) == Success(None)
    ensures FetchSoundcloudClientId(web).Failure? ==> c == Credentialed(old_, Some(FetchSoundcloudClientId(web).error))
    ensures FetchSoundcloudClientId(web).Success? ==> c.clientId == Assigned(FetchSoundcloudClientId(web).value)
    ensures c.raised.Some? <==> FetchSoundcloudClientId(web).Failure? || FetchSoundcloudClientId(web) == Success(None)
  {
    match FetchSoundcloudClientId(web)
    case Failure(e) => Credentialed(old_, Some(e))
    case Success(found) =>
      var cid := Assigned(found);
      Credentialed(cid, if !Truthy(cid) then Some(NoClientId) else None)
  }

  /** The `if not self.client_id: await self.get_credentials()` guard of `resolve` and `get_tracks`. */
  function EnsureCredentials(web: Web, cid: ClientId): (c: Credentialed)
    ensures Truthy(cid) ==> c == Credentialed(cid, None)
    ensures !Truthy(cid) ==> c == Credentials(web, cid)
    ensures c.raised.None? ==> Truthy(c.clientId)
  {
    if Truthy(cid) then Credentialed(cid, None) else Credentials(web, cid)
  }

  // ---------------------------------------------------------------------------
  // get_track_id

  /** `s.split(sep)`: the pieces between separators; there is always at least one. */
  function Split(s: string, sep: char): (parts: seq<string>)
    ensures |parts| >= 1
    decreases |s|
  {
    if s == [] then [[]]
    else
      var rest := Split(s[1..], sep);
      if s[0] == sep then [[]] + rest else [[s[0]] + rest[0]] + rest[1..]
  }

  /** `sep.join(parts)` */
  function JoinWith(parts: seq<string>, sep: char): string
    requires |parts| >= 1
  {
    if |parts| == 1 then parts[0] else parts[0] + [sep] + JoinWith(parts[1..], sep)
  }

  /** Joining the pieces with the separator gives back the string. */
  lemma {:induction false} SplitJoin(s: string, sep: char)
    ensures JoinWith(Split(s, sep), sep) == s
    decreases |s|
  {
    if s != [] {
      var rest := Split(s[1..], sep);
      var parts := Split(s, sep);
      SplitJoin(s[1..], sep);
      assert s == [s[0]] + s[1..];
      if s[0] == sep {
        assert parts == [[]] + rest;
        assert parts[1..] == rest;
      } else if |rest| == 1 {
        assert parts == [[s[0]] + rest[0]];
      } else {
        assert parts == [[s[0]] + rest[0]] + rest[1..];
        assert parts[1..] == rest[1..];
        assert JoinWith(rest, sep) == rest[0] + [sep] + JoinWith(rest[1..], sep);
      }
    }
  }

  /** No piece holds the separator. */
  lemma {:induction false} SplitPiecesOmitSep(s: string, sep: char)
    ensures forall i | 0 <= i < |Split(s, sep)| :: sep !in Split(s, sep)[i]
    decreases |s|
  {
    if s != [] {
      var rest := Split(s[1..], sep);
      var parts := Split(s, sep);
      SplitPiecesOmitSep(s[1..], sep);
      if s[0] == sep {
        assert parts == [[]] + rest;
        forall i | 0 < i < |parts|
          ensures sep !in parts[i]
        {
          assert parts[i] == rest[i - 1];
        }
      } else {
        assert parts == [[s[0]] + rest[0]] + rest[1..];
        forall i | 0 < i < |parts|
          ensures sep !in parts[i]
        {
          assert parts[i] == rest[i];
        }
      }
    }
  }

  /** `s.split(":")[-1]` */
  function LastSegment(s: string): (r: string)
    ensures ':' !in r
  {
    var parts := Split(s, ':');
    SplitPiecesOmitSep(s, ':');
    parts[|parts| - 1]
  }

  /**
    The last segment is the longest suffix without a colon: it holds no colon,
    and it is either all of `s` or comes right after a colon.
  */
  lemma {:induction false} LastSegmentIsColonFreeSuffix(s: string)
    ensures var r := LastSegment(s);
            && |r| <= |s| && r == s[|s| - |r|..]
            && ':' !in r
            && (|r| == |s| || s[|s| - |r| - 1] == ':')
    decreases |s|
  {
    if s != [] {
      var t := s[1..];
      var rest := Split(t, ':');
      var parts := Split(s, ':');
      var r := LastSegment(s);
      if s[0] != ':' && |rest| == 1 {
        assert |parts| == 1;
        SplitJoin(s, ':');
        SplitPiecesOmitSep(s, ':');
        assert r == JoinWith(parts, ':') == s;
      } else {
        LastSegmentIsColonFreeSuffix(t);
        assert r == LastSegment(t) by {
          if s[0] == ':' {
            assert parts == [[]] + rest;
          } else {
            assert parts == [[s[0]] + rest[0]] + rest[1..];
          }
        }
        if s[0] != ':' {
          SplitJoin(t, ':');
          JoinLongerThanLast(rest, ':');
        }
        TailSuffix(s, r);
      }
    }
  }

  /** With two pieces or more, the joined string is longer than the last piece. */
  lemma {:induction false} JoinLongerThanLast(parts: seq<string>, sep: char)
    requires |parts| > 1
    ensures |JoinWith(parts, sep)| > |parts[|parts| - 1]|
    decreases |parts|
  {
    if |parts| > 2 {
      JoinLongerThanLast(parts[1..], sep);
    }
  }

  /** A suffix of the tail of `s` is a suffix of `s`, with the character before it in the same place. */
  lemma TailSuffix(s: string, r: string)
    requires s != [] && |r| <= |s| - 1 && r == s[1..][|s| - 1 - |r|..]
    ensures r == s[|s| - |r|..]
    ensures |r| == |s| - 1 ==> s[|s| - |r| - 1] == s[0]
    ensures |r| < |s| - 1 ==> s[|s| - |r| - 1] == s[1..][|s| - 1 - |r| - 1]
  {
  }

  /** `get_track_id`: the last colon-separated segment of the page's googleplay meta tag. */
  function GetTrackId(web: Web, url: string): (r: Result<string, Error>)
    ensures web.fetch(url).None? ==> r == Failure(RequestFailed(url))
    ensures r.Failure? ==> r.error == RequestFailed(url) || r.error == NoMetaTag(url)
    ensures web.fetch(url).Some? && r.Failure? ==> r.error == NoMetaTag(url)
    ensures r.Success? <==> web.fetch(url).Some? && web.googleplayContent(Decode(web.fetch(url).value)).Some?
    ensures r.Success? ==> r.value == LastSegment(web.googleplayContent(Decode(web.fetch(url).value)).value)
    ensures r.Success? ==> ':' !in r.value
  {
    match web.fetch(url)
    case None => Failure(RequestFailed(url))
    case Some(page) =>
      match web.googleplayContent(Decode(page))
      case None => Failure(NoMetaTag(url))
      case Some(content) => Success(LastSegment(content))
  }

  // ---------------------------------------------------------------------------
  // get_tracks

  /** The track fields of each object of a batch response. */
  function Records(objs: seq<ApiObject>): seq<TrackRecord>
  {
    seq(|objs|, i requires 0 <= i < |objs| => objs[i].record)
  }

  /** The gathered `get_obj_from` results of the batch URLs, in URL order. */
  function BatchResponses(web: Web, cid: ClientId, ids: seq<TrackId>): (rs: seq<Response>)
    ensures |rs| == |web.tracksUrls(ClientIdText(cid), ids)|
    ensures forall i | 0 <= i < |rs| ::
              var obj := GetObjFrom(web, web.tracksUrls(ClientIdText(cid), ids)[i]);
              (rs[i].Some? <==> obj.Some?) && (rs[i].Some? ==> rs[i].value == Records(obj.value))
  {
    var urls := web.tracksUrls(ClientIdText(cid), ids);
    seq(|urls|, i requires 0 <= i < |urls| =>
      match GetObjFrom(web, urls[i])
      case None => None
      case Some(objs) => Some(Records(objs)))
  }

  /** The client's `get_tracks`, once `client_id` is set, as the lookup a playlist calls. */
  function ApiLookup(web: Web, cid: ClientId): Lookup
  {
    ids => Reassemble(BatchResponses(web, cid, ids), ids)
  }

  /** `get_tracks`: credentials when needed, then the batch requests reassembled in request order. */
  function TracksFor(web: Web, cid: ClientId, ids: seq<TrackId>): (r: Result<seq<TrackRecord>, Error>)
    ensures EnsureCredentials(web, cid).raised.Some? ==> r == Failure(EnsureCredentials(web, cid).raised.value)
    ensures EnsureCredentials(web, cid).raised.None? ==>
              r == Reassemble(BatchResponses(web, EnsureCredentials(web, cid).clientId, ids), ids)
  {
    var c := EnsureCredentials(web, cid);
    if c.raised.Some? then Failure(c.raised.value)
    else Reassemble(BatchResponses(web, c.clientId, ids), ids)
  }

  /**
    The tracks `get_tracks` returns are the records of all batch responses, sorted
    by requested position, and it only returns once `client_id` is set.
  */
  lemma TracksForIsStableSort(web: Web, cid: ClientId, ids: seq<TrackId>)
    requires TracksFor(web, cid, ids).Success?
    ensures Truthy(EnsureCredentials(web, cid).clientId)
    ensures var out := TracksFor(web, cid, ids).value;
            var responses := BatchResponses(web, EnsureCredentials(web, cid).clientId, ids);
            && Chain(responses).Success?
            && SortedBy(out, KeyOf(ids))
            && multiset(out) == multiset(Chain(responses).value)
            && forall k: nat :: Bucket(out, KeyOf(ids), k) == Bucket(Chain(responses).value, KeyOf(ids), k)
  {
    var responses := BatchResponses(web, EnsureCredentials(web, cid).clientId, ids);
    ReassembleIsStableSort(responses, ids);
  }

  /**
    When the batches answer each of distinct requested ids with exactly one
    track, `get_tracks` returns them in request order.
  */
  lemma TracksForInRequestOrder(web: Web, cid: ClientId, ids: seq<TrackId>)
    requires EnsureCredentials(web, cid).raised.None?
    requires NoDuplicates(ids)
    requires var responses := BatchResponses(web, EnsureCredentials(web, cid).clientId, ids);
             Chain(responses).Success? && multiset(Ids(Chain(responses).value)) == multiset(ids)
    ensures TracksFor(web, cid, ids).Success?
    ensures Ids(TracksFor(web, cid, ids).value) == ids
  {
    ReassembleInRequestOrder(BatchResponses(web, EnsureCredentials(web, cid).clientId, ids), ids);
  }

  // ---------------------------------------------------------------------------
  // resolve

  const API_TRACKS := "https://api-v2.soundcloud.com/tracks?ids="
  const CLIENT_ID_PARAM := "&client_id="

  /** The URL `resolve` builds from a track id and the client id. */
  function TracksUrl(trackId: string, cid: ClientId): (url: string)
    ensures |url| == |API_TRACKS| + |trackId| + |CLIENT_ID_PARAM| + |ClientIdText(cid)|
    ensures url[..|API_TRACKS|] == API_TRACKS
    ensures url[|API_TRACKS|..|API_TRACKS| + |trackId|] == trackId
    ensures url[|API_TRACKS| + |trackId|..][..|CLIENT_ID_PARAM|] == CLIENT_ID_PARAM
    ensures url[|url| - |ClientIdText(cid)|..] == ClientIdText(cid)
  {
    API_TRACKS + trackId + CLIENT_ID_PARAM + ClientIdText(cid)
  }

  predicate IsPlaylistKind(kind: string)
  {
    kind == "playlist" || kind == "system-playlist"
  }

  /** What `resolve` returns: a track, a playlist after `clean_attributes`, or `None`. */
  datatype Resolution = TrackFound(rec: TrackRecord) | PlaylistFound(tracks: seq<Entry>) | NotResolved

  /** The playlist built from a playlist object, after `clean_attributes` ran with the client's lookup. */
  function CleanedPlaylist(obj: ApiObject, lookup: Lookup): Completion
  {
    Complete(AsDicts(obj.tracks), Some(lookup))
  }

  /** The `kind` dispatch on the first object of the response. */
  function Dispatch(obj: ApiObject, lookup: Lookup): (r: Result<Resolution, Error>)
    ensures (r.Success? && r.value.TrackFound?) <==> obj.kind == "track"
    ensures r.Success? && r.value.TrackFound? ==> r.value.rec == obj.record
    ensures (r.Success? && r.value.NotResolved?) <==> obj.kind != "track" && !IsPlaylistKind(obj.kind)
    ensures r.Success? && r.value.PlaylistFound? ==>
              && IsPlaylistKind(obj.kind)
              && CleanedPlaylist(obj, lookup).raised.None?
              && r.value.tracks == CleanedPlaylist(obj, lookup).tracks
    ensures r.Failure? ==> IsPlaylistKind(obj.kind) && CleanedPlaylist(obj, lookup).raised == Some(r.error)
  {
    if obj.kind == "track" then Success(TrackFound(obj.record))
    else if IsPlaylistKind(obj.kind) then
      var c := CleanedPlaylist(obj, lookup);
      if c.raised.Some? then Failure(c.raised.value) else Success(PlaylistFound(c.tracks))
    else Success(NotResolved)
  }

  /** `client_id` after `resolve`, and its outcome. */
  datatype Resolved = Resolved(clientId: ClientId, result: Result<Resolution, Error>)

  /**
    `resolve`: credentials when `client_id` is falsy, the track id of the page,
    the API objects for it, and the dispatch on the first one; an empty or failed
    response raises `ValueError`.
  */
  function ResolveUrl(web: Web, cid: ClientId, url: string): (r: Resolved)
    ensures r.clientId == EnsureCredentials(web, cid).clientId
    ensures Truthy(cid) ==> r.clientId == cid
    ensures r.result.Success? ==> Truthy(r.clientId)
    ensures EnsureCredentials(web, cid).raised.Some? ==> r.result == Failure(EnsureCredentials(web, cid).raised.value)
    ensures EnsureCredentials(web, cid).raised.None? && GetTrackId(web, url).Failure? ==>
              r.result == Failure(GetTrackId(web, url).error)
  {
    var c := EnsureCredentials(web, cid);
    if c.raised.Some? then Resolved(c.clientId, Failure(c.raised.value))
    else
      match GetTrackId(web, url)
      case Failure(e) => Resolved(c.clientId, Failure(e))
      case Success(trackId) =>
        var obj := GetObjFrom(web, TracksUrl(trackId, c.clientId));
        if obj.None? || obj.value == [] then Resolved(c.clientId, Failure(CouldNotResolve))
        else Resolved(c.clientId, Dispatch(obj.value[0], ApiLookup(web, c.clientId)))
  }

  /**
    With credentials and a track id in hand, `resolve` raises `ValueError` when the
    API gives nothing (a failed request or an empty list), and otherwise
    dispatches on the first object.
  */
  lemma ResolveAfterTrackId(web: Web, cid: ClientId, url: string, trackId: string)
    requires EnsureCredentials(web, cid).raised.None?
    requires GetTrackId(web, url) == Success(trackId)
    ensures var cid' := EnsureCredentials(web, cid).clientId;
            var obj := GetObjFrom(web, TracksUrl(trackId, cid'));
            && (obj.None? || obj.value == [] ==> ResolveUrl(web, cid, url).result == Failure(CouldNotResolve))
            && (obj.Some? && obj.value != [] ==>
                  ResolveUrl(web, cid, url).result == Dispatch(obj.value[0], ApiLookup(web, cid')))
  {
  }

  /**
    A playlist that `resolve` returns is clean: only track objects, none of them
    twice.
  */
  lemma ResolvedPlaylistIsClean(web: Web, cid: ClientId, url: string)
    requires ResolveUrl(web, cid, url).result.Success?
    requires ResolveUrl(web, cid, url).result.value.PlaylistFound?
    ensures var out := ResolveUrl(web, cid, url).result.value.tracks;
            && NoDuplicates(out)
            && forall i | 0 <= i < |out| :: out[i].Track?
  {
    var c := EnsureCredentials(web, cid);
    var trackId := GetTrackId(web, url).value;
    var obj := GetObjFrom(web, TracksUrl(trackId, c.clientId)).value[0];
    var lookup := ApiLookup(web, c.clientId);
    var entries := AsDicts(obj.tracks);
    assert Complete(entries, Some(lookup)).raised.None?;
    assert Finished(entries, Some(lookup));
    FinishedPlaylist(entries, Some(lookup));
  }

  // ---------------------------------------------------------------------------
  // The client object

  /** What `resolve` hands back: a track, a cleaned `Playlist`, or `None`. */
  datatype ResolvedObject = TrackObject(rec: TrackRecord) | PlaylistObject(playlist: Playlist) | NoObject

  class SoundcloudApi {
    var clientId: ClientId

    constructor(clientId: ClientId)
      ensures this.clientId == clientId
    {
      this.clientId := clientId;
    }

    /** `get_credentials`, with the falsy check; `raised` is what it raises. */
    method GetCredentials(web: Web) returns (raised: Option<Error>)
      modifies this
      ensures Credentialed(clientId, raised) == Credentials(web, old(clientId))
    {
      var found := FetchSoundcloudClientId(web);
      if found.Failure? {
        return Some(found.error);
      }
      clientId := Assigned(found.value);
      if !Truthy(clientId) {
        return Some(NoClientId);
      }
      raised := None;
    }

    /** `get_tracks` */
    method GetTracks(web: Web, ids: seq<TrackId>) returns (r: Result<seq<TrackRecord>, Error>)
      modifies this
      ensures clientId == EnsureCredentials(web, old(clientId)).clientId
      ensures r == TracksFor(web, old(clientId), ids)
    {
      if !Truthy(clientId) {
        var raised := GetCredentials(web);
        if raised.Some? {
          return Failure(raised.value);
        }
      }
      r := Reassemble(BatchResponses(web, clientId, ids), ids);
    }

    /** `resolve`: a playlist object comes back after its `clean_attributes` ran. */
    method Resolve(web: Web, url: string) returns (r: Result<ResolvedObject, Error>)
      modifies this
      ensures var s := ResolveUrl(web, old(clientId), url);
              && clientId == s.clientId
              && (r.Failure? <==> s.result.Failure?)
              && (r.Failure? ==> r.error == s.result.error)
              && (s.result.Success? ==>
                    match s.result.value
                    case TrackFound(rec) => r.value == TrackObject(rec)
                    case NotResolved => r.value == NoObject
                    case PlaylistFound(tracks) =>
                      && r.value.PlaylistObject?
                      && fresh(r.value.playlist)
                      && r.value.playlist.ready
                      && r.value.playlist.tracks == tracks)
    {
      if !Truthy(clientId) {
        var raised := GetCredentials(web);
        if raised.Some? {
          return Failure(raised.value);
        }
      }
      var trackId := GetTrackId(web, url);
      if trackId.Failure? {
        return Failure(trackId.error);
      }
      var obj := GetObjFrom(web, TracksUrl(trackId.value, clientId));
      if obj.None? || obj.value == [] {
        return Failure(CouldNotResolve);
      }
      var first := obj.value[0];
      if first.kind == "track" {
        return Success(TrackObject(first.record));
      }
      if IsPlaylistKind(first.kind) {
        var playlist := new Playlist(first.tracks, Some(ApiLookup(web, clientId)));
        var raised := playlist.CleanAttributes();
        if raised.Some? {
          return Failure(raised.value);
        }
        return Success(PlaylistObject(playlist));
      }
      r := Success(NoObject);
    }
  }
}
