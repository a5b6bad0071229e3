/**
  `Playlist.clean_attributes` (sclib/asyncio.py): completes a playlist whose
  entry list mixes complete track objects with id-only stubs. The leading run
  of complete objects is kept; every later entry is reduced to its id and the
  ids are looked up in consecutive batches of `RESOLVE_THRESHOLD`; finally the
  collected tracks are written back without duplicates.
*/
module Playlists {
  import opened Wrappers
  import opened Seqs
  import opened Errors
  import opened Tracks

  const RESOLVE_THRESHOLD: nat := 100

  /** An entry of a playlist: the raw dictionary the API sent, or a track object built from one. */
  datatype Entry = Dict(rec: TrackRecord) | Track(rec: TrackRecord)

  /** `'title' in entry`: the API sent the complete object, not a stub. */
  predicate HasTitle(e: Entry)
  {
    e.rec.title.Some?
  }

  /** The client's `get_tracks`: the records for a batch of ids, or the exception it raises. */
  type Lookup = seq<TrackId> -> Result<seq<TrackRecord>, Error>

  function AsDicts(recs: seq<TrackRecord>): seq<Entry>
  {
    seq(|recs|, i requires 0 <= i < |recs| => Dict(recs[i]))
  }

  function AsTracks(recs: seq<TrackRecord>): seq<Entry>
  {
    seq(|recs|, i requires 0 <= i < |recs| => Track(recs[i]))
  }

  lemma AsTracksAppend(a: seq<TrackRecord>, b: seq<TrackRecord>)
    ensures AsTracks(a + b) == AsTracks(a) + AsTracks(b)
  {
  }

  /** `Track(obj=entry)` for each entry. */
  function Materialise(entries: seq<Entry>): seq<Entry>
  {
    seq(|entries|, i requires 0 <= i < |entries| => Track(entries[i].rec))
  }

  /** `entry['id']` for each entry. */
  function EntryIds(entries: seq<Entry>): (ids: seq<TrackId>)
    ensures |ids| == |entries|
  {
    seq(|entries|, i requires 0 <= i < |entries| => entries[i].rec.id)
  }

  /** Length of the leading run of entries that carry a title. */
  function TitledRun(entries: seq<Entry>): (n: nat)
    ensures n <= |entries|
    ensures forall i | 0 <= i < n :: HasTitle(entries[i])
    ensures n < |entries| ==> !HasTitle(entries[n])
  {
    if entries == [] || !HasTitle(entries[0]) then 0
    else
      assert forall i | 1 <= i < |entries| :: entries[i] == entries[1..][i - 1];
      1 + TitledRun(entries[1..])
  }

  /** How many lookups were made, and the records they returned or the exception that ended them. */
  datatype Gathered = Gathered(sent: nat, result: Result<seq<TrackRecord>, Error>)

  /**
    Looks up the first `k` batches in order, concatenating the records; the first
    lookup that raises ends it.
  */
  function Gather(lookup: Lookup, batches: seq<seq<TrackId>>, k: nat): (g: Gathered)
    requires k <= |batches|
    ensures g.sent <= k
    ensures g.result.Success? ==> g.sent == k
    ensures g.result.Failure? ==> 1 <= g.sent
  {
    if k == 0 then Gathered(0, Success([]))
    else
      var g := Gather(lookup, batches, k - 1);
      match g.result
      case Failure(_) => g
      case Success(recs) =>
        match lookup(batches[k - 1])
        case Failure(e) => Gathered(k, Failure(e))
        case Success(more) => Gathered(k, Success(recs + more))
  }

  /** The entries after the titled run: the stubs to look up. */
  function Stubs(entries: seq<Entry>): seq<Entry>
  {
    entries[TitledRun(entries)..]
  }

  /** The ids of the entries after the titled run, in batches of `RESOLVE_THRESHOLD`. */
  function Batches(entries: seq<Entry>): seq<seq<TrackId>>
  {
    Chunks(EntryIds(Stubs(entries)), RESOLVE_THRESHOLD)
  }

  /** How many of `n` stubs have been taken once `sent` batches have been looked up. */
  function Taken(n: nat, sent: nat): nat
  {
    Min(RESOLVE_THRESHOLD * sent, n)
  }

  /** The playlist's entries after `clean_attributes`, the batches it looked up, and what it raised. */
  datatype Completion = Completion(tracks: seq<Entry>, requests: seq<seq<TrackId>>, raised: Option<Error>)

  /**
    What one `clean_attributes` call on a playlist that is not ready does to its
    entries. With nothing left after the titled run, the run is written back.
    Without a client, the call returns at the first batch boundary, having already
    removed the titled run and the first batch. A lookup that raises leaves the
    entries that were not yet taken. Otherwise the titled run followed by every
    looked-up record is written back without duplicates.
  */
  function Complete(entries: seq<Entry>, client: Option<Lookup>): (c: Completion)
    ensures client.None? ==> c.requests == [] && c.raised.None?
    ensures |c.requests| <= |Batches(entries)| && c.requests == Batches(entries)[..|c.requests|]
    ensures client.Some? && c.raised.None? ==> c.requests == Batches(entries)
  {
    var p := TitledRun(entries);
    var rest := entries[p..];
    var done := Materialise(entries[..p]);
    if rest == [] then
      assert Batches(entries) == [];
      Completion(Dedup(done), [], None)
    else
      var batches := Batches(entries);
      match client
      case None => Completion(entries[p + Taken(|rest|, 1)..], [], None)
      case Some(lookup) => AfterLookups(entries, p, batches, Gather(lookup, batches, |batches|))
  }

  /** The outcome once the titled run `entries[..p]` is taken and the lookups of `batches` are over. */
  function AfterLookups(entries: seq<Entry>, p: nat, batches: seq<seq<TrackId>>, g: Gathered): Completion
    requires p <= |entries| && g.sent <= |batches|
  {
    match g.result
    case Failure(e) => Completion(entries[p + Taken(|entries| - p, g.sent)..], batches[..g.sent], Some(e))
    case Success(recs) => Completion(Dedup(Materialise(entries[..p]) + AsTracks(recs)), batches, None)
  }

  /**
    The batching loop of `clean_attributes` as a function of what is left to take
    (`tracks`), the ids taken since the last lookup (`pending`) and the track objects
    built so far (`objs`): each step takes one entry's id, and a full batch, or the
    last entry, is looked up. The result is the entries written back, the batches
    looked up and the exception raised.
  */
  function Run(client: Option<Lookup>, tracks: seq<Entry>, pending: seq<TrackId>, objs: seq<Entry>): (c: Completion)
    ensures client.None? ==> c.requests == [] && c.raised.None?
    ensures c.raised.Some? ==> c.requests != []
    ensures forall i | 0 <= i < |c.requests| :: c.requests[i] != []
    decreases |tracks|
  {
    if tracks == [] then Completion(Dedup(objs), [], None)
    else
      var batch := pending + [tracks[0].rec.id];
      var tracks' := tracks[1..];
      if |batch| == RESOLVE_THRESHOLD || tracks' == [] then
        match client
        case None => Completion(tracks', [], None)
        case Some(lookup) =>
          match lookup(batch)
          case Failure(e) => Completion(tracks', [batch], Some(e))
          case Success(recs) =>
            var r := Run(client, tracks', [], objs + AsTracks(recs));
            Completion(r.tracks, [batch] + r.requests, r.raised)
      else Run(client, tracks', batch, objs)
  }

  class Playlist {
    var tracks: seq<Entry>
    var ready: bool
    const client: Option<Lookup>
    /** The id batches passed to the client's `get_tracks`, oldest first. */
    ghost var requests: seq<seq<TrackId>>

    /** A playlist as the API sends it: raw entries, not yet completed. */
    constructor(entries: seq<TrackRecord>, client: Option<Lookup>)
      ensures tracks == AsDicts(entries) && !ready
      ensures this.client == client && requests == []
    {
      tracks := AsDicts(entries);
      ready := false;
      this.client := client;
      requests := [];
    }

    /**
      `clean_attributes`: a no-op once the playlist is ready; otherwise the playlist
      becomes ready before any work and its entries become `Complete`'s result.
      `raised` is the exception the client's lookup raised, if any.
    */
    method CleanAttributes() returns (raised: Option<Error>)
      modifies this
      ensures ready
      ensures old(ready) ==> tracks == old(tracks) && requests == old(requests) && raised.None?
      ensures !old(ready) ==>
                var c := Complete(old(tracks), client);
                tracks == c.tracks && requests == old(requests) + c.requests && raised == c.raised
    {
      if ready {
        return None;
      }
      ready := true;
      var trackObjects := TakeTitledRun();
      RunIsComplete(old(tracks), client);
      raised := LookUpStubs(trackObjects);
    }

    /**
      The batching loop of `clean_attributes` and the closing loop after it: the
      remaining entries, the track objects built so far and the lookups made end as
      `Run` says.
    */
    method LookUpStubs(trackObjects: seq<Entry>) returns (raised: Option<Error>)
      modifies this
      ensures var r := Run(client, old(tracks), [], trackObjects);
              tracks == r.tracks && requests == old(requests) + r.requests && raised == r.raised
      ensures ready == old(ready)
    {
      ghost var outcome := Run(client, tracks, [], trackObjects);
      var objs := trackObjects;
      var incompleteTrackIds: seq<TrackId> := [];

      while tracks != []
        invariant ready == old(ready) && |incompleteTrackIds| < RESOLVE_THRESHOLD
        invariant var r := Run(client, tracks, incompleteTrackIds, objs);
                  r.tracks == outcome.tracks && r.raised == outcome.raised
                  && requests + r.requests == old(requests) + outcome.requests
        decreases |tracks|
      {
        incompleteTrackIds := incompleteTrackIds + [tracks[0].rec.id];
        tracks := tracks[1..];
        if |incompleteTrackIds| == RESOLVE_THRESHOLD || tracks == [] {
          if client.None? {
            return None;
          }
          requests := requests + [incompleteTrackIds];
          var newTracks := client.value(incompleteTrackIds);
          if newTracks.Failure? {
            return Some(newTracks.error);
          }
          objs := objs + AsTracks(newTracks.value);
          incompleteTrackIds := [];
          assert requests + Run(client, tracks, incompleteTrackIds, objs).requests
              == old(requests) + outcome.requests;
        }
      }
      AppendMissing(objs);
      raised := None;
    }

    /** The opening loop of `clean_attributes`: pops the leading titled entries as track objects. */
    method TakeTitledRun() returns (trackObjects: seq<Entry>)
      modifies this
      ensures trackObjects == Materialise(old(tracks)[..TitledRun(old(tracks))])
      ensures tracks == old(tracks)[TitledRun(old(tracks))..]
      ensures ready == old(ready) && requests == old(requests)
    {
      ghost var entries := tracks;
      ghost var p := TitledRun(entries);
      trackObjects := [];
      while tracks != [] && HasTitle(tracks[0])
        invariant ready == old(ready) && requests == old(requests)
        invariant |trackObjects| <= p
        invariant tracks == entries[|trackObjects|..]
        invariant trackObjects == Materialise(entries[..|trackObjects|])
        decreases |tracks|
      {
        ghost var k := |trackObjects|;
        assert entries[..k + 1] == entries[..k] + [entries[k]];
        trackObjects := trackObjects + [Track(tracks[0].rec)];
        tracks := tracks[1..];
      }
    }

    /** The closing loop of `clean_attributes`: appends each track object not already present. */
    method AppendMissing(trackObjects: seq<Entry>)
      requires tracks == []
      modifies this
      ensures tracks == Dedup(trackObjects)
      ensures ready == old(ready) && requests == old(requests)
    {
      for i := 0 to |trackObjects|
        invariant tracks == Dedup(trackObjects[..i])
        invariant ready == old(ready) && requests == old(requests)
      {
        assert trackObjects[..i + 1][..i] == trackObjects[..i];
        if trackObjects[i] !in tracks {
          tracks := tracks + [trackObjects[i]];
        }
      }
      assert trackObjects[..|trackObjects|] == trackObjects;
    }
  }

  /** With nothing but titled entries, the titled run is written back without duplicates. */
  lemma CompleteAllTitled(entries: seq<Entry>, client: Option<Lookup>)
    requires TitledRun(entries) == |entries|
    ensures Complete(entries, client) == Completion(Dedup(Materialise(entries)), [], None)
  {
    assert entries[..|entries|] == entries;
  }

  /**
    Without a client the call gives up at the first batch boundary: the titled run
    and the first batch of stubs (up to 100 of them) are gone, nothing is looked up
    and nothing is raised.
  */
  lemma CompleteWithoutClient(entries: seq<Entry>)
    requires Stubs(entries) != []
    ensures Complete(entries, None) == Completion(Stubs(entries)[Taken(|Stubs(entries)|, 1)..], [], None)
  {
  }

  /**
    Once every stub is taken and no lookup raised, the titled run and the records
    gathered from the `c` batches looked up are written back without duplicates.
  */
  lemma CompleteAfterLoop(entries: seq<Entry>, client: Option<Lookup>, c: nat, gathered: seq<TrackRecord>)
    requires c <= |Batches(entries)|
    requires Taken(|Stubs(entries)|, c) == |Stubs(entries)|
    requires client.None? ==> c == 0
    requires c == 0 ==> gathered == []
    requires client.Some? ==> Gather(client.value, Batches(entries), c) == Gathered(c, Success(gathered))
    ensures Complete(entries, client)
         == Completion(Dedup(Materialise(entries[..TitledRun(entries)]) + AsTracks(gathered)),
                       Batches(entries)[..c], None)
  {
    var p := TitledRun(entries);
    var ids := EntryIds(entries[p..]);
    if p == |entries| {
      CompleteAllTitled(entries, client);
      assert entries[..p] == entries;
      assert Batches(entries) == [] && c == 0;
      assert AsTracks(gathered) == [];
      assert Materialise(entries[..p]) + AsTracks(gathered) == Materialise(entries);
    } else if client.None? {
      assert false;
    } else {
      ChunkCount(ids, RESOLVE_THRESHOLD, c);
      assert c == |Batches(entries)|;
      CompleteWhenLookupsSucceed(entries, client.value, gathered);
    }
  }

  /**
    A point the batching loop reaches: `j` stubs are taken and `c` batches were
    looked up without an exception, their records being `gathered`.
  */
  predicate Resumable(entries: seq<Entry>, client: Option<Lookup>, j: nat, c: nat, gathered: seq<TrackRecord>)
  {
    && j <= |Stubs(entries)| && c <= |Batches(entries)|
    && Taken(|Stubs(entries)|, c) <= j < Taken(|Stubs(entries)|, c) + RESOLVE_THRESHOLD
    && (j == |Stubs(entries)| ==> Taken(|Stubs(entries)|, c) == j)
    && (client.None? ==> c == 0)
    && (c == 0 ==> gathered == [])
    && (client.Some? ==> Gather(client.value, Batches(entries), c) == Gathered(c, Success(gathered)))
  }

  /** How `clean_attributes` ends when its batching loop is resumed from that point. */
  function Resumed(entries: seq<Entry>, client: Option<Lookup>, j: nat, c: nat, gathered: seq<TrackRecord>): Completion
    requires Resumable(entries, client, j, c, gathered)
  {
    var r := Run(client, Stubs(entries)[j..], EntryIds(Stubs(entries))[Taken(|Stubs(entries)|, c)..j],
                 Materialise(entries[..TitledRun(entries)]) + AsTracks(gathered));
    Completion(r.tracks, Batches(entries)[..c] + r.requests, r.raised)
  }

  /** Wherever the batching loop is resumed, it ends as `Complete` says. */
  lemma {:induction false} RunFrom(entries: seq<Entry>, client: Option<Lookup>, j: nat, c: nat, gathered: seq<TrackRecord>)
    requires Resumable(entries, client, j, c, gathered)
    ensures Complete(entries, client) == Resumed(entries, client, j, c, gathered)
    decreases |Stubs(entries)| - j, 2
  {
    var rest := Stubs(entries);
    var f := Taken(|rest|, c);
    if j == |rest| {
      CompleteAfterLoop(entries, client, c, gathered);
      assert Batches(entries)[..c] + [] == Batches(entries)[..c];
    } else if j + 1 - f == RESOLVE_THRESHOLD || j + 1 == |rest| {
      RunFlush(entries, client, j, c, gathered);
    } else {
      var ids := EntryIds(rest);
      var objs := Materialise(entries[..TitledRun(entries)]) + AsTracks(gathered);
      assert ids[f..j] + [rest[j].rec.id] == ids[f..j + 1] by {
        SliceSnoc(ids, f, j);
      }
      assert rest[j..][0] == rest[j] && rest[j..][1..] == rest[j + 1..];
      assert Run(client, rest[j..], ids[f..j], objs) == Run(client, rest[j + 1..], ids[f..j + 1], objs);
      RunFrom(entries, client, j + 1, c, gathered);
    }
  }

  /** The step of the batching loop that takes the last stub of a batch and looks the batch up. */
  lemma {:induction false} RunFlush(entries: seq<Entry>, client: Option<Lookup>, j: nat, c: nat, gathered: seq<TrackRecord>)
    requires Resumable(entries, client, j, c, gathered) && j < |Stubs(entries)|
    requires j + 1 - Taken(|Stubs(entries)|, c) == RESOLVE_THRESHOLD || j + 1 == |Stubs(entries)|
    ensures Complete(entries, client) == Resumed(entries, client, j, c, gathered)
    decreases |Stubs(entries)| - j, 1
  {
    var rest := Stubs(entries);
    var ids := EntryIds(rest);
    var f := Taken(|rest|, c);
    assert ids[f..j] + [rest[j].rec.id] == ids[f..j + 1] by {
      SliceSnoc(ids, f, j);
    }
    BatchIsNext(ids, f, j + 1, c);
    assert AtFlush(entries, client, j, c, gathered);
    match client
    case None =>
      FlushWithoutClient(entries, j, gathered);
    case Some(lookup) =>
      match lookup(Batches(entries)[c])
      case Failure(e) =>
        FlushRaises(entries, lookup, j, c, gathered);
      case Success(recs) =>
        FlushSucceeds(entries, lookup, j, c, gathered);
  }

  /** The loop has taken stub `j`, the last of batch `c`, and is about to look the batch up. */
  predicate AtFlush(entries: seq<Entry>, client: Option<Lookup>, j: nat, c: nat, gathered: seq<TrackRecord>)
  {
    && Resumable(entries, client, j, c, gathered) && j < |Stubs(entries)| && c < |Batches(entries)|
    && Batches(entries)[c] == EntryIds(Stubs(entries))[Taken(|Stubs(entries)|, c)..j] + [Stubs(entries)[j].rec.id]
    && j + 1 == Taken(|Stubs(entries)|, c + 1)
  }

  lemma FlushWithoutClient(entries: seq<Entry>, j: nat, gathered: seq<TrackRecord>)
    requires AtFlush(entries, None, j, 0, gathered)
    ensures Complete(entries, None) == Resumed(entries, None, j, 0, gathered)
  {
    var rest := Stubs(entries);
    assert rest[j..][0] == rest[j] && rest[j..][1..] == rest[j + 1..];
    assert Resumed(entries, None, j, 0, gathered) == Completion(rest[j + 1..], [], None);
    CompleteWithoutClient(entries);
  }

  lemma FlushRaises(entries: seq<Entry>, lookup: Lookup, j: nat, c: nat, gathered: seq<TrackRecord>)
    requires AtFlush(entries, Some(lookup), j, c, gathered)
    requires lookup(Batches(entries)[c]).Failure?
    ensures Complete(entries, Some(lookup)) == Resumed(entries, Some(lookup), j, c, gathered)
  {
    var rest := Stubs(entries);
    var batches := Batches(entries);
    assert rest[j..][0] == rest[j] && rest[j..][1..] == rest[j + 1..];
    assert batches[..c + 1] == batches[..c] + [batches[c]] by {
      SliceSnoc(batches, 0, c);
    }
    assert Resumed(entries, Some(lookup), j, c, gathered)
        == Completion(rest[j + 1..], batches[..c + 1], Some(lookup(batches[c]).error));
    CompleteWhenLookupRaises(entries, lookup, c);
  }

  lemma {:induction false} FlushSucceeds(entries: seq<Entry>, lookup: Lookup, j: nat, c: nat, gathered: seq<TrackRecord>)
    requires AtFlush(entries, Some(lookup), j, c, gathered)
    requires lookup(Batches(entries)[c]).Success?
    ensures Complete(entries, Some(lookup)) == Resumed(entries, Some(lookup), j, c, gathered)
    decreases |Stubs(entries)| - j, 0
  {
    var recs := lookup(Batches(entries)[c]).value;
    ResumableAfterFlush(entries, lookup, j, c, gathered);
    RunFrom(entries, Some(lookup), j + 1, c + 1, gathered + recs);
    ResumedAcrossFlush(entries, lookup, j, c, gathered);
  }

  /** After a batch lookup that succeeds, the loop is at the start of the next batch. */
  lemma ResumableAfterFlush(entries: seq<Entry>, lookup: Lookup, j: nat, c: nat, gathered: seq<TrackRecord>)
    requires AtFlush(entries, Some(lookup), j, c, gathered)
    requires lookup(Batches(entries)[c]).Success?
    ensures Resumable(entries, Some(lookup), j + 1, c + 1, gathered + lookup(Batches(entries)[c]).value)
  {
    var batches := Batches(entries);
    assert Gather(lookup, batches, c + 1) == Gathered(c + 1, Success(gathered + lookup(batches[c]).value));
  }

  /** Resuming just before a successful flush ends as resuming just after it. */
  lemma ResumedAcrossFlush(entries: seq<Entry>, lookup: Lookup, j: nat, c: nat, gathered: seq<TrackRecord>)
    requires AtFlush(entries, Some(lookup), j, c, gathered)
    requires lookup(Batches(entries)[c]).Success?
    requires Resumable(entries, Some(lookup), j + 1, c + 1, gathered + lookup(Batches(entries)[c]).value)
    ensures Resumed(entries, Some(lookup), j, c, gathered)
         == Resumed(entries, Some(lookup), j + 1, c + 1, gathered + lookup(Batches(entries)[c]).value)
  {
    var p := TitledRun(entries);
    var rest := Stubs(entries);
    var batches := Batches(entries);
    var recs := lookup(batches[c]).value;
    var objs := Materialise(entries[..p]) + AsTracks(gathered);
    var f := Taken(|rest|, c);
    var pending := EntryIds(rest)[f..j];
    var r := Run(Some(lookup), rest[j + 1..], [], objs + AsTracks(recs));
    assert rest[j..][0] == rest[j] && rest[j..][1..] == rest[j + 1..];
    RunFlushStep(lookup, rest[j..], pending, objs);
    assert batches[..c + 1] == batches[..c] + [batches[c]] by {
      SliceSnoc(batches, 0, c);
    }
    assert Resumed(entries, Some(lookup), j, c, gathered)
        == Completion(r.tracks, batches[..c + 1] + r.requests, r.raised);
    assert EntryIds(rest)[j + 1..j + 1] == [];
    assert objs + AsTracks(recs) == Materialise(entries[..p]) + AsTracks(gathered + recs) by {
      AsTracksAppend(gathered, recs);
    }
  }

  /** One step of the batching loop that completes a batch whose lookup succeeds. */
  lemma RunFlushStep(lookup: Lookup, tracks: seq<Entry>, pending: seq<TrackId>, objs: seq<Entry>)
    requires tracks != []
    requires |pending + [tracks[0].rec.id]| == RESOLVE_THRESHOLD || tracks[1..] == []
    requires lookup(pending + [tracks[0].rec.id]).Success?
    ensures var batch := pending + [tracks[0].rec.id];
            var r := Run(Some(lookup), tracks[1..], [], objs + AsTracks(lookup(batch).value));
            Run(Some(lookup), tracks, pending, objs) == Completion(r.tracks, [batch] + r.requests, r.raised)
  {
  }

  /** The batching loop, started on the stubs with the titled run as track objects, ends as `Complete` says. */
  lemma RunIsComplete(entries: seq<Entry>, client: Option<Lookup>)
    ensures Run(client, Stubs(entries), [], Materialise(entries[..TitledRun(entries)])) == Complete(entries, client)
  {
    RunFrom(entries, client, 0, 0, []);
    assert Materialise(entries[..TitledRun(entries)]) + AsTracks([]) == Materialise(entries[..TitledRun(entries)]);
    assert Stubs(entries)[0..] == Stubs(entries);
  }

  /** When every lookup succeeds, the titled run and the looked-up records are written back. */
  lemma CompleteWhenLookupsSucceed(entries: seq<Entry>, lookup: Lookup, gathered: seq<TrackRecord>)
    requires Stubs(entries) != []
    requires Gather(lookup, Batches(entries), |Batches(entries)|) == Gathered(|Batches(entries)|, Success(gathered))
    ensures Complete(entries, Some(lookup))
         == Completion(Dedup(Materialise(entries[..TitledRun(entries)]) + AsTracks(gathered)), Batches(entries), None)
  {
  }

  /**
    When batch `c` is the first whose lookup raises, the batches up to it were
    requested, its exception is raised, and the entries not yet taken remain.
  */
  lemma CompleteWhenLookupRaises(entries: seq<Entry>, lookup: Lookup, c: nat)
    requires Stubs(entries) != []
    requires c < |Batches(entries)|
    requires Gather(lookup, Batches(entries), c).result.Success?
    requires lookup(Batches(entries)[c]).Failure?
    ensures Complete(entries, Some(lookup))
         == Completion(Stubs(entries)[Taken(|Stubs(entries)|, c + 1)..],
                       Batches(entries)[..c + 1], Some(lookup(Batches(entries)[c]).error))
  {
    var p := TitledRun(entries);
    var batches := Batches(entries);
    var n := |Stubs(entries)|;
    var g := Gathered(c + 1, Failure(lookup(batches[c]).error));
    assert Gather(lookup, batches, |batches|) == g by {
      assert Gather(lookup, batches, c + 1) == g;
      GatherFailureSticks(lookup, batches, c + 1, |batches|);
    }
    assert Complete(entries, Some(lookup)) == AfterLookups(entries, p, batches, g);
    assert entries[p + Taken(n, c + 1)..] == Stubs(entries)[Taken(n, c + 1)..];
  }

  /** The ids taken since the last lookup form the next batch once 100 are pending or none remain. */
  lemma BatchIsNext(ids: seq<TrackId>, f: nat, j: nat, c: nat)
    requires f < j <= |ids| && j - f <= RESOLVE_THRESHOLD
    requires j - f == RESOLVE_THRESHOLD || j == |ids|
    requires f == Min(RESOLVE_THRESHOLD * c, |ids|)
    ensures c < |Chunks(ids, RESOLVE_THRESHOLD)|
    ensures Chunks(ids, RESOLVE_THRESHOLD)[c] == ids[f..j]
    ensures j == Min(RESOLVE_THRESHOLD * (c + 1), |ids|)
  {
    ChunkCount(ids, RESOLVE_THRESHOLD, c);
    ChunkAt(ids, RESOLVE_THRESHOLD, c);
  }

  /**
    The lookups stop at the first batch whose lookup raises: every batch before it
    was looked up successfully, and its exception is the one raised.
  */
  lemma {:induction false} GatherStopsAtFirstFailure(lookup: Lookup, batches: seq<seq<TrackId>>, k: nat)
    requires k <= |batches|
    ensures var g := Gather(lookup, batches, k);
            && (g.result.Success? <==> forall i | 0 <= i < k :: lookup(batches[i]).Success?)
            && (g.result.Failure? ==>
                  && (forall i | 0 <= i < g.sent - 1 :: lookup(batches[i]).Success?)
                  && lookup(batches[g.sent - 1]) == Failure(g.result.error))
  {
    if k > 0 {
      GatherStopsAtFirstFailure(lookup, batches, k - 1);
    }
  }

  /** Once a lookup has raised, later batches change nothing. */
  lemma {:induction false} GatherFailureSticks(lookup: Lookup, batches: seq<seq<TrackId>>, k: nat, k': nat)
    requires k <= k' <= |batches|
    requires Gather(lookup, batches, k).result.Failure?
    ensures Gather(lookup, batches, k') == Gather(lookup, batches, k)
  {
    if k' > k {
      GatherFailureSticks(lookup, batches, k, k' - 1);
    }
  }

  // ---------------------------------------------------------------------------
  // Properties of `Complete`

  /**
    The stubs' ids are looked up in order and each exactly once: the batches joined
    are the stubs' ids, every batch holds 1 to `RESOLVE_THRESHOLD` ids, only the last
    may hold fewer, and there are as many batches as `RESOLVE_THRESHOLD`-sized
    pieces of the stubs.
  */
  lemma BatchesPartitionStubs(entries: seq<Entry>)
    ensures Flatten(Batches(entries)) == EntryIds(Stubs(entries))
    ensures forall i | 0 <= i < |Batches(entries)| :: 0 < |Batches(entries)[i]| <= RESOLVE_THRESHOLD
    ensures forall i | 0 <= i < |Batches(entries)| - 1 :: |Batches(entries)[i]| == RESOLVE_THRESHOLD
    ensures forall c: nat :: c < |Batches(entries)| <==> RESOLVE_THRESHOLD * c < |Stubs(entries)|
  {
    var ids := EntryIds(Stubs(entries));
    ChunksPartition(ids, RESOLVE_THRESHOLD);
    forall c: nat
      ensures c < |Batches(entries)| <==> RESOLVE_THRESHOLD * c < |Stubs(entries)|
    {
      ChunkCount(ids, RESOLVE_THRESHOLD, c);
    }
  }

  /** The playlist after a call that looked up every batch, or had nothing to look up. */
  predicate Finished(entries: seq<Entry>, client: Option<Lookup>)
  {
    Stubs(entries) == [] || (client.Some? && Complete(entries, client).raised.None?)
  }

  /** The records the lookups returned, when none of them raised. */
  function Fetched(entries: seq<Entry>, client: Option<Lookup>): seq<TrackRecord>
  {
    match client
    case Some(lookup) =>
      var g := Gather(lookup, Batches(entries), |Batches(entries)|);
      if g.result.Success? then g.result.value else []
    case None => []
  }

  /**
    A finished call leaves only track objects, each at most once: first the titled
    run (without repeats), then the records the lookups returned; an entry is kept
    exactly when it is one of these.
  */
  lemma {:induction false} FinishedPlaylist(entries: seq<Entry>, client: Option<Lookup>)
    requires Finished(entries, client)
    ensures var out := Complete(entries, client).tracks;
            var titled := Materialise(entries[..TitledRun(entries)]);
            && NoDuplicates(out)
            && (forall i | 0 <= i < |out| :: out[i].Track?)
            && |Dedup(titled)| <= |out| && out[..|Dedup(titled)|] == Dedup(titled)
            && (forall e :: e in out <==> e in titled + AsTracks(Fetched(entries, client)))
  {
    var p := TitledRun(entries);
    var titled := Materialise(entries[..p]);
    var all := titled + AsTracks(Fetched(entries, client));
    if Stubs(entries) == [] {
      CompleteAllTitled(entries, client);
      assert entries[..p] == entries;
      assert Batches(entries) == [];
      assert all == titled;
    } else {
      var lookup := client.value;
      var batches := Batches(entries);
      var g := Gather(lookup, batches, |batches|);
      assert g.result.Success?;
      assert Complete(entries, client).tracks == Dedup(all);
    }
    DedupMembers(all);
    DedupPrefix(titled, AsTracks(Fetched(entries, client)));
    forall i | 0 <= i < |Dedup(all)|
      ensures Dedup(all)[i].Track?
    {
      assert Dedup(all)[i] in all;
    }
  }

  /** A lookup that answers batch `i` with one record for each of its ids, in order. */
  predicate Answers(lookup: Lookup, batches: seq<seq<TrackId>>)
  {
    forall i | 0 <= i < |batches| ::
      lookup(batches[i]).Success? && Ids(lookup(batches[i]).value) == batches[i]
  }

  /** With such a lookup the records gathered carry the batches' ids, in order. */
  lemma {:induction false} GatherIds(lookup: Lookup, batches: seq<seq<TrackId>>, k: nat)
    requires k <= |batches| && Answers(lookup, batches)
    ensures Gather(lookup, batches, k).result.Success?
    ensures Ids(Gather(lookup, batches, k).result.value) == Flatten(batches[..k])
  {
    if k == 0 {
      assert batches[..0] == [];
    } else {
      GatherIds(lookup, batches, k - 1);
      var recs := Gather(lookup, batches, k - 1).result.value;
      IdsAppend(recs, lookup(batches[k - 1]).value);
      assert batches[..k] == batches[..k - 1] + [batches[k - 1]];
      FlattenAppend(batches[..k - 1], [batches[k - 1]]);
      assert Flatten([batches[k - 1]]) == batches[k - 1] + Flatten([]);
    }
  }

  lemma EntryIdsAppend(a: seq<Entry>, b: seq<Entry>)
    ensures EntryIds(a + b) == EntryIds(a) + EntryIds(b)
  {
  }

  /** Two lists with the same entries have the same ids. */
  lemma SameEntriesSameIds(a: seq<Entry>, b: seq<Entry>)
    requires forall e :: e in a <==> e in b
    ensures forall id :: id in EntryIds(a) <==> id in EntryIds(b)
  {
    forall id | id in EntryIds(a)
      ensures id in EntryIds(b)
    {
      var i :| 0 <= i < |a| && EntryIds(a)[i] == id;
      assert a[i] in b;
      var j :| 0 <= j < |b| && b[j] == a[i];
      assert EntryIds(b)[j] == id;
    }
    forall id | id in EntryIds(b)
      ensures id in EntryIds(a)
    {
      var j :| 0 <= j < |b| && EntryIds(b)[j] == id;
      assert b[j] in a;
      var i :| 0 <= i < |a| && a[i] == b[j];
      assert EntryIds(a)[i] == id;
    }
  }

  /**
    With a client whose lookups answer every batch with its tracks, the call
    raises nothing and the completed playlist holds a track for every entry's id
    and for no other id.
  */
  lemma CompleteWithAnsweringClient(entries: seq<Entry>, lookup: Lookup)
    requires Answers(lookup, Batches(entries))
    ensures Complete(entries, Some(lookup)).raised.None?
    ensures forall id :: id in EntryIds(Complete(entries, Some(lookup)).tracks) <==> id in EntryIds(entries)
  {
    var all := Materialise(entries[..TitledRun(entries)]) + AsTracks(Fetched(entries, Some(lookup)));
    AnsweredInFull(entries, lookup);
    FinishedPlaylist(entries, Some(lookup));
    SameEntriesSameIds(Complete(entries, Some(lookup)).tracks, all);
  }

  /** Such a client's lookups all succeed and return a record for every stub, in order. */
  lemma AnsweredInFull(entries: seq<Entry>, lookup: Lookup)
    requires Answers(lookup, Batches(entries))
    ensures Finished(entries, Some(lookup))
    ensures EntryIds(Materialise(entries[..TitledRun(entries)]) + AsTracks(Fetched(entries, Some(lookup))))
         == EntryIds(entries)
  {
    AnsweredStubs(entries, lookup);
    RebuiltIds(entries, TitledRun(entries), Fetched(entries, Some(lookup)));
  }

  /** Rebuilding the first `p` entries as tracks, followed by records for the rest, keeps the ids. */
  lemma RebuiltIds(entries: seq<Entry>, p: nat, recs: seq<TrackRecord>)
    requires p <= |entries| && Ids(recs) == EntryIds(entries[p..])
    ensures EntryIds(Materialise(entries[..p]) + AsTracks(recs)) == EntryIds(entries)
  {
    EntryIdsAppend(Materialise(entries[..p]), AsTracks(recs));
    EntryIdsAppend(entries[..p], entries[p..]);
    assert entries == entries[..p] + entries[p..];
  }

  /** With such a lookup the lookups finish, and the records fetched carry the stubs' ids in order. */
  lemma AnsweredStubs(entries: seq<Entry>, lookup: Lookup)
    requires Answers(lookup, Batches(entries))
    ensures Finished(entries, Some(lookup))
    ensures Ids(Fetched(entries, Some(lookup))) == EntryIds(Stubs(entries))
  {
    var batches := Batches(entries);
    GatherIds(lookup, batches, |batches|);
    assert batches[..|batches|] == batches;
    BatchesPartitionStubs(entries);
  }
}
