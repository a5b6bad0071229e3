/**
  The reassembly step of `SoundcloudAPI.get_tracks` (sclib/asyncio.py): the
  responses of the batch requests are flattened and stably sorted by the
  position at which each record's id was requested.
*/
module Tracks {
  import opened Wrappers
  import opened Seqs
  import opened Errors

  type TrackId = int

  /** A track object as the API returns it; `title` is present only on complete objects. */
  datatype TrackRecord = TrackRecord(id: TrackId, title: Option<string>, artworkUrl: Option<string>)

  /** One decoded batch response: a list of track objects, or `None` for `get_obj_from`'s `False`. */
  type Response = Option<seq<TrackRecord>>

  function Ids(recs: seq<TrackRecord>): seq<TrackId>
  {
    seq(|recs|, i requires 0 <= i < |recs| => recs[i].id)
  }

  /** `list(itertools.chain.from_iterable(response))`; a `False` response cannot be iterated. */
  function Chain(responses: seq<Response>): (r: Result<seq<TrackRecord>, Error>)
    ensures r.Success? <==> forall i | 0 <= i < |responses| :: responses[i].Some?
    ensures r.Failure? ==> r.error == NotIterable
    ensures (forall i | 0 <= i < |responses| :: responses[i].Some?) ==>
              r == Success(Flatten(seq(|responses|, i requires 0 <= i < |responses| => responses[i].value)))
  {
    if responses == [] then Success([])
    else
      assert forall i | 1 <= i < |responses| :: responses[i] == responses[1..][i - 1];
      match responses[0]
      case None => Failure(NotIterable)
      case Some(head) =>
        match Chain(responses[1..])
        case Failure(e) => Failure(e)
        case Success(tail) =>
          ChainStep(responses);
          Success(head + tail)
  }

  /** The lists of the responses split as the first one and the lists of the rest. */
  lemma ChainStep(responses: seq<Response>)
    requires responses != [] && forall i | 0 <= i < |responses| :: responses[i].Some?
    ensures var lists := seq(|responses|, i requires 0 <= i < |responses| => responses[i].value);
            var rest := responses[1..];
            lists == [responses[0].value] + seq(|rest|, i requires 0 <= i < |rest| => rest[i].value)
  {
  }

  /** The sort key: the position of the first request for the record's id. */
  function Key(ids: seq<TrackId>, r: TrackRecord): nat
  {
    IndexOf(ids, r.id)
  }

  /** The sort key as a function value, the `key=` argument of `sorted`. */
  function KeyOf(ids: seq<TrackId>): TrackRecord -> int
  {
    r => Key(ids, r)
  }

  /** The records whose key is `k`, in their original order. */
  function Bucket(recs: seq<TrackRecord>, key: TrackRecord -> int, k: nat): seq<TrackRecord>
  {
    if recs == [] then []
    else (if key(recs[0]) == k then [recs[0]] else []) + Bucket(recs[1..], key, k)
  }

  /** The buckets for keys `0 .. m - 1`, one after the other. */
  function Buckets(recs: seq<TrackRecord>, key: TrackRecord -> int, m: nat): seq<TrackRecord>
  {
    if m == 0 then [] else Buckets(recs, key, m - 1) + Bucket(recs, key, m - 1)
  }

  /**
    `sorted(recs, key=lambda x: ids.index(x['id']))` for records whose ids were all
    requested: Python's sort is stable, so records with equal keys keep their order.
  */
  function SortByRequest(recs: seq<TrackRecord>, ids: seq<TrackId>): (out: seq<TrackRecord>)
    ensures SortedBy(out, KeyOf(ids))
  {
    BucketsSorted(recs, KeyOf(ids), |ids|);
    Buckets(recs, KeyOf(ids), |ids|)
  }

  /** The first record whose id was never requested, if any: computing its key raises. */
  function Unrequested(recs: seq<TrackRecord>, ids: seq<TrackId>): (r: Option<TrackId>)
    ensures r.None? <==> forall i | 0 <= i < |recs| :: recs[i].id in ids
    ensures r.Some? ==> r.value !in ids
    ensures r.Some? ==> exists i | 0 <= i < |recs| :: recs[i].id == r.value && forall j | 0 <= j < i :: recs[j].id in ids
  {
    if recs == [] then None
    else if recs[0].id !in ids then Some(recs[0].id)
    else
      assert forall i | 1 <= i < |recs| :: recs[i] == recs[1..][i - 1];
      var r := Unrequested(recs[1..], ids);
      if r.Some? then
        var i :| 0 <= i < |recs| - 1 && recs[1..][i].id == r.value && forall j | 0 <= j < i :: recs[1..][j].id in ids;
        assert recs[i + 1].id == r.value && forall j | 0 <= j < i + 1 :: recs[j].id in ids;
        r
      else r
  }

  /** `get_tracks` once its batch responses have arrived (in request order, as `gather` returns them). */
  function Reassemble(responses: seq<Response>, ids: seq<TrackId>): (r: Result<seq<TrackRecord>, Error>)
    ensures r.Success? <==> Chain(responses).Success? && Unrequested(Chain(responses).value, ids).None?
    ensures r.Failure? ==>
              r.error == if Chain(responses).Failure? then NotIterable
                         else IdNotRequested(Unrequested(Chain(responses).value, ids).value)
  {
    match Chain(responses)
    case Failure(e) => Failure(e)
    case Success(recs) =>
      match Unrequested(recs, ids)
      case Some(id) => Failure(IdNotRequested(id))
      case None => Success(SortByRequest(recs, ids))
  }

  /** Ordered by `key`; with `KeyOf(ids)`, by the position at which each id was requested. */
  predicate SortedBy(out: seq<TrackRecord>, key: TrackRecord -> int)
  {
    forall i, j | 0 <= i < j < |out| :: key(out[i]) <= key(out[j])
  }

  // ---------------------------------------------------------------------------
  // Properties of the bucket sort, for any key

  lemma {:induction false} BucketKeys(recs: seq<TrackRecord>, key: TrackRecord -> int, k: nat)
    ensures forall i | 0 <= i < |Bucket(recs, key, k)| :: key(Bucket(recs, key, k)[i]) == k
  {
    if recs != [] {
      BucketKeys(recs[1..], key, k);
    }
  }

  lemma {:induction false} BucketAppend(a: seq<TrackRecord>, b: seq<TrackRecord>, key: TrackRecord -> int, k: nat)
    ensures Bucket(a + b, key, k) == Bucket(a, key, k) + Bucket(b, key, k)
  {
    if a == [] {
      assert a + b == b;
    } else {
      var head := if key(a[0]) == k then [a[0]] else [];
      assert (a + b)[0] == a[0] && (a + b)[1..] == a[1..] + b;
      assert Bucket(a + b, key, k) == head + Bucket(a[1..] + b, key, k);
      assert Bucket(a, key, k) == head + Bucket(a[1..], key, k);
      BucketAppend(a[1..], b, key, k);
    }
  }

  lemma {:induction false} BucketsSorted(recs: seq<TrackRecord>, key: TrackRecord -> int, m: nat)
    ensures forall i | 0 <= i < |Buckets(recs, key, m)| :: key(Buckets(recs, key, m)[i]) < m
    ensures SortedBy(Buckets(recs, key, m), key)
  {
    if m > 0 {
      BucketsSorted(recs, key, m - 1);
      BucketKeys(recs, key, m - 1);
    }
  }

  /** Bucket `k` holds every copy of each record whose key is `k`, and nothing else. */
  lemma {:induction false} BucketCount(recs: seq<TrackRecord>, key: TrackRecord -> int, k: nat, x: TrackRecord)
    ensures Count(Bucket(recs, key, k), x) == if key(x) == k then Count(recs, x) else 0
  {
    if recs != [] {
      BucketCount(recs[1..], key, k, x);
      CountAppend(if key(recs[0]) == k then [recs[0]] else [], Bucket(recs[1..], key, k), x);
    }
  }

  /** The buckets below `m` hold every copy of each record whose key is below `m`. */
  lemma {:induction false} BucketsCount(recs: seq<TrackRecord>, key: TrackRecord -> int, m: nat, x: TrackRecord)
    ensures Count(Buckets(recs, key, m), x) == if 0 <= key(x) < m then Count(recs, x) else 0
  {
    if m > 0 {
      BucketsCount(recs, key, m - 1, x);
      BucketCount(recs, key, m - 1, x);
      CountAppend(Buckets(recs, key, m - 1), Bucket(recs, key, m - 1), x);
    }
  }

  /** Cutting into the buckets below `m` keeps every record whose key is below `m`. */
  lemma BucketsArePermutation(recs: seq<TrackRecord>, key: TrackRecord -> int, m: nat)
    requires forall i | 0 <= i < |recs| :: 0 <= key(recs[i]) < m
    ensures multiset(Buckets(recs, key, m)) == multiset(recs)
  {
    forall x
      ensures multiset(Buckets(recs, key, m))[x] == multiset(recs)[x]
    {
      BucketsCount(recs, key, m, x);
      CountIsMultiplicity(recs, x);
      CountIsMultiplicity(Buckets(recs, key, m), x);
      if x in recs {
        var i :| 0 <= i < |recs| && recs[i] == x;
      }
    }
  }

  /** A key that no record has gives an empty bucket. */
  lemma {:induction false} BucketOfMissingKey(recs: seq<TrackRecord>, key: TrackRecord -> int, k: nat)
    requires forall i | 0 <= i < |recs| :: key(recs[i]) != k
    ensures Bucket(recs, key, k) == []
  {
    if recs != [] {
      assert forall i | 0 <= i < |recs| - 1 :: recs[1..][i] == recs[i + 1];
      BucketOfMissingKey(recs[1..], key, k);
    }
  }

  lemma {:induction false} BucketOfBucket(recs: seq<TrackRecord>, key: TrackRecord -> int, k: nat, k': nat)
    ensures Bucket(Bucket(recs, key, k'), key, k) == if k == k' then Bucket(recs, key, k) else []
  {
    if recs != [] {
      BucketOfBucket(recs[1..], key, k, k');
      var b := Bucket(recs, key, k');
      if key(recs[0]) == k' {
        assert b == [recs[0]] + Bucket(recs[1..], key, k');
        assert b[0] == recs[0] && b[1..] == Bucket(recs[1..], key, k');
        assert Bucket(b, key, k) == (if k == k' then [recs[0]] else []) + Bucket(b[1..], key, k);
      } else {
        assert b == [] + Bucket(recs[1..], key, k');
        assert b == Bucket(recs[1..], key, k');
      }
    }
  }

  lemma {:induction false} BucketsStable(recs: seq<TrackRecord>, key: TrackRecord -> int, m: nat, k: nat)
    ensures Bucket(Buckets(recs, key, m), key, k) == if k < m then Bucket(recs, key, k) else []
  {
    if m > 0 {
      var before := Buckets(recs, key, m - 1);
      var last := Bucket(recs, key, m - 1);
      var want := Bucket(recs, key, k);
      assert Bucket(Buckets(recs, key, m), key, k) == Bucket(before, key, k) + Bucket(last, key, k) by {
        assert Buckets(recs, key, m) == before + last;
        BucketAppend(before, last, key, k);
      }
      assert Bucket(before, key, k) == if k < m - 1 then want else [] by {
        BucketsStable(recs, key, m - 1, k);
      }
      assert Bucket(last, key, k) == if k == m - 1 then want else [] by {
        BucketOfBucket(recs, key, k, m - 1);
      }
    } else {
      assert Buckets(recs, key, m) == [];
    }
  }

  /**
    The output of `get_tracks` is a stable sort of the flattened responses: sorted by
    requested position, a permutation of the responses, and records that share a
    position keep the order in which the responses listed them.
  */
  lemma ReassembleIsStableSort(responses: seq<Response>, ids: seq<TrackId>)
    requires Reassemble(responses, ids).Success?
    ensures var out := Reassemble(responses, ids).value;
            var recs := Chain(responses).value;
            && SortedBy(out, KeyOf(ids))
            && multiset(out) == multiset(recs)
            && forall k: nat :: Bucket(out, KeyOf(ids), k) == Bucket(recs, KeyOf(ids), k)
  {
    var recs := Chain(responses).value;
    var key := KeyOf(ids);
    var out := SortByRequest(recs, ids);
    assert forall i | 0 <= i < |recs| :: 0 <= key(recs[i]) < |ids|;
    BucketsArePermutation(recs, key, |ids|);
    forall k: nat
      ensures Bucket(out, key, k) == Bucket(recs, key, k)
    {
      BucketsStable(recs, key, |ids|, k);
      if k >= |ids| {
        BucketOfMissingKey(recs, key, k);
      }
    }
  }

  // ---------------------------------------------------------------------------
  // Responses that answer every request exactly once come back in request order

  /** With distinct ids, bucket `k` holds the records whose id is `ids[k]`, one per copy. */
  lemma {:induction false} BucketHoldsTheId(recs: seq<TrackRecord>, ids: seq<TrackId>, k: nat)
    requires NoDuplicates(ids) && k < |ids|
    ensures |Bucket(recs, KeyOf(ids), k)| == Count(Ids(recs), ids[k])
    ensures forall i | 0 <= i < |Bucket(recs, KeyOf(ids), k)| :: Bucket(recs, KeyOf(ids), k)[i].id == ids[k]
  {
    if recs != [] {
      var r := recs[0];
      assert KeyOf(ids)(r) == k <==> r.id == ids[k] by {
        IndexOfDistinct(ids, k);
      }
      BucketHoldsTheId(recs[1..], ids, k);
      assert Ids(recs)[0] == r.id && Ids(recs)[1..] == Ids(recs[1..]);
    }
  }

  lemma IdsAppend(a: seq<TrackRecord>, b: seq<TrackRecord>)
    ensures Ids(a + b) == Ids(a) + Ids(b)
  {
  }

  lemma BucketsInRequestOrder(recs: seq<TrackRecord>, ids: seq<TrackId>, m: nat)
    requires NoDuplicates(ids) && m <= |ids|
    requires multiset(Ids(recs)) == multiset(ids)
    ensures Ids(Buckets(recs, KeyOf(ids), m)) == ids[..m]
  {
    forall k | 0 <= k < m
      ensures Ids(Bucket(recs, KeyOf(ids), k)) == [ids[k]]
    {
      BucketIsTheId(recs, ids, k);
    }
    BucketsSpellIds(recs, KeyOf(ids), ids, m);
  }

  /** When bucket `k` is a single record with id `ids[k]`, the buckets below `m` spell out `ids[..m]`. */
  lemma {:induction false} BucketsSpellIds(recs: seq<TrackRecord>, key: TrackRecord -> int, ids: seq<TrackId>, m: nat)
    requires m <= |ids|
    requires forall k | 0 <= k < m :: Ids(Bucket(recs, key, k)) == [ids[k]]
    ensures Ids(Buckets(recs, key, m)) == ids[..m]
  {
    if m == 0 {
      assert Buckets(recs, key, m) == [];
    } else {
      var before := Buckets(recs, key, m - 1);
      var b := Bucket(recs, key, m - 1);
      BucketsSpellIds(recs, key, ids, m - 1);
      IdsAppend(before, b);
      assert Buckets(recs, key, m) == before + b;
      PrefixSnoc(Ids(before), Ids(b), ids, m);
    }
  }

  lemma PrefixSnoc<T>(x: seq<T>, y: seq<T>, s: seq<T>, m: nat)
    requires 0 < m <= |s| && x == s[..m - 1] && y == [s[m - 1]]
    ensures x + y == s[..m]
  {
  }

  /** With one record per requested id, bucket `k` is that one record. */
  lemma BucketIsTheId(recs: seq<TrackRecord>, ids: seq<TrackId>, k: nat)
    requires NoDuplicates(ids) && k < |ids|
    requires multiset(Ids(recs)) == multiset(ids)
    ensures Ids(Bucket(recs, KeyOf(ids), k)) == [ids[k]]
  {
    var b := Bucket(recs, KeyOf(ids), k);
    BucketHoldsTheId(recs, ids, k);
    CountIsMultiplicity(Ids(recs), ids[k]);
    DistinctCount(ids, k);
    assert |b| == 1 && b[0].id == ids[k];
  }

  /** A list without duplicates holds each of its elements once. */
  lemma DistinctCount(ids: seq<TrackId>, k: nat)
    requires NoDuplicates(ids) && k < |ids|
    ensures multiset(ids)[ids[k]] == 1
  {
    var x := ids[k];
    assert ids == ids[..k] + [x] + ids[k + 1..];
    assert x !in ids[..k];
    assert x !in ids[k + 1..];
  }

  /**
    When the ids are distinct and the responses together hold exactly one record
    per requested id, the reassembled ids are the requested ids in request order,
    whatever order the responses used.
  */
  lemma ReassembleInRequestOrder(responses: seq<Response>, ids: seq<TrackId>)
    requires NoDuplicates(ids)
    requires Chain(responses).Success? && multiset(Ids(Chain(responses).value)) == multiset(ids)
    ensures Reassemble(responses, ids).Success?
    ensures Ids(Reassemble(responses, ids).value) == ids
  {
    var recs := Chain(responses).value;
    forall i | 0 <= i < |recs|
      ensures recs[i].id in ids
    {
      assert Ids(recs)[i] in multiset(Ids(recs));
    }
    BucketsInRequestOrder(recs, ids, |ids|);
  }
}
