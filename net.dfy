/**
  The resource fetcher (`get_resource`, sclib/asyncio.py) as an oracle, and the
  sequential download of a list of URLs that both the stream writer and the
  credential scraper perform.
*/
module Net {
  import opened Wrappers
  import opened Seqs

  newtype byte = b: int | 0 <= b < 256

  type Bytes = seq<byte>

  /** `get_resource`: the body served at a URL, or `None` when the request raises. */
  type Fetch = string -> Option<Bytes>

  /**
    `bytes.decode()`: each byte becomes the character with the same code, which is
    what UTF-8 decoding does on ASCII text.
  */
  function Decode(b: Bytes): string
  {
    seq(|b|, i requires 0 <= i < |b| => (b[i] as int) as char)
  }

  /** Decoding each body and joining the strings is decoding the joined bodies. */
  lemma DecodeAppend(a: Bytes, b: Bytes)
    ensures Decode(a + b) == Decode(a) + Decode(b)
  {
  }

  /** What fetching a list of URLs in order delivered, and whether every fetch succeeded. */
  datatype Transfer = Transfer(bytes: Bytes, complete: bool)

  /**
    Fetches `urls` one after another, concatenating the bodies; the first fetch
    that raises ends the transfer.
  */
  function Download(fetch: Fetch, urls: seq<string>): (t: Transfer)
    ensures t.complete <==> forall i | 0 <= i < |urls| :: fetch(urls[i]).Some?
  {
    if urls == [] then Transfer([], true)
    else
      match fetch(urls[0])
      case None => Transfer([], false)
      case Some(body) =>
        var rest := Download(fetch, urls[1..]);
        assert forall i | 1 <= i < |urls| :: urls[i] == urls[1..][i - 1];
        Transfer(body + rest.bytes, rest.complete)
  }

  /** The bodies of `urls`, in order, when each of them can be fetched. */
  function Bodies(fetch: Fetch, urls: seq<string>): (r: seq<Bytes>)
    requires forall i | 0 <= i < |urls| :: fetch(urls[i]).Some?
  {
    seq(|urls|, i requires 0 <= i < |urls| => fetch(urls[i]).value)
  }

  /** When every URL can be fetched, the transfer is the concatenation of their bodies in list order. */
  lemma {:induction false} DownloadComplete(fetch: Fetch, urls: seq<string>)
    requires forall i | 0 <= i < |urls| :: fetch(urls[i]).Some?
    ensures Download(fetch, urls) == Transfer(Flatten(Bodies(fetch, urls)), true)
  {
    if urls != [] {
      DownloadComplete(fetch, urls[1..]);
      assert Bodies(fetch, urls)[1..] == Bodies(fetch, urls[1..]);
    }
  }

  /**
    When the URL at position `m` is the first that cannot be fetched, the transfer
    is incomplete and holds exactly the bodies of the `m` URLs before it.
  */
  lemma {:induction false} DownloadStopsAtFailure(fetch: Fetch, urls: seq<string>, m: nat)
    requires m < |urls| && fetch(urls[m]).None?
    requires forall i | 0 <= i < m :: fetch(urls[i]).Some?
    ensures Download(fetch, urls) == Transfer(Flatten(Bodies(fetch, urls[..m])), false)
  {
    if m > 0 {
      DownloadStopsAtFailure(fetch, urls[1..], m - 1);
      assert urls[1..][..m - 1] == urls[..m][1..];
      assert Bodies(fetch, urls[..m])[1..] == Bodies(fetch, urls[..m][1..]);
    }
  }

  /** Position of the first URL that cannot be fetched, or `|urls|`. */
  function FirstUnfetchable(fetch: Fetch, urls: seq<string>, i: nat): (k: nat)
    requires i <= |urls|
    ensures i <= k <= |urls|
    ensures forall j | i <= j < k :: fetch(urls[j]).Some?
    ensures k < |urls| ==> fetch(urls[k]).None?
    decreases |urls| - i
  {
    if i == |urls| || fetch(urls[i]).None? then i else FirstUnfetchable(fetch, urls, i + 1)
  }

  /** The first URL that cannot be fetched is the one at `k` when all before it can be. */
  lemma {:induction false} FirstUnfetchableAt(fetch: Fetch, urls: seq<string>, k: nat)
    requires k < |urls| && fetch(urls[k]).None?
    requires forall j | 0 <= j < k :: fetch(urls[j]).Some?
    ensures FirstUnfetchable(fetch, urls, 0) == k
  {
    FirstUnfetchableFrom(fetch, urls, 0, k);
  }

  lemma {:induction false} FirstUnfetchableFrom(fetch: Fetch, urls: seq<string>, i: nat, k: nat)
    requires i <= k < |urls| && fetch(urls[k]).None?
    requires forall j | i <= j < k :: fetch(urls[j]).Some?
    ensures FirstUnfetchable(fetch, urls, i) == k
    decreases k - i
  {
    if i < k {
      FirstUnfetchableFrom(fetch, urls, i + 1, k);
    }
  }
}
