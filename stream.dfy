/**
  `Track.write_mp3_to` and `Track.get_stream_url` (sclib/asyncio.py): the HLS
  playlist behind the stream URL is split into lines, comment lines are dropped,
  and the segment at each remaining URL is fetched and written to the file in
  order; the artwork is fetched last.
*/
module Stream {
  import opened Wrappers
  import opened Seqs
  import opened Errors
  import opened Net
  import Util

  // ---------------------------------------------------------------------------
  // The file object

  function Max(a: int, b: int): int
  {
    if a < b then b else a
  }

  /**
    The contents after writing `b` at position `pos`: the bytes under the write are
    replaced, the ones after it survive, and a gap past the old end reads as zeros.
  */
  function Overwrite(c: Bytes, pos: nat, b: Bytes): (r: Bytes)
    ensures |r| == Max(|c|, pos + |b|)
  {
    seq(Max(|c|, pos + |b|), i requires 0 <= i < Max(|c|, pos + |b|) =>
      if pos <= i < pos + |b| then b[i - pos] else if i < |c| then c[i] else 0)
  }

  /** Two writes in a row, the second where the first ended, are one write of both. */
  lemma OverwriteConsecutive(c: Bytes, pos: nat, a: Bytes, b: Bytes)
    ensures Overwrite(Overwrite(c, pos, a), pos + |a|, b) == Overwrite(c, pos, a + b)
  {
    var lhs := Overwrite(Overwrite(c, pos, a), pos + |a|, b);
    var rhs := Overwrite(c, pos, a + b);
    forall i | 0 <= i < |lhs|
      ensures lhs[i] == rhs[i]
    {
      if pos + |a| <= i < pos + |a| + |b| {
        assert (a + b)[i - pos] == b[i - pos - |a|];
      } else if pos <= i < pos + |a| {
        assert (a + b)[i - pos] == a[i - pos];
      }
    }
  }

  /** Writing from the start over a file no longer than `b` leaves exactly `b`. */
  lemma OverwriteWhole(c: Bytes, b: Bytes)
    requires |c| <= |b|
    ensures Overwrite(c, 0, b) == b
  {
  }

  /** A binary file opened for reading and writing: its contents and its position. */
  class File {
    var content: Bytes
    var pos: nat

    constructor(content: Bytes)
      ensures this.content == content && pos == 0
    {
      this.content := content;
      pos := 0;
    }

    /** `file.seek(p)` */
    method Seek(p: nat)
      modifies this
      ensures content == old(content) && pos == p
    {
      pos := p;
    }

    /** `file.write(b)`: overwrites from the position on and moves past the bytes written. */
    method Write(b: Bytes)
      modifies this
      ensures content == Overwrite(old(content), old(pos), b)
      ensures pos == old(pos) + |b|
    {
      content := Overwrite(content, pos, b);
      pos := pos + |b|;
    }
  }

  // ---------------------------------------------------------------------------
  // The stream URL

  /**
    The decoded response for the track's progressive-stream URL: `None` when
    `get_obj_from` gave `False`, else the JSON object's string members.
  */
  type StreamResponse = Option<map<string, string>>

  /**
    `get_stream_url`: the `url` member of the response; `None` when the response
    is falsy (`False` or an empty object) or has no `url` member.
  */
  function GetStreamUrl(response: StreamResponse): (r: Option<string>)
    ensures r.Some? <==> response.Some? && "url" in response.value
    ensures r.Some? ==> r.value == response.value["url"]
  {
    match response
    case None => None
    case Some(obj) =>
      if obj == map[] then None
      else if "url" in obj then Some(obj["url"])
      else None
  }

  // ---------------------------------------------------------------------------
  // Splitting the HLS playlist

  const LF: byte := 10
  const CR: byte := 13
  const HASH: byte := 35

  predicate IsBreak(b: byte)
  {
    b == LF || b == CR
  }

  /** Position of the first line break at or after `i`, or `|b|` when there is none. */
  function BreakFrom(b: Bytes, i: nat): (k: nat)
    requires i <= |b|
    ensures i <= k <= |b|
    ensures forall j | i <= j < k :: !IsBreak(b[j])
    ensures k < |b| ==> IsBreak(b[k])
    decreases |b| - i
  {
    if i == |b| || IsBreak(b[i]) then i else BreakFrom(b, i + 1)
  }

  /** Length of the line break at `k`: `\r\n` counts as one break of two bytes. */
  function BreakLength(b: Bytes, k: nat): nat
    requires k < |b|
  {
    if b[k] == CR && k + 1 < |b| && b[k + 1] == LF then 2 else 1
  }

  /**
    `bytes.splitlines()`: lines end at `\n`, `\r` or `\r\n`; a final break opens
    no empty line. No line holds a break, and text without a break is one line.
  */
  function SplitLines(b: Bytes): (lines: seq<Bytes>)
    ensures forall i | 0 <= i < |lines| :: NoBreaks(lines[i])
    ensures b != [] && NoBreaks(b) ==> lines == [b]
    decreases |b|
  {
    if b == [] then []
    else
      var k := BreakFrom(b, 0);
      if k == |b| then [b]
      else [b[..k]] + SplitLines(b[k + BreakLength(b, k)..])
  }

  predicate NoBreaks(line: Bytes)
  {
    forall i | 0 <= i < |line| :: !IsBreak(line[i])
  }

  /** The line endings `splitlines` recognises. */
  predicate IsLineEnd(e: Bytes)
  {
    e == [LF] || e == [CR] || e == [CR, LF]
  }

  /**
    The lines, each followed by its ending in `ends`; when there is one ending
    fewer than lines, the last line is left unterminated.
  */
  function Joined(lines: seq<Bytes>, ends: seq<Bytes>): Bytes
    requires |ends| == |lines| || |ends| + 1 == |lines|
  {
    if lines == [] then []
    else if ends == [] then lines[0]
    else lines[0] + ends[0] + Joined(lines[1..], ends[1..])
  }

  /**
    Text that `splitlines` reads back as `lines`: no line holds a break, every
    ending is one `splitlines` recognises, an unterminated last line is not
    empty, and a `\r` ending is not followed by an empty line ended by `\n`
    (the two would read as one `\r\n`).
  */
  predicate WellJoined(lines: seq<Bytes>, ends: seq<Bytes>)
  {
    && (|ends| == |lines| || (|ends| + 1 == |lines| && lines[|lines| - 1] != []))
    && (forall i | 0 <= i < |lines| :: NoBreaks(lines[i]))
    && (forall i | 0 <= i < |ends| :: IsLineEnd(ends[i]))
    && (forall i | 0 <= i < |ends| - 1 :: ends[i] == [CR] && lines[i + 1] == [] ==> ends[i + 1] != [LF])
  }

  lemma WellJoinedTail(lines: seq<Bytes>, ends: seq<Bytes>)
    requires WellJoined(lines, ends) && ends != []
    ensures WellJoined(lines[1..], ends[1..])
  {
    var ls, es := lines[1..], ends[1..];
    forall i | 0 <= i < |ls|
      ensures NoBreaks(ls[i])
    {
      assert ls[i] == lines[i + 1];
    }
    forall i | 0 <= i < |es|
      ensures IsLineEnd(es[i])
    {
      assert es[i] == ends[i + 1];
    }
    forall i | 0 <= i < |es| - 1
      ensures es[i] == [CR] && ls[i + 1] == [] ==> es[i + 1] != [LF]
    {
      assert es[i] == ends[i + 1] && ls[i + 1] == lines[i + 2] && es[i + 1] == ends[i + 2];
    }
  }

  /** Well-joined text does not start with `\n` unless its first line is empty and ended by `\n`. */
  lemma JoinedStart(lines: seq<Bytes>, ends: seq<Bytes>)
    requires WellJoined(lines, ends) && lines != []
    ensures var b := Joined(lines, ends);
            b == [] || b[0] != LF || (lines[0] == [] && ends != [] && ends[0] == [LF])
  {
    var b := Joined(lines, ends);
    if lines[0] != [] {
      assert NoBreaks(lines[0]);
      if ends != [] {
        assert b == lines[0] + ends[0] + Joined(lines[1..], ends[1..]);
      }
      assert b[0] == lines[0][0];
    } else if ends != [] {
      assert b == ends[0] + Joined(lines[1..], ends[1..]);
      assert b[0] == ends[0][0];
    }
  }

  /** A line without breaks followed by a line ending splits off as the first line. */
  lemma SplitLineOff(l: Bytes, e: Bytes, tail: Bytes)
    requires NoBreaks(l) && IsLineEnd(e)
    requires e == [CR] ==> tail == [] || tail[0] != LF
    ensures SplitLines(l + e + tail) == [l] + SplitLines(tail)
  {
    var b := l + e + tail;
    assert b[|l|] == e[0];
    assert BreakFrom(b, 0) == |l| by {
      BreakIsFirst(b, 0, |l|);
    }
    if e == [CR] && |l| + 1 < |b| {
      assert b[|l| + 1] == tail[0];
    }
    if e == [CR, LF] {
      assert b[|l| + 1] == LF;
    }
    assert BreakLength(b, |l|) == |e|;
    assert b[..|l|] == l;
    assert b[|l| + |e|..] == tail;
  }

  /** What one step of `SplitJoinedLines` needs: the first line, its ending, and the rest. */
  lemma JoinedStep(lines: seq<Bytes>, ends: seq<Bytes>)
    requires WellJoined(lines, ends) && ends != []
    ensures var tail := Joined(lines[1..], ends[1..]);
            && Joined(lines, ends) == lines[0] + ends[0] + tail
            && NoBreaks(lines[0]) && IsLineEnd(ends[0])
            && (ends[0] == [CR] ==> tail == [] || tail[0] != LF)
            && WellJoined(lines[1..], ends[1..])
  {
    WellJoinedTail(lines, ends);
    if ends[0] == [CR] && lines[1..] != [] {
      JoinedStart(lines[1..], ends[1..]);
      if lines[1] == [] && ends[1..] != [] {
        assert ends[1..][0] == ends[1];
      }
    }
  }

  /** Splitting well-joined text gives the lines back. */
  lemma {:induction false} SplitJoinedLines(lines: seq<Bytes>, ends: seq<Bytes>)
    requires WellJoined(lines, ends)
    ensures SplitLines(Joined(lines, ends)) == lines
    decreases |lines|
  {
    if lines != [] && ends == [] {
      assert Joined(lines, ends) == lines[0];
      assert lines == [lines[0]];
    } else if lines != [] {
      JoinedStep(lines, ends);
      SplitJoinedLines(lines[1..], ends[1..]);
      SplitLineOff(lines[0], ends[0], Joined(lines[1..], ends[1..]));
      assert lines == [lines[0]] + lines[1..];
    }
  }

  /** With no break before `k` and a break at `k`, the first break from `i` is at `k`. */
  lemma {:induction false} BreakIsFirst(b: Bytes, i: nat, k: nat)
    requires i <= k < |b| && IsBreak(b[k])
    requires forall j | i <= j < k :: !IsBreak(b[j])
    ensures BreakFrom(b, i) == k
    decreases k - i
  {
    if i < k {
      BreakIsFirst(b, i + 1, k);
    }
  }

  /** A line that is not an HLS comment or tag (it does not start with `#`). */
  predicate IsSegmentLine(line: Bytes)
  {
    line == [] || line[0] != HASH
  }

  /** Each line decoded as a URL. */
  function DecodeAll(lines: seq<Bytes>): (urls: seq<string>)
    ensures |urls| == |lines|
  {
    seq(|lines|, i requires 0 <= i < |lines| => Decode(lines[i]))
  }

  lemma DecodeAllAppend(a: seq<Bytes>, b: seq<Bytes>)
    ensures DecodeAll(a + b) == DecodeAll(a) + DecodeAll(b)
  {
  }

  /** The segment URLs of an HLS playlist: its non-comment lines, decoded, in order. */
  function SegmentUrls(body: Bytes): (urls: seq<string>)
    ensures |urls| <= |SplitLines(body)|
    ensures forall i | 0 <= i < |urls| :: urls[i] == [] || urls[i][0] != '#'
    ensures forall line | line in SplitLines(body) && IsSegmentLine(line) :: Decode(line) in urls
  {
    var lines := Filter(SplitLines(body), IsSegmentLine);
    FilterMembers(SplitLines(body), IsSegmentLine);
    assert forall i | 0 <= i < |lines| :: IsSegmentLine(lines[i]) by {
      forall i | 0 <= i < |lines|
        ensures IsSegmentLine(lines[i])
      {
        assert lines[i] in lines;
      }
    }
    var urls := DecodeAll(lines);
    forall line | line in SplitLines(body) && IsSegmentLine(line)
      ensures Decode(line) in urls
    {
      var i :| 0 <= i < |lines| && lines[i] == line;
      assert urls[i] == Decode(line);
    }
    urls
  }

  /**
    For a playlist written as lines with any line endings, the segment URLs are
    the lines that do not start with `#`, in their order.
  */
  lemma SegmentUrlsOfPlaylist(lines: seq<Bytes>, ends: seq<Bytes>)
    requires WellJoined(lines, ends)
    ensures SegmentUrls(Joined(lines, ends)) == DecodeAll(Filter(lines, IsSegmentLine))
    ensures IsSubsequence(Filter(lines, IsSegmentLine), lines)
    ensures forall line :: line in Filter(lines, IsSegmentLine) <==> line in lines && IsSegmentLine(line)
  {
    SplitJoinedLines(lines, ends);
    FilterIsSubsequence(lines, IsSegmentLine);
    FilterMembers(lines, IsSegmentLine);
  }

  // ---------------------------------------------------------------------------
  // write_mp3_to

  /**
    The album artwork passed on to `write_track_id3`: none for a missing or empty
    artwork URL, else the body of its 500x500 version.
  */
  function Artwork(fetch: Fetch, artworkUrl: Option<string>): (r: Result<Option<Bytes>, Error>)
    ensures r == Success(None) <==> artworkUrl.None? || artworkUrl.value == []
    ensures artworkUrl.Some? && artworkUrl.value != [] ==>
              var u := Util.ReplaceLarge(artworkUrl.value);
              && (r.Failure? <==> fetch(u).None?)
              && (r.Failure? ==> r.error == RequestFailed(u))
              && (r.Success? ==> r.value == fetch(u))
  {
    if artworkUrl.None? || artworkUrl.value == [] then Success(None)
    else
      var large := Util.GetLargeArtworkUrl(artworkUrl).value;
      match fetch(large)
      case None => Failure(RequestFailed(large))
      case Some(art) => Success(Some(art))
  }

  /** The file's contents and position after `write_mp3_to`, and its artwork or exception. */
  datatype Mp3Outcome = Mp3Outcome(content: Bytes, pos: nat, result: Result<Option<Bytes>, Error>)

  /**
    What `write_mp3_to` does to a file holding `content`: with no stream URL, or a
    stream that cannot be fetched, the file is only rewound; otherwise the
    segments are written from the start in order until one cannot be fetched,
    which leaves the position after the last byte written; when all are written
    the file is rewound and the artwork is fetched.
  */
  function Mp3Write(fetch: Fetch, response: StreamResponse, artworkUrl: Option<string>, content: Bytes): (o: Mp3Outcome)
    ensures |content| <= |o.content| && o.pos <= |o.content|
    ensures o.result.Success? ==> o.pos == 0
    ensures GetStreamUrl(response).None? ==> o == Mp3Outcome(content, 0, Failure(NoStreamUrl))
    ensures GetStreamUrl(response).Some? && fetch(GetStreamUrl(response).value).None? ==>
              o == Mp3Outcome(content, 0, Failure(RequestFailed(GetStreamUrl(response).value)))
  {
    match GetStreamUrl(response)
    case None => Mp3Outcome(content, 0, Failure(NoStreamUrl))
    case Some(url) =>
      match fetch(url)
      case None => Mp3Outcome(content, 0, Failure(RequestFailed(url)))
      case Some(body) =>
        var segments := SegmentUrls(body);
        var t := Download(fetch, segments);
        var written := Overwrite(content, 0, t.bytes);
        if t.complete then Mp3Outcome(written, 0, Artwork(fetch, artworkUrl))
        else
          var k := FirstUnfetchable(fetch, segments, 0);
          Mp3Outcome(written, |t.bytes|, Failure(RequestFailed(segments[k])))
  }

  /**
    `Track.write_mp3_to`, given the track's stream response and artwork URL;
    `result` is the artwork for the ID3 tags, or the exception that ended the call.
  */
  method WriteMp3To(file: File, fetch: Fetch, response: StreamResponse, artworkUrl: Option<string>)
    returns (result: Result<Option<Bytes>, Error>)
    modifies file
    ensures var o := Mp3Write(fetch, response, artworkUrl, old(file.content));
            file.content == o.content && file.pos == o.pos && result == o.result
  {
    file.Seek(0);
    var streamUrl := GetStreamUrl(response);
    if streamUrl.None? {
      return Failure(NoStreamUrl);
    }
    var trackBytes := fetch(streamUrl.value);
    if trackBytes.None? {
      return Failure(RequestFailed(streamUrl.value));
    }
    var chunks := SegmentChunks(trackBytes.value);
    var failed := WriteSegments(file, fetch, chunks);
    if failed.Some? {
      return Failure(RequestFailed(chunks[failed.value]));
    }
    file.Seek(0);
    result := Artwork(fetch, artworkUrl);
  }

  /**
    The second loop of `write_mp3_to`: each segment is fetched and its body written,
    until one cannot be fetched; `failed` is the position of that segment.
  */
  method WriteSegments(file: File, fetch: Fetch, chunks: seq<string>) returns (failed: Option<nat>)
    requires file.pos == 0
    modifies file
    ensures var t := Download(fetch, chunks);
            file.content == Overwrite(old(file.content), 0, t.bytes) && file.pos == |t.bytes|
            && (failed.None? <==> t.complete)
    ensures failed.Some? ==> failed.value < |chunks| && failed.value == FirstUnfetchable(fetch, chunks, 0)
  {
    ghost var content := file.content;
    for i := 0 to |chunks|
      invariant forall j | 0 <= j < i :: fetch(chunks[j]).Some?
      invariant file.content == Overwrite(content, 0, Flatten(Bodies(fetch, chunks[..i])))
      invariant file.pos == |Flatten(Bodies(fetch, chunks[..i]))|
    {
      var bytes := fetch(chunks[i]);
      if bytes.None? {
        DownloadStopsAtFailure(fetch, chunks, i);
        FirstUnfetchableAt(fetch, chunks, i);
        return Some(i);
      }
      BodiesSnoc(fetch, chunks, i);
      OverwriteConsecutive(content, 0, Flatten(Bodies(fetch, chunks[..i])), bytes.value);
      file.Write(bytes.value);
    }
    assert chunks[..|chunks|] == chunks;
    DownloadComplete(fetch, chunks);
    failed := None;
  }

  /** The first loop of `write_mp3_to`: the playlist's lines that are not comments, decoded. */
  method SegmentChunks(trackBytes: Bytes) returns (chunks: seq<string>)
    ensures chunks == SegmentUrls(trackBytes)
  {
    var lines := SplitLines(trackBytes);
    chunks := [];
    for i := 0 to |lines|
      invariant chunks == DecodeAll(Filter(lines[..i], IsSegmentLine))
    {
      var line := lines[i];
      SegmentUrlsStep(lines, i);
      if !(|line| > 0 && line[0] == HASH) {
        chunks := chunks + [Decode(line)];
      }
    }
    assert lines[..|lines|] == lines;
  }

  /** Taking one more line adds its URL exactly when it is a segment line. */
  lemma SegmentUrlsStep(lines: seq<Bytes>, i: nat)
    requires i < |lines|
    ensures DecodeAll(Filter(lines[..i + 1], IsSegmentLine))
         == DecodeAll(Filter(lines[..i], IsSegmentLine)) + (if IsSegmentLine(lines[i]) then [Decode(lines[i])] else [])
  {
    var line := lines[i];
    assert lines[..i + 1] == lines[..i] + [line];
    FilterAppend(lines[..i], [line], IsSegmentLine);
    assert Filter([line], IsSegmentLine) == (if IsSegmentLine(line) then [line] else []) + Filter([], IsSegmentLine);
    DecodeAllAppend(Filter(lines[..i], IsSegmentLine), Filter([line], IsSegmentLine));
  }

  /** The bodies of one more URL are the bodies so far followed by its body. */
  lemma BodiesSnoc(fetch: Fetch, urls: seq<string>, i: nat)
    requires i < |urls| && forall j | 0 <= j <= i :: fetch(urls[j]).Some?
    ensures Flatten(Bodies(fetch, urls[..i + 1])) == Flatten(Bodies(fetch, urls[..i])) + fetch(urls[i]).value
  {
    assert Bodies(fetch, urls[..i + 1]) == Bodies(fetch, urls[..i]) + [fetch(urls[i]).value];
    FlattenAppend(Bodies(fetch, urls[..i]), [fetch(urls[i]).value]);
    assert Flatten([fetch(urls[i]).value]) == fetch(urls[i]).value + Flatten([]);
  }

  // ---------------------------------------------------------------------------
  // Properties of write_mp3_to

  /**
    When the stream and every segment can be fetched, the segments' bodies are
    written over the file from the start in playlist order, and the file is
    rewound. Nothing truncates it, so a longer file keeps its old tail.
  */
  lemma Mp3WriteAllSegments(fetch: Fetch, response: StreamResponse, artworkUrl: Option<string>, content: Bytes)
    requires GetStreamUrl(response).Some? && fetch(GetStreamUrl(response).value).Some?
    requires var segments := SegmentUrls(fetch(GetStreamUrl(response).value).value);
             forall i | 0 <= i < |segments| :: fetch(segments[i]).Some?
    ensures var segments := SegmentUrls(fetch(GetStreamUrl(response).value).value);
            var o := Mp3Write(fetch, response, artworkUrl, content);
            o.content == Overwrite(content, 0, Flatten(Bodies(fetch, segments))) && o.pos == 0
            && o.result == Artwork(fetch, artworkUrl)
  {
    DownloadComplete(fetch, SegmentUrls(fetch(GetStreamUrl(response).value).value));
  }

  /**
    In particular, a file no longer than the segments ends up holding exactly
    their bodies.
  */
  lemma Mp3WriteComplete(fetch: Fetch, response: StreamResponse, artworkUrl: Option<string>, content: Bytes)
    requires GetStreamUrl(response).Some? && fetch(GetStreamUrl(response).value).Some?
    requires var segments := SegmentUrls(fetch(GetStreamUrl(response).value).value);
             && (forall i | 0 <= i < |segments| :: fetch(segments[i]).Some?)
             && |content| <= |Flatten(Bodies(fetch, segments))|
    ensures var segments := SegmentUrls(fetch(GetStreamUrl(response).value).value);
            var o := Mp3Write(fetch, response, artworkUrl, content);
            o.content == Flatten(Bodies(fetch, segments)) && o.pos == 0 && o.result == Artwork(fetch, artworkUrl)
  {
    var segments := SegmentUrls(fetch(GetStreamUrl(response).value).value);
    Mp3WriteAllSegments(fetch, response, artworkUrl, content);
    OverwriteWhole(content, Flatten(Bodies(fetch, segments)));
  }

  /**
    When segment `m` is the first that cannot be fetched, the bodies of the
    segments before it are written from the start, the position is left after
    them, and the failed request is raised.
  */
  lemma Mp3WriteStopsAtSegment(fetch: Fetch, response: StreamResponse, artworkUrl: Option<string>, content: Bytes, m: nat)
    requires GetStreamUrl(response).Some? && fetch(GetStreamUrl(response).value).Some?
    requires var segments := SegmentUrls(fetch(GetStreamUrl(response).value).value);
             && m < |segments| && fetch(segments[m]).None?
             && (forall i | 0 <= i < m :: fetch(segments[i]).Some?)
    ensures var segments := SegmentUrls(fetch(GetStreamUrl(response).value).value);
            var written := Flatten(Bodies(fetch, segments[..m]));
            var o := Mp3Write(fetch, response, artworkUrl, content);
            o.content == Overwrite(content, 0, written) && o.pos == |written|
            && o.result == Failure(RequestFailed(segments[m]))
  {
    var segments := SegmentUrls(fetch(GetStreamUrl(response).value).value);
    DownloadStopsAtFailure(fetch, segments, m);
    FirstUnfetchableAt(fetch, segments, m);
  }
}
