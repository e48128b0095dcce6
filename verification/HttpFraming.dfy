/** Reading the headers of a request from a stream (readHeaders in uvco/examples/http_server.cc). */
module HttpFraming {
  import opened Wrappers
  import opened Text

  const MAX_HEADER_SIZE: nat := 8192
  const BUFFER_SIZE: nat := 4096
  const TERMINATOR: string := "\r\n\r\n"

  function Flat(chunks: seq<string>): string {
    if chunks == [] then [] else chunks[0] + Flat(chunks[1..])
  }

  /** Results of read(): never more than the buffer holds. Nothing means that the peer has closed. */
  predicate Reads(chunks: seq<string>) {
    forall k :: 0 <= k < |chunks| ==> |chunks[k]| <= BUFFER_SIZE
  }

  /** What readHeaders returns when `buffer` has been read before. */
  function Framed(buffer: string, chunks: seq<string>): Option<string>
    decreases |chunks|
  {
    if |buffer| > MAX_HEADER_SIZE || chunks == [] || chunks[0] == [] then None
    else
      var longer := buffer + chunks[0];
      match Find(longer, TERMINATOR, 0)
      case Some(i) => Some(longer[..i + 4])
      case None => Framed(longer, chunks[1..])
  }

  /** How often readHeaders calls read() with success. */
  function Consumed(buffer: string, chunks: seq<string>): (n: nat)
    ensures n <= |chunks|
    decreases |chunks|
  {
    if |buffer| > MAX_HEADER_SIZE || chunks == [] || chunks[0] == [] then 0
    else if Find(buffer + chunks[0], TERMINATOR, 0).Some? then 1
    else 1 + Consumed(buffer + chunks[0], chunks[1..])
  }

  /** `chunks` is what the calls of read() return, until the stream ends. */
  method ReadHeaders(chunks: seq<string>) returns (headers: Option<string>, calls: nat)
    requires Reads(chunks)
    ensures headers == Framed([], chunks) && calls == Consumed([], chunks)
    ensures headers.Some? ==> |headers.value| <= MAX_HEADER_SIZE + BUFFER_SIZE
    ensures calls <= MAX_HEADER_SIZE + 1
  {
    var requestBuffer: string := [];
    var headersEndPos: Option<nat> := None;
    calls := 0;
    while headersEndPos == None
      invariant calls <= |chunks| && calls <= |requestBuffer| && (calls == 0 || calls <= MAX_HEADER_SIZE + 1)
      invariant |requestBuffer| <= MAX_HEADER_SIZE + BUFFER_SIZE
      invariant headersEndPos.Some? ==>
                  && headersEndPos.value + 4 <= |requestBuffer|
                  && Framed([], chunks) == Some(requestBuffer[..headersEndPos.value + 4])
                  && Consumed([], chunks) == calls
      invariant headersEndPos.None? ==>
                  && Framed([], chunks) == Framed(requestBuffer, chunks[calls..])
                  && Consumed([], chunks) == calls + Consumed(requestBuffer, chunks[calls..])
      decreases |chunks| - calls, headersEndPos.None?
    {
      if |requestBuffer| > MAX_HEADER_SIZE {
        return None, calls;
      }
      var bytes := if calls < |chunks| then chunks[calls] else [];
      if |bytes| == 0 {
        return None, calls;
      }
      requestBuffer := requestBuffer + bytes;
      headersEndPos := Find(requestBuffer, TERMINATOR, 0);
      calls := calls + 1;
    }
    return Some(requestBuffer[..headersEndPos.value + 4]), calls;
  }

  // ---- which chunkings make a difference ----------------------------------------------------------

  /** A way in which the bytes `s` can arrive. */
  predicate Chunking(chunks: seq<string>, s: string) {
    && Flat(chunks) == s
    && forall k :: 0 <= k < |chunks| ==> 1 <= |chunks[k]| <= BUFFER_SIZE
  }

  /** How much has been read when the limit is noticed, or the stream ends. */
  function Noticed(read: nat, chunks: seq<string>): nat
    decreases |chunks|
  {
    if read > MAX_HEADER_SIZE || chunks == [] then read else Noticed(read + |chunks[0]|, chunks[1..])
  }

  lemma {:induction false} NoticedBounds(read: nat, chunks: seq<string>)
    requires forall k :: 0 <= k < |chunks| ==> 1 <= |chunks[k]| <= BUFFER_SIZE
    requires read <= MAX_HEADER_SIZE + BUFFER_SIZE
    ensures read <= Noticed(read, chunks) <= MAX_HEADER_SIZE + BUFFER_SIZE
    ensures Noticed(read, chunks) <= read + |Flat(chunks)|
    ensures Noticed(read, chunks) > MAX_HEADER_SIZE || Noticed(read, chunks) == read + |Flat(chunks)|
    decreases |chunks|
  {
    if read <= MAX_HEADER_SIZE && chunks != [] {
      NoticedBounds(read + |chunks[0]|, chunks[1..]);
    }
  }

  /** What is to be returned of the stream `s` when the limit is noticed after `n` bytes. */
  function Due(s: string, n: nat): Option<string> {
    match Find(s, TERMINATOR, 0)
    case Some(i) => if i + 4 <= n then Some(s[..i + 4]) else None
    case None => None
  }

  lemma FoundNow(longer: string, more: string, s: string, n: nat)
    requires s == longer + more && Find(longer, TERMINATOR, 0).Some? && |longer| <= n
    ensures Due(s, n) == Some(longer[..Find(longer, TERMINATOR, 0).value + 4])
  {
    FindInPrefix(longer, more, TERMINATOR);
    var i := Find(longer, TERMINATOR, 0).value;
    assert longer[..i + 4] == s[..i + 4];
  }

  lemma NotFoundYet(buffer: string, more: string, s: string)
    requires s == buffer + more && Find(buffer, TERMINATOR, 0) == None
    ensures Due(s, |buffer|) == None
  {
    FindInPrefix(buffer, more, TERMINATOR);
  }

  /** The headers are found if and only if they end before the limit is noticed. */
  lemma {:induction false} FramedIs(buffer: string, chunks: seq<string>, s: string)
    requires forall k :: 0 <= k < |chunks| ==> 1 <= |chunks[k]| <= BUFFER_SIZE
    requires |buffer| <= MAX_HEADER_SIZE + BUFFER_SIZE && Find(buffer, TERMINATOR, 0) == None
    requires s == buffer + Flat(chunks)
    ensures Framed(buffer, chunks) == Due(s, Noticed(|buffer|, chunks))
    decreases |chunks|
  {
    if chunks == [] || |buffer| > MAX_HEADER_SIZE {
      NotFoundYet(buffer, Flat(chunks), s);
    } else {
      var longer, rest := buffer + chunks[0], chunks[1..];
      Regroup(buffer, chunks[0], Flat(rest));
      if Find(longer, TERMINATOR, 0).Some? {
        NoticedBounds(|longer|, rest);
        FoundNow(longer, Flat(rest), s, Noticed(|longer|, rest));
      } else {
        FramedIs(longer, rest, s);
      }
    }
  }

  /** Headers are returned if and only if they end before the limit is noticed. */
  lemma FramedExactly(chunks: seq<string>, s: string)
    requires Chunking(chunks, s)
    ensures Framed([], chunks) == Due(s, Noticed(0, chunks))
  {
    FramedIs([], chunks, s);
  }

  /** Headers that end within the first 8193 bytes are returned however the bytes arrive ... */
  lemma ShortHeadersAreFound(chunks: seq<string>, s: string)
    requires Chunking(chunks, s)
    requires Find(s, TERMINATOR, 0).Some? && Find(s, TERMINATOR, 0).value + 4 <= MAX_HEADER_SIZE + 1
    ensures Framed([], chunks) == Some(s[..Find(s, TERMINATOR, 0).value + 4])
  {
    FramedExactly(chunks, s);
    NoticedBounds(0, chunks);
  }

  /** ... and those that end after byte 12288, or never, are refused however they arrive. */
  lemma LongHeadersAreRefused(chunks: seq<string>, s: string)
    requires Chunking(chunks, s)
    requires Find(s, TERMINATOR, 0).Some? ==> Find(s, TERMINATOR, 0).value + 4 > MAX_HEADER_SIZE + BUFFER_SIZE
    ensures Framed([], chunks) == None
  {
    FramedExactly(chunks, s);
    NoticedBounds(0, chunks);
  }

  /** The chunking of a peer that fills the buffer whenever it can. */
  function Full(s: string): (chunks: seq<string>)
    ensures Chunking(chunks, s)
  {
    if s == [] then []
    else
      var n := if |s| < BUFFER_SIZE then |s| else BUFFER_SIZE;
      [s[..n]] + Full(s[n..])
  }

  /** The chunking of a peer that pauses after 8193 bytes. */
  function Paused(s: string): seq<string>
    requires |s| > MAX_HEADER_SIZE
  {
    [s[..4096]] + ([s[4096..8192]] + ([s[8192..8193]] + Full(s[8193..])))
  }

  lemma OneMore(c: string, rest: seq<string>, s: string, read: nat)
    requires Chunking(rest, s) && 1 <= |c| <= BUFFER_SIZE
    ensures Chunking([c] + rest, c + s)
    ensures read <= MAX_HEADER_SIZE ==> Noticed(read, [c] + rest) == Noticed(read + |c|, rest)
  {
    assert ([c] + rest)[1..] == rest;
  }

  lemma PausedNotices(s: string)
    requires |s| > MAX_HEADER_SIZE
    ensures Chunking(Paused(s), s) && Noticed(0, Paused(s)) == MAX_HEADER_SIZE + 1
  {
    var a, b, c, rest := s[..4096], s[4096..8192], s[8192..8193], s[8193..];
    OneMore(c, Full(rest), rest, 8192);
    OneMore(b, [c] + Full(rest), c + rest, 4096);
    OneMore(a, [b] + ([c] + Full(rest)), b + (c + rest), 0);
    assert s == a + (b + (c + rest));
  }

  lemma FullNotices(s: string)
    requires |s| > MAX_HEADER_SIZE
    ensures Noticed(0, Full(s)) == if |s| < MAX_HEADER_SIZE + BUFFER_SIZE then |s| else MAX_HEADER_SIZE + BUFFER_SIZE
  {
    var s1, s2 := s[4096..], s[8192..];
    assert s1[4096..] == s2;
    OneMore(s[..4096], Full(s1), s1, 0);
    OneMore(s1[..4096], Full(s2), s2, 4096);
    var n := if |s2| < BUFFER_SIZE then |s2| else BUFFER_SIZE;
    OneMore(s2[..n], Full(s2[n..]), s2[n..], 8192);
  }

  /** A peer that pauses in the middle of long headers is refused. */
  lemma PausedIsRefused(s: string)
    requires Find(s, TERMINATOR, 0).Some? && Find(s, TERMINATOR, 0).value + 4 > MAX_HEADER_SIZE + 1
    ensures |s| > MAX_HEADER_SIZE && Chunking(Paused(s), s) && Framed([], Paused(s)) == None
  {
    PausedNotices(s);
    FramedExactly(Paused(s), s);
  }

  /** One that does not is served if they are not too long. */
  lemma FullIsServed(s: string)
    requires Find(s, TERMINATOR, 0).Some?
    requires MAX_HEADER_SIZE + 1 < Find(s, TERMINATOR, 0).value + 4 <= MAX_HEADER_SIZE + BUFFER_SIZE
    ensures Framed([], Full(s)).Some?
  {
    FullNotices(s);
    FramedExactly(Full(s), s);
  }

  /** The result does not depend on how the bytes arrive if and only if the headers do not end between
      bytes 8194 and 12288. */
  lemma FramingDependsOnChunkingExactly(s: string)
    ensures (forall c, d :: Chunking(c, s) && Chunking(d, s) ==> Framed([], c) == Framed([], d))
       <==> match Find(s, TERMINATOR, 0)
            case Some(i) => i + 4 <= MAX_HEADER_SIZE + 1 || i + 4 > MAX_HEADER_SIZE + BUFFER_SIZE
            case None => true
  {
    var found := Find(s, TERMINATOR, 0);
    if found.Some? && MAX_HEADER_SIZE + 1 < found.value + 4 <= MAX_HEADER_SIZE + BUFFER_SIZE {
      FullIsServed(s);
      PausedIsRefused(s);
    } else {
      forall c, d | Chunking(c, s) && Chunking(d, s)
        ensures Framed([], c) == Framed([], d)
      {
        if found.Some? && found.value + 4 <= MAX_HEADER_SIZE + 1 {
          ShortHeadersAreFound(c, s);
          ShortHeadersAreFound(d, s);
        } else {
          LongHeadersAreRefused(c, s);
          LongHeadersAreRefused(d, s);
        }
      }
    }
  }

  /** Of the bytes `s`, readHeaders returns `headers` in whatever way they arrive. */
  ghost predicate AlwaysReceived(s: string, headers: string) {
    forall chunks :: Chunking(chunks, s) ==> Framed([], chunks) == Some(headers)
  }

  /** Headers are received however they arrive if and only if they end within the first 8193 bytes. */
  lemma HeadersAreReceivedExactly(s: string, n: nat, headers: string)
    requires Find(s, TERMINATOR, 0) == Some(n) && headers == s[..n + 4]
    ensures AlwaysReceived(s, headers) <==> n + 4 <= MAX_HEADER_SIZE + 1
  {
    if n + 4 <= MAX_HEADER_SIZE + 1 {
      forall chunks | Chunking(chunks, s)
        ensures Framed([], chunks) == Some(headers)
      {
        ShortHeadersAreFound(chunks, s);
      }
    } else {
      PausedIsRefused(s);
    }
  }

  // ---- what is read and thrown away -----------------------------------------------------------------

  lemma {:induction false} FlatGrows(chunks: seq<string>, m: nat, n: nat)
    requires m <= n <= |chunks|
    ensures Flat(chunks[..m]) <= Flat(chunks[..n])
    decreases |chunks|
  {
    if m > 0 {
      var rest := chunks[1..];
      assert chunks[..m][1..] == rest[..m - 1] && chunks[..n][1..] == rest[..n - 1];
      FlatGrows(rest, m - 1, n - 1);
    }
  }

  lemma TakeOneMore(buffer: string, chunks: seq<string>, n: nat)
    requires n < |chunks|
    ensures buffer + Flat(chunks[..n + 1]) == (buffer + chunks[0]) + Flat(chunks[1..][..n])
  {
    assert chunks[..n + 1][1..] == chunks[1..][..n];
    Regroup(buffer, chunks[0], Flat(chunks[1..][..n]));
  }

  /** The headers end in the last chunk that has been read. */
  lemma {:induction false} EndInLastChunk(buffer: string, chunks: seq<string>)
    requires Find(buffer, TERMINATOR, 0) == None && Framed(buffer, chunks).Some?
    ensures var n, headers := Consumed(buffer, chunks), Framed(buffer, chunks).value;
            && 1 <= n && headers <= buffer + Flat(chunks[..n])
            && |headers| > |buffer + Flat(chunks[..n - 1])|
    decreases |chunks|
  {
    var longer, n := buffer + chunks[0], Consumed(buffer, chunks);
    TakeOneMore(buffer, chunks, n - 1);
    if Find(longer, TERMINATOR, 0).Some? {
      FindInPrefix(buffer, chunks[0], TERMINATOR);
      assert chunks[1..][..0] == [] && chunks[..0] == [];
    } else {
      EndInLastChunk(longer, chunks[1..]);
      TakeOneMore(buffer, chunks, n - 2);
    }
  }

  /** What has been read behind the headers is thrown away, with the beginning of a request that follows
      on the same connection. These are the bytes from the end of the headers to the end of the chunk
      in which they end, and there are none if and only if the headers end with a chunk. */
  lemma LostExactly(chunks: seq<string>)
    requires Framed([], chunks).Some?
    ensures var headers, read := Framed([], chunks).value, Flat(chunks[..Consumed([], chunks)]);
            && headers <= read <= Flat(chunks)
            && (read[|headers|..] == [] <==> exists m :: 0 <= m <= |chunks| && Flat(chunks[..m]) == headers)
  {
    var n, headers := Consumed([], chunks), Framed([], chunks).value;
    var read := Flat(chunks[..n]);
    EndInLastChunk([], chunks);
    assert [] + read == read && [] + Flat(chunks[..n - 1]) == Flat(chunks[..n - 1]);
    FlatGrows(chunks, n, |chunks|);
    assert chunks[..|chunks|] == chunks;
    if read[|headers|..] == [] {
      assert read == headers;
    }
    if m :| 0 <= m <= |chunks| && Flat(chunks[..m]) == headers {
      if m < n {
        FlatGrows(chunks, m, n - 1);
      } else {
        FlatGrows(chunks, n, m);
      }
    }
  }
}
