/** Printing and parsing of requests and responses (uvco/examples/http_server.cc). */
module HttpMessages {
  import opened Wrappers
  import opened Text

  /** A name and a value. */
  type Header = (string, string)

  const COLON: string := ": "

  // ---- printing --------------------------------------------------------------------------------------

  function Digits(n: nat): (text: string)
    ensures text != [] && forall i :: 0 <= i < |text| ==> '0' <= text[i] <= '9'
  {
    if n < 10 then ["0123456789"[n]] else Digits(n / 10) + ["0123456789"[n % 10]]
  }

  /** The number that a decimal text denotes. */
  function Denoted(text: string): nat
    requires forall i :: 0 <= i < |text| ==> '0' <= text[i] <= '9'
  {
    if text == [] then 0
    else Denoted(text[..|text| - 1]) * 10 + (text[|text| - 1] as int - '0' as int)
  }

  /** The text denotes the number, and has no leading zero. */
  lemma {:induction false} DigitsDenote(n: nat)
    ensures Denoted(Digits(n)) == n
    ensures Digits(n)[0] == '0' ==> n == 0
  {
    if n >= 10 {
      DigitsDenote(n / 10);
      assert Digits(n)[..|Digits(n)| - 1] == Digits(n / 10);
      assert Digits(n)[0] == Digits(n / 10)[0];
    }
  }

  function Number(n: int): string {
    if n < 0 then "-" + Digits(-n) else Digits(n)
  }

  predicate AllDigits(text: string) {
    text != [] && forall i :: 0 <= i < |text| ==> '0' <= text[i] <= '9'
  }

  /** `text` is the number in decimal notation: without leading zeros, and with a minus sign exactly if the
      number is negative. */
  predicate Spells(text: string, n: int) {
    var digits := if n < 0 && text != [] then text[1..] else text;
    && (n < 0 ==> text != [] && text[0] == '-')
    && AllDigits(digits) && (digits[0] == '0' ==> n == 0)
    && Denoted(digits) == if n < 0 then -n else n
  }

  lemma NumberSpells(n: int)
    ensures Spells(Number(n), n)
  {
    var size := if n < 0 then -n else n;
    DigitsDenote(size);
    if n < 0 {
      assert Number(n)[1..] == Digits(size);
    }
  }

  function HeaderLine(h: Header): string { h.0 + COLON + h.1 }

  /** Header lines, each with its line end. */
  function HeaderBlock(headers: seq<Header>): string {
    if headers == [] then [] else HeaderLine(headers[0]) + CRLF + HeaderBlock(headers[1..])
  }

  lemma {:induction false} HeaderBlockAppends(headers: seq<Header>, h: Header)
    ensures HeaderBlock(headers + [h]) == HeaderBlock(headers) + (HeaderLine(h) + CRLF)
  {
    if headers == [] {
      assert headers + [h] == [h];
    } else {
      assert (headers + [h])[1..] == headers[1..] + [h];
      HeaderBlockAppends(headers[1..], h);
    }
  }

  const VERSION: string := "HTTP/1.1"

  function StatusLine(statusCode: int, statusMessage: string): string {
    VERSION + " " + (Number(statusCode) + " " + statusMessage)
  }

  class HttpResponse {
    var statusCode: int
    var statusMessage: string
    var headers: seq<Header>
    var body: string

    constructor (statusCode: int, statusMessage: string, body: string)
      ensures this.statusCode == statusCode && this.statusMessage == statusMessage && this.body == body && headers == []
    {
      this.statusCode, this.statusMessage, this.headers, this.body := statusCode, statusMessage, [], body;
    }

    /** Every call adds a Content-Length header. */
    method ToString() returns (text: string)
      modifies this`headers
      ensures headers == old(headers) + [("Content-Length", Digits(|body|))]
      ensures text == StatusLine(statusCode, statusMessage) + CRLF + (HeaderBlock(headers) + CRLF + body)
    {
      headers := headers + [("Content-Length", Digits(|body|))];
      ghost var printed := headers;
      var statusLine := VERSION + " " + (Number(statusCode) + " " + statusMessage) + CRLF;
      text := statusLine;
      for i := 0 to |headers|
        invariant headers == printed && text == statusLine + HeaderBlock(printed[..i])
      {
        var line := HeaderLine(headers[i]) + CRLF;
        text := text + line;
        assert printed[..i + 1] == printed[..i] + [printed[i]];
        HeaderBlockAppends(printed[..i], printed[i]);
        Regroup(statusLine, HeaderBlock(printed[..i]), line);
      }
      assert printed[..|printed|] == printed;
      Regroup(statusLine, HeaderBlock(printed) + CRLF, body);
      Regroup(statusLine, HeaderBlock(printed), CRLF);
      text := text + CRLF + body;
    }
  }

  // ---- parsing ---------------------------------------------------------------------------------------

  /** The header in one line, if there is one. */
  function ParsedLine(line: string): seq<Header> {
    match Find(line, COLON, 0)
    case Some(i) => [(line[..i], line[i + 2..])]
    case None => []
  }

  function Parsed(block: string): seq<Header>
    decreases |block|
  {
    match Find(block, CRLF, 0)
    case Some(end) => ParsedLine(block[..end]) + Parsed(block[end + 2..])
    case None => []
  }

  lemma OneLine(block: string, end: nat, line: string, rest: string)
    requires Find(block, CRLF, 0) == Some(end) && line == block[..end] && rest == block[end + 2..]
    ensures Parsed(block) == ParsedLine(line) + Parsed(rest)
  {
  }

  /** `tail` begins with `line`, and goes on with `rest`. */
  lemma NextLine(block: string, start: nat, end: nat, tail: string, line: string, rest: string)
    requires start <= |block| && Find(block, CRLF, start) == Some(end)
    requires tail == block[start..] && line == block[start..end] && rest == block[end + 2..]
    ensures Parsed(tail) == ParsedLine(line) + Parsed(rest)
  {
    FindInTail(block, CRLF, start);
    assert line == tail[..end - start] && rest == tail[end - start + 2..];
    OneLine(tail, end - start, line, rest);
  }

  lemma Associative(a: seq<Header>, b: seq<Header>, c: seq<Header>)
    ensures a + (b + c) == (a + b) + c
  {
  }

  /** One round of the loop over the lines. */
  lemma OneRound(all: seq<Header>, headers: seq<Header>, block: string, start: nat, end: nat,
                 tail: string, line: string, rest: string)
    requires start <= |block| && Find(block, CRLF, start) == Some(end)
    requires tail == block[start..] && line == block[start..end] && rest == block[end + 2..]
    requires all == headers + Parsed(tail)
    ensures all == (headers + ParsedLine(line)) + Parsed(rest)
  {
    NextLine(block, start, end, tail, line, rest);
    Associative(headers, ParsedLine(line), Parsed(rest));
  }

  lemma NoMoreLines(block: string, start: nat, tail: string)
    requires start <= |block| && tail == block[start..] && Find(block, CRLF, start) == None
    ensures Parsed(tail) == []
  {
    FindInTail(block, CRLF, start);
  }

  method ParseHeaders(headersBlock: string) returns (headers: seq<Header>)
    ensures headers == Parsed(headersBlock)
  {
    headers := [];
    var start := 0;
    ghost var all, tail := Parsed(headersBlock), headersBlock;
    while start < |headersBlock|
      invariant 0 <= start <= |headersBlock| && tail == headersBlock[start..]
      invariant all == headers + Parsed(tail)
      decreases |headersBlock| - start
    {
      var found := Find(headersBlock, CRLF, start);
      if found == None {
        NoMoreLines(headersBlock, start, tail);
        break;
      }
      var end := found.value;
      var headerLine := headersBlock[start..end];
      ghost var rest := headersBlock[end + 2..];
      OneRound(all, headers, headersBlock, start, end, tail, headerLine, rest);
      ghost var longer := headers + ParsedLine(headerLine);
      start, tail := end + 2, rest;
      if |headerLine| == 0 {
        assert headers == longer;
        continue;
      }
      var colonPos := Find(headerLine, COLON, 0);
      if colonPos.Some? {
        headers := headers + [(headerLine[..colonPos.value], headerLine[colonPos.value + 2..])];
      }
      assert headers == longer;
    }
  }

  datatype RequestLine = RequestLine(method': string, path: string, version: string)

  datatype HttpRequest = HttpRequest(line: RequestLine, headers: seq<Header>)

  function ParseRequestLine(requestLine: string): Option<RequestLine> {
    match Find(requestLine, " ", 0)
    case None => None
    case Some(methodEnd) =>
      var rest := requestLine[methodEnd + 1..];
      match Find(rest, " ", 0)
      case None => None
      case Some(pathEnd) =>
        var r := RequestLine(requestLine[..methodEnd], rest[..pathEnd], rest[pathEnd + 1..]);
        if r.method' == [] || r.path == [] || r.version == [] then None else Some(r)
  }

  function ParsedRequest(section: string): Option<HttpRequest> {
    match Find(section, CRLF, 0)
    case None => None
    case Some(end) =>
      match ParseRequestLine(section[..end])
      case None => None
      case Some(line) => Some(HttpRequest(line, Parsed(section[end + 2..])))
  }

  method ParseRequest(headersSection: string) returns (request: Option<HttpRequest>)
    ensures request == ParsedRequest(headersSection)
  {
    var requestLineEnd := Find(headersSection, CRLF, 0);
    if requestLineEnd == None {
      return None;
    }
    var line := ParseRequestLine(headersSection[..requestLineEnd.value]);
    if line == None {
      return None;
    }
    var headers := ParseHeaders(headersSection[requestLineEnd.value + 2..]);
    return Some(HttpRequest(line.value, headers));
  }

  // ---- what survives printing and parsing --------------------------------------------------------------

  predicate CleanHeader(h: Header) {
    !Contains(h.0, COLON) && !Contains(h.0, CRLF) && !Contains(h.1, CRLF)
  }

  predicate Clean(headers: seq<Header>) {
    forall i :: 0 <= i < |headers| ==> CleanHeader(headers[i])
  }

  /** A text without line ends, up to a line end. */
  lemma FindLineEnd(line: string, rest: string)
    requires !Contains(line, CRLF)
    ensures Find(line + CRLF + rest, CRLF, 0) == Some(|line|)
    ensures (line + CRLF + rest)[..|line|] == line && (line + CRLF + rest)[|line| + 2..] == rest
  {
    var s := line + CRLF + rest;
    forall j: nat | j < |line|
      ensures !MatchAt(s, CRLF, j)
    {
      if j + 2 <= |line| {
        assert s[j..j + 2] == line[j..j + 2];
        assert !MatchAt(line, CRLF, j);
      } else {
        assert s[j..j + 2][1] == s[|line|] == '\r';
      }
    }
    assert s[|line|..|line| + 2] == CRLF;
    FindIs(s, CRLF, 0, |line|);
  }

  lemma FindColon(h: Header)
    requires !Contains(h.0, COLON)
    ensures ParsedLine(HeaderLine(h)) == [h]
  {
    var line, n := HeaderLine(h), |h.0|;
    forall j: nat | j < n
      ensures !MatchAt(line, COLON, j)
    {
      if j + 2 <= n {
        assert line[j..j + 2] == h.0[j..j + 2];
        assert !MatchAt(h.0, COLON, j);
      } else {
        assert line[j..j + 2][1] == line[n] == ':';
      }
    }
    assert line[n..n + 2] == COLON;
    FindIs(line, COLON, 0, n);
    assert line[..n] == h.0 && line[n + 2..] == h.1;
  }

  lemma LineIsClean(h: Header)
    requires CleanHeader(h)
    ensures !Contains(HeaderLine(h), CRLF)
  {
    var line, n := HeaderLine(h), |h.0|;
    forall j: nat | j <= |line|
      ensures !MatchAt(line, CRLF, j)
    {
      if j + 2 <= n {
        assert line[j..j + 2] == h.0[j..j + 2];
        assert !MatchAt(h.0, CRLF, j);
      } else if n + 2 <= j <= |line| - 2 {
        assert line[j..j + 2] == h.1[j - n - 2..j - n];
        assert !MatchAt(h.1, CRLF, j - n - 2);
      } else if j + 2 <= |line| {
        assert line[n] == ':' && line[n + 1] == ' ';
        assert line[j..j + 2][0] == line[j] && line[j..j + 2][1] == line[j + 1];
      }
    }
  }

  lemma FirstLine(line: string, rest: string, block: string)
    requires !Contains(line, CRLF) && block == line + CRLF + rest
    ensures Parsed(block) == ParsedLine(line) + Parsed(rest)
  {
    FindLineEnd(line, rest);
    OneLine(block, |line|, line, rest);
  }

  lemma FirstHeader(h: Header, rest: string, block: string)
    requires CleanHeader(h) && block == HeaderLine(h) + CRLF + rest
    ensures Parsed(block) == [h] + Parsed(rest)
  {
    LineIsClean(h);
    FirstLine(HeaderLine(h), rest, block);
    FindColon(h);
  }

  lemma {:induction false} CleanIsRecovered(headers: seq<Header>, rest: string, block: string)
    requires Clean(headers) && block == HeaderBlock(headers) + rest
    ensures Parsed(block) == headers + Parsed(rest)
  {
    if headers == [] {
      assert block == rest;
    } else {
      var h, more := headers[0], HeaderBlock(headers[1..]) + rest;
      assert block == HeaderLine(h) + CRLF + more;
      FirstHeader(h, more, block);
      CleanIsRecovered(headers[1..], rest, more);
      Reassociate(Parsed(block), h, headers, Parsed(more), Parsed(rest));
    }
  }

  lemma Reassociate(all: seq<Header>, h: Header, headers: seq<Header>, more: seq<Header>, rest: seq<Header>)
    requires headers != [] && headers[0] == h && all == [h] + more && more == headers[1..] + rest
    ensures all == headers + rest
  {
  }

  lemma ParsedLineIsClean(line: string)
    requires !Contains(line, CRLF)
    ensures Clean(ParsedLine(line))
  {
    if Find(line, COLON, 0).Some? {
      var n := Find(line, COLON, 0).value;
      BeforeFirst(line, COLON);
      SliceContains(line, CRLF, 0, n);
      SliceContains(line, CRLF, n + 2, |line|);
      assert line[..n] == line[0..n] && line[n + 2..] == line[n + 2..|line|];
    }
  }

  /** Whatever has been parsed is clean. */
  lemma {:induction false} ParsedIsClean(block: string)
    ensures Clean(Parsed(block))
    decreases |block|
  {
    var end := Find(block, CRLF, 0);
    if end.Some? {
      BeforeFirst(block, CRLF);
      ParsedLineIsClean(block[..end.value]);
      ParsedIsClean(block[end.value + 2..]);
    }
  }

  lemma NothingAfterBlankLine()
    ensures Parsed(CRLF) == []
  {
    FindLineEnd([], []);
    assert [] + CRLF + [] == CRLF;
  }

  /** A list of headers is recovered from what toString() prints if and only if no name contains ": "
      or a line end, and no value contains a line end. */
  lemma HeadersRoundTripExactly(headers: seq<Header>)
    ensures Parsed(HeaderBlock(headers) + CRLF) == headers <==> Clean(headers)
  {
    if Clean(headers) {
      CleanIsRecovered(headers, CRLF, HeaderBlock(headers) + CRLF);
      NothingAfterBlankLine();
    }
    ParsedIsClean(HeaderBlock(headers) + CRLF);
  }

  // ---- what is parsed --------------------------------------------------------------------------------

  /** Lines, each with its line end. */
  function Lines(lines: seq<string>): string {
    if lines == [] then [] else lines[0] + CRLF + Lines(lines[1..])
  }

  function WithColon(lines: seq<string>): seq<string> {
    if lines == [] then []
    else (if Contains(lines[0], COLON) then [lines[0]] else []) + WithColon(lines[1..])
  }

  /** The header is what stands before and after the first ": " of the line. */
  predicate Splits(h: Header, line: string) {
    line == h.0 + COLON + h.1 && !Contains(h.0, COLON)
  }

  lemma ParsedLineSplits(line: string)
    ensures !Contains(line, COLON) ==> ParsedLine(line) == []
    ensures Contains(line, COLON) ==> |ParsedLine(line)| == 1 && Splits(ParsedLine(line)[0], line)
  {
    if Find(line, COLON, 0).Some? {
      var n := Find(line, COLON, 0).value;
      BeforeFirst(line, COLON);
      assert line == line[..n] + line[n..n + 2] + line[n + 2..];
    }
  }

  /** The headers are those of the lines with ": ", in order. */
  predicate HeadersOf(headers: seq<Header>, lines: seq<string>) {
    |headers| == |lines| && forall k :: 0 <= k < |headers| ==> Splits(headers[k], lines[k])
  }

  lemma OneMoreLine(line: string, lines: seq<string>, headers: seq<Header>)
    requires lines != [] && lines[0] == line && HeadersOf(headers, WithColon(lines[1..]))
    ensures HeadersOf(ParsedLine(line) + headers, WithColon(lines))
  {
    ParsedLineSplits(line);
    var all := ParsedLine(line) + headers;
    if Contains(line, COLON) {
      assert WithColon(lines) == [line] + WithColon(lines[1..]);
    } else {
      assert WithColon(lines) == WithColon(lines[1..]) && all == headers;
    }
  }

  /** Whatever lines a block consists of, and whatever follows the last line end: the headers are those of
      the lines with ": ", in order, and the other lines count for nothing. */
  lemma {:induction false} ParsedLinesAre(lines: seq<string>, tail: string, block: string)
    requires (forall i :: 0 <= i < |lines| ==> !Contains(lines[i], CRLF)) && !Contains(tail, CRLF)
    requires block == Lines(lines) + tail
    ensures HeadersOf(Parsed(block), WithColon(lines))
    decreases |lines|
  {
    if lines == [] {
      assert block == tail;
      assert Find(tail, CRLF, 0).None?;
    } else {
      var rest := Lines(lines[1..]) + tail;
      assert block == lines[0] + CRLF + rest;
      FirstLine(lines[0], rest, block);
      ParsedLinesAre(lines[1..], tail, rest);
      OneMoreLine(lines[0], lines, Parsed(rest));
    }
  }

  lemma ContentLengthIsClean(n: nat)
    ensures CleanHeader(("Content-Length", Digits(n)))
  {
    var name, text := "Content-Length", Digits(n);
    forall i: nat | i <= |name|
      ensures !MatchAt(name, COLON, i) && !MatchAt(name, CRLF, i)
    {
      if i + 2 <= |name| {
        assert name[i..i + 2][0] == name[i];
      }
    }
    forall i: nat | i <= |text|
      ensures !MatchAt(text, CRLF, i)
    {
      if i + 2 <= |text| {
        assert text[i..i + 2][0] == text[i];
      }
    }
  }

  /** With the Content-Length header that toString() adds, the condition is the same. */
  lemma ResponseHeadersRoundTripExactly(headers: seq<Header>, length: nat)
    ensures var printed := headers + [("Content-Length", Digits(length))];
            Parsed(HeaderBlock(printed) + CRLF) == printed <==> Clean(headers)
  {
    var printed := headers + [("Content-Length", Digits(length))];
    ContentLengthIsClean(length);
    HeadersRoundTripExactly(printed);
    assert Clean(printed) <==> Clean(headers) by {
      assert forall i :: 0 <= i < |headers| ==> printed[i] == headers[i];
    }
  }
}
