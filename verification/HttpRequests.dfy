/** From the bytes of a request to the request that the server handles. */
module HttpRequests {
  import opened Wrappers
  import opened Text
  import opened HttpFraming
  import opened HttpMessages

  function PrintedLine(r: RequestLine): string { r.method' + " " + (r.path + " " + r.version) }

  /** A request without body as a client prints it. */
  function Printed(r: HttpRequest): string {
    PrintedLine(r.line) + CRLF + (HeaderBlock(r.headers) + CRLF)
  }

  predicate WellFormedLine(r: RequestLine) {
    && r.method' != [] && !Contains(r.method', " ") && !Contains(r.method', CRLF)
    && r.path != [] && !Contains(r.path, " ") && !Contains(r.path, CRLF)
    && r.version != [] && !Contains(r.version, CRLF)
  }

  predicate WellFormed(r: HttpRequest) {
    WellFormedLine(r.line) && Clean(r.headers)
  }

  // ---- parsing inverts printing ----------------------------------------------------------------------

  lemma JoinedIsClean(a: string, b: string)
    requires !Contains(a, CRLF) && !Contains(b, CRLF)
    ensures !Contains(a + " " + b, CRLF)
  {
    var s, n := a + " " + b, |a|;
    forall j: nat | j <= |s|
      ensures !MatchAt(s, CRLF, j)
    {
      if j + 2 <= n {
        assert s[j..j + 2] == a[j..j + 2];
        assert !MatchAt(a, CRLF, j);
      } else if n + 1 <= j && j + 2 <= |s| {
        assert s[j..j + 2] == b[j - n - 1..j - n + 1];
        assert !MatchAt(b, CRLF, j - n - 1);
      } else if j + 2 <= |s| {
        assert s[n] == ' ';
        assert s[j..j + 2][0] == s[j] && s[j..j + 2][1] == s[j + 1];
      }
    }
  }

  lemma FindSpace(a: string, b: string)
    requires !Contains(a, " ")
    ensures Find(a + " " + b, " ", 0) == Some(|a|)
    ensures (a + " " + b)[..|a|] == a && (a + " " + b)[|a| + 1..] == b
  {
    var s := a + " " + b;
    forall j: nat | j < |a|
      ensures !MatchAt(s, " ", j)
    {
      assert s[j..j + 1] == a[j..j + 1];
      assert !MatchAt(a, " ", j);
    }
    assert s[|a|..|a| + 1] == " ";
    FindIs(s, " ", 0, |a|);
  }

  lemma LineIsRecovered(r: RequestLine)
    requires WellFormedLine(r)
    ensures ParseRequestLine(PrintedLine(r)) == Some(r) && !Contains(PrintedLine(r), CRLF)
  {
    FindSpace(r.method', r.path + " " + r.version);
    FindSpace(r.path, r.version);
    JoinedIsClean(r.path, r.version);
    JoinedIsClean(r.method', r.path + " " + r.version);
  }

  lemma ParsedRequestLineIsWellFormed(line: string)
    requires !Contains(line, CRLF) && ParseRequestLine(line).Some?
    ensures WellFormedLine(ParseRequestLine(line).value)
  {
    var m := Find(line, " ", 0).value;
    var rest := line[m + 1..];
    var n := Find(rest, " ", 0).value;
    assert line[..m] == line[0..m] && rest == line[m + 1..|line|];
    assert rest[..n] == rest[0..n] && rest[n + 1..] == rest[n + 1..|rest|];
    BeforeFirst(line, " ");
    BeforeFirst(rest, " ");
    SliceContains(line, CRLF, 0, m);
    SliceContains(line, CRLF, m + 1, |line|);
    SliceContains(rest, CRLF, 0, n);
    SliceContains(rest, CRLF, n + 1, |rest|);
  }

  /** Whatever has been parsed is well-formed. */
  lemma ParsedRequestIsWellFormed(section: string)
    requires ParsedRequest(section).Some?
    ensures WellFormed(ParsedRequest(section).value)
  {
    var end := Find(section, CRLF, 0).value;
    BeforeFirst(section, CRLF);
    ParsedRequestLineIsWellFormed(section[..end]);
    ParsedIsClean(section[end + 2..]);
  }

  /** A request is recovered from its printed form if and only if its parts are not empty, method and
      path contain no space, nothing contains a line end, and header names do not contain ": ". */
  lemma RequestRoundTripExactly(r: HttpRequest)
    ensures ParsedRequest(Printed(r)) == Some(r) <==> WellFormed(r)
  {
    if WellFormed(r) {
      LineIsRecovered(r.line);
      FindLineEnd(PrintedLine(r.line), HeaderBlock(r.headers) + CRLF);
      HeadersRoundTripExactly(r.headers);
    }
    if ParsedRequest(Printed(r)) == Some(r) {
      ParsedRequestIsWellFormed(Printed(r));
    }
  }

  lemma SpaceJoins(s: string, n: nat)
    requires Find(s, " ", 0) == Some(n)
    ensures s == s[..n] + " " + s[n + 1..]
  {
    assert s[n..n + 1] == " ";
  }

  lemma ParsedRequestLineIsPrinted(line: string)
    requires ParseRequestLine(line).Some?
    ensures PrintedLine(ParseRequestLine(line).value) == line
  {
    var m := Find(line, " ", 0).value;
    var rest := line[m + 1..];
    SpaceJoins(line, m);
    SpaceJoins(rest, Find(rest, " ", 0).value);
  }

  /** The section begins with a printed well-formed request line and a line end, and goes on with `rest`. */
  predicate Begins(section: string, r: RequestLine, rest: string) {
    WellFormedLine(r) && section == PrintedLine(r) + CRLF + rest
  }

  lemma BegunIsParsed(section: string, r: RequestLine, rest: string)
    requires Begins(section, r, rest)
    ensures ParsedRequest(section) == Some(HttpRequest(r, Parsed(rest)))
  {
    LineIsRecovered(r);
    FindLineEnd(PrintedLine(r), rest);
  }

  lemma ParsedBegins(section: string)
    requires ParsedRequest(section).Some?
    ensures exists r, rest :: Begins(section, r, rest)
  {
    var end := Find(section, CRLF, 0).value;
    var line, rest := section[..end], section[end + 2..];
    ParsedRequestIsWellFormed(section);
    ParsedRequestLineIsPrinted(line);
    assert section == line + section[end..end + 2] + rest;
    assert Begins(section, ParsedRequest(section).value.line, rest);
  }

  /** A section is accepted if and only if it begins with a printed well-formed request line and a line end;
      then the request has that line, and the headers of what follows. */
  lemma ParsesExactly(section: string)
    ensures ParsedRequest(section).Some? <==> exists r, rest :: Begins(section, r, rest)
    ensures forall r, rest :: Begins(section, r, rest) ==>
              ParsedRequest(section) == Some(HttpRequest(r, Parsed(rest)))
  {
    if ParsedRequest(section).Some? {
      ParsedBegins(section);
    }
    forall r, rest | Begins(section, r, rest)
      ensures ParsedRequest(section) == Some(HttpRequest(r, Parsed(rest)))
    {
      BegunIsParsed(section, r, rest);
    }
  }

  // ---- the whole way ---------------------------------------------------------------------------------

  lemma NoTerminator(s: string, i: nat)
    requires !MatchAt(s, CRLF, i) || !MatchAt(s, CRLF, i + 2)
    ensures !MatchAt(s, TERMINATOR, i)
  {
    if i + 4 <= |s| {
      assert s[i..i + 2] == s[i..i + 4][..2] && s[i + 2..i + 4] == s[i..i + 4][2..];
    }
  }

  /** Between the end of a line and the end of the next one, which is not empty, no headers end. */
  lemma NotBetweenLines(line: string, next: string, more: string)
    requires !Contains(line, CRLF) && next != [] && !Contains(next, CRLF)
    ensures forall j: nat :: j < |line| + 2 ==> !MatchAt(line + CRLF + (next + CRLF + more), TERMINATOR, j)
  {
    var tail := next + CRLF + more;
    var s := line + CRLF + tail;
    FindLineEnd(line, tail);
    FindLineEnd(next, more);
    MatchShifted(line + CRLF, tail, CRLF, 0);
    assert !MatchAt(s, CRLF, |line| + 2);
    assert s[|line| + 1] == '\n';
    assert s[|line| + 1..|line| + 3][0] == s[|line| + 1];
    assert !MatchAt(s, CRLF, |line| + 1);
    forall j: nat | j < |line| + 2
      ensures !MatchAt(s, TERMINATOR, j)
    {
      NoTerminator(s, j);
    }
  }

  lemma BlankLineEnds(line: string, rest: string, s: string)
    requires !Contains(line, CRLF) && s == line + CRLF + (CRLF + rest)
    ensures Find(s, TERMINATOR, 0) == Some(|line|)
  {
    FindLineEnd(line, CRLF + rest);
    assert s[|line|..|line| + 4] == TERMINATOR;
    forall j: nat | j < |line|
      ensures !MatchAt(s, TERMINATOR, j)
    {
      NoTerminator(s, j);
    }
    FindIs(s, TERMINATOR, 0, |line|);
  }

  lemma NextLineEnds(line: string, next: string, more: string, tail: string, s: string, n: nat)
    requires !Contains(line, CRLF) && next != [] && !Contains(next, CRLF)
    requires tail == next + CRLF + more && s == line + CRLF + tail && Find(tail, TERMINATOR, 0) == Some(n)
    ensures Find(s, TERMINATOR, 0) == Some(|line| + 2 + n)
  {
    NotBetweenLines(line, next, more);
    assert s[|line| + 2..] == tail;
    LaterInTail(s, |line| + 2, tail);
  }

  /** The headers of a printed request end where its printed form ends. */
  lemma {:induction false} HeadersEnd(line: string, headers: seq<Header>, rest: string, s: string)
    requires !Contains(line, CRLF) && Clean(headers)
    requires s == line + CRLF + (HeaderBlock(headers) + CRLF + rest)
    ensures Find(s, TERMINATOR, 0) == Some(|line| + |HeaderBlock(headers)|)
    decreases |headers|
  {
    if headers == [] {
      assert HeaderBlock(headers) + CRLF + rest == CRLF + rest;
      BlankLineEnds(line, rest, s);
    } else {
      var next, more := HeaderLine(headers[0]), HeaderBlock(headers[1..]) + CRLF + rest;
      var tail := next + CRLF + more;
      BlockSplits(headers, rest, more);
      assert CleanHeader(headers[0]);
      LineIsClean(headers[0]);
      HeadersEnd(next, headers[1..], rest, tail);
      NextLineEnds(line, next, more, tail, s, |next| + |HeaderBlock(headers[1..])|);
    }
  }

  lemma BlockSplits(headers: seq<Header>, rest: string, more: string)
    requires headers != [] && more == HeaderBlock(headers[1..]) + CRLF + rest
    ensures HeaderBlock(headers) + CRLF + rest == HeaderLine(headers[0]) + CRLF + more
  {
    var line, block := HeaderLine(headers[0]) + CRLF, HeaderBlock(headers[1..]);
    Regroup(line, block, CRLF);
    Regroup(line, block + CRLF, rest);
  }

  lemma LaterInTail(s: string, from: nat, tail: string)
    requires from <= |s| && tail == s[from..] && Find(tail, TERMINATOR, 0).Some?
    requires forall j: nat :: j < from ==> !MatchAt(s, TERMINATOR, j)
    ensures Find(s, TERMINATOR, 0) == Some(from + Find(tail, TERMINATOR, 0).value)
  {
    FindInTail(s, TERMINATOR, from);
    FindIs(s, TERMINATOR, 0, from + Find(tail, TERMINATOR, 0).value);
  }

  lemma PrintedSplits(line: string, block: string, rest: string)
    ensures line + CRLF + (block + CRLF) + rest == line + CRLF + (block + CRLF + rest)
  {
    Regroup(line + CRLF, block + CRLF, rest);
  }

  lemma PrintedEnds(r: HttpRequest, rest: string, printed: string, s: string)
    requires WellFormed(r) && printed == Printed(r) && s == printed + rest
    ensures |printed| >= 4 && Find(s, TERMINATOR, 0) == Some(|printed| - 4) && s[..|printed|] == printed
  {
    var line, block := PrintedLine(r.line), HeaderBlock(r.headers);
    PrintedSplits(line, block, rest);
    LineIsRecovered(r.line);
    HeadersEnd(line, r.headers, rest, s);
  }

  /** A well-formed request, followed by anything, is received whole however its bytes arrive,
      if and only if it is at most 8193 bytes long. */
  lemma RequestIsReceivedExactly(r: HttpRequest, printed: string, rest: string)
    requires WellFormed(r) && printed == Printed(r)
    ensures AlwaysReceived(printed + rest, printed) <==> |printed| <= MAX_HEADER_SIZE + 1
  {
    PrintedEnds(r, rest, printed, printed + rest);
    HeadersAreReceivedExactly(printed + rest, |printed| - 4, printed);
  }
}
