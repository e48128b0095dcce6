/** What a client reads out of a printed response. */
module HttpResponses {
  import opened Wrappers
  import opened Text
  import opened HttpFraming
  import opened HttpMessages
  import opened HttpRequests

  /** The parts of a response: what stands before the first space of its first line, between the first and
      the second one, and after that; the headers up to the first blank line; and what follows it. */
  datatype Reading = Reading(version: string, code: string, message: string, headers: seq<Header>, body: string)

  /** A line, taken apart at its first two spaces. */
  function Parts(line: string): Option<(string, string, string)> {
    match Find(line, " ", 0)
    case None => None
    case Some(first) =>
      var rest := line[first + 1..];
      match Find(rest, " ", 0)
      case None => None
      case Some(second) => Some((line[..first], rest[..second], rest[second + 1..]))
  }

  /** The first line ends at `lineEnd`, the headers at `headersEnd`. */
  function ReadAt(text: string, lineEnd: nat, headersEnd: nat): Option<Reading>
    requires lineEnd <= headersEnd && headersEnd + 4 <= |text|
  {
    match Parts(text[..lineEnd])
    case None => None
    case Some((version, code, message)) =>
      Some(Reading(version, code, message, Parsed(text[lineEnd + 2..headersEnd + 4]), text[headersEnd + 4..]))
  }

  function Read(text: string): Option<Reading> {
    var lineEnd, headersEnd := Find(text, CRLF, 0), Find(text, TERMINATOR, 0);
    if lineEnd.None? || headersEnd.None? || headersEnd.value < lineEnd.value then None
    else ReadAt(text, lineEnd.value, headersEnd.value)
  }

  predicate Plain(statusMessage: string, headers: seq<Header>) {
    !Contains(statusMessage, CRLF) && Clean(headers)
  }

  lemma SpellingIsPlain(text: string, n: int)
    requires Spells(text, n)
    ensures !Contains(text, " ") && !Contains(text, CRLF)
  {
    forall i: nat | i <= |text|
      ensures !MatchAt(text, " ", i) && !MatchAt(text, CRLF, i)
    {
      if i < |text| {
        assert text[i..i + 1][0] == text[i];
        assert i + 2 <= |text| ==> text[i..i + 2][0] == text[i];
        assert text[i] == '-' || '0' <= text[i] <= '9';
      }
    }
  }

  lemma VersionIsPlain()
    ensures !Contains(VERSION, " ") && !Contains(VERSION, CRLF)
  {
    var version := VERSION;
    forall i: nat | i <= |version|
      ensures !MatchAt(version, " ", i) && !MatchAt(version, CRLF, i)
    {
      if i < |version| {
        assert version[i..i + 1][0] == version[i];
        assert i + 2 <= |version| ==> version[i..i + 2][0] == version[i];
      }
    }
  }

  lemma StatusLineParts(statusCode: int, statusMessage: string, line: string)
    requires line == StatusLine(statusCode, statusMessage)
    ensures Parts(line) == Some((VERSION, Number(statusCode), statusMessage))
    ensures !Contains(statusMessage, CRLF) ==> !Contains(line, CRLF)
  {
    var number := Number(statusCode);
    var rest := number + " " + statusMessage;
    assert line == VERSION + " " + rest;
    VersionIsPlain();
    NumberSpells(statusCode);
    SpellingIsPlain(number, statusCode);
    FindSpace(VERSION, rest);
    FindSpace(number, statusMessage);
    if !Contains(statusMessage, CRLF) {
      JoinedIsClean(number, statusMessage);
      JoinedIsClean(VERSION, rest);
    }
  }

  /** Where the first line, the headers and the body of a printed response are. */
  lemma TextParts(line: string, headers: seq<Header>, block: string, body: string, text: string)
    returns (n: nat, m: nat)
    requires !Contains(line, CRLF) && Clean(headers) && block == HeaderBlock(headers)
    requires text == line + CRLF + (block + CRLF + body)
    ensures Find(text, CRLF, 0) == Some(n) && Find(text, TERMINATOR, 0) == Some(m) && n <= m
    ensures line == text[..n] && block + CRLF == text[n + 2..m + 4] && body == text[m + 4..]
  {
    FindLineEnd(line, block + CRLF + body);
    HeadersEnd(line, headers, body, text);
    n, m := |line|, |line| + |block|;
  }

  lemma ReadIs(text: string, n: nat, m: nat, line: string, block: string, body: string)
    requires Find(text, CRLF, 0) == Some(n) && Find(text, TERMINATOR, 0) == Some(m) && n <= m
    requires line == text[..n] && block == text[n + 2..m + 4] && body == text[m + 4..]
    requires Parts(line).Some?
    ensures var parts := Parts(line).value;
            Read(text) == Some(Reading(parts.0, parts.1, parts.2, Parsed(block), body))
  {
    var parts := Parts(line).value;
    assert ReadAt(text, n, m) == Some(Reading(parts.0, parts.1, parts.2, Parsed(block), body));
  }

  lemma LinesAreRead(line: string, headers: seq<Header>, block: string, body: string, text: string)
    requires !Contains(line, CRLF) && Clean(headers) && block == HeaderBlock(headers) && Parts(line).Some?
    requires text == line + CRLF + (block + CRLF + body)
    ensures var parts := Parts(line).value;
            Read(text) == Some(Reading(parts.0, parts.1, parts.2, Parsed(block + CRLF), body))
  {
    var n, m := TextParts(line, headers, block, body, text);
    ReadIs(text, n, m, line, block + CRLF, body);
  }

  lemma PlainIsRead(statusCode: int, statusMessage: string, headers: seq<Header>, body: string, text: string)
    requires text == StatusLine(statusCode, statusMessage) + CRLF + (HeaderBlock(headers) + CRLF + body)
    requires Plain(statusMessage, headers)
    ensures Read(text) == Some(Reading(VERSION, Number(statusCode), statusMessage, headers, body))
  {
    var line := StatusLine(statusCode, statusMessage);
    StatusLineParts(statusCode, statusMessage, line);
    LinesAreRead(line, headers, HeaderBlock(headers), body, text);
    HeadersRoundTripExactly(headers);
  }

  lemma PartsArePlain(line: string)
    requires !Contains(line, CRLF) && Parts(line).Some?
    ensures !Contains(Parts(line).value.2, CRLF)
  {
    var first := Find(line, " ", 0).value;
    var rest := line[first + 1..];
    var second := Find(rest, " ", 0).value;
    assert rest == line[first + 1..|line|] && rest[second + 1..] == rest[second + 1..|rest|];
    SliceContains(line, CRLF, first + 1, |line|);
    SliceContains(rest, CRLF, second + 1, |rest|);
  }

  lemma ReadAtIsPlain(text: string, n: nat, m: nat)
    requires n <= m && m + 4 <= |text| && !Contains(text[..n], CRLF) && ReadAt(text, n, m).Some?
    ensures Plain(ReadAt(text, n, m).value.message, ReadAt(text, n, m).value.headers)
  {
    PartsArePlain(text[..n]);
    ParsedIsClean(text[n + 2..m + 4]);
  }

  lemma ReadIsPlain(text: string)
    requires Read(text).Some?
    ensures Plain(Read(text).value.message, Read(text).value.headers)
  {
    var n, m := Find(text, CRLF, 0).value, Find(text, TERMINATOR, 0).value;
    BeforeFirst(text, CRLF);
    ReadAtIsPlain(text, n, m);
  }

  /** What has been printed into a response of that length is read out of it. */
  predicate IsRead(text: string, statusCode: int, statusMessage: string, others: seq<Header>, body: string,
                   code: string, length: string)
  {
    && Spells(code, statusCode) && Spells(length, |body|)
    && Read(text) == Some(Reading(VERSION, code, statusMessage, others + [("Content-Length", length)], body))
  }

  lemma CleanTogether(others: seq<Header>, length: string)
    requires CleanHeader(("Content-Length", length))
    ensures Clean(others + [("Content-Length", length)]) <==> Clean(others)
  {
    var all := others + [("Content-Length", length)];
    assert forall i :: 0 <= i < |others| ==> all[i] == others[i];
  }

  lemma PlainIsIsRead(statusCode: int, statusMessage: string, others: seq<Header>, body: string, text: string)
    requires var headers := others + [("Content-Length", Digits(|body|))];
             text == StatusLine(statusCode, statusMessage) + CRLF + (HeaderBlock(headers) + CRLF + body)
    requires Plain(statusMessage, others)
    ensures IsRead(text, statusCode, statusMessage, others, body, Number(statusCode), Digits(|body|))
  {
    NumberSpells(statusCode);
    NumberSpells(|body|);
    ContentLengthIsClean(|body|);
    CleanTogether(others, Digits(|body|));
    PlainIsRead(statusCode, statusMessage, others + [("Content-Length", Digits(|body|))], body, text);
  }

  /** A client reads out of a response what has been printed into it if and only if the status message
      contains no line end, and the headers are clean: the version, a code that spells the status code,
      the message, the headers, behind them the length of the body, and the body. */
  lemma ResponseIsReadExactly(
    statusCode: int, statusMessage: string, others: seq<Header>, body: string, text: string)
    requires var headers := others + [("Content-Length", Digits(|body|))];
             text == StatusLine(statusCode, statusMessage) + CRLF + (HeaderBlock(headers) + CRLF + body)
    ensures (exists code, length :: IsRead(text, statusCode, statusMessage, others, body, code, length))
       <==> Plain(statusMessage, others)
  {
    if Plain(statusMessage, others) {
      PlainIsIsRead(statusCode, statusMessage, others, body, text);
    }
    if code, length :| IsRead(text, statusCode, statusMessage, others, body, code, length) {
      ReadIsPlain(text);
      var all := others + [("Content-Length", length)];
      assert forall i :: 0 <= i < |others| ==> all[i] == others[i];
    }
  }

  lemma MessageIsReadExactly(message: string, rest: string, tail: string)
    requires tail == message + CRLF + rest
    ensures Find(tail, CRLF, 0).Some?
    ensures tail[..Find(tail, CRLF, 0).value] == message <==> !Contains(message, CRLF)
  {
    assert tail[|message|..|message| + 2] == CRLF && MatchAt(tail, CRLF, |message|);
    BeforeFirst(tail, CRLF);
    if !Contains(message, CRLF) {
      FindLineEnd(message, rest);
    }
  }

  lemma CodeIsFound(number: string, tail: string, text: string)
    requires !Contains(number, " ") && text == VERSION + " " + (number + " " + tail)
    ensures Find(text, " ", 0) == Some(8) && Find(text, " ", 9) == Some(9 + |number|)
    ensures text[9..9 + |number|] == number && text[10 + |number|..] == tail
  {
    var after := number + " " + tail;
    VersionIsPlain();
    FindSpace(VERSION, after);
    FindSpace(number, tail);
    FindInTail(text, " ", 9);
  }

  /** The status line alone, whatever the message: between the first two spaces of the text stands the
      status code in decimal notation; and what follows, up to the first line end, is the message if and
      only if that contains no line end. */
  lemma StatusIsReadExactly(statusCode: int, statusMessage: string, rest: string, text: string)
    requires text == StatusLine(statusCode, statusMessage) + CRLF + rest
    ensures Find(text, " ", 0) == Some(8) && Find(text, " ", 9).Some?
    ensures var second := Find(text, " ", 9).value;
            && Spells(text[9..second], statusCode)
            && Find(text, CRLF, second + 1).Some?
            && (text[second + 1..Find(text, CRLF, second + 1).value] == statusMessage
                <==> !Contains(statusMessage, CRLF))
  {
    var number, tail := Number(statusCode), statusMessage + CRLF + rest;
    StatusRegrouped(VERSION + " ", number + " ", statusMessage, CRLF, rest);
    NumberSpells(statusCode);
    SpellingIsPlain(number, statusCode);
    CodeIsFound(number, tail, text);
    MessageIsFound(statusMessage, rest, tail, 10 + |number|, text);
  }

  lemma StatusRegrouped(a: string, b: string, c: string, d: string, e: string)
    ensures (a + (b + c)) + d + e == a + (b + (c + d + e))
  {
  }

  lemma MessageIsFound(message: string, rest: string, tail: string, from: nat, text: string)
    requires from <= |text| && text[from..] == tail == message + CRLF + rest
    ensures Find(text, CRLF, from).Some?
    ensures text[from..Find(text, CRLF, from).value] == message <==> !Contains(message, CRLF)
  {
    FindInTail(text, CRLF, from);
    MessageIsReadExactly(message, rest, tail);
    var end := Find(tail, CRLF, 0).value;
    assert text[from..from + end] == tail[..end];
  }
}
