/** The incremental HTTP request parser: bytes arrive in chunks of any size, a line is collected in
    a carry-over buffer until its line feed arrives, and the body is collected by count.
    Bytes and UTF-16 units are both `char`s here: text is ASCII. */
module HttpParser {
  import opened Text

  datatype Result = NeedMore | Error | Success

  datatype Phase = StartLine | Headers | Body

  /** The value of a parser object. */
  datatype State = State(
    phase: Phase,
    data: string,
    contentLength: nat,
    method_: string,
    uri: string,
    headers: seq<string>,
    error: string)

  /** What the accessors of a parser show, with the result of feeding it. */
  datatype Outcome = Outcome(
    result: Result,
    method_: string,
    uri: string,
    headers: seq<string>,
    body: string,
    error: string)

  const CRLF: string := "\r\n"
  const FRESH := State(StartLine, "", 0, "", "", [], "")
  const ULONGLONG_BOUND: nat := 0x1_0000_0000_0000_0000

  function Observe(result: Result, s: State): Outcome {
    Outcome(result, s.method_, s.uri, s.headers, s.data, s.error)
  }

  // ---- The two line patterns ----

  /** A byte buffer turned into text: the conversion stops at the first NUL. */
  function AsText(bytes: string): string {
    var nul := IndexOf(bytes, '\0');
    if nul == -1 then bytes else bytes[..nul]
  }

  predicate EndsWith(s: string, tail: string) {
    |tail| <= |s| && s[|s| - |tail|..] == tail
  }

  predicate Stands(s: string, i: int, part: string) {
    0 <= i <= |s| - |part| && s[i..i + |part|] == part
  }

  lemma StandsBeforeEnd(s: string, j: int, part: string)
    requires s != "" && j != |s| - |part|
    ensures Stands(s, j, part) <==> Stands(s[..|s| - 1], j, part)
  {
    if 0 <= j < |s| - |part| {
      assert s[..|s| - 1][j..j + |part|] == s[j..j + |part|];
    }
  }

  /** The last position where `part` stands in `s`, or -1. */
  function LastIndexOf(s: string, part: string): (i: int)
    ensures i == -1 || Stands(s, i, part)
    ensures forall j :: i < j ==> !Stands(s, j, part)
  {
    if |s| < |part| then -1
    else if EndsWith(s, part) then |s| - |part|
    else
      var i := LastIndexOf(s[..|s| - 1], part);
      assert forall j :: j != |s| - |part| ==> (Stands(s, j, part) <==> Stands(s[..|s| - 1], j, part)) by {
        forall j | j != |s| - |part| ensures Stands(s, j, part) <==> Stands(s[..|s| - 1], j, part) {
          StandsBeforeEnd(s, j, part);
        }
      }
      i
  }

  /** "(.*) (.*) HTTP/1[.][01]\r\n" with greedy groups, for a text whose only line feed is its last
      character: the first group reaches to the last blank before the version. */
  function MatchStartLine(text: string): Option<(string, string)> {
    if !EndsWith(text, " HTTP/1.0\r\n") && !EndsWith(text, " HTTP/1.1\r\n") then None
    else
      var words := text[..|text| - 11];
      var blank := LastIndexOf(words, " ");
      if blank == -1 then None else Some((words[..blank], words[blank + 1..]))
  }

  datatype HeaderLine = HeaderLine(line: string, name: string, value: string)

  /** "((.*): (.*))\r\n" likewise: the name reaches to the last ": ". */
  function MatchHeader(text: string): Option<HeaderLine> {
    if !EndsWith(text, CRLF) then None
    else
      var line := text[..|text| - 2];
      var colon := LastIndexOf(line, ": ");
      if colon == -1 then None else Some(HeaderLine(line, line[..colon], line[colon + 2..]))
  }

  predicate IsContentLength(name: string) { Lower(name) == "content-length" }

  /** What a complete header line, as text, means when `length` is the length known so far. */
  datatype Line =
    | Field(line: string, length: nat)
    | BadLength(line: string, error: string)
    | Blank
    | Invalid(error: string)

  function ReadLine(text: string, length: nat): Line {
    match MatchHeader(text)
    case Some(header) =>
      if !IsContentLength(header.name) then Field(header.line, length)
      else (
        match ParseUnsigned(header.value, ULONGLONG_BOUND)
        case Some(n) => Field(header.line, n)
        case None => BadLength(header.line, LengthError(header.value))
      )
    case None => if text == CRLF then Blank else Invalid("Invalid header: " + text)
  }

  function LengthError(value: string): string {
    "Can't convert " + value + " to unsinged long long for \"Content-Length\""
  }

  // ---- One state method call, and one parseNextPart call, as functions ----

  function StartLineStep(s: State, data: string): (r: (Result, State, string))
    ensures data != "" ==> |r.2| < |data|
    ensures data == "" ==> r.2 == ""
  {
    var end := IndexOf(data, '\n');
    if end == -1 then (NeedMore, s.(data := s.data + data), "")
    else
      var text := AsText(s.data + data[..end + 1]);
      var rest := data[end + 1..];
      match MatchStartLine(text)
      case Some(words) => (NeedMore, s.(data := "", method_ := words.0, uri := words.1, phase := Headers), rest)
      case None => (Error, s.(data := "", error := "Invalid start line: " + text), rest)
  }

  function HeadersStep(s: State, data: string): (r: (Result, State, string))
    ensures data != "" ==> |r.2| < |data|
    ensures data == "" ==> r.2 == ""
  {
    var end := IndexOf(data, '\n');
    if end == -1 then (NeedMore, s.(data := s.data + data), "")
    else
      var rest := data[end + 1..];
      match ReadLine(AsText(s.data + data[..end + 1]), s.contentLength)
      case Field(line, n) => (NeedMore, s.(data := "", headers := s.headers + [line], contentLength := n), rest)
      case BadLength(line, e) =>
        (Error, s.(data := "", headers := s.headers + [line], contentLength := 0, error := e), rest)
      case Invalid(e) => (Error, s.(data := "", error := e), rest)
      case Blank =>
        if s.contentLength != 0 then (NeedMore, s.(data := "", phase := Body), rest)
        else (Success, s.(data := ""), rest)
  }

  function BodyStep(s: State, data: string): (r: (Result, State, string))
    ensures data != "" ==> |r.2| < |data|
    ensures data == "" ==> r.2 == ""
  {
    var s := s.(data := s.data + data);
    if |s.data| > s.contentLength then (Error, s.(error := ""), "")
    else if |s.data| == s.contentLength then (Success, s, "")
    else (NeedMore, s, "")
  }

  function Step(s: State, data: string): (r: (Result, State, string))
    ensures data != "" ==> |r.2| < |data|
    ensures data == "" ==> r.2 == ""
  {
    match s.phase
    case StartLine => StartLineStep(s, data)
    case Headers => HeadersStep(s, data)
    case Body => BodyStep(s, data)
  }

  /** parseNextPart: state methods are called until one decides or the chunk is used up. */
  function Part(s: State, data: string): (Result, State)
    decreases |data|
  {
    var (result, s', rest) := Step(s, data);
    if result == NeedMore && rest != "" then Part(s', rest) else (result, s')
  }

  /** Chunks fed until the first Success or Error. */
  function FeedAll(s: State, chunks: seq<string>): (Result, State)
    decreases |chunks|
  {
    if chunks == [] then (NeedMore, s)
    else
      var (result, s') := Part(s, chunks[0]);
      if result == NeedMore then FeedAll(s', chunks[1..]) else (result, s')
  }

  // ---- The parser object ----

  class Parser {
    var phase: Phase
    var data: string
    var contentLength: nat
    var method_: string
    var uri: string
    var headers: seq<string>
    var error: string

    ghost function View(): State
      reads this
    {
      State(phase, data, contentLength, method_, uri, headers, error)
    }

    constructor ()
      ensures View() == FRESH
    {
      phase, data, contentLength := StartLine, "", 0;
      method_, uri, headers, error := "", "", [], "";
    }

    /** The state methods take the chunk by reference: `rest` is what they leave of it. */
    method StartLineState(chunk: string) returns (result: Result, rest: string)
      modifies this
      ensures (result, View(), rest) == StartLineStep(old(View()), chunk)
    {
      hide AsText, MatchStartLine;
      var end := IndexOf(chunk, '\n');
      if end != -1 {
        data := data + chunk[..end + 1];
        rest := chunk[end + 1..];
        var startLine := AsText(data);
        data := "";
        match MatchStartLine(startLine)
        case Some(words) =>
          method_ := words.0;
          uri := words.1;
          phase := Headers;
          result := NeedMore;
        case None =>
          error := "Invalid start line: " + startLine;
          result := Error;
      } else {
        data := data + chunk;
        rest := "";
        result := NeedMore;
      }
    }

    method HeadersState(chunk: string) returns (result: Result, rest: string)
      modifies this
      ensures (result, View(), rest) == HeadersStep(old(View()), chunk)
    {
      hide AsText, MatchHeader, ParseUnsigned, IsContentLength;
      var end := IndexOf(chunk, '\n');
      if end != -1 {
        data := data + chunk[..end + 1];
        rest := chunk[end + 1..];
        var header := AsText(data);
        data := "";
        match MatchHeader(header)
        case Some(h) =>
          result := NeedMore;
          headers := headers + [h.line];
          if IsContentLength(h.name) {
            var parsed := ParseUnsigned(h.value, ULONGLONG_BOUND);
            contentLength := if parsed.Some? then parsed.value else 0;
            if parsed.None? {
              result := Error;
              error := LengthError(h.value);
            }
          }
        case None =>
          if header == CRLF {
            if contentLength != 0 {
              phase := Body;
              result := NeedMore;
            } else {
              result := Success;
            }
          } else {
            error := "Invalid header: " + header;
            result := Error;
          }
      } else {
        data := data + chunk;
        rest := "";
        result := NeedMore;
      }
    }

    method BodyState(chunk: string) returns (result: Result, rest: string)
      modifies this
      ensures (result, View(), rest) == BodyStep(old(View()), chunk)
    {
      data := data + chunk;
      rest := "";
      if |data| > contentLength {
        error := "";
        result := Error;
      } else if |data| == contentLength {
        result := Success;
      } else {
        result := NeedMore;
      }
    }

    /** The call of the current state method. */
    method CurrentState(chunk: string) returns (result: Result, rest: string)
      modifies this
      ensures (result, View(), rest) == Step(old(View()), chunk)
    {
      match phase
      case StartLine => result, rest := StartLineState(chunk);
      case Headers => result, rest := HeadersState(chunk);
      case Body => result, rest := BodyState(chunk);
    }

    method ParseNextPart(chunk: string) returns (result: Result)
      modifies this
      ensures (result, View()) == Part(old(View()), chunk)
    {
      var rest;
      result, rest := CurrentState(chunk);
      while result == NeedMore && rest != ""
        invariant Part(old(View()), chunk) ==
                  if result == NeedMore && rest != "" then Part(View(), rest) else (result, View())
        decreases |rest|
      {
        result, rest := CurrentState(rest);
      }
    }

    /** The socket handler: each chunk read is parsed, until the first Success or Error. Its
        postcondition is the parser's meaning: unless the body overshoots, the outcome is the
        reference reading of all the bytes, however they were split. */
    method OnReadyRead(chunks: seq<string>) returns (result: Result)
      requires View() == FRESH
      modifies this
      ensures (result, View()) == FeedAll(FRESH, chunks)
      ensures !Overshoots(Flatten(chunks)) ==> Observe(result, View()) == Reference(Flatten(chunks))
    {
      result := NeedMore;
      var i := 0;
      while i < |chunks| && result == NeedMore
        invariant 0 <= i <= |chunks|
        invariant FeedAll(FRESH, chunks) ==
                  if result == NeedMore then FeedAll(View(), chunks[i..]) else (result, View())
      {
        result := ParseNextPart(chunks[i]);
        i := i + 1;
      }
      ChunkIndependence(chunks);
    }
  }

  // ---- Reference reading: the whole request at once, no buffer and no phases ----

  /** The reading of a request's lines up to the blank one. */
  datatype Head =
    | Partial(method_: string, uri: string, headers: seq<string>, contentLength: nat, pending: string)
    | Rejected(method_: string, uri: string, headers: seq<string>, error: string)
    | Complete(method_: string, uri: string, headers: seq<string>, contentLength: nat, rest: string)

  function ReadHeaders(s: string, m: string, u: string, hs: seq<string>, length: nat): Head
    decreases |s|
  {
    var end := IndexOf(s, '\n');
    if end == -1 then Partial(m, u, hs, length, s)
    else
      match ReadLine(AsText(s[..end + 1]), length)
      case Field(line, n) => ReadHeaders(s[end + 1..], m, u, hs + [line], n)
      case BadLength(line, error) => Rejected(m, u, hs + [line], error)
      case Invalid(error) => Rejected(m, u, hs, error)
      case Blank => Complete(m, u, hs, length, s[end + 1..])
  }

  function ReadHead(s: string): Head {
    var end := IndexOf(s, '\n');
    if end == -1 then Partial("", "", [], 0, s)
    else
      var text := AsText(s[..end + 1]);
      match MatchStartLine(text)
      case Some(words) => ReadHeaders(s[end + 1..], words.0, words.1, [], 0)
      case None => Rejected("", "", [], "Invalid start line: " + text)
  }

  function WithRest(h: Head, rest: string): Head {
    if h.Complete? then h.(rest := rest) else h
  }

  /** Without a length there is no body and whatever follows the blank line is ignored. */
  function Finish(h: Head): Outcome {
    match h
    case Partial(m, u, hs, _, pending) => Outcome(NeedMore, m, u, hs, pending, "")
    case Rejected(m, u, hs, error) => Outcome(Error, m, u, hs, "", error)
    case Complete(m, u, hs, length, rest) =>
      if length == 0 then Outcome(Success, m, u, hs, "", "")
      else if |rest| == length then Outcome(Success, m, u, hs, rest, "")
      else if |rest| < length then Outcome(NeedMore, m, u, hs, rest, "")
      else Outcome(Error, m, u, hs, rest, "")
  }

  function Reference(s: string): Outcome { Finish(ReadHead(s)) }

  /** More bytes follow the blank line than the announced, non-zero length. */
  predicate HeadOvershoots(h: Head) {
    h.Complete? && h.contentLength != 0 && |h.rest| > h.contentLength
  }

  predicate Overshoots(s: string) { HeadOvershoots(ReadHead(s)) }

  // ---- A parser state as a point in the reference reading ----

  /** What a parser still to decide looks like. */
  predicate Waiting(s: State) {
    && s.error == ""
    && match s.phase
       case StartLine => s.method_ == s.uri == "" && s.headers == [] && s.contentLength == 0 && '\n' !in s.data
       case Headers => '\n' !in s.data
       case Body => |s.data| < s.contentLength
  }

  /** The reference reading continued from a parser state. */
  function HeadFrom(s: State, more: string): Head {
    match s.phase
    case StartLine => ReadHead(s.data + more)
    case Headers => ReadHeaders(s.data + more, s.method_, s.uri, s.headers, s.contentLength)
    case Body => Complete(s.method_, s.uri, s.headers, s.contentLength, s.data + more)
  }

  /** A line: one line feed, at its end. */
  predicate IsLine(line: string) {
    line != "" && line[|line| - 1] == '\n' && '\n' !in line[..|line| - 1]
  }

  /** Taking the first line off a text that starts with one. */
  lemma TakeLine(line: string, tail: string)
    requires IsLine(line)
    ensures var all := line + tail;
            IndexOf(all, '\n') == |line| - 1 && all[..|line|] == line && all[|line|..] == tail
  {
    var all := line + tail;
    assert all[..|line| - 1] == line[..|line| - 1];
    IndexOfUnique(all, '\n', |line| - 1);
  }

  /** The first line of a text that has a line feed. */
  lemma HasLine(s: string)
    requires '\n' in s
    ensures var end := IndexOf(s, '\n');
            IsLine(s[..end + 1]) && s == s[..end + 1] + s[end + 1..]
  {
    var end := IndexOf(s, '\n');
    Cut(s, end + 1);
    assert s[..end + 1][..end] == s[..end];
  }

  /** A buffer without a line feed and a chunk: the first line ends at the chunk's line feed. */
  lemma JoinLine(buffer: string, line: string)
    requires '\n' !in buffer && IsLine(line)
    ensures IsLine(buffer + line)
  {
    assert (buffer + line)[..|buffer + line| - 1] == buffer + line[..|line| - 1];
  }

  lemma TakeHeader(line: string, tail: string, m: string, u: string, hs: seq<string>, length: nat)
    requires IsLine(line)
    ensures var read := ReadLine(AsText(line), length);
            ReadHeaders(line + tail, m, u, hs, length) ==
            if read.Field? then ReadHeaders(tail, m, u, hs + [read.line], read.length)
            else if read.BadLength? then Rejected(m, u, hs + [read.line], read.error)
            else if read.Invalid? then Rejected(m, u, hs, read.error)
            else Complete(m, u, hs, length, tail)
  {
    TakeLine(line, tail);
  }

  lemma TakeStart(line: string, tail: string)
    requires IsLine(line)
    ensures var words := MatchStartLine(AsText(line));
            ReadHead(line + tail) ==
            if words.Some? then ReadHeaders(tail, words.value.0, words.value.1, [], 0)
            else Rejected("", "", [], "Invalid start line: " + AsText(line))
  {
    TakeLine(line, tail);
  }

  lemma WaitingShows(s: State)
    requires Waiting(s)
    ensures Finish(HeadFrom(s, "")) == Observe(NeedMore, s)
  {
    assert s.data + "" == s.data;
  }

  /** One state method call that keeps waiting moves along the reference reading; one that decides
      shows its outcome. */
  lemma StepFollowsReference(s: State, chunk: string, more: string)
    requires Waiting(s)
    ensures var (result, s', rest) := Step(s, chunk);
            if result == NeedMore then Waiting(s') && HeadFrom(s, chunk + more) == HeadFrom(s', rest + more)
            else Finish(HeadFrom(s, chunk)) == Observe(result, s')
  {
    hide AsText, MatchStartLine, ReadLine;
    var end := IndexOf(chunk, '\n');
    if s.phase == Body || end == -1 {
      Assoc(s.data, chunk, more);
      assert "" + more == more;
    } else {
      var line, rest := chunk[..end + 1], chunk[end + 1..];
      HasLine(chunk);
      JoinLine(s.data, line);
      LineStepFollowsReference(s, line, rest, more);
    }
  }

  lemma LineStepFollowsReference(s: State, line: string, rest: string, more: string)
    requires Waiting(s) && s.phase != Body && IsLine(line)
    ensures var (result, s', rest') := Step(s, line + rest);
            && rest' == rest
            && if result == NeedMore then
                 Waiting(s') && HeadFrom(s, line + rest + more) == HeadFrom(s', rest + more)
               else Finish(HeadFrom(s, line + rest)) == Observe(result, s')
  {
    hide AsText, MatchStartLine, ReadLine, ReadHead, ReadHeaders, IsLine;
    TakeLine(line, rest);
    JoinLine(s.data, line);
    Assoc(line, rest, more);
    Assoc(s.data, line, rest + more);
    Assoc(s.data, line, rest);
    assert "" + (rest + more) == rest + more;
    if s.phase == StartLine {
      TakeStart(s.data + line, rest + more);
      TakeStart(s.data + line, rest);
    } else {
      TakeHeader(s.data + line, rest + more, s.method_, s.uri, s.headers, s.contentLength);
      TakeHeader(s.data + line, rest, s.method_, s.uri, s.headers, s.contentLength);
    }
  }

  /** The same for a whole parseNextPart call. */
  lemma {:induction false} PartFollowsReference(s: State, chunk: string, more: string)
    requires Waiting(s)
    ensures var (result, s') := Part(s, chunk);
            if result == NeedMore then Waiting(s') && HeadFrom(s, chunk + more) == HeadFrom(s', more)
            else Finish(HeadFrom(s, chunk)) == Observe(result, s')
    decreases |chunk|
  {
    var (result, s', rest) := Step(s, chunk);
    StepFollowsReference(s, chunk, more);
    if result == NeedMore {
      StepFollowsReference(s, chunk, "");
      assert chunk + "" == chunk && rest + "" == rest;
      if rest != "" {
        PartFollowsReference(s', rest, more);
      } else {
        assert rest + more == more;
      }
    }
  }

  lemma NoLineYet(s: string, m: string, u: string, hs: seq<string>, length: nat)
    requires '\n' !in s
    ensures var h := ReadHeaders(s, m, u, hs, length); !h.Rejected? && !h.Complete?
  {
  }

  lemma NoStartYet(s: string)
    requires '\n' !in s
    ensures var h := ReadHead(s); !h.Rejected? && !h.Complete?
  {
  }

  /** A reading that has decided is not changed by more bytes; they only follow the blank line. */
  lemma {:induction false} DecidedHeadersStay(s: string, more: string, m: string, u: string, hs: seq<string>, length: nat)
    ensures var h := ReadHeaders(s, m, u, hs, length);
            var h' := ReadHeaders(s + more, m, u, hs, length);
            && (h.Rejected? ==> h' == h)
            && (h.Complete? ==> h' == WithRest(h, h.rest + more))
    decreases |s|
  {
    var end := IndexOf(s, '\n');
    if end == -1 {
      NoLineYet(s, m, u, hs, length);
    } else {
      var line, tail := s[..end + 1], s[end + 1..];
      HasLine(s);
      hide ReadHeaders, ReadLine, AsText, IndexOf, IsLine;
      TakeHeader(line, tail, m, u, hs, length);
      Assoc(line, tail, more);
      TakeHeader(line, tail + more, m, u, hs, length);
      match ReadLine(AsText(line), length) {
        case Field(text, n) => DecidedHeadersStay(tail, more, m, u, hs + [text], n);
        case _ =>
      }
    }
  }

  lemma DecidedHeadStays(s: string, more: string)
    ensures var h := ReadHead(s);
            var h' := ReadHead(s + more);
            && (h.Rejected? ==> h' == h)
            && (h.Complete? ==> h' == WithRest(h, h.rest + more))
  {
    var end := IndexOf(s, '\n');
    if end == -1 {
      NoStartYet(s);
    } else {
      var line, tail := s[..end + 1], s[end + 1..];
      HasLine(s);
      hide ReadHead, ReadHeaders, MatchStartLine, AsText, IndexOf, IsLine;
      TakeStart(line, tail);
      Assoc(line, tail, more);
      TakeStart(line, tail + more);
      match MatchStartLine(AsText(line)) {
        case Some(w) => DecidedHeadersStay(tail, more, w.0, w.1, [], 0);
        case None =>
      }
    }
  }

  lemma DecidedStays(s: State, chunk: string, more: string)
    ensures var h := HeadFrom(s, chunk);
            var h' := HeadFrom(s, chunk + more);
            && (h.Rejected? ==> h' == h)
            && (h.Complete? ==> h' == WithRest(h, h.rest + more))
  {
    assert s.data + (chunk + more) == s.data + chunk + more;
    match s.phase
    case Body =>
    case Headers => DecidedHeadersStay(s.data + chunk, more, s.method_, s.uri, s.headers, s.contentLength);
    case StartLine => DecidedHeadStays(s.data + chunk, more);
  }

  /** Feeding chunks to a waiting parser gives the reference reading of their concatenation. */
  lemma {:induction false} FeedFollowsReference(s: State, chunks: seq<string>)
    requires Waiting(s)
    requires !HeadOvershoots(HeadFrom(s, Flatten(chunks)))
    ensures var (result, s') := FeedAll(s, chunks);
            Observe(result, s') == Finish(HeadFrom(s, Flatten(chunks)))
    decreases |chunks|
  {
    if chunks == [] {
      WaitingShows(s);
    } else {
      var chunk, more := chunks[0], Flatten(chunks[1..]);
      var (result, s') := Part(s, chunk);
      PartFollowsReference(s, chunk, more);
      if result == NeedMore {
        FeedFollowsReference(s', chunks[1..]);
      } else {
        DecidedStays(s, chunk, more);
      }
    }
  }

  /** Chunk independence: whatever the split, the outcome is the reference reading of all bytes. */
  lemma ChunkIndependence(chunks: seq<string>)
    ensures var (result, s) := FeedAll(FRESH, chunks);
            !Overshoots(Flatten(chunks)) ==> Observe(result, s) == Reference(Flatten(chunks))
  {
    var all := Flatten(chunks);
    assert "" + all == all;
    if !Overshoots(all) {
      FeedFollowsReference(FRESH, chunks);
    }
  }

  /** In one piece, the outcome is the reference reading without any condition. */
  lemma OnePiece(s: string)
    ensures var (result, state) := FeedAll(FRESH, [s]); Observe(result, state) == Reference(s)
  {
    hide Part, ReadHead, ReadHeaders;
    var (result, state) := Part(FRESH, s);
    PartFollowsReference(FRESH, s, "");
    assert "" + s == s && s + "" == s;
    if result == NeedMore {
      WaitingShows(state);
    }
  }

  ghost predicate SplitAgrees(s: string, chunks: seq<string>) {
    var (r, state) := FeedAll(FRESH, chunks);
    var (r1, state1) := FeedAll(FRESH, [s]);
    Observe(r, state) == Observe(r1, state1)
  }

  /** The bytes up to and including the blank line, if the reading gets that far. */
  lemma {:induction false} HeadersPrefix(s: string, m: string, u: string, hs: seq<string>, length: nat) returns (head: string)
    requires ReadHeaders(s, m, u, hs, length).Complete?
    ensures s == head + ReadHeaders(s, m, u, hs, length).rest
    ensures ReadHeaders(head, m, u, hs, length) == WithRest(ReadHeaders(s, m, u, hs, length), "")
    decreases |s|
  {
    var line, tail := FirstHeaderLine(s, m, u, hs, length);
    hide AsText, MatchStartLine, ReadLine, ReadHead, ReadHeaders, IsLine;
    var read := ReadLine(AsText(line), length);
    if !read.Field? {
      assert line + "" == line;
      TakeHeader(line, "", m, u, hs, length);
      return line;
    }
    var rest := HeadersPrefix(tail, m, u, hs + [read.line], read.length);
    TakeHeader(line, rest, m, u, hs, length);
    Assoc(line, rest, ReadHeaders(s, m, u, hs, length).rest);
    return line + rest;
  }

  lemma FirstHeaderLine(s: string, m: string, u: string, hs: seq<string>, length: nat) returns (line: string, tail: string)
    requires ReadHeaders(s, m, u, hs, length).Complete?
    ensures IsLine(line) && s == line + tail
    ensures var read := ReadLine(AsText(line), length);
            && (read.Field? || read.Blank?)
            && ReadHeaders(s, m, u, hs, length) ==
               if read.Field? then ReadHeaders(tail, m, u, hs + [read.line], read.length)
               else Complete(m, u, hs, length, tail)
  {
    var end := IndexOf(s, '\n');
    line, tail := s[..end + 1], s[end + 1..];
    HasLine(s);
    TakeHeader(line, tail, m, u, hs, length);
  }

  lemma HeadPrefix(s: string) returns (head: string)
    requires ReadHead(s).Complete?
    ensures var h := ReadHead(s); s == head + h.rest && ReadHead(head) == WithRest(h, "")
  {
    assert '\n' in s;
    hide AsText, MatchStartLine, ReadLine, ReadHead, ReadHeaders, IsLine;
    var end := IndexOf(s, '\n');
    var line, tail := s[..end + 1], s[end + 1..];
    HasLine(s);
    TakeStart(line, tail);
    var w := MatchStartLine(AsText(line)).value;
    var rest := HeadersPrefix(tail, w.0, w.1, [], 0);
    head := line + rest;
    var body := ReadHeaders(tail, w.0, w.1, [], 0).rest;
    Assoc(line, rest, body);
    TakeStart(line, rest);
  }

  /** The exact condition: all splits of `s` agree with feeding it in one piece if and only if `s`
      does not overshoot its announced body. The split that shows a difference cuts right after
      the body. */
  lemma SplitsAgreeIffNoOvershoot(s: string)
    ensures (forall chunks :: Flatten(chunks) == s ==> SplitAgrees(s, chunks)) <==> !Overshoots(s)
  {
    OnePiece(s);
    if !Overshoots(s) {
      forall chunks | Flatten(chunks) == s ensures SplitAgrees(s, chunks) {
        ChunkIndependence(chunks);
      }
    } else {
      var chunks := OvershootingSplit(s);
    }
  }

  lemma OvershootingSplit(s: string) returns (chunks: seq<string>)
    requires Overshoots(s)
    ensures Flatten(chunks) == s && !SplitAgrees(s, chunks)
  {
    hide ReadHead, Part;
    var h := ReadHead(s);
    var head := HeadPrefix(s);
    var body, surplus := h.rest[..h.contentLength], h.rest[h.contentLength..];
    var front := head + body;
    assert s == front + surplus;
    chunks := [front, surplus];
    assert chunks[1..] == [surplus] && Flatten([surplus]) == surplus;
    DecidedHeadStays(head, body);
    assert "" + body == body;
    OnePiece(front);
    OnePiece(s);
    var (result, state) := Part(FRESH, front);
    assert FeedAll(FRESH, [front]) == (result, state);
    assert FeedAll(FRESH, chunks) == (result, state);
  }

  // ---- Printing a request ----

  predicate HasNul(s: string) { '\0' in s }

  const SMALL := "content-length"
  const CAPITAL := "CONTENT-LENGTH"

  /** The length's name, each letter small or capital. */
  predicate SpellsLength(name: string) {
    |name| == 14 && forall i :: 0 <= i < 14 ==> name[i] == SMALL[i] || name[i] == CAPITAL[i]
  }

  lemma CaseOfLength(c: char, i: nat)
    requires i < 14
    ensures LowerChar(c) == SMALL[i] <==> c == SMALL[i] || c == CAPITAL[i]
  {
    CaseOfLetter(c, SMALL[i], CAPITAL[i]);
  }

  lemma CaseOfLetter(c: char, small: char, capital: char)
    requires (IsLower(small) && capital == UpperChar(small)) || (small == capital == '-')
    ensures LowerChar(c) == small <==> c == small || c == capital
  {
  }

  /** The name is compared without regard to case. */
  lemma LengthNames(name: string)
    ensures IsContentLength(name) <==> SpellsLength(name)
  {
    assert |SMALL| == 14;
    if |name| == 14 {
      forall i | 0 <= i < 14 ensures Lower(name)[i] == SMALL[i] <==> name[i] == SMALL[i] || name[i] == CAPITAL[i] {
        CaseOfLength(name[i], i);
      }
      assert IsContentLength(name) <==> forall i :: 0 <= i < 14 ==> Lower(name)[i] == SMALL[i];
    }
  }

  /** A header line a client may send beside the length: it holds ": ", no line feed, and what
      stands before its last ": " does not spell the length's name. */
  predicate IsHeader(h: string) {
    var colon := LastIndexOf(h, ": ");
    '\n' !in h && colon != -1 && !SpellsLength(h[..colon])
  }

  predicate AreHeaders(hs: seq<string>) { forall i :: 0 <= i < |hs| ==> IsHeader(hs[i]) }

  predicate AnyNul(hs: seq<string>) { exists i :: 0 <= i < |hs| && HasNul(hs[i]) }

  function LengthHeader(name: string, n: nat): string { name + ": " + Decimal(n) }

  function PrintHeaders(hs: seq<string>): string {
    if hs == [] then "" else hs[0] + CRLF + PrintHeaders(hs[1..])
  }

  function PrintHead(method_: string, uri: string, version: string, hs: seq<string>): string {
    method_ + " " + uri + version + (PrintHeaders(hs) + CRLF)
  }

  /** The request with its length line somewhere among the headers. */
  function Print(method_: string, uri: string, version: string, before: seq<string>, name: string, after: seq<string>, body: string): string {
    PrintHead(method_, uri, version, before + [LengthHeader(name, |body|)] + after) + body
  }

  predicate IsVersion(version: string) { version == " HTTP/1.0\r\n" || version == " HTTP/1.1\r\n" }

  /** Text with a NUL loses its line end. */
  lemma TextOf(line: string)
    requires IsLine(line)
    ensures !HasNul(line) ==> AsText(line) == line
    ensures HasNul(line) ==> '\n' !in AsText(line)
  {
  }

  lemma EndsWithin(text: string, tail: string, c: char)
    requires c in tail
    ensures EndsWith(text, tail) ==> c in text
  {
    if EndsWith(text, tail) {
      assert forall d :: d in text[|text| - |tail|..] ==> d in text;
    }
  }

  lemma NoLineNoMatch(text: string)
    requires '\n' !in text
    ensures MatchStartLine(text).None? && ReadLine(text, 0).Invalid?
    ensures forall n :: ReadLine(text, n) == ReadLine(text, 0)
  {
    EndsWithin(text, CRLF, '\n');
    EndsWithin(text, " HTTP/1.0\r\n", '\n');
    EndsWithin(text, " HTTP/1.1\r\n", '\n');
    assert text == CRLF ==> EndsWith(text, CRLF);
  }

  lemma ReadPrintedStart(method_: string, uri: string, version: string)
    requires ' ' !in uri && IsVersion(version)
    ensures MatchStartLine(method_ + " " + uri + version) == Some((method_, uri))
  {
    var words := method_ + " " + uri;
    var text := words + version;
    assert text[|text| - 11..] == version;
    assert text[..|text| - 11] == words;
    assert Stands(words, |method_|, " ");
    forall j | |method_| < j ensures !Stands(words, j, " ") {
      if j < |words| {
        assert words[j] == uri[j - |method_| - 1];
      }
    }
    assert LastIndexOf(words, " ") == |method_|;
    assert words[|method_| + 1..] == uri && words[..|method_|] == method_;
  }

  lemma ReadPrintedHeader(h: string, n: nat)
    requires IsHeader(h)
    ensures ReadLine(h + CRLF, n) == Field(h, n)
  {
    var text := h + CRLF;
    assert text[|text| - 2..] == CRLF && text[..|text| - 2] == h;
    LengthNames(h[..LastIndexOf(h, ": ")]);
    hide LastIndexOf, IsContentLength, SpellsLength;
  }

  /** A printed length is read back, however its name is spelled, or rejected when it does not fit 64 bits. */
  lemma ReadPrintedLength(name: string, n: nat, length: nat)
    requires SpellsLength(name)
    ensures ReadLine(LengthHeader(name, n) + CRLF, length) ==
              if n <= 18446744073709551615 then Field(LengthHeader(name, n), n)
              else BadLength(LengthHeader(name, n), LengthError(Decimal(n)))
  {
    var h := LengthHeader(name, n);
    var text := h + CRLF;
    assert text[|text| - 2..] == CRLF && text[..|text| - 2] == h;
    LengthHeaderColon(name, n);
    LengthNames(name);
    ParseDecimal(n, ULONGLONG_BOUND);
    hide LastIndexOf, IsContentLength, ParseUnsigned, SpellsLength;
  }

  lemma StandsFirst(s: string, i: int, part: string)
    requires part != ""
    ensures Stands(s, i, part) ==> s[i] == part[0]
  {
    if Stands(s, i, part) {
      assert s[i..i + |part|][0] == s[i];
    }
  }

  lemma LengthHeaderColon(name: string, n: nat)
    ensures var h := LengthHeader(name, n);
            LastIndexOf(h, ": ") == |name| && h[..|name|] == name && h[|name| + 2..] == Decimal(n)
  {
    assert forall c :: c in Decimal(n) ==> IsDigit(c);
    LastColon(name, Decimal(n));
  }

  /** The last ": " of a line whose value holds none. */
  lemma LastColon(name: string, value: string)
    requires ':' !in value
    ensures var h := name + ": " + value;
            LastIndexOf(h, ": ") == |name| && h[..|name|] == name && h[|name| + 2..] == value
  {
    var h := name + ": " + value;
    assert h[|name|..|name| + 2] == ": ";
    assert Stands(h, |name|, ": ");
    forall j | |name| < j ensures !Stands(h, j, ": ") {
      StandsFirst(h, j, ": ");
    }
  }

  lemma HeaderIsLine(h: string)
    requires '\n' !in h
    ensures IsLine(h + CRLF) && (HasNul(h + CRLF) <==> HasNul(h))
  {
    assert (h + CRLF)[..|h + CRLF| - 1] == h + "\r";
  }

  /** Printed headers are read back one by one, until the first that holds a NUL. */
  lemma {:induction false} ReadPrintedHeaders(hs: seq<string>, tail: string, m: string, u: string, done: seq<string>, length: nat)
    requires AreHeaders(hs)
    ensures !AnyNul(hs) ==>
              ReadHeaders(PrintHeaders(hs) + tail, m, u, done, length) == ReadHeaders(tail, m, u, done + hs, length)
    ensures AnyNul(hs) ==> ReadHeaders(PrintHeaders(hs) + tail, m, u, done, length).Rejected?
  {
    hide IsHeader, IsContentLength, ReadLine, AsText, ReadHeaders, IsLine, HasNul;
    if hs == [] {
      assert "" + tail == tail && done + hs == done;
    } else {
      var line, more := hs[0] + CRLF, hs[1..];
      assert AreHeaders(more) && IsHeader(hs[0]);
      assert PrintHeaders(hs) == line + PrintHeaders(more);
      AnyNulCons(hs);
      hide AreHeaders, AnyNul, PrintHeaders;
      ReadPrintedHeaders(more, tail, m, u, done + [hs[0]], length);
      Assoc(line, PrintHeaders(more), tail);
      assert hs == [hs[0]] + more;
      Assoc(done, [hs[0]], more);
      ReadPrintedLine(hs[0], PrintHeaders(more) + tail, m, u, done, length);
    }
  }

  lemma AnyNulCons(hs: seq<string>)
    requires hs != []
    ensures AnyNul(hs) <==> HasNul(hs[0]) || AnyNul(hs[1..])
  {
    hide HasNul;
    assert forall i :: 0 < i < |hs| ==> hs[i] == hs[1..][i - 1];
  }

  lemma ReadPrintedLine(h: string, tail: string, m: string, u: string, done: seq<string>, length: nat)
    requires IsHeader(h)
    ensures var read := ReadHeaders(h + CRLF + tail, m, u, done, length);
            if HasNul(h) then read.Rejected? else read == ReadHeaders(tail, m, u, done + [h], length)
  {
    var line := h + CRLF;
    HeaderIsLine(h);
    TextOf(line);
    hide AsText, ReadLine, ReadHeaders;
    TakeHeader(line, tail, m, u, done, length);
    if HasNul(h) {
      NoLineNoMatch(AsText(line));
      assert ReadLine(AsText(line), length) == ReadLine(AsText(line), 0);
    } else {
      ReadPrintedHeader(h, length);
    }
  }

  lemma ReadPrintedBlank(tail: string, m: string, u: string, hs: seq<string>, length: nat)
    ensures ReadHeaders(CRLF + tail, m, u, hs, length) == Complete(m, u, hs, length, tail)
  {
    assert CRLF[..1] == "\r";
    TakeHeader(CRLF, tail, m, u, hs, length);
    assert AsText(CRLF) == CRLF;
    assert CRLF[..0] == "";
  }

  lemma ReadPrintedHead(method_: string, uri: string, version: string, hs: seq<string>, tail: string)
    requires '\n' !in method_ && '\n' !in uri && ' ' !in uri && IsVersion(version)
    ensures ReadHead(PrintHead(method_, uri, version, hs) + tail) ==
            ReadStart(method_, uri, PrintHeaders(hs) + (CRLF + tail), HasNul(method_ + uri))
  {
    var line := method_ + " " + uri + version;
    hide ReadHead, ReadStart, IsVersion;
    Assoc(line, PrintHeaders(hs) + CRLF, tail);
    Assoc(PrintHeaders(hs), CRLF, tail);
    ReadPrintedStartLine(method_, uri, version, PrintHeaders(hs) + (CRLF + tail));
  }

  function ReadStart(method_: string, uri: string, rest: string, nul: bool): Head {
    if nul then Rejected("", "", [], "Invalid start line: " + AsText(method_ + " " + uri))
    else ReadHeaders(rest, method_, uri, [], 0)
  }

  lemma ReadPrintedStartLine(method_: string, uri: string, version: string, rest: string)
    requires '\n' !in method_ && '\n' !in uri && ' ' !in uri && IsVersion(version)
    ensures ReadHead(method_ + " " + uri + version + rest) ==
            ReadStart(method_, uri, rest, HasNul(method_ + uri))
  {
    var line := method_ + " " + uri + version;
    StartIsLine(method_, uri, version);
    TextOf(line);
    NulText(method_ + " " + uri, version);
    hide AsText, ReadHead, ReadHeaders, IsLine, IsVersion;
    TakeStart(line, rest);
    if HasNul(method_ + uri) {
      NoLineNoMatch(AsText(line));
    } else {
      ReadPrintedStart(method_, uri, version);
    }
  }

  lemma NulText(s: string, t: string)
    ensures HasNul(s) ==> AsText(s + t) == AsText(s)
  {
    if HasNul(s) {
      var i := IndexOf(s, '\0');
      assert (s + t)[..i] == s[..i];
      IndexOfUnique(s + t, '\0', i);
    }
  }

  lemma StartIsLine(method_: string, uri: string, version: string)
    requires '\n' !in method_ && '\n' !in uri && IsVersion(version)
    ensures var line := method_ + " " + uri + version;
            IsLine(line) && (HasNul(line) <==> HasNul(method_ + uri))
  {
    var line := method_ + " " + uri + version;
    assert line[..|line| - 1] == method_ + " " + uri + version[..|version| - 1];
    assert version[..|version| - 1] == " HTTP/1.0\r" || version[..|version| - 1] == " HTTP/1.1\r";
  }

  lemma {:induction false} PrintHeadersConcat(a: seq<string>, b: seq<string>)
    ensures PrintHeaders(a + b) == PrintHeaders(a) + PrintHeaders(b)
  {
    if a == [] {
      assert a + b == b;
    } else {
      PrintHeadersConcat(a[1..], b);
      assert (a + b)[1..] == a[1..] + b;
      Assoc(a[0] + CRLF, PrintHeaders(a[1..]), PrintHeaders(b));
    }
  }

  lemma PrintHeadersAround(before: seq<string>, h: string, after: seq<string>, tail: string)
    ensures PrintHeaders(before + [h] + after) + tail ==
            PrintHeaders(before) + (h + CRLF + (PrintHeaders(after) + tail))
  {
    PrintHeadersConcat(before + [h], after);
    PrintHeadersConcat(before, [h]);
    assert PrintHeaders([h]) == h + CRLF by {
      assert h + CRLF + "" == h + CRLF;
    }
    var line := h + CRLF;
    Assoc(PrintHeaders(before), line, PrintHeaders(after));
    Assoc(PrintHeaders(before), line + PrintHeaders(after), tail);
    Assoc(line, PrintHeaders(after), tail);
  }

  lemma ReadPrintedRequestHeaders(before: seq<string>, name: string, after: seq<string>, m: string, u: string, body: string)
    requires AreHeaders(before) && SpellsLength(name) && AreHeaders(after)
    requires |body| < ULONGLONG_BOUND
    ensures var hs := before + [LengthHeader(name, |body|)] + after;
            ReadRequestHeaders(ReadHeaders(PrintHeaders(hs) + (CRLF + body), m, u, [], 0),
              m, u, hs, body, AnyNul(before) || AnyNul(after))
  {
    var h := LengthHeader(name, |body|);
    var hs := before + [h] + after;
    var afterLength := PrintHeaders(after) + (CRLF + body);
    hide ReadHeaders, LengthHeader, IsHeader, SpellsLength;
    PrintHeadersAround(before, h, after, CRLF + body);
    ReadPrintedHeaders(before, h + CRLF + afterLength, m, u, [], 0);
    if !AnyNul(before) {
      assert [] + before == before;
      ReadPrintedLengthLine(name, |body|, afterLength, m, u, before);
      ReadPrintedHeaders(after, CRLF + body, m, u, before + [h], |body|);
      ReadPrintedBlank(body, m, u, hs, |body|);
    }
  }

  predicate ReadRequestHeaders(read: Head, m: string, u: string, hs: seq<string>, body: string, nul: bool) {
    if nul then read.Rejected? else read == Complete(m, u, hs, |body|, body)
  }

  lemma LengthHeaderPlain(name: string, n: nat)
    requires SpellsLength(name)
    ensures '\n' !in LengthHeader(name, n) && !HasNul(LengthHeader(name, n))
  {
    assert forall c :: c in Decimal(n) ==> IsDigit(c);
    forall c | c in name ensures c != '\n' && c != '\0' {
      var i :| 0 <= i < 14 && name[i] == c;
    }
  }

  lemma ReadPrintedLengthLine(name: string, n: nat, tail: string, m: string, u: string, hs: seq<string>)
    requires SpellsLength(name) && n < ULONGLONG_BOUND
    ensures var h := LengthHeader(name, n);
            ReadHeaders(h + CRLF + tail, m, u, hs, 0) == ReadHeaders(tail, m, u, hs + [h], n)
  {
    var h := LengthHeader(name, n);
    LengthHeaderPlain(name, n);
    HeaderIsLine(h);
    TextOf(h + CRLF);
    ReadPrintedLength(name, n, 0);
    hide ReadLine, AsText, ReadHeaders, LengthHeader, SpellsLength;
    TakeHeader(h + CRLF, tail, m, u, hs, 0);
  }

  /** Parsing undoes printing, in any chunks: the parser ends in success with exactly the method,
      uri, header lines and body printed, however the length's name is spelled, if and only if no NUL
      stands in the head. */
  lemma ParseUndoesPrint(chunks: seq<string>, method_: string, uri: string, version: string,
                         before: seq<string>, name: string, after: seq<string>, body: string)
    requires '\n' !in method_ && '\n' !in uri && ' ' !in uri && IsVersion(version)
    requires AreHeaders(before) && SpellsLength(name) && AreHeaders(after)
    requires |body| < ULONGLONG_BOUND
    requires Flatten(chunks) == Print(method_, uri, version, before, name, after, body)
    ensures var (result, s) := FeedAll(FRESH, chunks);
            var hs := before + [LengthHeader(name, |body|)] + after;
            Observe(result, s) == Outcome(Success, method_, uri, hs, body, "")
            <==> !HasNul(method_ + uri) && !AnyNul(before) && !AnyNul(after)
  {
    hide FeedAll, Flatten, ReadHead, ReadHeaders, LengthHeader, HasNul, AnyNul, AreHeaders, IsVersion, SpellsLength;
    ReadPrintedRequestHeaders(before, name, after, method_, uri, body);
    var hs := before + [LengthHeader(name, |body|)] + after;
    ReadPrintedHead(method_, uri, version, hs, body);
    ChunkIndependence(chunks);
  }

  // ---- What is accepted and what is rejected ----

  /** A start line of the form the parser is for. */
  predicate StartsWith(line: string, method_: string, uri: string, version: string) {
    line == method_ + " " + uri + version && ' ' !in uri && IsVersion(version)
  }

  lemma MatchedStartLine(text: string)
    requires MatchStartLine(text).Some?
    ensures var (m, u) := MatchStartLine(text).value; exists v :: StartsWith(text, m, u, v)
  {
    var (m, u) := MatchStartLine(text).value;
    var words, v := text[..|text| - 11], text[|text| - 11..];
    var blank := LastIndexOf(words, " ");
    assert words[blank..blank + 1] == " ";
    assert words == words[..blank] + " " + words[blank + 1..];
    assert text == words + v;
    NoBlankBehind(words);
    hide LastIndexOf;
    assert StartsWith(text, m, u, v);
  }

  lemma NoBlankBehind(words: string)
    requires LastIndexOf(words, " ") != -1
    ensures ' ' !in words[LastIndexOf(words, " ") + 1..]
  {
    var blank := LastIndexOf(words, " ");
    forall j | blank < j < |words| ensures words[j] != ' ' {
      assert !Stands(words, j, " ");
      assert words[j..j + 1] == [words[j]];
    }
  }

  /** A first line is taken exactly if it has the form, holds no NUL, and then as its own words. */
  lemma StartLineTakenIffForm(line: string, m: string, u: string)
    requires IsLine(line)
    ensures MatchStartLine(AsText(line)) == Some((m, u)) <==> !HasNul(line) && exists v :: StartsWith(line, m, u, v)
  {
    TextOf(line);
    hide AsText, IsLine, IsVersion;
    if HasNul(line) {
      NoLineNoMatch(AsText(line));
    } else {
      hide HasNul;
      if MatchStartLine(line) == Some((m, u)) {
        MatchedStartLine(line);
      }
      if v :| StartsWith(line, m, u, v) {
        ReadPrintedStart(m, u, v);
      }
    }
  }

  /** A request whose first line has not the form, or holds a NUL, is rejected in any chunks. */
  lemma OtherStartIsRejected(chunks: seq<string>, line: string, rest: string)
    requires Flatten(chunks) == line + rest && IsLine(line)
    requires HasNul(line) || forall m, u, v :: !StartsWith(line, m, u, v)
    ensures var (result, s) := FeedAll(FRESH, chunks);
            Observe(result, s) == Outcome(Error, "", "", [], "", "Invalid start line: " + AsText(line))
  {
    hide FeedAll, Flatten, AsText, IsLine, HasNul, MatchStartLine, ReadHead, ReadHeaders, StartsWith;
    if MatchStartLine(AsText(line)).Some? {
      var w := MatchStartLine(AsText(line)).value;
      StartLineTakenIffForm(line, w.0, w.1);
      assert false;
    }
    TakeStart(line, rest);
    ChunkIndependence(chunks);
  }

  /** A header line: a name, ": ", a value and the line end. */
  predicate NamedField(line: string, name: string, value: string) { line == name + ": " + value + CRLF }

  lemma MatchedHeader(text: string)
    requires MatchHeader(text).Some?
    ensures var h := MatchHeader(text).value; NamedField(text, h.name, h.value)
  {
    var line := text[..|text| - 2];
    var colon := LastIndexOf(line, ": ");
    assert Stands(line, colon, ": ");
    assert line == line[..colon] + line[colon..colon + 2] + line[colon + 2..];
    assert text == line + text[|text| - 2..];
    hide LastIndexOf;
  }

  lemma NamedFieldMatches(name: string, value: string)
    ensures MatchHeader(name + ": " + value + CRLF).Some?
  {
    var line := name + ": " + value;
    var text := line + CRLF;
    assert text[|text| - 2..] == CRLF && text[..|text| - 2] == line;
    assert line[|name|..|name| + 2] == ": ";
    assert Stands(line, |name|, ": ");
  }

  /** What a line of the headers means: a NUL, and anything but a field and the blank line, is an error. */
  lemma LineIsInvalid(line: string, length: nat)
    requires IsLine(line) && line != CRLF
    requires HasNul(line) || forall name, value :: !NamedField(line, name, value)
    ensures ReadLine(AsText(line), length) == Invalid("Invalid header: " + AsText(line))
  {
    TextOf(line);
    var text := AsText(line);
    hide AsText, IsLine;
    if HasNul(line) {
      EndsWithin(text, CRLF, '\n');
      assert text == CRLF ==> EndsWith(text, CRLF);
    } else if MatchHeader(text).Some? {
      MatchedHeader(text);
      assert false;
    }
  }

  /** A request whose start line and first headers are sound is rejected at the first line that is neither a
      field nor blank, or holds a NUL, whatever follows and in any chunks. */
  lemma OtherLineIsRejected(chunks: seq<string>, method_: string, uri: string, version: string,
                            good: seq<string>, line: string, rest: string)
    requires '\n' !in method_ && '\n' !in uri && ' ' !in uri && IsVersion(version) && !HasNul(method_ + uri)
    requires AreHeaders(good) && !AnyNul(good)
    requires IsLine(line) && line != CRLF
    requires HasNul(line) || forall name, value :: !NamedField(line, name, value)
    requires Flatten(chunks) == method_ + " " + uri + version + (PrintHeaders(good) + (line + rest))
    ensures var (result, s) := FeedAll(FRESH, chunks);
            Observe(result, s) == Outcome(Error, method_, uri, good, "", "Invalid header: " + AsText(line))
  {
    LineIsInvalid(line, 0);
    hide *;
    SoundBefore(method_, uri, version, good, line + rest);
    TakeHeader(line, rest, method_, uri, good, 0);
    RejectedIsError(chunks, method_, uri, good, "Invalid header: " + AsText(line));
  }

  lemma SoundBefore(method_: string, uri: string, version: string, good: seq<string>, tail: string)
    requires '\n' !in method_ && '\n' !in uri && ' ' !in uri && IsVersion(version) && !HasNul(method_ + uri)
    requires AreHeaders(good) && !AnyNul(good)
    ensures ReadHead(method_ + " " + uri + version + (PrintHeaders(good) + tail)) == ReadHeaders(tail, method_, uri, good, 0)
  {
    hide *;
    ReadPrintedStartLine(method_, uri, version, PrintHeaders(good) + tail);
    SoundStart(method_, uri, PrintHeaders(good) + tail);
    ReadPrintedHeaders(good, tail, method_, uri, [], 0);
    assert [] + good == good;
  }

  lemma SoundStart(m: string, u: string, rest: string)
    ensures ReadStart(m, u, rest, false) == ReadHeaders(rest, m, u, [], 0)
  {
  }

  lemma RejectedIsError(chunks: seq<string>, m: string, u: string, hs: seq<string>, error: string)
    requires ReadHead(Flatten(chunks)) == Rejected(m, u, hs, error)
    ensures var (result, s) := FeedAll(FRESH, chunks); Observe(result, s) == Outcome(Error, m, u, hs, "", error)
  {
    hide FeedAll, Flatten, ReadHead;
    ChunkIndependence(chunks);
  }

  /** A length that does not denote a number of 64 bits. */
  ghost predicate NoLength(value: string) { forall n: nat :: n < ULONGLONG_BOUND ==> !Denotes(value, n) }

  /** A field named as the length, in any case, gives the number its value denotes, and is rejected if it
      denotes none or one too large; any other field leaves the length as it was. */
  lemma FieldMeans(name: string, value: string, length: nat, n: nat)
    requires ':' !in value
    ensures var line := name + ": " + value;
            var read := ReadLine(line + CRLF, length);
            && (SpellsLength(name) && n < ULONGLONG_BOUND && Denotes(value, n) ==> read == Field(line, n))
            && (SpellsLength(name) && NoLength(value) ==> read == BadLength(line, LengthError(value)))
            && (!SpellsLength(name) ==> read == Field(line, length))
  {
    var line := name + ": " + value;
    var text := line + CRLF;
    assert text[|text| - 2..] == CRLF && text[..|text| - 2] == line;
    LastColon(name, value);
    LengthNames(name);
    ParsesIffDenotes(value, ULONGLONG_BOUND, n);
    hide LastIndexOf, IsContentLength, ParseUnsigned, SpellsLength, Denotes;
    if NoLength(value) && ParseUnsigned(value, ULONGLONG_BOUND).Some? {
      ParsesIffDenotes(value, ULONGLONG_BOUND, ParseUnsigned(value, ULONGLONG_BOUND).value);
    }
  }

  /** The number of a bad length makes the request an error, in any chunks. */
  lemma BadLengthIsRejected(chunks: seq<string>, method_: string, uri: string, version: string,
                            good: seq<string>, name: string, value: string, rest: string)
    requires '\n' !in method_ && '\n' !in uri && ' ' !in uri && IsVersion(version) && !HasNul(method_ + uri)
    requires AreHeaders(good) && !AnyNul(good)
    requires SpellsLength(name) && NoLength(value) && '\n' !in value && ':' !in value && !HasNul(value)
    requires Flatten(chunks) == method_ + " " + uri + version + (PrintHeaders(good) + (name + ": " + value + CRLF + rest))
    ensures var (result, s) := FeedAll(FRESH, chunks);
            Observe(result, s) == Outcome(Error, method_, uri, good + [name + ": " + value], "", LengthError(value))
  {
    var h := name + ": " + value;
    hide *;
    FieldPlain(name, value);
    FieldMeans(name, value, 0, 0);
    SoundBefore(method_, uri, version, good, h + CRLF + rest);
    TakeHeader(h + CRLF, rest, method_, uri, good, 0);
    RejectedIsError(chunks, method_, uri, good + [h], LengthError(value));
  }

  lemma FieldPlain(name: string, value: string)
    requires SpellsLength(name) && '\n' !in value && !HasNul(value)
    ensures var line := name + ": " + value + CRLF; IsLine(line) && AsText(line) == line
  {
    forall c | c in name ensures c != '\n' && c != '\0' {
      var i :| 0 <= i < 14 && name[i] == c;
    }
    HeaderIsLine(name + ": " + value);
    TextOf(name + ": " + value + CRLF);
    hide AsText, IsLine;
  }

  /** A request without a length has no body: it succeeds at the blank line, whatever follows. */
  lemma NoLengthNoBody(chunks: seq<string>, method_: string, uri: string, version: string, hs: seq<string>, rest: string)
    requires '\n' !in method_ && '\n' !in uri && ' ' !in uri && IsVersion(version) && !HasNul(method_ + uri)
    requires AreHeaders(hs) && !AnyNul(hs)
    requires Flatten(chunks) == PrintHead(method_, uri, version, hs) + rest
    ensures var (result, s) := FeedAll(FRESH, chunks);
            Observe(result, s) == Outcome(Success, method_, uri, hs, "", "")
  {
    var line := method_ + " " + uri + version;
    Assoc(line, PrintHeaders(hs) + CRLF, rest);
    Assoc(PrintHeaders(hs), CRLF, rest);
    hide FeedAll, Flatten, ReadHead, ReadHeaders, AreHeaders, AnyNul, HasNul, IsVersion, PrintHeaders;
    SoundBefore(method_, uri, version, hs, CRLF + rest);
    ReadPrintedBlank(rest, method_, uri, hs, 0);
    ChunkIndependence(chunks);
  }

  /** A request that is not parsed back: the NUL cuts off the line end. */
  lemma RequestWithNul() returns (chunks: seq<string>)
    ensures Flatten(chunks) == Print("GET", "/\0", " HTTP/1.1\r\n", [], "Content-Length", [], "")
    ensures var (result, s) := FeedAll(FRESH, chunks);
            Observe(result, s) != Outcome(Success, "GET", "/\0", [LengthHeader("Content-Length", 0)], "", "")
  {
    var all := Print("GET", "/\0", " HTTP/1.1\r\n", [], "Content-Length", [], "");
    chunks := [all];
    assert Flatten(chunks) == all;
    assert ("GET" + "/\0")[4] == '\0';
    hide FeedAll, Flatten, LengthHeader, AreHeaders, AnyNul, Print, SpellsLength;
    NoHeaders();
    UsualName();
    assert [] + [LengthHeader("Content-Length", |""|)] + [] == [LengthHeader("Content-Length", 0)];
    ParseUndoesPrint(chunks, "GET", "/\0", " HTTP/1.1\r\n", [], "Content-Length", [], "");
  }

  /** Bytes sent after a printed request overshoot it, so that some split shows a difference, if and
      only if the request is one that parses and announces a body: such requests do exist. */
  lemma SurplusOvershoots(method_: string, uri: string, version: string,
                          before: seq<string>, name: string, after: seq<string>, body: string, surplus: string)
    requires '\n' !in method_ && '\n' !in uri && ' ' !in uri && IsVersion(version)
    requires AreHeaders(before) && SpellsLength(name) && AreHeaders(after)
    requires |body| < ULONGLONG_BOUND
    ensures var s := Print(method_, uri, version, before, name, after, body) + surplus;
            var sound := !HasNul(method_ + uri) && !AnyNul(before) && !AnyNul(after);
            && (Overshoots(s) <==> sound && body != "" && surplus != "")
            && ((exists chunks :: Flatten(chunks) == s && !SplitAgrees(s, chunks)) <==> sound && body != "" && surplus != "")
            && (sound && body != "" && surplus != "" ==> FeedAll(FRESH, [s]).0 == Error)
  {
    hide Flatten, ReadHead, ReadHeaders, LengthHeader, HasNul, AnyNul, AreHeaders, IsVersion, SplitAgrees, SpellsLength;
    var s := Print(method_, uri, version, before, name, after, body) + surplus;
    var hs := before + [LengthHeader(name, |body|)] + after;
    ReadPrintedRequestHeaders(before, name, after, method_, uri, body);
    ReadPrintedHead(method_, uri, version, hs, body);
    DecidedHeadStays(Print(method_, uri, version, before, name, after, body), surplus);
    SplitsAgreeIffNoOvershoot(s);
    OnePiece(s);
  }

  /** The smallest one: a body of one byte, and one byte more. */
  lemma OvershootingRequest() returns (s: string, chunks: seq<string>)
    ensures Overshoots(s) && Flatten(chunks) == s && !SplitAgrees(s, chunks)
  {
    hide ReadHead, ReadHeaders, LengthHeader, AreHeaders, SplitAgrees, Flatten, AnyNul, SpellsLength;
    assert AreHeaders([]) && !AnyNul([]) by { NoHeaders(); }
    UsualName();
    assert !HasNul("GET" + "/");
    SurplusOvershoots("GET", "/", " HTTP/1.1\r\n", [], "Content-Length", [], "b", "x");
    s := Print("GET", "/", " HTTP/1.1\r\n", [], "Content-Length", [], "b") + "x";
    chunks := OvershootingSplit(s);
  }

  lemma UsualName()
    ensures SpellsLength("Content-Length")
  {
  }

  lemma NoHeaders()
    ensures AreHeaders([]) && !AnyNul([])
  {
  }
}
