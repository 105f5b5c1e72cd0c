/** The resumable HTTP/1.x request parser: the functions say what one call of `parseRequest`
    does to the parser and the unread bytes, the class does it in place on a `Buffer`. */
module HttpParsers {
  import opened Text
  import opened HttpRequests
  import opened Buffers

  datatype ParseState = ExpectRequestLine | ExpectHeaders | ExpectBody | GotAll

  datatype Parser = Parser(state: ParseState, request: Request, contentLength: nat)

  const FRESH: Parser := Parser(ExpectRequestLine, EMPTY_REQUEST, 0)

  /** How a call ends: `true` without and with a complete request, `false`, or an exception. */
  datatype Outcome = NeedMore | Complete | Rejected | Thrown

  datatype Result = Result(outcome: Outcome, parser: Parser, rest: string)

  const CONTENT_LENGTH: string := "Content-Length"

  // ---- request line ----

  /** `parseRequestLine` on the bytes before CRLF. Fields set before a failure stay set. */
  function ParseRequestLine(line: string, r: Request): (bool, Request) {
    var i := Find(line, ' ');
    if i == |line| then (false, r)
    else
      var verb := StringToMethod(line[..i]);
      if verb == INVALID then (false, r)
      else
        var r1 := r.(verb := verb);
        var j := Find(line, ' ', i + 1);
        if j == |line| then (false, r1)
        else
          var r2 := r1.(path := line[i + 1..j]);
          var v := line[j + 1..];
          if v == "HTTP/1.0" then (true, r2.(version := HTTP10))
          else if v == "HTTP/1.1" then (true, r2.(version := HTTP11))
          else (false, r2)
  }

  function VersionName(v: Version): string
    requires v != UNKNOWN
  {
    if v == HTTP10 then "HTTP/1.0" else "HTTP/1.1"
  }

  function RequestLine(verb: Method, path: string, version: Version): string
    requires verb != INVALID && version != UNKNOWN
  {
    MethodName(verb) + " " + path + " " + VersionName(version)
  }

  lemma SpacesAt(m: string, path: string, v: string)
    requires ' ' !in m && ' ' !in path
    ensures var line := m + " " + path + " " + v;
            var i := Find(line, ' ');
            && i == |m| < |line| && line[..i] == m
            && var j := Find(line, ' ', i + 1);
               j == |m| + 1 + |path| < |line| && line[i + 1..j] == path && line[j + 1..] == v
  {
    var line := m + " " + path + " " + v;
    assert forall k :: 0 <= k < |m| ==> line[k] == m[k];
    assert forall k :: |m| < k < |m| + 1 + |path| ==> line[k] == path[k - |m| - 1];
    assert line[|m|] == ' ' == line[|m| + 1 + |path|];
  }

  /** A line with a known method, a path without spaces and a known version is read back. */
  lemma RequestLineRead(r: Request, verb: Method, path: string, version: Version)
    requires verb != INVALID && version != UNKNOWN && ' ' !in path
    ensures ParseRequestLine(RequestLine(verb, path, version), r)
            == (true, r.(verb := verb, path := path, version := version))
  {
    hide StringToMethod, MethodName, Find;
    var m, v := MethodName(verb), VersionName(version);
    var line := RequestLine(verb, path, version);
    SpacesAt(m, path, v);
    assert line == m + " " + path + " " + v;
  }

  lemma CutAtSpaces(line: string, i: nat, j: nat)
    requires i < j < |line| && line[i] == ' ' == line[j]
    requires forall k :: i < k < j ==> line[k] != ' '
    ensures line == line[..i] + " " + line[i + 1..j] + " " + line[j + 1..]
    ensures ' ' !in line[i + 1..j]
  {
  }

  lemma RequestLineShape(line: string, r: Request) returns (verb: Method, path: string, version: Version)
    requires ParseRequestLine(line, r).0
    ensures verb != INVALID && version != UNKNOWN && ' ' !in path
    ensures line == RequestLine(verb, path, version)
  {
    var i := Find(line, ' ');
    var j := Find(line, ' ', i + 1);
    verb, path := StringToMethod(line[..i]), line[i + 1..j];
    MethodNamed(line[..i]);
    CutAtSpaces(line, i, j);
    version := if line[j + 1..] == "HTTP/1.0" then HTTP10 else HTTP11;
    assert VersionName(version) == line[j + 1..];
  }

  /** Acceptance is exactly RFC 9112 section 3 in the subset the server supports. */
  lemma RequestLineAccepted(line: string, r: Request)
    ensures ParseRequestLine(line, r).0
       <==> exists verb: Method, path: string, version: Version ::
              verb != INVALID && version != UNKNOWN && ' ' !in path && line == RequestLine(verb, path, version)
  {
    if ParseRequestLine(line, r).0 {
      var verb, path, version := RequestLineShape(line, r);
    }
    forall verb: Method, path: string, version: Version
      | verb != INVALID && version != UNKNOWN && ' ' !in path && line == RequestLine(verb, path, version)
      ensures ParseRequestLine(line, r).0
    {
      RequestLineRead(r, verb, path, version);
    }
  }

  // ---- one call ----

  /** A header line: the text before the first colon, and the trimmed text after it. */
  function FieldName(line: string): string {
    line[..Find(line, ':')]
  }

  function FieldValue(line: string): string
    requires Find(line, ':') < |line|
  {
    TrimRight(TrimLeft(line[Find(line, ':') + 1..]))
  }

  /** The effect of one header line with a colon; `None` when `std::stoul` throws.
      The header is stored before the conversion, so it stays stored after a throw. */
  function TakeHeader(p: Parser, line: string): (Parser, bool)
    requires Find(line, ':') < |line|
  {
    var field, value := FieldName(line), FieldValue(line);
    var p1 := p.(request := p.request.(headers := p.request.headers[field := value]));
    if field == CONTENT_LENGTH then
      match Stoul(value)
      case None => (p1, false)
      case Some(n) => (p1.(contentLength := n), true)
    else (p1, true)
  }

  /** One complete line (without its CRLF): either the call stops on it, or the parser goes on. */
  datatype Turn = Stop(outcome: Outcome, left: Parser) | Go(next: Parser)

  function TakeLine(p: Parser, line: string): (t: Turn)
    requires p.state == ExpectRequestLine || p.state == ExpectHeaders
    ensures t.Stop? ==> t.left.state == p.state
                        && t.outcome == if p.state == ExpectRequestLine then Rejected else Thrown
    ensures t.Go? ==> t.next.state != ExpectRequestLine
    ensures t.Go? && p.state == ExpectRequestLine ==> t.next.state == ExpectHeaders
  {
    if p.state == ExpectRequestLine then
      var (ok, r) := ParseRequestLine(line, p.request);
      if ok then Go(p.(state := ExpectHeaders, request := r)) else Stop(Rejected, p.(request := r))
    else if Find(line, ':') < |line| then
      var (p', converted) := TakeHeader(p, line);
      if converted then Go(p') else Stop(Thrown, p')
    else Go(p.(state := if p.contentLength > 0 then ExpectBody else GotAll))
  }

  /** What `parseRequest` does to the parser and the unread bytes `s`. A line that stops the call
      is not consumed. */
  function Advance(p: Parser, s: string): Result
    requires p.state != GotAll
    decreases |s|, 0
  {
    if p.state == ExpectBody then
      if |s| >= p.contentLength
      then
        var body, rest := s[..p.contentLength], s[p.contentLength..];
        Result(Complete, p.(state := GotAll, request := p.request.(body := body)), rest)
      else Result(NeedMore, p, s)
    else
      var crlf := FindCRLF(s);
      if crlf.None? then Result(NeedMore, p, s)
      else
        match TakeLine(p, s[..crlf.value])
        case Stop(outcome, left) => Result(outcome, left, s)
        case Go(next) => Resume(next, s[crlf.value + 2..])
  }

  function Resume(p: Parser, s: string): Result
    decreases |s|, 1
  {
    if p.state == GotAll then Result(Complete, p, s) else Advance(p, s)
  }

  // ---- fragmentation ----

  function Extend(r: Result, more: string): Result {
    if r.outcome == NeedMore then Resume(r.parser, r.rest + more) else r.(rest := r.rest + more)
  }

  /** Calling on a prefix and then on the leftover plus the rest is calling once on everything. */
  lemma {:induction false} AdvanceSplit(p: Parser, s: string, more: string)
    requires p.state != GotAll
    ensures Advance(p, s + more) == Extend(Advance(p, s), more)
    decreases |s|
  {
    hide TakeLine;
    if p.state == ExpectBody {
      if |s| >= p.contentLength {
        assert (s + more)[..p.contentLength] == s[..p.contentLength];
        assert (s + more)[p.contentLength..] == s[p.contentLength..] + more;
      }
    } else if FindCRLF(s).Some? {
      FindCRLFExtends(s, more);
      var i := FindCRLF(s).value;
      assert (s + more)[..i] == s[..i] && (s + more)[i + 2..] == s[i + 2..] + more;
      var turn := TakeLine(p, s[..i]);
      if turn.Go? && turn.next.state != GotAll {
        AdvanceSplit(turn.next, s[i + 2..], more);
      }
    }
  }

  /** Appending the pieces one by one with a call after each, stopping at the first call that does
      not ask for more. The unread bytes at the end include the pieces not fed any more. */
  function Feed(p: Parser, unread: string, pieces: seq<string>): Result
    requires p.state != GotAll
    decreases |pieces|
  {
    if pieces == [] then Result(NeedMore, p, unread)
    else
      var r := Advance(p, unread + pieces[0]);
      if r.outcome == NeedMore && r.parser.state != GotAll then Feed(r.parser, r.rest, pieces[1..])
      else r.(rest := r.rest + Concat(pieces[1..]))
  }

  /** FRAGMENTATION INDEPENDENCE, in general form: from any parser that has nothing left to do with
      the bytes it holds, every split of a stream gives what one call on the whole stream gives. */
  lemma {:induction false} FeedIsOneCall(p: Parser, unread: string, pieces: seq<string>)
    requires p.state != GotAll
    requires Advance(p, unread) == Result(NeedMore, p, unread)
    ensures Feed(p, unread, pieces) == Advance(p, unread + Concat(pieces))
    decreases |pieces|
  {
    hide Advance;
    if pieces == [] {
      assert unread + Concat(pieces) == unread;
    } else {
      var r := Advance(p, unread + pieces[0]);
      assert unread + Concat(pieces) == (unread + pieces[0]) + Concat(pieces[1..]);
      AdvanceSplit(p, unread + pieces[0], Concat(pieces[1..]));
      if r.outcome == NeedMore {
        NeedMoreIsSettled(p, unread + pieces[0]);
        FeedIsOneCall(r.parser, r.rest, pieces[1..]);
      }
    }
  }

  /** A call that asks for more leaves nothing it could still do. */
  lemma {:induction false} NeedMoreIsSettled(p: Parser, s: string)
    requires p.state != GotAll
    requires Advance(p, s).outcome == NeedMore
    ensures Advance(p, s).parser.state != GotAll
    ensures Advance(Advance(p, s).parser, Advance(p, s).rest) == Advance(p, s)
  {
    AdvanceSplit(p, s, "");
    assert s + "" == s;
    assert Advance(p, s).rest + "" == Advance(p, s).rest;
  }

  /** FRAGMENTATION INDEPENDENCE for a connection: two splits of the same stream are parsed alike. */
  lemma FragmentationIndependence(pieces: seq<string>, others: seq<string>)
    requires Concat(pieces) == Concat(others)
    ensures Feed(FRESH, "", pieces) == Feed(FRESH, "", others) == Advance(FRESH, Concat(pieces))
  {
    assert FindCRLF("") == None;
    FeedIsOneCall(FRESH, "", pieces);
    FeedIsOneCall(FRESH, "", others);
    assert "" + Concat(pieces) == Concat(pieces);
  }

  // ---- progress ----

  ghost predicate IsSuffix(t: string, s: string) {
    |t| <= |s| && t == s[|s| - |t|..]
  }

  /** No complete line is left, or the body is still short. */
  ghost predicate Starved(p: Parser, s: string) {
    match p.state
    case GotAll => false
    case ExpectBody => |s| < p.contentLength
    case _ => NoCRLF(s)
  }

  /** Only a prefix is consumed; a call asks for more exactly when it is starved; it ends in `GotAll`
      exactly when it reports a complete request; a rejection consumes nothing. */
  ghost predicate Progressed(p: Parser, s: string, r: Result) {
    && IsSuffix(r.rest, s)
    && (r.outcome == Complete <==> r.parser.state == GotAll)
    && (r.outcome == NeedMore <==> Starved(r.parser, r.rest))
    && (r.outcome == Rejected ==> r.rest == s && r.parser.state == p.state == ExpectRequestLine)
    && (p.state == ExpectRequestLine && r.outcome == Complete ==> |r.rest| < |s|)
  }

  lemma {:induction false} Progress(p: Parser, s: string)
    requires p.state != GotAll
    ensures Progressed(p, s, Advance(p, s))
    decreases |s|
  {
    hide TakeLine;
    if p.state != ExpectBody && FindCRLF(s).Some? {
      var i := FindCRLF(s).value;
      var turn := TakeLine(p, s[..i]);
      if turn.Go? && turn.next.state != GotAll {
        Progress(turn.next, s[i + 2..]);
      }
    }
  }

  lemma RejectedLineAgain(line: string, r: Request)
    requires !ParseRequestLine(line, r).0
    ensures ParseRequestLine(line, ParseRequestLine(line, r).1) == ParseRequestLine(line, r)
  {
  }

  /** A rejected request line stays rejected however many bytes follow. */
  lemma RejectedForever(p: Parser, s: string, more: string)
    requires p.state != GotAll && Advance(p, s).outcome == Rejected
    ensures var r := Advance(p, s);
            && r.parser.state != GotAll
            && Advance(r.parser, r.rest + more) == Result(Rejected, r.parser, s + more)
  {
    Progress(p, s);
    FindCRLFExtends(s, more);
    var i := FindCRLF(s).value;
    assert (s + more)[..i] == s[..i];
    OnlyRequestLinesStop(p, s);
    RejectedLineAgain(s[..i], p.request);
  }

  lemma OnlyRequestLinesStop(p: Parser, s: string)
    requires p.state == ExpectRequestLine && Advance(p, s).outcome == Rejected
    ensures FindCRLF(s).Some? && TakeLine(p, s[..FindCRLF(s).value]).Stop?
  {
    var turn := TakeLine(p, s[..FindCRLF(s).value]);
    if turn.Go? {
      Progress(turn.next, s[FindCRLF(s).value + 2..]);
    }
  }

  // ---- headers and length ----

  /** The announced length is the value of the stored Content-Length header, 0 without one. */
  ghost predicate LengthAgrees(p: Parser) {
    if CONTENT_LENGTH in p.request.headers
    then Stoul(p.request.headers[CONTENT_LENGTH]) == Some(p.contentLength)
    else p.contentLength == 0
  }

  /** What every partial parse keeps. */
  ghost predicate Coherent(p: Parser) {
    && LengthAgrees(p)
    && (p.state == ExpectRequestLine ==> p.request.headers == map[])
    && (p.state == ExpectBody ==> p.contentLength > 0)
    && |p.request.body| == (if p.state == GotAll then p.contentLength else 0)
    && (p.state != ExpectRequestLine ==>
          p.request.verb != INVALID && p.request.version != UNKNOWN && ' ' !in p.request.path)
  }

  lemma CoherentHeader(p: Parser, line: string)
    requires Coherent(p) && p.state == ExpectHeaders && Find(line, ':') < |line|
    requires TakeHeader(p, line).1
    ensures Coherent(TakeHeader(p, line).0)
  {
    hide Stoul, FieldName, FieldValue;
  }

  lemma CoherentLine(p: Parser, line: string)
    requires Coherent(p) && (p.state == ExpectRequestLine || p.state == ExpectHeaders)
    requires TakeLine(p, line).Go? || TakeLine(p, line).outcome == Rejected
    ensures Coherent(match TakeLine(p, line) case Go(next) => next case Stop(_, left) => left)
  {
    hide Stoul;
    if p.state == ExpectRequestLine {
      hide StringToMethod;
    } else {
      hide ParseRequestLine;
      hide TakeHeader;
      if Find(line, ':') < |line| {
        CoherentHeader(p, line);
      }
    }
  }

  lemma {:induction false} CoherenceKept(p: Parser, s: string)
    requires p.state != GotAll && Coherent(p)
    ensures Advance(p, s).outcome != Thrown ==> Coherent(Advance(p, s).parser)
    decreases |s|
  {
    hide TakeLine;
    if p.state != ExpectBody && FindCRLF(s).Some? {
      var i := FindCRLF(s).value;
      var turn := TakeLine(p, s[..i]);
      if turn.Go? || turn.outcome == Rejected {
        CoherentLine(p, s[..i]);
      }
      if turn.Go? && turn.next.state != GotAll {
        CoherenceKept(turn.next, s[i + 2..]);
      }
    }
  }

  /** Over every stream and every split of it: the announced length is that of the last stored
      Content-Length header, and a complete request has a body of exactly that length. */
  lemma HeaderAndLengthAgree(pieces: seq<string>)
    ensures var r := Feed(FRESH, "", pieces);
            r.outcome != Thrown ==>
              LengthAgrees(r.parser) && (r.outcome == Complete ==> |r.parser.request.body| == r.parser.contentLength)
  {
    FragmentationIndependence(pieces, pieces);
    CoherenceKept(FRESH, Concat(pieces));
    Progress(FRESH, Concat(pieces));
  }

  lemma BlankSkipped(line: string, c: nat)
    requires c < |line| && IsSpace(line[c])
    ensures TrimLeft(line[c + 1..]) == TrimLeft(line[c..])
  {
    assert line[c..][1..] == line[c + 1..];
  }

  lemma NoBlankAhead(line: string, c: nat)
    requires c <= |line| && (c < |line| ==> !IsSpace(line[c]))
    ensures TrimLeft(line[c..]) == line[c..]
  {
  }

  // ---- the parser object ----

  /** What `parseRequest` returns: its `bool`, or the exception. */
  datatype Returned = Returned(ok: bool) | Threw

  function OutcomeOf(r: Returned, state: ParseState): Outcome {
    match r
    case Threw => Thrown
    case Returned(ok) => if !ok then Rejected else if state == GotAll then Complete else NeedMore
  }

  class HttpParser {
    var state: ParseState
    var request: Request
    var contentLength: nat

    ghost function Abs(): Parser
      reads this
    {
      Parser(state, request, contentLength)
    }

    constructor ()
      ensures Abs() == FRESH
    {
      state := ExpectRequestLine;
      request := EMPTY_REQUEST;
      contentLength := 0;
    }

    method Reset()
      modifies this
      ensures Abs() == FRESH
    {
      state := ExpectRequestLine;
      request := EMPTY_REQUEST;
      contentLength := 0;
    }

    method ReadRequestLine(line: string) returns (ok: bool)
      modifies this`request
      ensures (ok, request) == ParseRequestLine(line, old(request))
    {
      var space := Find(line, ' ');
      if space == |line| {
        return false;
      }
      var verb := StringToMethod(line[..space]);
      if verb == INVALID {
        return false;
      }
      request := request.(verb := verb);
      var begin := space + 1;
      space := Find(line, ' ', begin);
      if space == |line| {
        return false;
      }
      request := request.(path := line[begin..space]);
      ok := ReadVersion(line, space + 1);
    }

    /** The last eight bytes of the line. */
    method ReadVersion(line: string, begin: nat) returns (ok: bool)
      requires begin <= |line|
      modifies this`request
      ensures ok <==> line[begin..] == "HTTP/1.0" || line[begin..] == "HTTP/1.1"
      ensures request == if line[begin..] == "HTTP/1.0" then old(request).(version := HTTP10)
                         else if line[begin..] == "HTTP/1.1" then old(request).(version := HTTP11)
                         else old(request)
    {
      if |line| - begin != 8 {
        return false;
      }
      ghost var v := line[begin..];
      if line[begin..begin + 7] != "HTTP/1." {
        assert v[..7] == line[begin..begin + 7];
        assert "HTTP/1.0"[..7] == "HTTP/1." == "HTTP/1.1"[..7];
        return false;
      }
      assert v == "HTTP/1." + [line[begin + 7]];
      assert "HTTP/1.0" == "HTTP/1." + ['0'] && "HTTP/1.1" == "HTTP/1." + ['1'];
      assert v[7] == line[begin + 7] && "HTTP/1.0"[7] == '0' && "HTTP/1.1"[7] == '1';
      if line[begin + 7] == '0' {
        request := request.(version := HTTP10);
      } else if line[begin + 7] == '1' {
        request := request.(version := HTTP11);
      } else {
        return false;
      }
      ok := true;
    }

    /** The first trimming loop: past the blanks behind the colon. */
    method SkipBlanks(line: string, colon: nat) returns (c: nat)
      requires colon <= |line|
      ensures colon <= c <= |line| && line[c..] == TrimLeft(line[colon..])
    {
      hide TrimLeft, IsSpace;
      c := colon;
      while c < |line| && IsSpace(line[c])
        invariant colon <= c <= |line|
        invariant TrimLeft(line[c..]) == TrimLeft(line[colon..])
      {
        BlankSkipped(line, c);
        c := c + 1;
      }
      NoBlankAhead(line, c);
    }

    /** The second one: blanks at the end. */
    method DropBlanks(text: string) returns (value: string)
      ensures value == TrimRight(text)
    {
      value := text;
      while value != "" && IsSpace(value[|value| - 1])
        invariant TrimRight(value) == TrimRight(text)
        decreases |value|
      {
        value := value[..|value| - 1];
      }
    }

    /** The bytes after the colon without blanks at either end. */
    method TrimmedValue(line: string, colon: nat) returns (value: string)
      requires colon <= |line|
      ensures value == TrimRight(TrimLeft(line[colon..]))
    {
      var c := SkipBlanks(line, colon);
      value := DropBlanks(line[c..]);
    }

    /** The header branch: store the field, then convert a Content-Length. */
    method StoreHeader(line: string, colon: nat) returns (converted: bool)
      requires colon == Find(line, ':') && colon < |line|
      modifies this`request, this`contentLength
      ensures (Abs(), converted) == TakeHeader(old(Abs()), line)
    {
      hide Stoul, TrimLeft, TrimRight, IsSpace;
      var field := line[..colon];
      var value := TrimmedValue(line, colon + 1);
      request := request.(headers := request.headers[field := value]);
      if field == CONTENT_LENGTH {
        var n := Stoul(value);
        if n.None? {
          return false;
        }
        contentLength := n.value;
      }
      converted := true;
    }

    /** One line of the header section: a field, or the end of the headers. */
    method ReadHeaderLine(line: string) returns (converted: bool)
      requires state == ExpectHeaders
      modifies this
      ensures TakeLine(old(Abs()), line) == if converted then Go(Abs()) else Stop(Thrown, Abs())
    {
      hide Stoul, FieldName, FieldValue, ParseRequestLine;
      var colon := Find(line, ':');
      if colon != |line| {
        converted := StoreHeader(line, colon);
      } else {
        converted := true;
        if contentLength > 0 {
          state := ExpectBody;
        } else {
          state := GotAll;
        }
      }
    }

    /** One turn of the loop, by state: either the call is over with this result, or it goes on
        from fewer unread bytes towards the same result. */
    method RequestLineTurn(buf: Buffer) returns (ok: bool, hasMore: bool)
      requires buf.Valid() && state == ExpectRequestLine
      modifies this, buf`reader, buf`writer
      ensures buf.Valid()
      ensures hasMore ==> ok && state != GotAll && |buf.Contents()| < |old(buf.Contents())|
                          && Advance(Abs(), buf.Contents()) == Advance(old(Abs()), old(buf.Contents()))
      ensures !hasMore ==> Result(OutcomeOf(Returned(ok), state), Abs(), buf.Contents())
                           == Advance(old(Abs()), old(buf.Contents()))
    {
      hide ParseRequestLine, FindCRLF;
      ok, hasMore := true, true;
      var crlf := buf.FindCRLFOffset();
      if crlf.Some? {
        var line := buf.Peek(crlf.value);
        ok := ReadRequestLine(line);
        if ok {
          buf.Retrieve(crlf.value + 2);
          state := ExpectHeaders;
        } else {
          hasMore := false;
        }
      } else {
        hasMore := false;
      }
    }

    method HeaderTurn(buf: Buffer) returns (r: Returned, hasMore: bool)
      requires buf.Valid() && state == ExpectHeaders
      modifies this, buf`reader, buf`writer
      ensures buf.Valid()
      ensures hasMore ==> r == Returned(true) && state != GotAll && |buf.Contents()| < |old(buf.Contents())|
                          && Advance(Abs(), buf.Contents()) == Advance(old(Abs()), old(buf.Contents()))
      ensures !hasMore ==> Result(OutcomeOf(r, state), Abs(), buf.Contents())
                           == Advance(old(Abs()), old(buf.Contents()))
    {
      hide TakeLine, FindCRLF;
      var crlf := buf.FindCRLFOffset();
      if crlf.None? {
        return Returned(true), false;
      }
      var line := buf.Peek(crlf.value);
      var converted := ReadHeaderLine(line);
      if !converted {
        return Threw, false;
      }
      buf.Retrieve(crlf.value + 2);
      r, hasMore := Returned(true), state != GotAll;
    }

    method BodyTurn(buf: Buffer)
      requires buf.Valid() && state == ExpectBody
      modifies this, buf`reader, buf`writer
      ensures buf.Valid()
      ensures Result(OutcomeOf(Returned(true), state), Abs(), buf.Contents())
              == Advance(old(Abs()), old(buf.Contents()))
    {
      var readable := buf.ReadableBytes();
      if readable >= contentLength {
        var body := buf.RetrieveAsString(contentLength);
        request := request.(body := body);
        state := GotAll;
      }
    }

    /** The loop of `parseRequest`, in place on the parser and the buffer. Entered in `GotAll` it
        would spin for ever, so that state is excluded; `HttpServer` never enters in it. */
    method ParseRequest(buf: Buffer) returns (r: Returned)
      requires buf.Valid() && state != GotAll
      modifies this, buf`reader, buf`writer
      ensures buf.Valid()
      ensures Result(OutcomeOf(r, state), Abs(), buf.Contents()) == Advance(old(Abs()), old(buf.Contents()))
    {
      hide Advance;
      var hasMore := true;
      r := Returned(true);
      while hasMore
        invariant buf.Valid() && buf.data == old(buf.data)
        invariant hasMore ==> r == Returned(true) && state != GotAll
                              && Advance(Abs(), buf.Contents()) == Advance(old(Abs()), old(buf.Contents()))
        invariant !hasMore ==> Result(OutcomeOf(r, state), Abs(), buf.Contents())
                               == Advance(old(Abs()), old(buf.Contents()))
        decreases hasMore, |buf.Contents()|
      {
        if state == ExpectRequestLine {
          var ok;
          ok, hasMore := RequestLineTurn(buf);
          r := Returned(ok);
        } else if state == ExpectHeaders {
          r, hasMore := HeaderTurn(buf);
        } else {
          BodyTurn(buf);
          hasMore := false;
        }
      }
    }
  }

  lemma NoPieces()
    ensures Concat([]) == ""
  {
  }

  /** The read loop of one connection up to its first complete, rejected or throwing call: however
      the stream is cut, parser, outcome and unread bytes are those of one call on all of it. */
  method ParseStream(pieces: seq<string>) returns (parser: HttpParser, buf: Buffer, outcome: Outcome, fed: nat)
    ensures fresh(parser) && fresh(buf) && buf.Valid() && fed <= |pieces|
    ensures Result(outcome, parser.Abs(), buf.Contents() + Concat(pieces[fed..])) == Advance(FRESH, Concat(pieces))
  {
    parser := new HttpParser();
    buf := new Buffer();
    hide Advance, Concat;
    outcome := NeedMore;
    fed := 0;
    FragmentationIndependence(pieces, pieces);
    assert pieces[0..] == pieces;
    while fed < |pieces| && outcome == NeedMore
      invariant fresh(parser) && fresh(buf) && fresh(buf.data) && buf.Valid() && fed <= |pieces|
      invariant outcome == NeedMore ==>
                  parser.state != GotAll
                  && Feed(parser.Abs(), buf.Contents(), pieces[fed..]) == Feed(FRESH, "", pieces)
      invariant outcome != NeedMore ==>
                  Result(outcome, parser.Abs(), buf.Contents() + Concat(pieces[fed..])) == Feed(FRESH, "", pieces)
      decreases |pieces| - fed
    {
      ghost var p, unread := parser.Abs(), buf.Contents();
      buf.Append(pieces[fed]);
      var r := parser.ParseRequest(buf);
      outcome := OutcomeOf(r, parser.state);
      assert pieces[fed..][0] == pieces[fed] && pieces[fed..][1..] == pieces[fed + 1..];
      Progress(p, unread + pieces[fed]);
      fed := fed + 1;
    }
    if outcome == NeedMore {
      assert pieces[fed..] == [];
      assert Concat([]) == "" by {
        NoPieces();
      }
      assert buf.Contents() + "" == buf.Contents();
    }
  }
}
