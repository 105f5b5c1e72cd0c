/** Printing well-formed requests and parsing the bytes back, one by one and pipelined. */
module RequestRoundTrips {
  import opened Text
  import opened HttpRequests
  import opened HttpParsers

  type Field = (string, string)

  function FieldLine(f: Field): string {
    f.0 + ": " + f.1
  }

  function FieldLines(fields: seq<Field>): string {
    if fields == [] then "" else FieldLine(fields[0]) + CRLF + FieldLines(fields[1..])
  }

  /** RFC 9112 section 5, as the parser reads it: a colon-free name, a trimmed one-line value. */
  ghost predicate WellFormedField(f: Field) {
    && ':' !in f.0 && NoCRLF(f.0)
    && Trimmed(f.1) && NoCRLF(f.1)
    && (f.0 == CONTENT_LENGTH ==> Stoul(f.1).Some?)
  }

  ghost predicate WellFormedFields(fields: seq<Field>) {
    forall i :: 0 <= i < |fields| ==> WellFormedField(fields[i])
  }

  /** The parser after storing one field and converting a Content-Length. */
  ghost function AddField(p: Parser, f: Field): Parser
    requires f.0 == CONTENT_LENGTH ==> Stoul(f.1).Some?
  {
    p.(request := p.request.(headers := p.request.headers[f.0 := f.1]),
       contentLength := if f.0 == CONTENT_LENGTH then Stoul(f.1).value else p.contentLength)
  }

  ghost function AddFields(p: Parser, fields: seq<Field>): (p': Parser)
    requires WellFormedFields(fields)
    ensures p' == p.(request := p.request.(headers := p'.request.headers), contentLength := p'.contentLength)
    ensures LengthAgrees(p) ==> LengthAgrees(p')
    decreases |fields|
  {
    if fields == [] then p else
      assert WellFormedField(fields[0]);
      AddFields(AddField(p, fields[0]), fields[1..])
  }

  // ---- reading back the header section ----

  lemma TrimmedKept(v: string)
    requires Trimmed(v)
    ensures TrimRight(TrimLeft(" " + v)) == v
  {
    assert (" " + v)[1..] == v;
    assert TrimLeft(" " + v) == TrimLeft(v) == v;
  }

  lemma FieldRead(p: Parser, f: Field)
    requires WellFormedField(f)
    ensures var line := FieldLine(f);
            && NoCRLF(line) && Find(line, ':') < |line|
            && TakeHeader(p, line) == (AddField(p, f), true)
  {
    hide Stoul;
    var line := FieldLine(f);
    assert forall k :: 0 <= k < |f.0| ==> line[k] == f.0[k];
    assert line[|f.0|] == ':';
    assert Find(line, ':') == |f.0|;
    assert FieldName(line) == f.0;
    assert line[|f.0| + 1..] == " " + f.1;
    TrimmedKept(f.1);
    FieldLineHasNoCRLF(f);
  }

  lemma FieldLineHasNoCRLF(f: Field)
    requires NoCRLF(f.0) && NoCRLF(f.1)
    ensures NoCRLF(FieldLine(f))
  {
    var line := FieldLine(f);
    forall k | 0 <= k < |line| ensures !CrlfAt(line, k) {
      if k < |f.0| {
        assert !CrlfAt(f.0, k);
      } else if k >= |f.0| + 2 {
        assert !CrlfAt(f.1, k - |f.0| - 2);
      }
    }
  }

  /** One line with its CRLF in front of anything. */
  lemma LineTaken(p: Parser, line: string, rest: string)
    requires p.state == ExpectRequestLine || p.state == ExpectHeaders
    requires NoCRLF(line) && TakeLine(p, line).Go?
    ensures Advance(p, line + CRLF + rest) == Resume(TakeLine(p, line).next, rest)
  {
    hide TakeLine;
    LineEnds(line, rest);
    var s := line + CRLF + rest;
    assert s[..|line|] == line && s[|line| + 2..] == rest;
  }

  lemma FieldTaken(p: Parser, f: Field)
    requires p.state == ExpectHeaders && WellFormedField(f)
    ensures TakeLine(p, FieldLine(f)) == Go(AddField(p, f)) && NoCRLF(FieldLine(f))
  {
    hide TakeHeader, Stoul;
    FieldRead(p, f);
  }

  lemma {:induction false} FieldsRead(p: Parser, fields: seq<Field>, rest: string)
    requires p.state == ExpectHeaders && WellFormedFields(fields)
    ensures Advance(p, FieldLines(fields) + rest) == Advance(AddFields(p, fields), rest)
    decreases |fields|
  {
    hide TakeLine, AddField, Advance, Stoul;
    if fields == [] {
      assert FieldLines(fields) + rest == rest;
    } else {
      var after := FieldLines(fields[1..]) + rest;
      FieldTaken(p, fields[0]);
      assert FieldLines(fields) + rest == FieldLine(fields[0]) + CRLF + after;
      LineTaken(p, FieldLine(fields[0]), after);
      AddFieldKeepsState(p, fields[0]);
      FieldsRead(AddField(p, fields[0]), fields[1..], rest);
    }
  }

  lemma AddFieldKeepsState(p: Parser, f: Field)
    requires WellFormedField(f)
    ensures AddField(p, f).state == p.state
  {
  }

  /** The empty line, and a body at least as long as announced. */
  lemma BodyRead(p: Parser, body: string, rest: string)
    requires p.state == ExpectHeaders && |body| == p.contentLength && p.request.body == ""
    ensures Advance(p, CRLF + body + rest)
            == Result(Complete, p.(state := GotAll, request := p.request.(body := body)), rest)
  {
    assert CRLF + body + rest == "" + CRLF + (body + rest);
    assert NoCRLF("");
    LineTaken(p, "", body + rest);
    assert (body + rest)[..|body|] == body && (body + rest)[|body|..] == rest;
  }

  /** A header section and body with the announced length, from the header stage on. */
  lemma MessageRead(p: Parser, fields: seq<Field>, body: string, rest: string)
    requires p.state == ExpectHeaders && p.request.body == "" && WellFormedFields(fields)
    requires AddFields(p, fields).contentLength == |body|
    ensures Advance(p, FieldLines(fields) + CRLF + body + rest)
            == var p' := AddFields(p, fields);
               Result(Complete, p'.(state := GotAll, request := p'.request.(body := body)), rest)
  {
    hide Advance;
    FieldsRead(p, fields, CRLF + body + rest);
    assert FieldLines(fields) + CRLF + body + rest == FieldLines(fields) + (CRLF + body + rest);
    BodyRead(AddFields(p, fields), body, rest);
  }

  // ---- fields and the header map ----

  /** `fields` lists the entries of `m`, each once, in some order. */
  ghost predicate Enumerates(fields: seq<Field>, m: map<string, string>) {
    && (forall i, j :: 0 <= i < j < |fields| ==> fields[i].0 != fields[j].0)
    && (forall i :: 0 <= i < |fields| ==> fields[i].0 in m && m[fields[i].0] == fields[i].1)
    && (forall k :: k in m ==> exists i :: 0 <= i < |fields| && fields[i].0 == k)
  }

  lemma {:induction false} FieldsStored(p: Parser, fields: seq<Field>)
    requires WellFormedFields(fields)
    requires forall i, j :: 0 <= i < j < |fields| ==> fields[i].0 != fields[j].0
    ensures var h := AddFields(p, fields).request.headers;
            && (forall i :: 0 <= i < |fields| ==> fields[i].0 in h && h[fields[i].0] == fields[i].1)
            && (forall k :: (forall i :: 0 <= i < |fields| ==> fields[i].0 != k) ==>
                  (k in h <==> k in p.request.headers) && (k in h ==> h[k] == p.request.headers[k]))
    decreases |fields|
  {
    hide Stoul;
    if fields != [] {
      assert WellFormedField(fields[0]);
      FieldsStored(AddField(p, fields[0]), fields[1..]);
      var h := AddFields(p, fields).request.headers;
      assert h == AddFields(AddField(p, fields[0]), fields[1..]).request.headers;
      forall i | 0 <= i < |fields|
        ensures fields[i].0 in h && h[fields[i].0] == fields[i].1
      {
        if i > 0 {
          assert fields[1..][i - 1] == fields[i];
        }
      }
      forall k | forall i :: 0 <= i < |fields| ==> fields[i].0 != k
        ensures (k in h <==> k in p.request.headers) && (k in h ==> h[k] == p.request.headers[k])
      {
        assert fields[0].0 != k;
        assert forall i :: 0 <= i < |fields[1..]| ==> fields[1..][i].0 != k;
      }
    }
  }

  lemma EnumerationStored(p: Parser, fields: seq<Field>, m: map<string, string>)
    requires WellFormedFields(fields) && Enumerates(fields, m)
    requires p.request.headers == map[]
    ensures AddFields(p, fields).request.headers == m
  {
    hide AddFields, WellFormedFields;
    FieldsStored(p, fields);
    var h := AddFields(p, fields).request.headers;
    forall k ensures k in h <==> k in m {
      if forall i :: 0 <= i < |fields| ==> fields[i].0 != k {
        assert k !in m && k !in h;
      }
    }
    assert forall k | k in m :: h[k] == m[k];
  }

  // ---- whole requests ----

  /** What a client may send and get the same request at the server: a known method and version, a
      one-line path without spaces, well-formed headers, and a Content-Length that is the body size
      whenever there is a body or such a header. */
  ghost predicate WellFormed(r: Request, fields: seq<Field>) {
    && r.verb != INVALID && r.version != UNKNOWN
    && ' ' !in r.path && NoCRLF(r.path)
    && WellFormedFields(fields) && Enumerates(fields, r.headers)
    && (if CONTENT_LENGTH in r.headers then Stoul(r.headers[CONTENT_LENGTH]) == Some(|r.body|) else r.body == "")
  }

  function Print(r: Request, fields: seq<Field>): string
    requires r.verb != INVALID && r.version != UNKNOWN
  {
    RequestLine(r.verb, r.path, r.version) + CRLF + FieldLines(fields) + CRLF + r.body
  }

  lemma RequestLineHasNoCRLF(verb: Method, path: string, version: Version)
    requires verb != INVALID && version != UNKNOWN && NoCRLF(path)
    ensures NoCRLF(RequestLine(verb, path, version))
  {
    var m, v := MethodName(verb), VersionName(version);
    assert '\r' !in v;
    var line := m + " " + path + " " + v;
    hide MethodName, VersionName;
    forall k | 0 <= k < |line| ensures !CrlfAt(line, k) {
      if k < |m| {
        assert line[k] == m[k];
      } else if |m| < k < |m| + 1 + |path| {
        assert !CrlfAt(path, k - |m| - 1);
      } else if k > |m| + 1 + |path| {
        assert line[k] == v[k - |m| - |path| - 2];
      }
    }
  }

  lemma RequestLineTaken(verb: Method, path: string, version: Version)
    requires verb != INVALID && version != UNKNOWN && NoCRLF(path) && ' ' !in path
    ensures TakeLine(FRESH, RequestLine(verb, path, version))
            == Go(Parser(ExpectHeaders, Request(verb, path, version, map[], ""), 0))
  {
    hide ParseRequestLine, RequestLine;
    RequestLineRead(EMPTY_REQUEST, verb, path, version);
  }

  /** REQUEST ROUND TRIP: the printed request, in front of anything, is read back as itself. */
  lemma RequestRoundTrip(r: Request, fields: seq<Field>, rest: string)
    requires WellFormed(r, fields)
    ensures Advance(FRESH, Print(r, fields) + rest) == Result(Complete, Parser(GotAll, r, |r.body|), rest)
  {
    hide Advance, TakeLine, RequestLine, WellFormedFields, Enumerates, Stoul;
    var line := RequestLine(r.verb, r.path, r.version);
    var message := FieldLines(fields) + CRLF + r.body + rest;
    var p := Parser(ExpectHeaders, Request(r.verb, r.path, r.version, map[], ""), 0);
    RequestLineTaken(r.verb, r.path, r.version);
    RequestLineHasNoCRLF(r.verb, r.path, r.version);
    assert Print(r, fields) + rest == line + CRLF + message;
    LineTaken(FRESH, line, message);
    EnumerationStored(p, fields, r.headers);
    assert LengthAgrees(AddFields(p, fields));
    MessageRead(p, fields, r.body, rest);
  }

  // ---- pipelining ----

  /** The requests a stream holds, and how the last call ended. */
  datatype Stream = Stream(requests: seq<Request>, last: Result)

  /** Alternating `parseRequest` and `reset` until a call does not complete a request. */
  function ParseAll(p: Parser, s: string): Stream
    requires p.state != GotAll
    decreases |s|, if p.state == ExpectRequestLine then 0 else 1
  {
    Progress(p, s);
    var r := Advance(p, s);
    if r.outcome == Complete then
      var later := ParseAll(FRESH, r.rest);
      later.(requests := [r.parser.request] + later.requests)
    else Stream([], r)
  }

  type Message = (Request, seq<Field>)

  ghost predicate AllWellFormed(ms: seq<Message>) {
    forall i :: 0 <= i < |ms| ==> WellFormed(ms[i].0, ms[i].1)
  }

  ghost function PrintAll(ms: seq<Message>): string
    requires AllWellFormed(ms)
  {
    if ms == [] then "" else Print(ms[0].0, ms[0].1) + PrintAll(ms[1..])
  }

  ghost function Requests(ms: seq<Message>): (rs: seq<Request>)
    ensures |rs| == |ms|
  {
    seq(|ms|, i requires 0 <= i < |ms| => ms[i].0)
  }

  /** PIPELINING: any number of printed requests in a row, then anything that does not complete a
      request, give exactly those requests in order and leave exactly that tail. */
  lemma {:induction false} Pipelining(ms: seq<Message>, tail: string)
    requires AllWellFormed(ms)
    requires Advance(FRESH, tail).outcome != Complete
    ensures ParseAll(FRESH, PrintAll(ms) + tail) == Stream(Requests(ms), Advance(FRESH, tail))
    decreases |ms|
  {
    hide Advance, Print, WellFormedFields, Enumerates, Stoul;
    if ms == [] {
      assert PrintAll(ms) + tail == tail;
      assert Requests(ms) == [];
    } else {
      assert WellFormed(ms[0].0, ms[0].1);
      var after := PrintAll(ms[1..]) + tail;
      RequestRoundTrip(ms[0].0, ms[0].1, after);
      assert PrintAll(ms) + tail == Print(ms[0].0, ms[0].1) + after;
      Pipelining(ms[1..], tail);
      assert Requests(ms) == [ms[0].0] + Requests(ms[1..]);
    }
  }

  /** Without a tail nothing is left unread. */
  lemma PipeliningLeavesNothing(ms: seq<Message>)
    requires AllWellFormed(ms)
    ensures ParseAll(FRESH, PrintAll(ms)) == Stream(Requests(ms), Result(NeedMore, FRESH, ""))
  {
    assert FindCRLF("") == None;
    Pipelining(ms, "");
    assert PrintAll(ms) + "" == PrintAll(ms);
  }
}
