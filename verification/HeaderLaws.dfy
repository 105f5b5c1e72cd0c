/** What the parser makes of one line, told from the line: request lines by their literal names, header lines
    with any blanks, lines without a colon, and the numbers of Content-Length. */
module HeaderLaws {
  import opened Text
  import opened HttpRequests
  import opened HttpParsers
  import opened RequestRoundTrips

  // ---- blanks and numbers ----

  /** The six characters of `isspace` in the C locale. */
  lemma SpaceExactly(c: char)
    ensures IsSpace(c) <==> c as int in {9, 10, 11, 12, 13, 32}
  {
  }

  ghost predicate Blank(s: string) {
    forall i :: 0 <= i < |s| ==> IsSpace(s[i])
  }

  lemma {:induction false} TrimLeftBlanks(a: string, s: string)
    requires Blank(a) && (s != "" ==> !IsSpace(s[0]))
    ensures TrimLeft(a + s) == s
    decreases |a|
  {
    if a == "" {
      assert a + s == s;
    } else {
      assert (a + s)[1..] == a[1..] + s;
      TrimLeftBlanks(a[1..], s);
    }
  }

  lemma {:induction false} TrimRightBlanks(s: string, b: string)
    requires Blank(b) && (s != "" ==> !IsSpace(s[|s| - 1]))
    ensures TrimRight(s + b) == s
    decreases |b|
  {
    if b == "" {
      assert s + b == s;
    } else {
      assert (s + b)[..|s + b| - 1] == s + b[..|b| - 1];
      TrimRightBlanks(s, b[..|b| - 1]);
    }
  }

  lemma LeftTrimmed(a: string, v: string, b: string)
    requires Blank(a) && Blank(b) && Trimmed(v)
    ensures TrimLeft(a + (v + b)) == if v == "" then "" else v + b
  {
    if v == "" {
      assert a + (v + b) == (a + b) + "";
      TrimLeftBlanks(a + b, "");
    } else {
      assert (v + b)[0] == v[0];
      TrimLeftBlanks(a, v + b);
    }
  }

  lemma RightTrimmed(v: string, b: string)
    requires Blank(b) && Trimmed(v)
    ensures TrimRight(if v == "" then "" else v + b) == v
  {
    if v != "" {
      TrimRightBlanks(v, b);
    }
  }

  /** Both loops take away the blanks around a value, and nothing else. */
  lemma BlanksTrimmed(a: string, v: string, b: string)
    requires Blank(a) && Blank(b) && Trimmed(v)
    ensures TrimRight(TrimLeft(a + (v + b))) == v
  {
    LeftTrimmed(a, v, b);
    RightTrimmed(v, b);
    hide TrimLeft, TrimRight, Blank, Trimmed;
  }

  /** Blanks, a sign or none, digits, and then anything that is no digit. */
  ghost predicate IsNumber(s: string, blanks: string, sign: string, d: string, tail: string) {
    && s == blanks + sign + d + tail
    && Blank(blanks) && (sign == "" || sign == "+" || sign == "-")
    && d != "" && AllDigits(d) && (tail != "" ==> !IsDigit(tail[0]))
  }

  /** A negative number wraps around 2^64. */
  function NumberValue(sign: string, d: string): nat
    requires AllDigits(d) && DigitsValue(d) < SIZE_LIMIT
  {
    if sign == "-" && DigitsValue(d) > 0 then SIZE_LIMIT - DigitsValue(d) else DigitsValue(d)
  }

  lemma StoulReads(s: string, blanks: string, sign: string, d: string, tail: string)
    requires IsNumber(s, blanks, sign, d, tail)
    ensures Stoul(s) == if DigitsValue(d) < SIZE_LIMIT then Some(NumberValue(sign, d)) else None
  {
    var t := sign + (d + tail);
    assert s == blanks + t;
    assert IsDigit(d[0]) && t[0] == if sign == "" then d[0] else sign[0];
    TrimLeftBlanks(blanks, t);
    LeadingDigitsOf(d, tail);
    assert (d + tail)[..|d|] == d && (d + tail)[0] == d[0];
    hide TrimLeft, LeadingDigits, DigitsValue;
    StoulAfterBlanks(s, sign, d + tail);
  }

  /** The conversion, once the blanks are gone. */
  lemma StoulAfterBlanks(s: string, sign: string, u: string)
    requires TrimLeft(s) == sign + u && (sign == "" || sign == "+" || sign == "-")
    requires sign == "" ==> u == "" || (u[0] != '-' && u[0] != '+')
    ensures var n := LeadingDigits(u);
            Stoul(s) == if n == 0 || DigitsValue(u[..n]) >= SIZE_LIMIT then None
                        else Some(NumberValue(sign, u[..n]))
  {
    hide TrimLeft, LeadingDigits, DigitsValue;
    var t := sign + u;
    assert sign == "" ==> t == u;
    assert sign != "" ==> t[0] == sign[0] && t[1..] == u;
  }

  /** EXACTLY the numbers below 2^64 convert; everything else throws. */
  lemma StoulExactly(s: string)
    ensures Stoul(s).Some?
       <==> exists blanks, sign, d, tail :: IsNumber(s, blanks, sign, d, tail) && Small(d)
  {
    if Stoul(s).Some? {
      var blanks, sign, d, tail := NumberParts(s);
    }
    hide DigitsValue, IsNumber, Stoul;
    forall blanks, sign, d, tail | IsNumber(s, blanks, sign, d, tail) && Small(d)
      ensures Stoul(s).Some?
    {
      StoulReads(s, blanks, sign, d, tail);
    }
  }

  ghost predicate Small(d: string) {
    AllDigits(d) && DigitsValue(d) < SIZE_LIMIT
  }

  lemma NumberParts(s: string) returns (blanks: string, sign: string, d: string, tail: string)
    requires Stoul(s).Some?
    ensures IsNumber(s, blanks, sign, d, tail) && Small(d)
  {
    hide TrimLeft, LeadingDigits, DigitsValue;
    var t := TrimLeft(s);
    var u;
    sign, u := SignParts(t);
    StoulAfterBlanks(s, sign, u);
    hide Stoul;
    var n := LeadingDigits(u);
    blanks, d, tail := s[..|s| - |t|], u[..n], u[n..];
    assert s == blanks + t;
    Reassembled(blanks, t, sign, u, n);
  }

  lemma SignParts(t: string) returns (sign: string, u: string)
    ensures t == sign + u && (sign == "" || sign == "+" || sign == "-")
    ensures sign == "" ==> u == "" || (u[0] != '-' && u[0] != '+')
  {
    if t != "" && (t[0] == '-' || t[0] == '+') {
      sign, u := t[..1], t[1..];
    } else {
      sign, u := "", t;
    }
  }

  lemma Reassembled(blanks: string, t: string, sign: string, u: string, n: nat)
    requires t == sign + u && n <= |u|
    ensures blanks + t == blanks + sign + u[..n] + u[n..]
  {
    assert u == u[..n] + u[n..];
  }

  // ---- request lines ----

  /** The names on the wire. */
  lemma LiteralNames()
    ensures StringToMethod("GET") == GET && StringToMethod("POST") == POST && StringToMethod("HEAD") == HEAD
    ensures StringToMethod("PUT") == PUT && StringToMethod("DELETE") == DELETE
    ensures VersionName(HTTP10) == "HTTP/1.0" && VersionName(HTTP11) == "HTTP/1.1"
  {
  }

  function OnTheWire(verb: Method): string
    requires verb != INVALID
  {
    match verb
    case GET => "GET"
    case POST => "POST"
    case HEAD => "HEAD"
    case PUT => "PUT"
    case DELETE => "DELETE"
  }

  /** Method, path and version of a line are what stands between its spaces, by their literal names. */
  lemma RequestLineIs(verb: Method, path: string, r: Request)
    requires verb != INVALID && ' ' !in path
    ensures ParseRequestLine(OnTheWire(verb) + " " + path + " " + "HTTP/1.0", r)
            == (true, r.(verb := verb, path := path, version := HTTP10))
    ensures ParseRequestLine(OnTheWire(verb) + " " + path + " " + "HTTP/1.1", r)
            == (true, r.(verb := verb, path := path, version := HTTP11))
  {
    LiteralNames();
    assert MethodName(verb) == OnTheWire(verb);
    RequestLineRead(r, verb, path, HTTP10);
    RequestLineRead(r, verb, path, HTTP11);
    hide ParseRequestLine, MethodName, OnTheWire;
  }

  /** What a refused line leaves set: nothing, the method, or the method and the path. */
  lemma RefusedLineSets(verb: Method, path: string, version: string, r: Request)
    requires verb != INVALID && ' ' !in path && version != "HTTP/1.0" && version != "HTTP/1.1"
    ensures ParseRequestLine(MethodName(verb), r) == (false, r)
    ensures ParseRequestLine(MethodName(verb) + " " + path, r) == (false, r.(verb := verb))
    ensures ParseRequestLine(MethodName(verb) + " " + path + " " + version, r)
            == (false, r.(verb := verb, path := path))
  {
    hide StringToMethod, MethodName;
    var m := MethodName(verb);
    NoSpaceFound(m);
    SpacesAt(m, path, version);
    OneSpaceAt(m, path);
  }

  lemma NoSpaceFound(m: string)
    requires ' ' !in m
    ensures Find(m, ' ') == |m|
  {
  }

  lemma OneSpaceAt(m: string, path: string)
    requires ' ' !in m && ' ' !in path
    ensures var line := m + " " + path;
            Find(line, ' ') == |m| < |line| && line[..|m|] == m && Find(line, ' ', |m| + 1) == |line|
  {
    var line := m + " " + path;
    assert forall k :: 0 <= k < |m| ==> line[k] == m[k];
    assert forall k :: |m| < k < |line| ==> line[k] == path[k - |m| - 1];
    assert line[|m|] == ' ';
  }

  // ---- header lines ----

  lemma ColonAt(name: string, rest: string)
    requires ':' !in name
    ensures var line := name + ":" + rest;
            Find(line, ':') == |name| < |line| && line[..|name|] == name && line[|name| + 1..] == rest
  {
    var line := name + ":" + rest;
    assert forall k :: 0 <= k < |name| ==> line[k] == name[k];
    assert line[|name|] == ':';
  }

  /** The name before the first colon, and the value without the blanks around it. */
  lemma FieldParts(name: string, a: string, v: string, b: string)
    requires ':' !in name && Blank(a) && Blank(b) && Trimmed(v)
    ensures var line := name + ":" + (a + (v + b));
            Find(line, ':') < |line| && FieldName(line) == name && FieldValue(line) == v
  {
    hide TrimLeft, TrimRight, Find;
    ColonAt(name, a + (v + b));
    BlanksTrimmed(a, v, b);
  }

  /** A HEADER LINE with any blanks around its value, none included, in front of anything: exactly the value is
      stored under exactly the name, in place of an earlier one. A Content-Length is converted; if that throws,
      the field stays stored and the line stays unread. */
  lemma HeaderLineRead(p: Parser, name: string, a: string, v: string, b: string, rest: string)
    requires p.state == ExpectHeaders && ':' !in name && Blank(a) && Blank(b) && Trimmed(v)
    requires NoCRLF(name + ":" + (a + (v + b)))
    ensures var line := name + ":" + (a + (v + b));
            var stored := p.(request := p.request.(headers := p.request.headers[name := v]));
            Advance(p, line + CRLF + rest)
            == if name != "Content-Length" then Advance(stored, rest)
               else if Stoul(v).Some? then Advance(stored.(contentLength := Stoul(v).value), rest)
               else Result(Thrown, stored, line + CRLF + rest)
  {
    FieldParts(name, a, v, b);
    hide FieldName, FieldValue, Find, Advance, FindCRLF;
    FieldLineRead(p, name + ":" + (a + (v + b)), name, v, rest);
  }

  lemma FieldLineRead(p: Parser, line: string, name: string, v: string, rest: string)
    requires p.state == ExpectHeaders && NoCRLF(line) && Find(line, ':') < |line|
    requires FieldName(line) == name && FieldValue(line) == v
    ensures var stored := p.(request := p.request.(headers := p.request.headers[name := v]));
            Advance(p, line + CRLF + rest)
            == if name != "Content-Length" then Advance(stored, rest)
               else if Stoul(v).Some? then Advance(stored.(contentLength := Stoul(v).value), rest)
               else Result(Thrown, stored, line + CRLF + rest)
  {
    hide Stoul, FieldName, FieldValue, Find, Advance, FindCRLF;
    if name != "Content-Length" || Stoul(v).Some? {
      LineTaken(p, line, rest);
    } else {
      LineStops(p, line, rest);
    }
  }

  lemma LineStops(p: Parser, line: string, rest: string)
    requires p.state == ExpectHeaders && NoCRLF(line) && TakeLine(p, line).Stop?
    ensures Advance(p, line + CRLF + rest)
            == Result(TakeLine(p, line).outcome, TakeLine(p, line).left, line + CRLF + rest)
  {
    hide TakeLine;
    LineEnds(line, rest);
    assert (line + CRLF + rest)[..|line|] == line;
  }

  /** A LINE WITHOUT A COLON, empty or not, ends the headers: a body follows exactly when one was announced. */
  lemma ColonlessLineEndsHeaders(p: Parser, line: string, rest: string)
    requires p.state == ExpectHeaders && ':' !in line && NoCRLF(line)
    ensures Advance(p, line + CRLF + rest)
            == if p.contentLength > 0 then Advance(p.(state := ExpectBody), rest)
               else Result(Complete, p.(state := GotAll), rest)
  {
    assert Find(line, ':') == |line|;
    hide Find;
    LineTaken(p, line, rest);
  }
}
