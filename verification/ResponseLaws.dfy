/** What a client reads in a printed response: its status line, and the header section of a closing reply. */
module ResponseLaws {
  import opened Text
  import opened HttpRequests
  import opened HttpParsers
  import opened RequestRoundTrips
  import opened HttpResponses
  import HttpServers

  // ---- the order of the headers ----

  /** Strings are ordered by the first character in which they differ. */
  lemma {:induction false} LessByFirstDifference(p: string, x: char, a: string, y: char, b: string)
    requires x < y
    ensures Less(p + [x] + a, p + [y] + b)
    decreases |p|
  {
    var s, t := p + [x] + a, p + [y] + b;
    if p != "" {
      assert s[1..] == p[1..] + [x] + a && t[1..] == p[1..] + [y] + b;
      LessByFirstDifference(p[1..], x, a, y, b);
    }
  }

  /** And a beginning comes before the longer string. */
  lemma {:induction false} LessThanLonger(p: string, x: char, a: string)
    ensures Less(p, p + [x] + a)
    decreases |p|
  {
    if p != "" {
      assert (p + [x] + a)[1..] == p[1..] + [x] + a;
      LessThanLonger(p[1..], x, a);
    }
  }

  // ---- the status line ----

  /** A client's reading of a status line: version, number and message, between the first two spaces. */
  function ReadStatusLine(line: string): Option<(string, nat, string)> {
    var i := Find(line, ' ');
    if i == |line| then None
    else
      var j := Find(line, ' ', i + 1);
      if j == |line| || j == i + 1 || !AllDigits(line[i + 1..j]) then None
      else Some((line[..i], DigitsValue(line[i + 1..j]), line[j + 1..]))
  }

  /** The bytes before the first CRLF. */
  function FirstLine(r: Response): string {
    Scratch("HTTP/1.1 " + Decimal(r.status) + " ") + r.message
  }

  lemma FitsLine(d: string, message: string)
    requires d != "" && AllDigits(d) && |d| <= 21
    ensures ReadStatusLine(Scratch("HTTP/1.1 " + d + " ") + message) == Some(("HTTP/1.1", DigitsValue(d), message))
  {
    hide ReadStatusLine, DigitsValue;
    assert |"HTTP/1.1 " + d + " "| == 10 + |d|;
    assert "HTTP/1.1" + " " == "HTTP/1.1 ";
    ThreeParts("HTTP/1.1", d, message);
  }

  lemma ThreeParts(m: string, d: string, v: string)
    requires ' ' !in m && d != "" && AllDigits(d)
    ensures ReadStatusLine(m + " " + d + " " + v) == Some((m, DigitsValue(d), v))
  {
    hide Find, DigitsValue;
    assert ' ' !in d by {
      assert forall k :: 0 <= k < |d| ==> IsDigit(d[k]);
    }
    SpacesAt(m, d, v);
  }

  /** A longer number pushes the second space out of the scratch buffer, and the message is not read back. */
  lemma CutStatusLine(d: string, message: string)
    requires AllDigits(d) && |d| >= 22
    ensures var line := Scratch("HTTP/1.1 " + d + " ") + message;
            ReadStatusLine(line).None? || ReadStatusLine(line).value.2 != message
  {
    hide DigitsValue;
    var line := Scratch("HTTP/1.1 " + d + " ") + message;
    assert |"HTTP/1.1 "| == 9;
    assert forall k :: 0 <= k < 8 ==> line[k] == "HTTP/1.1"[k];
    assert line[8] == ' ';
    EightIsFirst(line);
    assert forall k :: 9 <= k < 31 ==> line[k] == d[k - 9] && IsDigit(d[k - 9]);
    var j := Find(line, ' ', 9);
    assert j >= 31;
  }

  lemma EightIsFirst(line: string)
    requires |line| > 8 && line[8] == ' ' && forall k :: 0 <= k < 8 ==> line[k] == "HTTP/1.1"[k]
    ensures Find(line, ' ') == 8
  {
    assert forall k :: 0 <= k < 8 ==> "HTTP/1.1"[k] != ' ';
  }

  lemma FirstLineHasNoCRLF(r: Response)
    requires NoCRLF(r.message)
    ensures NoCRLF(FirstLine(r))
  {
    var d := Decimal(r.status);
    var prefix := "HTTP/1.1 " + d + " ";
    assert forall k :: 0 <= k < |prefix| ==> prefix[k] != '\r' by {
      assert forall k :: 0 <= k < |d| ==> IsDigit(d[k]);
      assert forall k :: 0 <= k < |"HTTP/1.1 "| ==> "HTTP/1.1 "[k] != '\r';
    }
    hide Decimal;
    var s := Scratch(prefix);
    assert s <= prefix;
    assert forall k :: 0 <= k < |s| ==> s[k] != '\r';
    NoCrThenMessage(s, r.message);
  }

  lemma NoCrThenMessage(s: string, message: string)
    requires (forall k :: 0 <= k < |s| ==> s[k] != '\r') && NoCRLF(message)
    ensures NoCRLF(s + message)
  {
    forall k | 0 <= k < |s + message| ensures !CrlfAt(s + message, k) {
      if k >= |s| {
        assert !CrlfAt(message, k - |s|);
      }
    }
  }

  /** STATUS LINE: in front of anything, the first line of the printed bytes is read back as HTTP/1.1, the status
      and the message if and only if the number has at most 21 digits; the header section comes behind it. */
  lemma StatusLineRoundTrip(r: Response, rest: string)
    requires NoCRLF(r.message)
    ensures var bytes, n := PrintResponse(r) + rest, |FirstLine(r)|;
            && FindCRLF(bytes) == Some(n) && n + 2 <= |bytes|
            && (ReadStatusLine(bytes[..n]) == Some(("HTTP/1.1", r.status, r.message)) <==> r.status < Pow10(21))
            && bytes[n + 2..] == AfterStatusLine(r) + rest
  {
    hide Find, Scratch, AfterStatusLine;
    var d, line := Decimal(r.status), FirstLine(r);
    DecimalLength(r.status, 21);
    DecimalValue(r.status);
    if |d| <= 21 {
      FitsLine(d, r.message);
    } else {
      CutStatusLine(d, r.message);
    }
    hide Decimal, ReadStatusLine, DigitsValue, FindCRLF, FirstLine, PrintResponse;
    FirstLineHasNoCRLF(r);
    var after := AfterStatusLine(r) + rest;
    PrintedAs(r, rest);
    CutAtLine(line, after);
  }

  lemma PrintedAs(r: Response, rest: string)
    ensures PrintResponse(r) + rest == FirstLine(r) + CRLF + (AfterStatusLine(r) + rest)
  {
    hide Scratch, Decimal, AfterStatusLine;
    assert PrintResponse(r) == FirstLine(r) + CRLF + AfterStatusLine(r);
  }

  lemma CutAtLine(line: string, after: string)
    requires NoCRLF(line)
    ensures var bytes := line + CRLF + after;
            && FindCRLF(bytes) == Some(|line|) && |line| + 2 <= |bytes|
            && bytes[..|line|] == line && bytes[|line| + 2..] == after
  {
    hide FindCRLF;
    LineEnds(line, after);
  }

  // ---- a closing reply ----

  ghost predicate ClosingResponse(r: Response) {
    && r.close
    && CONNECTION !in r.headers && CONTENT_LENGTH !in r.headers
    && forall k :: k in r.headers ==> WellFormedField((k, r.headers[k]))
  }

  lemma CloseField()
    ensures WellFormedField((CONNECTION, "close")) && FieldLine((CONNECTION, "close")) == "Connection: close"
    ensures CONNECTION != CONTENT_LENGTH
  {
    HasNoCR(CONNECTION);
    HasNoCR("close");
    hide FindCRLF, Stoul;
    assert |CONNECTION| != |CONTENT_LENGTH|;
  }

  lemma ClosingFields(r: Response)
    requires ClosingResponse(r)
    ensures var fields := [(CONNECTION, "close")] + SortedFields(r.headers);
            && WellFormedFields(fields) && Enumerates(fields, r.headers[CONNECTION := "close"])
            && AfterStatusLine(r) == FieldLines(fields) + CRLF + r.body
  {
    hide SortedFields, WellFormedField, Enumerates, FieldLines, FieldLine;
    CloseField();
    SortedFieldsEnumerate(r.headers);
    SortedAreWellFormed(r);
    var h, tail := r.headers[CONNECTION := "close"], SortedFields(r.headers);
    assert h - {CONNECTION} == r.headers;
    PrependEnumerates(CONNECTION, tail, h);
    PrependWellFormed((CONNECTION, "close"), tail);
    OneField((CONNECTION, "close"), tail);
  }

  lemma SortedAreWellFormed(r: Response)
    requires ClosingResponse(r)
    ensures WellFormedFields(SortedFields(r.headers))
  {
    hide WellFormedField;
    SortedFieldsEnumerate(r.headers);
  }

  /** CLOSING REPLY: the bytes after the status line give back the headers and `Connection: close`, and then the
      body, of which no length is announced. */
  lemma ClosingRoundTrip(r: Response, rest: string)
    requires ClosingResponse(r)
    ensures Advance(AFTER_STATUS, AfterStatusLine(r) + rest)
            == Result(Complete,
                      Parser(GotAll, EMPTY_REQUEST.(headers := r.headers[CONNECTION := "close"]), 0),
                      r.body + rest)
  {
    hide Advance, WellFormedFields, Enumerates, AfterStatusLine, FieldLines, SortedFields, Stoul;
    var fields := [(CONNECTION, "close")] + SortedFields(r.headers);
    ClosingFields(r);
    CloseField();
    EnumerationStored(AFTER_STATUS, fields, r.headers[CONNECTION := "close"]);
    assert LengthAgrees(AddFields(AFTER_STATUS, fields));
    MessageRead(AFTER_STATUS, fields, "", r.body + rest);
    assert AfterStatusLine(r) + rest == FieldLines(fields) + CRLF + "" + (r.body + rest);
  }

  // ---- the server's own reply ----

  /** The bytes of the reply to a refused request line. */
  lemma BadRequestBytes()
    ensures PrintResponse(HttpServers.BAD_REQUEST)
            == "HTTP/1.1 400 Bad Request" + CRLF + "Connection: close" + CRLF + CRLF
    ensures HttpServers.BAD_REQUEST.close
  {
    assert Decimal(400) == "400" by {
      assert Decimal(4) == "4" && Decimal(40) == Decimal(4) + "0" && Decimal(400) == Decimal(40) + "0";
    }
    NothingSorted();
    NoFields();
    assert Scratch("HTTP/1.1 " + "400" + " ") == "HTTP/1.1 400 ";
    assert "HTTP/1.1 400 " + "Bad Request" == "HTTP/1.1 400 Bad Request";
    hide Decimal, SortedFields, FieldLines, Scratch;
  }
}
