/** The response printer, and what the parser's header and body stages make of its bytes. */
module HttpResponses {
  import opened Text
  import opened Buffers
  import opened HttpRequests
  import opened HttpParsers
  import opened RequestRoundTrips

  /** A response as its setters leave it; `headers` is the `std::map`. */
  datatype Response = Response(
    status: nat,
    message: string,
    headers: map<string, string>,
    body: string,
    close: bool)

  // ---- the order of the header map ----

  /** The lexicographic order of `std::string`. */
  predicate Less(a: string, b: string) {
    b != "" && (a == "" || a[0] < b[0] || (a[0] == b[0] && Less(a[1..], b[1..])))
  }

  lemma {:induction false} LessTotal(a: string, b: string)
    requires a != b
    ensures Less(a, b) <==> !Less(b, a)
  {
    if a != "" && b != "" && a[0] == b[0] {
      assert a == [a[0]] + a[1..] && b == [b[0]] + b[1..];
      LessTotal(a[1..], b[1..]);
    }
  }

  lemma {:induction false} LessTransitive(a: string, b: string, c: string)
    requires Less(a, b) && Less(b, c)
    ensures Less(a, c)
  {
    if a != "" && a[0] == b[0] == c[0] {
      LessTransitive(a[1..], b[1..], c[1..]);
    }
  }

  predicate IsLeast(k: string, keys: set<string>) {
    k in keys && forall o | o in keys :: o == k || Less(k, o)
  }

  lemma {:induction false} LeastExists(keys: set<string>) returns (k: string)
    requires keys != {}
    ensures IsLeast(k, keys)
    decreases |keys|
  {
    hide Less;
    k :| k in keys;
    var others := keys - {k};
    if others == {} {
      forall o | o in keys ensures o == k {
        assert o != k ==> o in others;
      }
    } else {
      var l := LeastExists(others);
      k := LesserIsLeast(keys, k, l);
    }
  }

  lemma LesserIsLeast(keys: set<string>, k: string, l: string) returns (first: string)
    requires k in keys && IsLeast(l, keys - {k})
    ensures IsLeast(first, keys)
  {
    hide Less;
    LessTotal(k, l);
    first := if Less(l, k) then l else k;
    forall o | o in keys ensures o == first || Less(first, o) {
      if o != k && o != l {
        assert o in keys - {k} && Less(l, o);
        if first == k {
          LessTransitive(k, l, o);
        }
      }
    }
  }

  lemma LeastIsUnique(keys: set<string>)
    requires keys != {}
    ensures exists k :: IsLeast(k, keys)
    ensures forall k, l :: IsLeast(k, keys) && IsLeast(l, keys) ==> k == l
  {
    var least := LeastExists(keys);
    forall k, l | IsLeast(k, keys) && IsLeast(l, keys) ensures k == l {
      if k != l {
        LessTotal(k, l);
      }
    }
  }

  function Least(keys: set<string>): (k: string)
    requires keys != {}
    ensures IsLeast(k, keys)
  {
    LeastIsUnique(keys);
    var k :| k in keys && IsLeast(k, keys);
    k
  }

  /** The header map in iteration order. */
  function SortedFields(headers: map<string, string>): seq<Field>
    decreases |headers|
  {
    if headers == map[] then []
    else
      var k := Least(headers.Keys);
      assert |(headers - {k}).Keys| < |headers.Keys| by {
        assert (headers - {k}).Keys == headers.Keys - {k};
      }
      [(k, headers[k])] + SortedFields(headers - {k})
  }

  lemma {:induction false} SortedFieldsEnumerate(headers: map<string, string>)
    ensures Enumerates(SortedFields(headers), headers)
    decreases |headers|
  {
    if headers == map[] {
      assert SortedFields(headers) == [];
    } else {
      hide Less, Enumerates, IsLeast;
      var k := Least(headers.Keys);
      var others := headers - {k};
      assert others.Keys == headers.Keys - {k};
      SortedFieldsEnumerate(others);
      assert k in headers by {
        assert IsLeast(k, headers.Keys);
        LeastIsIn(k, headers.Keys);
      }
      assert SortedFields(headers) == [(k, headers[k])] + SortedFields(others);
      PrependEnumerates(k, SortedFields(others), headers);
    }
  }

  lemma LeastIsIn(k: string, keys: set<string>)
    requires IsLeast(k, keys)
    ensures k in keys
  {
  }

  lemma SortedFieldsHead(headers: map<string, string>)
    requires headers != map[]
    ensures Least(headers.Keys) in headers
    ensures var k := Least(headers.Keys);
            SortedFields(headers) == [(k, headers[k])] + SortedFields(headers - {k})
  {
    hide Less;
  }

  /** The iteration order is strictly ascending. */
  lemma {:induction false} SortedFieldsAscend(headers: map<string, string>)
    ensures forall i, j :: 0 <= i < j < |SortedFields(headers)| ==>
              Less(SortedFields(headers)[i].0, SortedFields(headers)[j].0)
    decreases |headers|
  {
    if headers == map[] {
      NothingSorted();
    } else {
      hide Less, SortedFields, Enumerates;
      SortedFieldsHead(headers);
      var k := Least(headers.Keys);
      var others := headers - {k};
      assert others.Keys == headers.Keys - {k};
      SortedFieldsAscend(others);
      SortedFieldsEnumerate(others);
      LeastBefore(k, SortedFields(others), headers);
    }
  }

  lemma LeastBefore(k: string, tail: seq<Field>, headers: map<string, string>)
    requires IsLeast(k, headers.Keys) && Enumerates(tail, headers - {k})
    ensures forall j :: 0 <= j < |tail| ==> Less(k, tail[j].0)
  {
    hide Less;
    forall j | 0 <= j < |tail| ensures Less(k, tail[j].0) {
      assert tail[j].0 in headers.Keys && tail[j].0 != k;
    }
  }

  lemma PrependEnumerates(k: string, tail: seq<Field>, headers: map<string, string>)
    requires k in headers && Enumerates(tail, headers - {k})
    ensures Enumerates([(k, headers[k])] + tail, headers)
  {
    var fields := [(k, headers[k])] + tail;
    forall o | o in headers ensures exists i :: 0 <= i < |fields| && fields[i].0 == o {
      if o == k {
        assert fields[0].0 == o;
      } else {
        assert o in headers - {k};
        var i :| 0 <= i < |tail| && tail[i].0 == o;
        assert fields[i + 1].0 == o;
      }
    }
  }

  // ---- printing ----

  const SCRATCH_SIZE: nat := 32

  /** `snprintf` into the 32-byte scratch buffer: at most 31 characters survive. */
  function Scratch(s: string): string {
    if |s| < SCRATCH_SIZE then s else s[..SCRATCH_SIZE - 1]
  }

  function StatusLine(r: Response): string {
    Scratch("HTTP/1.1 " + Decimal(r.status) + " ") + r.message + CRLF
  }

  function ConnectionLines(r: Response): string {
    if r.close then "Connection: close" + CRLF
    else Scratch("Content-Length: " + Decimal(|r.body|) + CRLF) + ("Connection: Keep-Alive" + CRLF)
  }

  function AfterStatusLine(r: Response): string {
    ConnectionLines(r) + FieldLines(SortedFields(r.headers)) + CRLF + r.body
  }

  function PrintResponse(r: Response): string {
    StatusLine(r) + AfterStatusLine(r)
  }

  lemma NoFields()
    ensures FieldLines([]) == ""
  {
  }

  lemma FieldLinesSnoc(fields: seq<Field>, f: Field)
    ensures FieldLines(fields + [f]) == FieldLines(fields) + FieldLine(f) + CRLF
  {
    if fields == [] {
      assert [f][1..] == [];
      assert fields + [f] == [f];
    } else {
      assert (fields + [f])[1..] == fields[1..] + [f];
    }
  }

  lemma Assoc(s: string, a: string, b: string, c: string, d: string)
    ensures s + a + b + c + d == s + (a + b + c + d)
  {
  }

  method AppendFour(output: Buffer, a: string, b: string, c: string, d: string)
    requires output.Valid()
    modifies output, output.data
    ensures output.Valid() && (output.data == old(output.data) || fresh(output.data))
    ensures output.Contents() == old(output.Contents()) + (a + b + c + d)
  {
    ghost var start := output.Contents();
    output.Append(a);
    output.Append(b);
    output.Append(c);
    output.Append(d);
    Assoc(start, a, b, c, d);
  }

  /** `appendToBuffer`: the printed response goes behind what the buffer holds. */
  method AppendToBuffer(r: Response, output: Buffer)
    requires output.Valid()
    modifies output, output.data
    ensures output.Valid() && (output.data == old(output.data) || fresh(output.data))
    ensures output.Contents() == old(output.Contents()) + PrintResponse(r)
  {
    hide Decimal, Scratch, SortedFields, FieldLines;
    ghost var before := output.Contents();
    var buf := Scratch("HTTP/1.1 " + Decimal(r.status) + " ");
    AppendFour(output, buf, r.message, CRLF, "");
    assert output.Contents() == before + StatusLine(r);
    if r.close {
      AppendFour(output, "Connection: close", CRLF, "", "");
    } else {
      buf := Scratch("Content-Length: " + Decimal(|r.body|) + CRLF);
      AppendFour(output, buf, "Connection: Keep-Alive", CRLF, "");
    }
    ghost var start := output.Contents();
    assert start == before + StatusLine(r) + ConnectionLines(r) by {
      ConnectionLinesParts(r);
    }
    AppendHeaders(r.headers, output);
    AppendFour(output, CRLF, r.body, "", "");
    ghost var fields := FieldLines(SortedFields(r.headers));
    assert output.Contents() == start + fields + (CRLF + r.body + "" + "");
    Assoc(before, StatusLine(r), ConnectionLines(r), fields, CRLF + r.body);
    assert CRLF + r.body + "" + "" == CRLF + r.body;
    PrintedParts(r);
  }

  lemma ConnectionLinesParts(r: Response)
    ensures ConnectionLines(r)
            == if r.close then "Connection: close" + CRLF + "" + ""
               else Scratch("Content-Length: " + Decimal(|r.body|) + CRLF) + "Connection: Keep-Alive" + CRLF + ""
  {
  }

  lemma PrintedParts(r: Response)
    ensures PrintResponse(r)
            == StatusLine(r) + ConnectionLines(r) + FieldLines(SortedFields(r.headers)) + (CRLF + r.body)
  {
    hide StatusLine, ConnectionLines, FieldLines, SortedFields;
  }

  /** The loop over the header map, in key order. */
  method AppendHeaders(headers: map<string, string>, output: Buffer)
    requires output.Valid()
    modifies output, output.data
    ensures output.Valid() && (output.data == old(output.data) || fresh(output.data))
    ensures output.Contents() == old(output.Contents()) + FieldLines(SortedFields(headers))
  {
    hide Less, FieldLines, SortedFields;
    ghost var start := output.Contents();
    ghost var done: seq<Field> := [];
    NoFields();
    assert start + FieldLines(done) == start;
    assert done + SortedFields(headers) == SortedFields(headers);
    var left := headers;
    while left != map[]
      invariant output.Valid() && (output.data == old(output.data) || fresh(output.data))
      invariant SortedFields(headers) == done + SortedFields(left)
      invariant output.Contents() == start + FieldLines(done)
      decreases |left|
    {
      SortedFieldsHead(left);
      var key := Least(left.Keys);
      ghost var f := (key, left[key]);
      AppendFour(output, key, ": ", left[key], CRLF);
      FieldAdded(start, done, f);
      assert done + ([f] + SortedFields(left - {key})) == (done + [f]) + SortedFields(left - {key});
      done := done + [f];
      assert (left - {key}).Keys == left.Keys - {key};
      left := left - {key};
    }
    assert done + SortedFields(left) == done by {
      NothingSorted();
    }
  }

  lemma NothingSorted()
    ensures SortedFields(map[]) == []
  {
  }

  lemma FieldAdded(start: string, done: seq<Field>, f: Field)
    ensures start + FieldLines(done) + (f.0 + ": " + f.1 + CRLF) == start + FieldLines(done + [f])
  {
    hide FieldLines;
    FieldLinesSnoc(done, f);
    assert FieldLine(f) + CRLF == f.0 + ": " + f.1 + CRLF;
  }

  // ---- reading the response back ----

  const CONNECTION: string := "Connection"

  /** The parser past the status line. */
  const AFTER_STATUS: Parser := Parser(ExpectHeaders, EMPTY_REQUEST, 0)

  ghost predicate KeepAliveResponse(r: Response) {
    && !r.close
    && CONNECTION !in r.headers && CONTENT_LENGTH !in r.headers
    && forall k :: k in r.headers ==> WellFormedField((k, r.headers[k]))
  }

  /** The headers a client should find. */
  function ExpectedHeaders(r: Response): map<string, string> {
    r.headers[CONTENT_LENGTH := Decimal(|r.body|)][CONNECTION := "Keep-Alive"]
  }

  /** The bytes after the status line give back the headers, the two generated ones and the body. */
  ghost predicate RoundTrips(r: Response, rest: string) {
    Advance(AFTER_STATUS, AfterStatusLine(r) + rest)
    == Result(Complete, Parser(GotAll, EMPTY_REQUEST.(headers := ExpectedHeaders(r), body := r.body), |r.body|), rest)
  }

  const BODY_LIMIT: nat := 10_000_000_000_000

  lemma Powers()
    ensures Pow10(13) == BODY_LIMIT && Pow10(15) < SIZE_LIMIT
  {
    assert Pow10(2) == 100;
    assert Pow10(4) == 10_000;
    assert Pow10(6) == 1_000_000;
    assert Pow10(8) == 100_000_000;
    assert Pow10(10) == 10_000_000_000;
    assert Pow10(12) == 1_000_000_000_000;
    assert Pow10(14) == 100_000_000_000_000;
  }

  lemma SortedFieldsWellFormed(r: Response)
    requires KeepAliveResponse(r)
    ensures WellFormedFields(SortedFields(r.headers)) && Enumerates(SortedFields(r.headers), r.headers)
  {
    hide WellFormedField;
    SortedFieldsEnumerate(r.headers);
  }

  lemma Literals()
    ensures WellFormedField((CONNECTION, "Keep-Alive"))
    ensures ':' !in CONTENT_LENGTH && NoCRLF(CONTENT_LENGTH)
    ensures CONNECTION != CONTENT_LENGTH
  {
    ConnectionField();
    HasNoCR(CONTENT_LENGTH);
  }

  lemma ConnectionField()
    ensures WellFormedField((CONNECTION, "Keep-Alive")) && CONNECTION != CONTENT_LENGTH
  {
    HasNoCR(CONNECTION);
    HasNoCR("Keep-Alive");
    hide FindCRLF, Stoul;
    assert |CONNECTION| != |CONTENT_LENGTH|;
  }

  lemma HasNoCR(s: string)
    requires '\r' !in s
    ensures NoCRLF(s)
  {
    assert forall k :: 0 <= k < |s| ==> s[k] in s;
  }

  lemma DecimalField(n: nat)
    requires n < SIZE_LIMIT
    ensures WellFormedField((CONTENT_LENGTH, Decimal(n)))
  {
    hide Decimal;
    Literals();
    StoulDecimal(n);
    assert forall k :: 0 <= k < |Decimal(n)| ==> IsDigit(Decimal(n)[k]);
    HasNoCR(Decimal(n));
  }

  /** The listed order of the whole header section. */
  ghost function AllFields(r: Response): seq<Field> {
    [(CONTENT_LENGTH, Decimal(|r.body|)), (CONNECTION, "Keep-Alive")] + SortedFields(r.headers)
  }

  lemma AllFieldsEnumerate(r: Response)
    requires KeepAliveResponse(r) && |r.body| < SIZE_LIMIT
    ensures WellFormedFields(AllFields(r)) && Enumerates(AllFields(r), ExpectedHeaders(r))
  {
    hide WellFormedField, WellFormedFields, SortedFields, Enumerates, Decimal, KeepAliveResponse;
    var d, tail := Decimal(|r.body|), SortedFields(r.headers);
    Literals();
    DecimalField(|r.body|);
    SortedFieldsWellFormed(r);
    NotInHeaders(r);
    var rest := [(CONNECTION, "Keep-Alive")] + tail;
    assert AllFields(r) == [(CONTENT_LENGTH, d)] + rest;
    TwoMore(r.headers, d, tail);
    PrependWellFormed((CONNECTION, "Keep-Alive"), tail);
    PrependWellFormed((CONTENT_LENGTH, d), rest);
  }

  lemma NotInHeaders(r: Response)
    requires KeepAliveResponse(r)
    ensures CONNECTION !in r.headers && CONTENT_LENGTH !in r.headers
  {
  }

  lemma TwoMore(headers: map<string, string>, d: string, tail: seq<Field>)
    requires Enumerates(tail, headers) && CONNECTION !in headers && CONTENT_LENGTH !in headers
    requires CONNECTION != CONTENT_LENGTH
    ensures Enumerates([(CONTENT_LENGTH, d)] + ([(CONNECTION, "Keep-Alive")] + tail),
                       headers[CONTENT_LENGTH := d][CONNECTION := "Keep-Alive"])
  {
    hide Enumerates;
    var h := headers[CONTENT_LENGTH := d][CONNECTION := "Keep-Alive"];
    var inner := h - {CONTENT_LENGTH};
    assert inner - {CONNECTION} == headers;
    PrependEnumerates(CONNECTION, tail, inner);
    PrependEnumerates(CONTENT_LENGTH, [(CONNECTION, "Keep-Alive")] + tail, h);
  }

  lemma PrependWellFormed(f: Field, fields: seq<Field>)
    requires WellFormedField(f) && WellFormedFields(fields)
    ensures WellFormedFields([f] + fields)
  {
    hide WellFormedField;
  }

  lemma ShortPrinted(r: Response)
    requires KeepAliveResponse(r) && |r.body| < BODY_LIMIT
    ensures AfterStatusLine(r) == FieldLines(AllFields(r)) + CRLF + r.body
  {
    hide SortedFields, Decimal, Scratch, FieldLines;
    Powers();
    DecimalLength(|r.body|, 13);
    var d, tail := Decimal(|r.body|), SortedFields(r.headers);
    FitsScratch(d);
    var second := [(CONNECTION, "Keep-Alive")] + tail;
    OneField((CONNECTION, "Keep-Alive"), tail);
    OneField((CONTENT_LENGTH, d), second);
    assert AllFields(r) == [(CONTENT_LENGTH, d)] + second;
    LengthLine(d);
    assert FieldLine((CONNECTION, "Keep-Alive")) == "Connection: Keep-Alive";
    ShortParts(r, d, FieldLines(tail));
  }

  lemma FitsScratch(d: string)
    requires |d| <= 13
    ensures Scratch("Content-Length: " + d + CRLF) == "Content-Length: " + d + CRLF
  {
    assert |"Content-Length: "| == 16;
  }

  lemma LengthLine(d: string)
    ensures FieldLine((CONTENT_LENGTH, d)) == "Content-Length: " + d
  {
    assert CONTENT_LENGTH + ": " == "Content-Length: ";
  }

  lemma OneField(f: Field, fields: seq<Field>)
    ensures FieldLines([f] + fields) == FieldLine(f) + CRLF + FieldLines(fields)
  {
    hide FieldLine;
    assert ([f] + fields)[1..] == fields;
  }

  /** The parts of a short response, put together. */
  lemma ShortParts(r: Response, d: string, rest: string)
    requires !r.close && d == Decimal(|r.body|) && rest == FieldLines(SortedFields(r.headers))
    requires Scratch("Content-Length: " + d + CRLF) == "Content-Length: " + d + CRLF
    ensures AfterStatusLine(r)
            == "Content-Length: " + d + CRLF + ("Connection: Keep-Alive" + CRLF + rest) + CRLF + r.body
  {
    hide Decimal, SortedFields, FieldLines, Scratch;
    var a, b := "Content-Length: " + d + CRLF, "Connection: Keep-Alive" + CRLF;
    assert ConnectionLines(r) == a + b;
    Regroup(a, b, rest, CRLF, r.body);
  }

  lemma Regroup(a: string, b: string, c: string, d: string, e: string)
    ensures a + b + c + d + e == a + (b + c) + d + e
  {
    assert a + b + c == a + (b + c);
  }

  lemma ShortRoundTrips(r: Response, rest: string)
    requires KeepAliveResponse(r) && |r.body| < BODY_LIMIT
    ensures RoundTrips(r, rest)
  {
    hide Advance, AllFields, Enumerates, WellFormedFields, ExpectedHeaders, AfterStatusLine, FieldLines,
         KeepAliveResponse, Decimal;
    assert |r.body| < SIZE_LIMIT;
    AllFieldsEnumerate(r);
    ShortPrinted(r);
    EnumerationStored(AFTER_STATUS, AllFields(r), ExpectedHeaders(r));
    ExpectedLength(r);
    MessageRead(AFTER_STATUS, AllFields(r), r.body, rest);
  }

  lemma ExpectedLength(r: Response)
    requires |r.body| < SIZE_LIMIT
    ensures CONTENT_LENGTH in ExpectedHeaders(r)
    ensures Stoul(ExpectedHeaders(r)[CONTENT_LENGTH]) == Some(|r.body|)
  {
    hide Decimal;
    Literals();
    StoulDecimal(|r.body|);
  }

  // ---- bodies whose length does not fit the scratch buffer ----

  /** What the truncated first line turns the Content-Length value into. */
  function MangledValue(n: nat): string
    requires |Decimal(n)| >= 14
  {
    (Decimal(n) + CRLF)[..15] + "Connection: Keep-Alive"
  }

  /** At most 15 digits survive, then comes a carriage return or the next header. */
  lemma MangledShape(n: nat) returns (digits: string, tail: string)
    requires |Decimal(n)| >= 14
    ensures MangledValue(n) == digits + tail
    ensures 0 < |digits| <= 15 && AllDigits(digits)
    ensures tail == "Connection: Keep-Alive" || tail == "\rConnection: Keep-Alive"
  {
    hide Decimal;
    var d := Decimal(n);
    digits, tail := CutLine(d);
  }

  /** The first 15 characters of the line's value, in front of the next header. */
  lemma CutLine(d: string) returns (digits: string, tail: string)
    requires |d| >= 14 && AllDigits(d)
    ensures (d + CRLF)[..15] + "Connection: Keep-Alive" == digits + tail
    ensures 0 < |digits| <= 15 && AllDigits(digits)
    ensures tail == "Connection: Keep-Alive" || tail == "\rConnection: Keep-Alive"
  {
    if |d| == 14 {
      digits, tail := d, "\rConnection: Keep-Alive";
      assert (d + CRLF)[..15] == d + "\r";
      Glue(d, "\r", "Connection: Keep-Alive");
      assert "\r" + "Connection: Keep-Alive" == "\rConnection: Keep-Alive";
    } else {
      digits, tail := d[..15], "Connection: Keep-Alive";
      assert (d + CRLF)[..15] == d[..15];
    }
  }

  lemma Glue(a: string, b: string, c: string)
    ensures a + b + c == a + (b + c)
  {
  }

  lemma MangledHasNoCRLF(digits: string, tail: string)
    requires AllDigits(digits)
    requires tail == "Connection: Keep-Alive" || tail == "\rConnection: Keep-Alive"
    ensures NoCRLF(digits + tail)
  {
    assert '\n' !in tail;
    assert forall k :: 0 <= k < |tail| ==> tail[k] != '\n';
    assert forall k :: 0 <= k < |digits| ==> IsDigit(digits[k]);
    assert forall k :: 0 <= k < |digits + tail| ==> (digits + tail)[k] != '\n';
  }

  lemma MangledIsWellFormed(n: nat)
    requires |Decimal(n)| >= 14
    ensures WellFormedField((CONTENT_LENGTH, MangledValue(n)))
    ensures MangledValue(n) != Decimal(n)
  {
    hide Decimal, Stoul, FindCRLF, MangledValue;
    Literals();
    var digits, tail := MangledShape(n);
    var v := digits + tail;
    MangledHasNoCRLF(digits, tail);
    DigitsBound(digits);
    Powers();
    Pow10Monotone(|digits|, 15);
    StoulPrefix(digits, tail);
    assert IsDigit(v[0]) && v[|v| - 1] == 'e' && !IsSpace('e') && !IsDigit('e');
    assert IsDigit(Decimal(n)[|Decimal(n)| - 1]);
  }

  /** From the end of the headers on, a call no longer changes the headers. */
  lemma HeadersStay(p: Parser, s: string)
    requires p.state == ExpectHeaders
    ensures Advance(p, CRLF + s).parser.request.headers == p.request.headers
  {
    assert NoCRLF("");
    assert CRLF + s == "" + CRLF + s;
    LineTaken(p, "", s);
  }

  lemma MangledLine(n: nat)
    requires |Decimal(n)| >= 14
    ensures Scratch("Content-Length: " + Decimal(n) + CRLF) + ("Connection: Keep-Alive" + CRLF)
            == FieldLine((CONTENT_LENGTH, MangledValue(n))) + CRLF
  {
    hide Decimal;
    var d := Decimal(n);
    assert |"Content-Length: "| == 16;
    assert Scratch("Content-Length: " + d + CRLF) == "Content-Length: " + (d + CRLF)[..15];
    assert FieldLine((CONTENT_LENGTH, MangledValue(n))) == "Content-Length: " + MangledValue(n);
  }

  lemma LongPrinted(r: Response)
    requires KeepAliveResponse(r) && |Decimal(|r.body|)| >= 14
    ensures AfterStatusLine(r)
            == FieldLines([(CONTENT_LENGTH, MangledValue(|r.body|))] + SortedFields(r.headers)) + CRLF + r.body
  {
    hide SortedFields, Decimal;
    var v := MangledValue(|r.body|);
    MangledLine(|r.body|);
    assert ConnectionLines(r) == FieldLine((CONTENT_LENGTH, v)) + CRLF;
    hide ConnectionLines, FieldLine, MangledValue;
    var fields := [(CONTENT_LENGTH, v)] + SortedFields(r.headers);
    assert fields[1..] == SortedFields(r.headers);
    assert FieldLines(fields) == FieldLine(fields[0]) + CRLF + FieldLines(fields[1..]);
  }

  lemma MangledHeaders(r: Response, fields: seq<Field>)
    requires KeepAliveResponse(r) && |Decimal(|r.body|)| >= 14
    requires fields == [(CONTENT_LENGTH, MangledValue(|r.body|))] + SortedFields(r.headers)
    ensures WellFormedFields(fields)
    ensures AddFields(AFTER_STATUS, fields).request.headers != ExpectedHeaders(r)
  {
    hide Decimal, SortedFields, MangledValue, WellFormedField, Stoul;
    MangledIsWellFormed(|r.body|);
    SortedFieldsWellFormed(r);
    forall i | 1 <= i < |fields| ensures fields[i] == SortedFields(r.headers)[i - 1] {
    }
    FieldsStored(AFTER_STATUS, fields);
    assert fields[0] == (CONTENT_LENGTH, MangledValue(|r.body|));
    Literals();
  }

  lemma LongIsMangled(r: Response, rest: string)
    requires KeepAliveResponse(r) && |Decimal(|r.body|)| >= 14
    ensures !RoundTrips(r, rest)
  {
    hide Advance, Decimal, SortedFields, AfterStatusLine, FieldLines, MangledValue, KeepAliveResponse,
         ExpectedHeaders;
    var fields := [(CONTENT_LENGTH, MangledValue(|r.body|))] + SortedFields(r.headers);
    MangledHeaders(r, fields);
    LongPrinted(r);
    var p := AddFields(AFTER_STATUS, fields);
    hide AddFields;
    var body := r.body + rest;
    assert AfterStatusLine(r) + rest == FieldLines(fields) + (CRLF + body);
    FieldsRead(AFTER_STATUS, fields, CRLF + body);
    HeadersStay(p, body);
  }

  /** PRINTER/PARSER ROUND TRIP: a keep-alive response with well-formed headers is read back
      exactly when its body is shorter than 10^13 bytes; from there on the 32-byte scratch buffer
      cuts the Content-Length line. */
  lemma ResponseRoundTrip(r: Response, rest: string)
    requires KeepAliveResponse(r)
    ensures RoundTrips(r, rest) <==> |r.body| < BODY_LIMIT
  {
    hide RoundTrips, KeepAliveResponse, Decimal;
    Powers();
    DecimalLength(|r.body|, 13);
    if |r.body| < BODY_LIMIT {
      ShortRoundTrips(r, rest);
    } else {
      LongIsMangled(r, rest);
    }
  }
}
