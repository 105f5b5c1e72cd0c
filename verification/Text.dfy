/** Byte-string helpers shared by the buffer, the parser and the printers.
    A byte is a `char`: every result holds for any alphabet, so in particular for the 256 bytes. */
module Text {

  datatype Option<+T> = None | Some(value: T)

  const CRLF: string := "\r\n"

  /** `isspace` in the C locale. */
  predicate IsSpace(c: char) {
    c == ' ' || '\t' <= c <= '\r'
  }

  /** `std::find`: the first position of `c` at or after `from`, or the length. */
  function Find(s: string, c: char, from: nat := 0): (i: nat)
    requires from <= |s|
    ensures from <= i <= |s|
    ensures forall j :: from <= j < i ==> s[j] != c
    ensures i < |s| ==> s[i] == c
    decreases |s| - from
  {
    if from == |s| || s[from] == c then from else Find(s, c, from + 1)
  }

  predicate CrlfAt(s: string, i: nat) {
    i + 1 < |s| && s[i] == '\r' && s[i + 1] == '\n'
  }

  /** `std::search` for CRLF: the first position at or after `from`. */
  function FindCRLF(s: string, from: nat := 0): (r: Option<nat>)
    requires from <= |s|
    ensures r.Some? ==> from <= r.value && CrlfAt(s, r.value)
    ensures forall j :: from <= j < (if r.Some? then r.value else |s|) ==> !CrlfAt(s, j)
    decreases |s| - from
  {
    if from == |s| then None
    else if CrlfAt(s, from) then Some(from)
    else FindCRLF(s, from + 1)
  }

  predicate NoCRLF(s: string) {
    FindCRLF(s) == None
  }

  lemma FirstCRLF(s: string, i: nat)
    requires CrlfAt(s, i)
    requires forall j :: 0 <= j < i ==> !CrlfAt(s, j)
    ensures FindCRLF(s) == Some(i)
  {
    assert FindCRLF(s).Some?;
  }

  lemma FindCRLFExtends(s: string, t: string)
    requires FindCRLF(s).Some?
    ensures FindCRLF(s + t) == FindCRLF(s)
  {
    var i := FindCRLF(s).value;
    assert forall j :: 0 <= j <= i ==> CrlfAt(s + t, j) == CrlfAt(s, j);
    FirstCRLF(s + t, i);
  }

  lemma LineEnds(line: string, rest: string)
    requires NoCRLF(line)
    ensures FindCRLF(line + CRLF + rest) == Some(|line|)
  {
    var s := line + CRLF + rest;
    forall j | 0 <= j < |line| ensures !CrlfAt(s, j) {
      assert !CrlfAt(line, j);
    }
    assert CrlfAt(s, |line|);
    FirstCRLF(s, |line|);
  }

  function TrimLeft(s: string): (t: string)
    ensures |t| <= |s| && t == s[|s| - |t|..]
    ensures t != "" ==> !IsSpace(t[0])
    ensures forall j :: 0 <= j < |s| - |t| ==> IsSpace(s[j])
  {
    if s != "" && IsSpace(s[0]) then TrimLeft(s[1..]) else s
  }

  function TrimRight(s: string): (t: string)
    ensures t <= s
    ensures t != "" ==> !IsSpace(t[|t| - 1])
    ensures forall j :: |t| <= j < |s| ==> IsSpace(s[j])
  {
    if s != "" && IsSpace(s[|s| - 1]) then TrimRight(s[..|s| - 1]) else s
  }

  predicate Trimmed(s: string) {
    s != "" ==> !IsSpace(s[0]) && !IsSpace(s[|s| - 1])
  }

  predicate IsDigit(c: char) {
    '0' <= c <= '9'
  }

  predicate AllDigits(s: string) {
    forall j :: 0 <= j < |s| ==> IsDigit(s[j])
  }

  /** The number of leading decimal digits. */
  function LeadingDigits(s: string): (n: nat)
    ensures n <= |s| && AllDigits(s[..n])
    ensures n < |s| ==> !IsDigit(s[n])
  {
    if s != "" && IsDigit(s[0]) then 1 + LeadingDigits(s[1..]) else 0
  }

  function DigitsValue(s: string): nat
    requires AllDigits(s)
  {
    if s == "" then 0
    else 10 * DigitsValue(s[..|s| - 1]) + (s[|s| - 1] as int - '0' as int)
  }

  /** `printf("%d")` of a non-negative number. */
  function Decimal(n: nat): (s: string)
    ensures s != "" && AllDigits(s)
  {
    if n < 10 then [('0' as int + n) as char]
    else Decimal(n / 10) + [('0' as int + n % 10) as char]
  }

  const SIZE_LIMIT: nat := 0x1_0000_0000_0000_0000

  /** `std::stoul` on a 64-bit platform. `None` stands for the exceptions
      `invalid_argument` (no digits) and `out_of_range` (magnitude above 2^64 - 1). */
  function Stoul(s: string): (r: Option<nat>)
    ensures r.Some? ==> r.value < SIZE_LIMIT
  {
    var t := TrimLeft(s);
    var negative := t != "" && t[0] == '-';
    var u := if t != "" && (t[0] == '-' || t[0] == '+') then t[1..] else t;
    var n := LeadingDigits(u);
    if n == 0 then None
    else
      var v := DigitsValue(u[..n]);
      if v >= SIZE_LIMIT then None
      else if negative && v > 0 then Some(SIZE_LIMIT - v)
      else Some(v)
  }

  lemma {:induction false} DecimalValue(n: nat)
    ensures DigitsValue(Decimal(n)) == n
  {
    if n < 10 {
      assert Decimal(n)[..0] == "";
    } else {
      DecimalValue(n / 10);
      assert Decimal(n)[..|Decimal(n)| - 1] == Decimal(n / 10);
    }
  }

  lemma {:induction false} LeadingDigitsOf(d: string, tail: string)
    requires AllDigits(d)
    requires tail != "" ==> !IsDigit(tail[0])
    ensures LeadingDigits(d + tail) == |d|
  {
    if d == "" {
      assert d + tail == tail;
    } else {
      assert (d + tail)[1..] == d[1..] + tail;
      LeadingDigitsOf(d[1..], tail);
    }
  }

  lemma StoulOfDigits(s: string)
    requires s != "" && !IsSpace(s[0]) && s[0] != '-' && s[0] != '+'
    ensures var n := LeadingDigits(s);
            Stoul(s) == if n == 0 || DigitsValue(s[..n]) >= SIZE_LIMIT then None else Some(DigitsValue(s[..n]))
  {
    assert TrimLeft(s) == s;
  }

  /** Digits followed by something that is not a digit convert to the digits' value. */
  lemma StoulPrefix(d: string, tail: string)
    requires d != "" && AllDigits(d)
    requires tail != "" ==> !IsDigit(tail[0])
    ensures Stoul(d + tail) == if DigitsValue(d) < SIZE_LIMIT then Some(DigitsValue(d)) else None
  {
    var s := d + tail;
    assert s[0] == d[0] && IsDigit(d[0]);
    assert !IsSpace(s[0]) && s[0] != '-' && s[0] != '+';
    LeadingDigitsOf(d, tail);
    StoulOfDigits(s);
    assert s[..|d|] == d;
  }

  lemma StoulDecimal(n: nat)
    requires n < SIZE_LIMIT
    ensures Stoul(Decimal(n)) == Some(n)
  {
    DecimalValue(n);
    assert Decimal(n) + "" == Decimal(n);
    StoulPrefix(Decimal(n), "");
  }

  /** The number of characters `%zd` prints is governed by powers of ten. */
  lemma {:induction false} DecimalLength(n: nat, k: nat)
    requires k >= 1
    ensures |Decimal(n)| <= k <==> n < Pow10(k)
    decreases k
  {
    if n < 10 {
      Pow10Grows(k);
    } else if k == 1 {
      assert Pow10(1) == 10 * Pow10(0);
    } else {
      DecimalLength(n / 10, k - 1);
      assert Pow10(k) == 10 * Pow10(k - 1);
    }
  }

  function Pow10(k: nat): (r: nat)
    ensures r >= 1
  {
    if k == 0 then 1 else 10 * Pow10(k - 1)
  }

  lemma Pow10Grows(k: nat)
    requires k >= 1
    ensures Pow10(k) >= 10
  {
  }

  lemma {:induction false} Pow10Monotone(j: nat, k: nat)
    requires j <= k
    ensures Pow10(j) <= Pow10(k)
  {
    if j < k {
      Pow10Monotone(j, k - 1);
    }
  }

  /** A digit string is worth less than the power of ten of its length. */
  lemma {:induction false} DigitsBound(s: string)
    requires AllDigits(s)
    ensures DigitsValue(s) < Pow10(|s|)
  {
    if s != "" {
      DigitsBound(s[..|s| - 1]);
      assert Pow10(|s|) == 10 * Pow10(|s| - 1);
    }
  }

  function Concat(pieces: seq<string>): string {
    if pieces == [] then "" else pieces[0] + Concat(pieces[1..])
  }

  lemma {:induction false} ConcatAppend(xs: seq<string>, ys: seq<string>)
    ensures Concat(xs + ys) == Concat(xs) + Concat(ys)
  {
    if xs == [] {
      assert xs + ys == ys;
    } else {
      assert (xs + ys)[1..] == xs[1..] + ys;
      ConcatAppend(xs[1..], ys);
    }
  }

  lemma ConcatSnoc(xs: seq<string>, y: string)
    ensures Concat(xs + [y]) == Concat(xs) + y
  {
    ConcatAppend(xs, [y]);
    assert Concat([y]) == y + Concat([]);
  }
}
