/**
 * Values and library behaviour shared by the Go components: optional values and
 * results, bytes, decimal formatting and parsing as Go's strconv does it,
 * the "is this message already formatted" test the loggers use, the prefix
 * a queued message gets, and html.EscapeString.
 */
module Wire {

  datatype Option<T> = None | Some(value: T)

  /** A Go `(value, error)` pair: either a value or the error's text. */
  datatype Result<T> = Ok(value: T) | Err(msg: string)

  newtype byte = b: int | 0 <= b < 256

  /** A Go `[]byte`. */
  type Bytes = seq<byte>

  // ---------------------------------------------------------------------------
  // strconv.Itoa

  function DigitChar(d: nat): (c: char)
    requires d < 10
    ensures '0' <= c <= '9'
  {
    (d + '0' as int) as char
  }

  function NatToString(n: nat): (s: string)
    ensures |s| > 0
    ensures forall k :: 0 <= k < |s| ==> '0' <= s[k] <= '9'
    decreases n
  {
    if n < 10 then [DigitChar(n)] else NatToString(n / 10) + [DigitChar(n % 10)]
  }

  /** Decimal text of `n`, with a leading '-' for negative numbers. */
  function Itoa(n: int): (s: string)
    ensures |s| > 0
    ensures n >= 0 ==> forall k :: 0 <= k < |s| ==> '0' <= s[k] <= '9'
    ensures n < 0 ==> s[0] == '-' && forall k :: 1 <= k < |s| ==> '0' <= s[k] <= '9'
  {
    if n < 0 then "-" + NatToString(-n) else NatToString(n)
  }

  // ---------------------------------------------------------------------------
  // strconv.Atoi on a 64-bit platform

  const MinInt64: int := -0x8000_0000_0000_0000
  const MaxInt64: int := 0x7FFF_FFFF_FFFF_FFFF

  predicate IsDigit(c: char) { '0' <= c <= '9' }

  predicate AllDigits(s: string) { forall k :: 0 <= k < |s| ==> IsDigit(s[k]) }

  /** Value of a string of decimal digits, most significant first. */
  function DigitsValue(s: string): (n: nat)
    requires AllDigits(s)
  {
    if s == [] then 0 else DigitsValue(s[..|s| - 1]) * 10 + (s[|s| - 1] as int - '0' as int)
  }

  /** Text of the sign and the digits, or None when `s` is not `[+-]?[0-9]+`. */
  function SignedValue(s: string): (r: Option<int>)
    ensures r.Some? ==> |s| > 0
  {
    if |s| > 0 && (s[0] == '-' || s[0] == '+') then
      var body := s[1..];
      if |body| > 0 && AllDigits(body) then
        var v: int := DigitsValue(body);
        Some(if s[0] == '-' then -v else v)
      else None
    else if |s| > 0 && AllDigits(s) then Some(DigitsValue(s))
    else None
  }

  // ---------------------------------------------------------------------------
  // strconv.Quote, as the parse errors use it

  function HexDigit(d: nat): (c: char)
    requires d < 16
    ensures ('0' <= c <= '9') || ('a' <= c <= 'f')
  {
    if d < 10 then ('0' as int + d) as char else ('a' as int + d - 10) as char
  }

  /** A character `Quote` copies as it is. */
  predicate Verbatim(c: char)
  {
    c != '"' && c != '\\' && c as int >= 32 && c as int != 127
  }

  /** One character inside the quotes: the quote and the backslash are escaped, and so are
      the ASCII control characters, by their short names or as `\x` and two hex digits. */
  function QuoteChar(c: char): (e: string)
    ensures |e| >= 1
    ensures Verbatim(c) <==> e == [c]
    ensures !Verbatim(c) ==> |e| >= 2 && e[0] == '\\'
  {
    if c == '"' then "\\\""
    else if c == '\\' then "\\\\"
    else if c as int == 7 then "\\a"
    else if c as int == 8 then "\\b"
    else if c as int == 12 then "\\f"
    else if c == '\n' then "\\n"
    else if c == '\r' then "\\r"
    else if c == '\t' then "\\t"
    else if c as int == 11 then "\\v"
    else if c as int < 32 || c as int == 127 then ['\\', 'x', HexDigit(c as int / 16), HexDigit(c as int % 16)]
    else [c]
  }

  function QuoteBody(s: string): (q: string)
    ensures |q| >= |s|
    ensures |q| == |s| <==> forall k :: 0 <= k < |s| ==> Verbatim(s[k])
  {
    if s == [] then [] else QuoteChar(s[0]) + QuoteBody(s[1..])
  }

  /** `strconv.Quote`: the text between double quotes, with the escapes of `QuoteChar`. */
  function Quote(s: string): (q: string)
    ensures |q| >= |s| + 2 && q[0] == '"' && q[|q| - 1] == '"'
  {
    "\"" + QuoteBody(s) + "\""
  }

  /** Text without a quote, a backslash or a control character is quoted as it is. */
  lemma {:induction false} QuoteVerbatim(s: string)
    requires forall k :: 0 <= k < |s| ==> Verbatim(s[k])
    ensures QuoteBody(s) == s && Quote(s) == "\"" + s + "\""
  {
    if s != [] {
      QuoteVerbatim(s[1..]);
      assert s == [s[0]] + s[1..];
    }
  }

  /** The error text of a failed parse: the function, the quoted input and the reason. */
  function AtoiError(s: string, reason: string): (e: string)
    ensures |e| >= |s| + |reason| + 26
    ensures e[|e| - |reason|..] == reason
  {
    "strconv.Atoi: parsing " + Quote(s) + ": " + reason
  }

  /** Input without characters to escape appears in the error text between plain quotes. */
  lemma AtoiErrorVerbatim(s: string, reason: string)
    requires forall k :: 0 <= k < |s| ==> Verbatim(s[k])
    ensures AtoiError(s, reason) == "strconv.Atoi: parsing \"" + s + "\": " + reason
  {
    QuoteVerbatim(s);
  }

  /** strconv.Atoi: an optional sign and at least one decimal digit, in the int64 range. */
  function Atoi(s: string): (r: Result<int>)
    ensures r.Ok? ==> MinInt64 <= r.value <= MaxInt64
    ensures r.Ok? <==> SignedValue(s).Some? && MinInt64 <= SignedValue(s).value <= MaxInt64
  {
    match SignedValue(s)
    case None => Err(AtoiError(s, "invalid syntax"))
    case Some(n) =>
      if MinInt64 <= n <= MaxInt64 then Ok(n) else Err(AtoiError(s, "value out of range"))
  }

  lemma {:induction false} DigitsOfNat(n: nat)
    ensures AllDigits(NatToString(n)) && DigitsValue(NatToString(n)) == n
    decreases n
  {
    if n >= 10 {
      DigitsOfNat(n / 10);
      var s := NatToString(n);
      assert s[..|s| - 1] == NatToString(n / 10);
    }
  }

  /** Atoi reads back what Itoa writes, for every int64. */
  lemma AtoiItoa(n: int)
    requires MinInt64 <= n <= MaxInt64
    ensures Atoi(Itoa(n)) == Ok(n)
  {
    DigitsOfNat(if n < 0 then -n else n);
    if n < 0 {
      assert Itoa(n)[1..] == NatToString(-n);
    }
  }

  // ---------------------------------------------------------------------------
  // The loggers' `isFormatted`: the regular expression `[\[]+(\w|\W)+[\]]+\s*\w*`
  // matches somewhere in `s` exactly when some '[' is followed, at least two
  // positions later, by a ']' (`(\w|\W)` matches any character). IsFormatted
  // searches for that in one left-to-right pass; IsFormattedIff connects it to
  // the positions.

  /** A '[' at `i` and a ']' at `j`, at least two positions later. */
  predicate Bracketed(s: string, i: int, j: int)
  {
    0 <= i && i + 2 <= j < |s| && s[i] == '[' && s[j] == ']'
  }

  predicate HasClose(s: string)
    decreases |s|
  {
    |s| > 0 && (s[0] == ']' || HasClose(s[1..]))
  }

  lemma {:induction false} HasCloseIff(t: string)
    ensures HasClose(t) <==> exists k :: 0 <= k < |t| && t[k] == ']'
    decreases |t|
  {
    if |t| > 0 {
      HasCloseIff(t[1..]);
      if HasClose(t[1..]) {
        var k :| 0 <= k < |t[1..]| && t[1..][k] == ']';
        assert t[k + 1] == ']';
      }
      if exists k :: 0 <= k < |t| && t[k] == ']' {
        var k :| 0 <= k < |t| && t[k] == ']';
        if k > 0 {
          assert t[1..][k - 1] == ']';
        }
      }
    }
  }

  /** The scan for a bracket pair, `seen` telling what precedes `s`: 0 when no '[' has
      been read, 1 right after the first one, 2 from the second character after it on,
      where any ']' completes the pair. */
  predicate Search(s: string, seen: nat)
    ensures Search(s, seen) ==> |s| + (if seen >= 2 then 2 else seen) >= 3
    decreases |s|
  {
    if seen >= 2 then HasClose(s)
    else |s| > 0 && Search(s[1..], if seen == 1 then 2 else if s[0] == '[' then 1 else 0)
  }

  predicate IsFormatted(s: string)
    ensures IsFormatted(s) ==> |s| >= 3
  {
    Search(s, 0)
  }

  /** Right after a '[', the scan succeeds exactly when a ']' follows after one more character. */
  lemma SearchOpened(s: string)
    ensures Search(s, 1) <==> exists k :: 1 <= k < |s| && s[k] == ']'
  {
    if |s| > 0 {
      HasCloseIff(s[1..]);
      if HasClose(s[1..]) {
        var k :| 0 <= k < |s[1..]| && s[1..][k] == ']';
        assert s[k + 1] == ']';
      }
      if exists k :: 1 <= k < |s| && s[k] == ']' {
        var k :| 1 <= k < |s| && s[k] == ']';
        assert s[1..][k - 1] == ']';
      }
    }
  }

  lemma {:induction false} SearchIff(s: string)
    ensures Search(s, 0) <==> exists i, j :: Bracketed(s, i, j)
    decreases |s|
  {
    if |s| > 0 {
      if s[0] == '[' {
        SearchOpened(s[1..]);
        if Search(s[1..], 1) {
          var k :| 1 <= k < |s[1..]| && s[1..][k] == ']';
          assert Bracketed(s, 0, k + 1);
        }
        if exists i, j :: Bracketed(s, i, j) {
          var i, j :| Bracketed(s, i, j);
          assert s[1..][j - 1] == ']';
        }
      } else {
        SearchIff(s[1..]);
        if Search(s[1..], 0) {
          var i, j :| Bracketed(s[1..], i, j);
          assert Bracketed(s, i + 1, j + 1);
        }
        if exists i, j :: Bracketed(s, i, j) {
          var i, j :| Bracketed(s, i, j);
          assert Bracketed(s[1..], i - 1, j - 1);
        }
      }
    }
  }

  lemma IsFormattedIff(s: string)
    ensures IsFormatted(s) <==> exists i, j :: Bracketed(s, i, j)
  {
    SearchIff(s);
  }

  /** What printErr and printWarn of the server put into their buffers. */
  function Queued(msg: string): (q: string)
    ensures IsFormatted(q)
    ensures IsFormatted(msg) ==> q == msg
    ensures !IsFormatted(msg) ==> q == "[!] " + msg
  {
    if IsFormatted(msg) then msg else "[!] " + msg
  }

  /** No character of `s` opens a bracket. */
  predicate NoOpen(s: string)
  {
    forall k :: 0 <= k < |s| ==> s[k] != '['
  }

  lemma NoOpenConcat(a: string, b: string)
    requires NoOpen(a) && NoOpen(b)
    ensures NoOpen(a + b)
  {
    forall k | 0 <= k < |a + b| ensures (a + b)[k] != '[' {
      if k >= |a| {
        assert (a + b)[k] == b[k - |a|];
      }
    }
  }

  lemma ItoaNoOpen(n: int)
    ensures NoOpen(Itoa(n))
  {
  }

  /** A message without any '[' is buffered with the "[!] " prefix. */
  lemma Unbracketed(msg: string)
    requires NoOpen(msg)
    ensures Queued(msg) == "[!] " + msg
  {
    IsFormattedIff(msg);
  }

  /** "[<id>] ", the prefix the handlers put in front of their log lines. */
  function Tag(id: int): (t: string)
    ensures |t| >= 4 && t[0] == '[' && t[|t| - 2] == ']'
  {
    "[" + Itoa(id) + "] "
  }

  lemma TaggedIsFormatted(id: int, msg: string)
    ensures Queued(Tag(id) + msg) == Tag(id) + msg
  {
    var s := Tag(id) + msg;
    assert Bracketed(s, 0, |Tag(id)| - 2);
    IsFormattedIff(s);
  }

  // ---------------------------------------------------------------------------
  // html.EscapeString

  predicate Special(c: char) { c == '<' || c == '>' || c == '&' || c == '\'' || c == '"' }

  /** The special characters that stay out of escaped text ('&' starts the entities themselves). */
  predicate Markup(c: char) { c == '<' || c == '>' || c == '\'' || c == '"' }

  function EscapeChar(c: char): string
  {
    match c
    case '<' => "&lt;"
    case '>' => "&gt;"
    case '&' => "&amp;"
    case '\'' => "&#39;"
    case '"' => "&#34;"
    case _ => [c]
  }

  function Escape(s: string): (r: string)
    ensures |r| >= |s|
  {
    if s == [] then [] else EscapeChar(s[0]) + Escape(s[1..])
  }

  /** Text without special characters comes through unchanged. */
  lemma {:induction false} EscapePlain(s: string)
    requires forall k :: 0 <= k < |s| ==> !Special(s[k])
    ensures Escape(s) == s
  {
    if s != [] {
      EscapePlain(s[1..]);
    }
  }

  /** The escaped text holds no character that HTML would read as markup or quoting. */
  lemma {:induction false} EscapeIsSafe(s: string)
    ensures forall k :: 0 <= k < |Escape(s)| ==> !Markup(Escape(s)[k])
  {
    if s != [] {
      EscapeIsSafe(s[1..]);
      var e := EscapeChar(s[0]);
      assert forall k :: 0 <= k < |e| ==> !Markup(e[k]);
      assert Escape(s) == e + Escape(s[1..]);
    }
  }

  function EscapeAll(ss: seq<string>): (r: seq<string>)
    ensures |r| == |ss| && forall k :: 0 <= k < |ss| ==> r[k] == Escape(ss[k])
  {
    seq(|ss|, k requires 0 <= k < |ss| => Escape(ss[k]))
  }
}
